/** Sparse weight vectors and cosine similarity over exact reals
    (walrusos/adapters/in_memory.py:35-48). */
module VectorMath {
  import opened Prelude

  /** A Python dict from terms to weights, with its insertion order. */
  datatype Dict = Dict(keys: seq<string>, at: map<string, real>) {
    ghost predicate WellFormed() {
      Distinct(keys) && forall k :: k in keys <==> k in at
    }

    function At(k: string): real {
      if k in at then at[k] else 0.0
    }

    ghost predicate Positive() {
      WellFormed() && forall k :: k in at ==> at[k] > 0.0
    }
  }

  /** Multiplication under a name, so that sums can be reasoned about linearly. */
  function Mul(x: real, y: real): real {
    x * y
  }

  // ----------------------------------------------------------- term frequency

  function Count(tokens: seq<string>, t: string): nat {
    if tokens == [] then 0 else (if tokens[0] == t then 1 else 0) + Count(tokens[1..], t)
  }

  /** Terms in the order `counts` first meets them. */
  function Terms(tokens: seq<string>): (r: seq<string>)
    ensures forall i :: 0 <= i < |r| ==> r[i] in tokens
    ensures forall i :: 0 <= i < |tokens| ==> tokens[i] in r
    ensures Distinct(r)
  {
    if tokens == [] then []
    else
      var front, last := tokens[..|tokens| - 1], tokens[|tokens| - 1];
      var before := Terms(front);
      assert tokens == front + [last];
      if last in before then before else before + [last]
  }

  /** `_tf`: relative term frequencies. */
  function TermFreq(tokens: seq<string>): (r: Dict)
    ensures r.keys == Terms(tokens)
    ensures r.WellFormed()
  {
    var total := if |tokens| == 0 then 1 else |tokens|;
    Dict(Terms(tokens), map k | k in Terms(tokens) :: Count(tokens, k) as real / total as real)
  }

  lemma {:induction false} CountPositive(tokens: seq<string>, t: string)
    requires t in tokens
    ensures Count(tokens, t) >= 1
  {
    if tokens[0] != t {
      CountPositive(tokens[1..], t);
    }
  }

  lemma {:induction false} QuotientPositive(x: nat, y: nat)
    requires x > 0 && y > 0
    ensures x as real / y as real > 0.0
  {
  }

  lemma {:induction false} TermFreqPositive(tokens: seq<string>)
    ensures TermFreq(tokens).Positive()
    ensures forall t :: t in tokens <==> t in TermFreq(tokens).at
  {
    hide Count, Terms;
    forall k | k in TermFreq(tokens).at ensures TermFreq(tokens).at[k] > 0.0 {
      assert k in tokens;
      CountPositive(tokens, k);
      QuotientPositive(Count(tokens, k), |tokens|);
    }
  }

  lemma {:induction false} CountIsMultiplicity(tokens: seq<string>, t: string)
    ensures Count(tokens, t) == multiset(tokens)[t]
  {
    if tokens != [] {
      CountIsMultiplicity(tokens[1..], t);
      assert tokens == [tokens[0]] + tokens[1..];
    }
  }

  /** The frequency of a token is its share of the tokens. */
  lemma {:induction false} TermFreqIsShare(tokens: seq<string>, t: string)
    requires t in tokens
    ensures t in TermFreq(tokens).at
    ensures TermFreq(tokens).at[t] == multiset(tokens)[t] as real / |tokens| as real
  {
    CountIsMultiplicity(tokens, t);
    hide Terms, Count;
  }

  lemma {:induction false} OneTerm(tokens: seq<string>, t: string)
    requires tokens != [] && forall x :: x in tokens ==> x == t
    ensures TermFreq(tokens).keys == [t]
  {
    var front, last := tokens[..|tokens| - 1], tokens[|tokens| - 1];
    assert last in tokens;
    assert Terms([]) == [];
    if front != [] {
      forall x | x in front ensures x == t {
        assert x in tokens;
      }
      OneTerm(front, t);
    }
  }

  function Total(keys: seq<string>, a: Dict): real {
    if keys == [] then 0.0 else a.At(keys[0]) + Total(keys[1..], a)
  }

  function CountAll(keys: seq<string>, tokens: seq<string>): nat {
    if keys == [] then 0 else Count(tokens, keys[0]) + CountAll(keys[1..], tokens)
  }

  lemma {:induction false} CountSnoc(tokens: seq<string>, x: string, t: string)
    ensures Count(tokens + [x], t) == Count(tokens, t) + (if x == t then 1 else 0)
  {
    CountIsMultiplicity(tokens + [x], t);
    CountIsMultiplicity(tokens, t);
  }

  lemma {:induction false} CountAllSnoc(keys: seq<string>, tokens: seq<string>, x: string)
    requires Distinct(keys)
    ensures CountAll(keys, tokens + [x]) == CountAll(keys, tokens) + (if x in keys then 1 else 0)
  {
    if keys != [] {
      CountAllSnoc(keys[1..], tokens, x);
      CountSnoc(tokens, x, keys[0]);
      assert keys == [keys[0]] + keys[1..];
    }
  }

  lemma {:induction false} CountAllMore(keys: seq<string>, x: string, tokens: seq<string>)
    ensures CountAll(keys + [x], tokens) == CountAll(keys, tokens) + Count(tokens, x)
  {
    if keys == [] {
      assert [] + [x] == [x] && [x][1..] == [];
    } else {
      assert (keys + [x])[1..] == keys[1..] + [x];
      CountAllMore(keys[1..], x, tokens);
    }
  }

  lemma {:induction false} TermsCountAll(tokens: seq<string>)
    ensures CountAll(Terms(tokens), tokens) == |tokens|
  {
    if tokens != [] {
      var front, last := tokens[..|tokens| - 1], tokens[|tokens| - 1];
      assert tokens == front + [last];
      TermsCountAll(front);
      CountAllSnoc(Terms(front), front, last);
      if last !in Terms(front) {
        CountAllMore(Terms(front), last, tokens);
        CountSnoc(front, last, last);
        CountIsMultiplicity(front, last);
        assert last !in multiset(front);
      }
    }
  }

  lemma {:induction false} SumTimes(x: real, y: real, n: real)
    ensures Mul(x + y, n) == Mul(x, n) + Mul(y, n) && Mul(0.0, n) == 0.0
  {
  }

  lemma {:induction false} QuotientTimes(x: real, n: real)
    requires n > 0.0
    ensures Mul(x / n, n) == x
  {
  }

  lemma {:induction false} KeyTimes(tokens: seq<string>, t: string)
    requires t in tokens
    ensures Mul(TermFreq(tokens).At(t), |tokens| as real) == Count(tokens, t) as real
  {
    hide Terms, Count, TermFreq, Mul;
    CountIsMultiplicity(tokens, t);
    TermFreqIsShare(tokens, t);
    QuotientTimes(Count(tokens, t) as real, |tokens| as real);
  }

  lemma {:induction false} TotalTimes(keys: seq<string>, tokens: seq<string>)
    requires tokens != [] && forall i :: 0 <= i < |keys| ==> keys[i] in tokens
    ensures Mul(Total(keys, TermFreq(tokens)), |tokens| as real) == CountAll(keys, tokens) as real
  {
    hide Terms, Count, TermFreq, Mul, Dict.At;
    var tf, n := TermFreq(tokens), |tokens| as real;
    if keys == [] {
      SumTimes(0.0, 0.0, n);
    } else {
      TotalTimes(keys[1..], tokens);
      KeyTimes(tokens, keys[0]);
      SumTimes(tf.At(keys[0]), Total(keys[1..], tf), n);
    }
  }

  lemma {:induction false} TermsTotalTimes(tokens: seq<string>)
    requires tokens != []
    ensures Mul(Total(TermFreq(tokens).keys, TermFreq(tokens)), |tokens| as real) == |tokens| as real
  {
    hide Mul, Count, Total, CountAll, Terms, TermFreq;
    TermsCountAll(tokens);
    TotalTimes(Terms(tokens), tokens);
  }

  /** The frequencies of a text with tokens sum to one. */
  lemma {:induction false} TermFreqSumsToOne(tokens: seq<string>)
    requires tokens != []
    ensures Total(TermFreq(tokens).keys, TermFreq(tokens)) == 1.0
  {
    hide Count, Total, CountAll, Terms, TermFreq, Mul;
    TermsTotalTimes(tokens);
    OnlyOne(Total(TermFreq(tokens).keys, TermFreq(tokens)), |tokens| as real);
  }

  lemma {:induction false} OnlyOne(x: real, n: real)
    requires n > 0.0 && Mul(x, n) == n
    ensures x == 1.0
  {
    assert (x - 1.0) * n == 0.0;
  }

  // --------------------------------------------------------------------- sums

  function SumProd(keys: seq<string>, a: Dict, b: Dict): real {
    if keys == [] then 0.0 else Mul(a.At(keys[0]), b.At(keys[0])) + SumProd(keys[1..], a, b)
  }

  /** `set(a) & set(b)` */
  function Common(a: Dict, b: Dict): seq<string> {
    Filter((k: string) => k in b.at, a.keys)
  }

  lemma {:induction false} SumSquaresNonneg(keys: seq<string>, a: Dict)
    ensures SumProd(keys, a, a) >= 0.0
  {
    if keys != [] {
      SumSquaresNonneg(keys[1..], a);
      SquareNonneg(a.At(keys[0]));
    }
  }

  lemma {:induction false} SquareNonneg(x: real)
    ensures x * x >= 0.0
    ensures x != 0.0 ==> x * x > 0.0
  {
  }

  lemma {:induction false} SumProdAppend(s: seq<string>, t: seq<string>, a: Dict, b: Dict)
    ensures SumProd(s + t, a, b) == SumProd(s, a, b) + SumProd(t, a, b)
  {
    if s == [] {
      assert s + t == t;
    } else {
      assert (s + t)[1..] == s[1..] + t;
      SumProdAppend(s[1..], t, a, b);
    }
  }

  lemma {:induction false} SumProdRemove(t: seq<string>, j: nat, a: Dict)
    requires j < |t|
    ensures SumProd(t, a, a) == Mul(a.At(t[j]), a.At(t[j])) + SumProd(t[..j] + t[j + 1..], a, a)
  {
    var tail := [t[j]] + t[j + 1..];
    assert t == t[..j] + tail;
    assert tail[1..] == t[j + 1..];
    SumProdAppend(t[..j], tail, a, a);
    SumProdAppend(t[..j], t[j + 1..], a, a);
  }

  lemma {:induction false} StillListed(t: seq<string>, j: nat, x: string)
    requires j < |t| && x in t && x != t[j]
    ensures x in t[..j] + t[j + 1..]
  {
    var m :| 0 <= m < |t| && t[m] == x;
    var rest := t[..j] + t[j + 1..];
    assert m < j ==> rest[m] == t[m];
    assert m > j ==> rest[m - 1] == t[m];
  }

  /** Distinct keys drawn from a longer list have at most its sum of squares. */
  lemma {:induction false} SubsumSquares(s: seq<string>, t: seq<string>, a: Dict)
    requires Distinct(s) && forall i :: 0 <= i < |s| ==> s[i] in t
    ensures SumProd(s, a, a) <= SumProd(t, a, a)
  {
    if s == [] {
      SumSquaresNonneg(t, a);
    } else {
      assert s[0] in t;
      var j :| 0 <= j < |t| && t[j] == s[0];
      var rest := t[..j] + t[j + 1..];
      SumProdRemove(t, j, a);
      forall i | 0 <= i < |s[1..]| ensures s[1..][i] in rest {
        assert s[1..][i] == s[i + 1];
        StillListed(t, j, s[i + 1]);
      }
      SubsumSquares(s[1..], rest, a);
    }
  }

  lemma {:induction false} BinomialNonneg(x: real, y: real, a: real, b: real)
    ensures x * x * (a * a) - 2.0 * (x * y) * (a * b) + y * y * (b * b) >= 0.0
  {
    SquareNonneg(x * a - y * b);
    assert (x * a - y * b) * (x * a - y * b)
      == x * x * (a * a) - 2.0 * (x * y) * (a * b) + y * y * (b * b);
  }

  lemma {:induction false} QuadraticNonneg(keys: seq<string>, a: Dict, b: Dict, x: real, y: real)
    ensures x * x * SumProd(keys, a, a) - 2.0 * (x * y) * SumProd(keys, a, b) + y * y * SumProd(keys, b, b) >= 0.0
  {
    if keys != [] {
      var k := keys[0];
      QuadraticNonneg(keys[1..], a, b, x, y);
      BinomialNonneg(x, y, a.At(k), b.At(k));
      Distribute(x * x, a.At(k) * a.At(k), SumProd(keys[1..], a, a));
      Distribute(2.0 * (x * y), a.At(k) * b.At(k), SumProd(keys[1..], a, b));
      Distribute(y * y, b.At(k) * b.At(k), SumProd(keys[1..], b, b));
    }
  }

  lemma {:induction false} Distribute(x: real, u: real, v: real)
    ensures x * (u + v) == x * u + x * v
  {
  }

  // ------------------------------------------------------------------- cosine

  ghost predicate SquareRoot(sqrt: real -> real) {
    forall x :: x >= 0.0 ==> sqrt(x) >= 0.0 && sqrt(x) * sqrt(x) == x
  }

  /** `math.sqrt(...) or 1.0` */
  function Magnitude(sqrt: real -> real, a: Dict): real {
    var m := sqrt(SumProd(a.keys, a, a));
    if m == 0.0 then 1.0 else m
  }

  function Quotient(d: real, m: real): real {
    if m == 0.0 then 0.0 else d / m
  }

  /** `_cosine`.  The magnitudes are never 0 (MagnitudePositive). */
  function Cosine(sqrt: real -> real, a: Dict, b: Dict): real {
    Quotient(SumProd(Common(a, b), a, b), Mul(Magnitude(sqrt, a), Magnitude(sqrt, b)))
  }

  lemma {:induction false} MulPositive(x: real, y: real)
    requires x > 0.0 && y > 0.0
    ensures Mul(x, y) > 0.0
  {
  }

  lemma {:induction false} SumSquaresPositive(a: Dict)
    requires a.Positive() && a.keys != []
    ensures SumProd(a.keys, a, a) > 0.0
  {
    hide Mul;
    SumSquaresNonneg(a.keys[1..], a);
    assert a.keys[0] in a.keys;
    MulPositive(a.At(a.keys[0]), a.At(a.keys[0]));
  }

  lemma {:induction false} RootNonzero(m: real, s: real)
    requires m * m == s && s > 0.0
    ensures m != 0.0
  {
  }

  lemma {:induction false} MagnitudePositive(sqrt: real -> real, a: Dict)
    requires SquareRoot(sqrt)
    ensures Magnitude(sqrt, a) > 0.0
    ensures a.Positive() && a.keys != [] ==> Magnitude(sqrt, a) * Magnitude(sqrt, a) == SumProd(a.keys, a, a)
  {
    SumSquaresNonneg(a.keys, a);
    if a.Positive() && a.keys != [] {
      SumSquaresPositive(a);
      assert sqrt(SumProd(a.keys, a, a)) * sqrt(SumProd(a.keys, a, a)) == SumProd(a.keys, a, a);
      RootNonzero(sqrt(SumProd(a.keys, a, a)), SumProd(a.keys, a, a));
    }
  }

  lemma {:induction false} ProductPositive(x: real, y: real)
    requires x > 0.0 && y > 0.0
    ensures x * y > 0.0
  {
  }

  /** A dot product of positive vectors is positive exactly when they overlap. */
  lemma {:induction false} DotPositive(keys: seq<string>, a: Dict, b: Dict)
    requires a.Positive() && b.Positive()
    requires forall i :: 0 <= i < |keys| ==> keys[i] in a.at && keys[i] in b.at
    ensures SumProd(keys, a, b) >= 0.0
    ensures SumProd(keys, a, b) > 0.0 <==> keys != []
  {
    if keys != [] {
      hide Mul;
      DotPositive(keys[1..], a, b);
      MulPositive(a.At(keys[0]), b.At(keys[0]));
    }
  }

  lemma {:induction false} FilterDistinct(p: string -> bool, s: seq<string>)
    requires Distinct(s)
    ensures Distinct(Filter(p, s))
  {
    if s != [] {
      FilterDistinct(p, s[1..]);
      assert s[0] !in s[1..];
      var rest := Filter(p, s[1..]);
      forall i | 0 <= i < |rest| ensures rest[i] != s[0] {
        assert rest[i] in s[1..];
      }
    }
  }

  lemma {:induction false} CommonKeys(a: Dict, b: Dict)
    requires a.WellFormed() && b.WellFormed()
    ensures Distinct(Common(a, b))
    ensures forall i :: 0 <= i < |Common(a, b)| ==> Common(a, b)[i] in a.at && Common(a, b)[i] in b.at
    ensures Common(a, b) != [] <==> exists k :: k in a.at && k in b.at
  {
    FilterDistinct((k: string) => k in b.at, a.keys);
    if k :| k in a.at && k in b.at {
      var i :| 0 <= i < |a.keys| && a.keys[i] == k;
    }
    if Common(a, b) != [] {
      assert Common(a, b)[0] in a.at && Common(a, b)[0] in b.at;
    }
  }

  lemma {:induction false} DotBound(ma: real, mb: real, d: real, sa: real, sb: real)
    requires ma > 0.0 && mb > 0.0 && sa <= ma * ma && sb <= mb * mb
    requires mb * mb * sa - 2.0 * (mb * ma) * d + ma * ma * sb >= 0.0
    ensures d <= ma * mb
  {
    var m := ma * mb;
    ProductPositive(ma, mb);
    var p, q, r := mb * mb * sa, ma * ma * sb, m * d;
    assert p <= m * m by {
      ScaleUp(mb, sa, ma * ma);
      assert mb * mb * (ma * ma) == m * m;
    }
    assert q <= m * m by {
      ScaleUp(ma, sb, mb * mb);
      assert ma * ma * (mb * mb) == m * m;
    }
    assert p - 2.0 * r + q >= 0.0 by {
      assert 2.0 * (mb * ma) * d == 2.0 * r;
    }
    assert m * (m - d) == m * m - r >= 0.0;
  }

  lemma {:induction false} ScaleUp(x: real, u: real, v: real)
    requires u <= v
    ensures x * x * u <= x * x * v
  {
    SquareNonneg(x);
  }

  /** Cauchy-Schwarz for sparse vectors. */
  lemma {:induction false} CauchySchwarz(sqrt: real -> real, a: Dict, b: Dict)
    requires SquareRoot(sqrt) && a.Positive() && b.Positive() && a.keys != [] && b.keys != []
    ensures SumProd(Common(a, b), a, b) <= Mul(Magnitude(sqrt, a), Magnitude(sqrt, b))
  {
    hide Common, SumProd, Magnitude, SquareRoot;
    var both := Common(a, b);
    var ma, mb := Magnitude(sqrt, a), Magnitude(sqrt, b);
    MagnitudePositive(sqrt, a);
    MagnitudePositive(sqrt, b);
    CommonKeys(a, b);
    SubsumSquares(both, a.keys, a);
    SubsumSquares(both, b.keys, b);
    QuadraticNonneg(both, a, b, mb, ma);
    DotBound(ma, mb, SumProd(both, a, b), SumProd(both, a, a), SumProd(both, b, b));
  }

  lemma {:induction false} FilterOne(p: string -> bool, s: seq<string>, a: string)
    requires Distinct(s) && a in s && forall x :: x in s ==> (p(x) <==> x == a)
    ensures Filter(p, s) == [a]
  {
    if s[0] == a {
      assert forall i :: 0 <= i < |s[1..]| ==> s[1..][i] != a;
      FilterNone(p, s[1..]);
    } else {
      assert a in s[1..];
      FilterOne(p, s[1..], a);
    }
  }

  lemma {:induction false} FilterNone(p: string -> bool, s: seq<string>)
    requires forall x :: x in s ==> !p(x)
    ensures Filter(p, s) == []
  {
    if s != [] {
      FilterNone(p, s[1..]);
    }
  }

  lemma {:induction false} RootOfSquare(m: real, w: real)
    requires m >= 0.0 && w > 0.0 && m * m == w * w
    ensures m == w
  {
    ProductMonotone(m, w);
    ProductMonotone(w, m);
  }

  lemma {:induction false} ProductMonotone(x: real, y: real)
    requires x >= 0.0 && y >= 0.0
    ensures x > y ==> x * x > y * y
  {
    if x > y {
      ProductPositive(x - y, x + y);
      assert (x - y) * (x + y) == x * x - y * y;
    }
  }

  /** The cosine with a vector of one term is that term's share of the other
      vector's length. */
  lemma {:induction false} OneTermCosine(sqrt: real -> real, a: Dict, b: Dict, t: string)
    requires SquareRoot(sqrt) && a.Positive() && b.Positive() && b.keys == [t] && t in a.at
    ensures Mul(Cosine(sqrt, a, b), Magnitude(sqrt, a)) == a.at[t]
  {
    var w, m := b.at[t], Magnitude(sqrt, a);
    assert t in b.keys;
    FilterOne((k: string) => k in b.at, a.keys, t);
    MagnitudePositive(sqrt, a);
    MagnitudePositive(sqrt, b);
    assert SumProd([t], b, b) == Mul(w, w) && SumProd([t], a, b) == Mul(a.at[t], w) by {
      assert [t][1..] == [];
    }
    RootOfSquare(Magnitude(sqrt, b), w);
    MulPositive(m, w);
    CancelFactor(a.at[t], w, m);
  }

  lemma {:induction false} RootsCompare(c: real, d: real)
    requires c >= 0.0 && d >= 0.0
    ensures c >= d <==> c * c >= d * d
  {
    ProductMonotone(c, d);
    ProductMonotone(d, c);
  }

  /** p is the square of a share x / sqrt(x * x + y * y), with a and b the
      squares of x and y. */
  lemma {:induction false} ShareSquared(s: real, x: real, y: real, m: real) returns (p: real, a: real, b: real)
    requires x > 0.0 && y > 0.0 && m > 0.0 && s * m == x && m * m == x * x + y * y
    ensures p == s * s && a == x * x && b == y * y
    ensures s > 0.0 && p > 0.0 && a > 0.0 && b > 0.0 && p * b == (1.0 - p) * a
  {
    FactorPositive(s, m);
    p := Positive(s, s);
    a := Positive(x, x);
    b := Positive(y, y);
    assert p * (m * m) == (s * m) * (s * m) == a;
    assert p * (a + b) == p * a + p * b;
  }

  lemma {:induction false} Positive(x: real, y: real) returns (z: real)
    requires x > 0.0 && y > 0.0
    ensures z > 0.0 && z == x * y
  {
    ProductPositive(x, y);
    z := x * y;
  }

  lemma {:induction false} FactorPositive(s: real, m: real)
    requires m > 0.0 && s * m > 0.0
    ensures s > 0.0
  {
  }

  lemma {:induction false} SharesCross(p: real, q: real, a: real, b: real, u: real, v: real)
    requires a > 0.0 && b > 0.0 && u > 0.0 && v > 0.0
    requires p > 0.0 && q > 0.0 && p * b == (1.0 - p) * a && q * v == (1.0 - q) * u
    ensures p >= q <==> a * v >= u * b
  {
    var k := p * q;
    ProductPositive(p, q);
    ProductPositive(a, u);
    assert k * (a * v) == p * a * (q * v) == p * a * ((1.0 - q) * u) == (p - k) * (a * u);
    assert k * (u * b) == q * u * (p * b) == q * u * ((1.0 - p) * a) == (q - k) * (a * u);
    assert k * (a * v - u * b) == (p - q) * (a * u);
    SameSign(k, a * v - u * b, a * u, p - q);
  }

  lemma {:induction false} SameSign(k: real, x: real, m: real, y: real)
    requires k > 0.0 && m > 0.0 && k * x == y * m
    ensures x >= 0.0 <==> y >= 0.0
  {
    if x >= 0.0 && y < 0.0 { ProductPositive(-y, m); }
    if x < 0.0 && y >= 0.0 { ProductPositive(-x, k); }
  }

  /** Of two shares of a two-part length the larger has the larger ratio of the
      first part to the second. */
  lemma {:induction false} SharesOrdered(s: real, x: real, y: real, m: real, t: real, u: real, v: real, n: real)
    requires x > 0.0 && y > 0.0 && m > 0.0 && Mul(s, m) == x && Mul(m, m) == Mul(x, x) + Mul(y, y)
    requires u > 0.0 && v > 0.0 && n > 0.0 && Mul(t, n) == u && Mul(n, n) == Mul(u, u) + Mul(v, v)
    ensures s >= t <==> Mul(x, v) >= Mul(u, y)
  {
    var p, a, b := ShareSquared(s, x, y, m);
    var q, c, d := ShareSquared(t, u, v, n);
    RootsCompare(s, t);
    SharesCross(p, q, a, b, c, d);
    CrossRoots(x, y, u, v, a, b, c, d);
  }

  lemma {:induction false} CrossRoots(x: real, y: real, u: real, v: real, a: real, b: real, c: real, d: real)
    requires x > 0.0 && y > 0.0 && u > 0.0 && v > 0.0 && a == x * x && b == y * y && c == u * u && d == v * v
    ensures x * v >= u * y <==> a * d >= c * b
  {
    ProductPositive(x, v);
    ProductPositive(u, y);
    RootsCompare(x * v, u * y);
    assert a * d == (x * v) * (x * v) && c * b == (u * y) * (u * y);
  }

  lemma {:induction false} CancelFactor(x: real, w: real, m: real)
    requires w > 0.0 && m > 0.0
    ensures m * w != 0.0 && (x * w) / (m * w) * m == x
  {
    ProductPositive(m, w);
    var q := (x * w) / (m * w);
    assert q * (m * w) == x * w;
    assert (q * m - x) * w == 0.0;
  }

  lemma {:induction false} CancelLeft(x: real, w: real, m: real)
    requires w > 0.0 && m > 0.0
    ensures Mul(Quotient(Mul(w, x), Mul(w, m)), m) == x
  {
    CancelFactor(x, w, m);
    assert Mul(w, x) == x * w && Mul(w, m) == m * w;
  }

  lemma {:induction false} OneTermLength(sqrt: real -> real, a: Dict, t: string)
    requires SquareRoot(sqrt) && a.Positive() && a.keys == [t]
    ensures t in a.at && Magnitude(sqrt, a) == a.at[t]
  {
    assert t in a.keys;
    MagnitudePositive(sqrt, a);
    assert [t][1..] == [];
    RootOfSquare(Magnitude(sqrt, a), a.at[t]);
  }

  /** The cosine of a vector of one term with another vector is that term's
      share of the other's length. */
  lemma {:induction false} OneTermQueryCosine(sqrt: real -> real, a: Dict, b: Dict, t: string)
    requires SquareRoot(sqrt) && a.Positive() && b.Positive() && a.keys == [t] && t in b.at
    ensures Mul(Cosine(sqrt, a, b), Magnitude(sqrt, b)) == b.at[t]
  {
    OneTermLength(sqrt, a, t);
    MagnitudePositive(sqrt, b);
    hide Mul, Quotient, Magnitude, SquareRoot;
    FilterOne((k: string) => k in b.at, a.keys, t);
    assert SumProd([t], a, b) == Mul(a.at[t], b.at[t]) by {
      assert [t][1..] == [];
    }
    CancelLeft(b.at[t], a.at[t], Magnitude(sqrt, b));
  }

  lemma {:induction false} TwoTermLength(sqrt: real -> real, a: Dict, t: string, u: string)
    requires SquareRoot(sqrt) && a.Positive() && (a.keys == [t, u] || a.keys == [u, t])
    ensures t in a.at && u in a.at
    ensures Mul(Magnitude(sqrt, a), Magnitude(sqrt, a)) == Mul(a.at[t], a.at[t]) + Mul(a.at[u], a.at[u])
  {
    assert t in a.keys && u in a.keys;
    MagnitudeSquared(sqrt, a);
    hide Mul, Magnitude, SquareRoot;
    TwoTermSum(a, a.keys[0], a.keys[1]);
  }

  lemma {:induction false} TwoTermSum(a: Dict, t: string, u: string)
    ensures SumProd([t, u], a, a) == Mul(a.At(t), a.At(t)) + Mul(a.At(u), a.At(u))
  {
    hide Mul;
    assert [t, u][1..] == [u] && [u][1..] == [];
    assert SumProd([u], a, a) == Mul(a.At(u), a.At(u)) + SumProd([], a, a);
  }

  lemma {:induction false} MagnitudeSquared(sqrt: real -> real, a: Dict)
    requires SquareRoot(sqrt) && a.Positive() && a.keys != []
    ensures Magnitude(sqrt, a) > 0.0 && Mul(Magnitude(sqrt, a), Magnitude(sqrt, a)) == SumProd(a.keys, a, a)
  {
    MagnitudePositive(sqrt, a);
  }

  /** For a query of one term t, of two documents of two terms each, t and
      another, the one whose weights have the larger ratio of t to the other
      term has the larger cosine. */
  lemma {:induction false} TwoTermCosines(sqrt: real -> real, q: Dict, a: Dict, b: Dict, t: string, u: string,
                                          v: string)
    requires SquareRoot(sqrt) && q.Positive() && a.Positive() && b.Positive() && q.keys == [t]
    requires a.keys == [t, u] || a.keys == [u, t]
    requires b.keys == [t, v] || b.keys == [v, t]
    ensures t in a.at && u in a.at && t in b.at && v in b.at
    ensures Cosine(sqrt, q, a) >= Cosine(sqrt, q, b) <==> Mul(a.at[t], b.at[v]) >= Mul(b.at[t], a.at[u])
  {
    hide Cosine, Magnitude, SquareRoot, Mul, SumProd;
    TwoTermLength(sqrt, a, t, u);
    TwoTermLength(sqrt, b, t, v);
    OneTermQueryCosine(sqrt, q, a, t);
    OneTermQueryCosine(sqrt, q, b, t);
    MagnitudeSquared(sqrt, a);
    MagnitudeSquared(sqrt, b);
    SharesOrdered(Cosine(sqrt, q, a), a.at[t], a.at[u], Magnitude(sqrt, a),
                  Cosine(sqrt, q, b), b.at[t], b.at[v], Magnitude(sqrt, b));
  }

  lemma {:induction false} QuotientBound(d: real, m: real)
    requires m > 0.0 && 0.0 <= d <= m
    ensures 0.0 <= Quotient(d, m) <= 1.0
    ensures Quotient(d, m) > 0.0 <==> d > 0.0
  {
  }

  /** Cosine of positive vectors: in [0, 1], and positive iff they share a key. */
  lemma {:induction false} CosineMeaning(sqrt: real -> real, a: Dict, b: Dict)
    requires SquareRoot(sqrt) && a.Positive() && b.Positive() && a.keys != [] && b.keys != []
    ensures 0.0 <= Cosine(sqrt, a, b) <= 1.0
    ensures Cosine(sqrt, a, b) > 0.0 <==> exists k :: k in a.at && k in b.at
  {
    hide Common, SumProd, Magnitude, SquareRoot, Mul, Quotient;
    MagnitudePositive(sqrt, a);
    MagnitudePositive(sqrt, b);
    MulPositive(Magnitude(sqrt, a), Magnitude(sqrt, b));
    CommonKeys(a, b);
    DotPositive(Common(a, b), a, b);
    CauchySchwarz(sqrt, a, b);
    QuotientBound(SumProd(Common(a, b), a, b), Mul(Magnitude(sqrt, a), Magnitude(sqrt, b)));
  }
}
