/** `InMemoryVector` (walrusos/adapters/in_memory.py:198-264): a TF-IDF index
    whose document frequencies are kept up to date by increments. */
module VectorIndex {
  import opened Prelude
  import opened VectorMath
  import opened StableSort

  datatype Metadata = Metadata(workspaceId: string, agentId: Option<string>)

  datatype Doc = Doc(tf: Dict, metadata: Metadata, text: string)

  datatype Hit = Hit(docId: string, score: real, metadata: Metadata, text: string)

  /** The tokenizer, the logarithm, the square root and `round(_, 6)`. */
  datatype Env = Env(tokenize: string -> seq<string>, log: real -> real, sqrt: real -> real, round: real -> real)

  /** The logarithm is monotone with log(1/2) > -1 (any base above 2, so in
      particular base e); rounding is monotone and keeps 0 and 1. */
  ghost predicate LawfulEnv(env: Env) {
    && (forall x, y :: 0.0 < x <= y ==> env.log(x) <= env.log(y))
    && env.log(0.5) > -1.0
    && SquareRoot(env.sqrt)
    && (forall x, y :: x <= y ==> env.round(x) <= env.round(y))
    && env.round(0.0) == 0.0 && env.round(1.0) == 1.0
  }

  // ---------------------------------------------------- the index as a value

  /** The dictionary of documents, with its insertion order. */
  datatype Index = Index(order: seq<string>, docs: map<string, Doc>) {
    ghost predicate WellFormed() {
      && Distinct(order)
      && (forall d :: d in order <==> d in docs)
      && (forall d :: d in docs ==> docs[d].tf.Positive() && docs[d].tf.keys != [])
    }
  }

  /** Every document's weights are the term frequencies of its text. */
  ghost predicate Reflects(env: Env, ix: Index) {
    forall d :: d in ix.docs ==> ix.docs[d].tf == TermFreq(env.tokenize(ix.docs[d].text))
  }

  /** `upsert` as a function of the documents alone. */
  function Upserted(env: Env, ix: Index, id: string, text: string, metadata: Metadata): Index {
    var tokens := env.tokenize(text);
    if tokens == [] then ix
    else Index(if id in ix.docs then ix.order else ix.order + [id],
               ix.docs[id := Doc(TermFreq(tokens), metadata, text)])
  }

  lemma {:induction false} UpsertedIs(env: Env, ix: Index, id: string, text: string, metadata: Metadata)
    ensures var tokens := env.tokenize(text);
      Upserted(env, ix, id, text, metadata) ==
        if tokens == [] then ix
        else Index(if id in ix.docs then ix.order else ix.order + [id],
                   ix.docs[id := Doc(TermFreq(tokens), metadata, text)])
    ensures Upserted(env, ix, id, text, metadata).docs - {id} == ix.docs - {id}
  {
  }

  function Without(order: seq<string>, id: string): seq<string> {
    if order == [] then []
    else if order[0] == id then order[1..]
    else [order[0]] + Without(order[1..], id)
  }

  function Deleted(ix: Index, id: string): Index {
    if id in ix.docs then Index(Without(ix.order, id), ix.docs - {id}) else ix
  }

  predicate HasTerm(docs: map<string, Doc>, d: string, t: string) {
    d in docs && t in docs[d].tf.at
  }

  /** How many of the listed documents contain the term. */
  function Containing(order: seq<string>, docs: map<string, Doc>, t: string): nat {
    if order == [] then 0
    else (if HasTerm(docs, order[0], t) then 1 else 0) + Containing(order[1..], docs, t)
  }

  lemma {:induction false} UpsertedWellFormed(env: Env, ix: Index, id: string, text: string, metadata: Metadata)
    requires ix.WellFormed()
    ensures Upserted(env, ix, id, text, metadata).WellFormed()
  {
    var tokens := env.tokenize(text);
    if tokens != [] {
      TermFreqPositive(tokens);
      assert tokens[0] in tokens;
      var ix' := Upserted(env, ix, id, text, metadata);
      assert forall d :: d in ix'.order <==> d in ix.order || d == id;
    }
  }

  lemma {:induction false} UpsertedReflects(env: Env, ix: Index, id: string, text: string, metadata: Metadata)
    requires Reflects(env, ix)
    ensures Reflects(env, Upserted(env, ix, id, text, metadata))
  {
    hide TermFreq;
  }

  lemma {:induction false} DeletedReflects(env: Env, ix: Index, id: string)
    requires Reflects(env, ix)
    ensures Reflects(env, Deleted(ix, id))
  {
    hide TermFreq;
  }

  lemma {:induction false} WithoutMembers(order: seq<string>, id: string)
    requires Distinct(order)
    ensures Distinct(Without(order, id))
    ensures forall d :: d in Without(order, id) <==> d in order && d != id
  {
    if order != [] {
      assert order == [order[0]] + order[1..];
      assert order[0] !in order[1..];
      WithoutMembers(order[1..], id);
      if order[0] != id {
        var rest := Without(order[1..], id);
        forall i | 0 <= i < |rest| ensures rest[i] != order[0] {
          assert rest[i] in rest;
        }
      }
    }
  }

  ghost predicate ListedBefore(order: seq<string>, a: string, b: string) {
    exists i, j :: 0 <= i < j < |order| && order[i] == a && order[j] == b
  }

  /** Deleting keeps the order of the others. */
  lemma {:induction false} DeletedOrder(ix: Index, id: string)
    ensures var order := Deleted(ix, id).order;
      forall i, j :: 0 <= i < j < |order| ==> ListedBefore(ix.order, order[i], order[j])
  {
    hide ListedBefore, Without;
    var k := WithoutAt(ix.order, id);
    if id !in ix.docs { k := |ix.order|; }
    var order := Deleted(ix, id).order;
    forall i, j | 0 <= i < j < |order| ensures ListedBefore(ix.order, order[i], order[j]) {
      var p, q := if i < k then i else i + 1, if j < k then j else j + 1;
      assert order[i] == ix.order[p] && order[j] == ix.order[q];
      BeforeIn(ix.order, p, q);
    }
  }

  lemma {:induction false} BeforeIn(order: seq<string>, i: nat, j: nat)
    requires i < j < |order|
    ensures ListedBefore(order, order[i], order[j])
  {
  }

  lemma {:induction false} WithoutAt(order: seq<string>, id: string) returns (k: nat)
    ensures k <= |order| && Without(order, id) == order[..k] + (if k < |order| then order[k + 1..] else [])
  {
    if order == [] || order[0] == id {
      k := 0;
    } else {
      var m := WithoutAt(order[1..], id);
      k := m + 1;
    }
  }

  lemma {:induction false} DeletedWellFormed(ix: Index, id: string)
    requires ix.WellFormed()
    ensures Deleted(ix, id).WellFormed()
  {
    WithoutMembers(ix.order, id);
  }

  // ---------------------------------------------------- counting with changes

  lemma {:induction false} ContainingSame(order: seq<string>, docs: map<string, Doc>, docs': map<string, Doc>,
                                          t: string)
    requires forall i :: 0 <= i < |order| ==> HasTerm(docs, order[i], t) == HasTerm(docs', order[i], t)
    ensures Containing(order, docs, t) == Containing(order, docs', t)
  {
    if order != [] {
      ContainingSame(order[1..], docs, docs', t);
    }
  }

  lemma {:induction false} ContainingAppend(a: seq<string>, b: seq<string>, docs: map<string, Doc>, t: string)
    ensures Containing(a + b, docs, t) == Containing(a, docs, t) + Containing(b, docs, t)
  {
    if a == [] {
      assert a + b == b;
    } else {
      assert (a + b)[1..] == a[1..] + b;
      ContainingAppend(a[1..], b, docs, t);
    }
  }

  function Bit(b: bool): int {
    if b then 1 else 0
  }

  /** Replacing one listed document moves each count by that document alone. */
  lemma {:induction false} ContainingReplace(order: seq<string>, docs: map<string, Doc>, id: string, doc: Doc,
                                             t: string)
    requires Distinct(order) && id in order && id in docs
    ensures Containing(order, docs[id := doc], t) as int
      == Containing(order, docs, t) - Bit(HasTerm(docs, id, t)) + Bit(t in doc.tf.at)
  {
    var docs' := docs[id := doc];
    if order[0] == id {
      forall i | 0 <= i < |order[1..]| ensures order[1..][i] != id {
        assert order[1..][i] == order[i + 1];
      }
      ContainingSame(order[1..], docs, docs', t);
    } else {
      assert id in order[1..];
      ContainingReplace(order[1..], docs, id, doc, t);
    }
  }

  lemma {:induction false} ContainingDelete(order: seq<string>, docs: map<string, Doc>, id: string, t: string)
    requires Distinct(order) && id in order && id in docs
    ensures Containing(Without(order, id), docs - {id}, t) as int
      == Containing(order, docs, t) - Bit(HasTerm(docs, id, t))
  {
    var docs' := docs - {id};
    if order[0] == id {
      forall i | 0 <= i < |order[1..]| ensures order[1..][i] != id {
        assert order[1..][i] == order[i + 1];
      }
      ContainingSame(order[1..], docs, docs', t);
    } else {
      assert id in order[1..];
      ContainingDelete(order[1..], docs, id, t);
    }
  }

  lemma {:induction false} ContainingNew(order: seq<string>, docs: map<string, Doc>, id: string, doc: Doc, t: string)
    requires id !in order
    ensures Containing(order + [id], docs[id := doc], t) as int == Containing(order, docs, t) + Bit(t in doc.tf.at)
  {
    ContainingAppend(order, [id], docs[id := doc], t);
    ContainingSame(order, docs, docs[id := doc], t);
  }

  lemma {:induction false} ContainingBounds(order: seq<string>, docs: map<string, Doc>, t: string)
    ensures 0 <= Containing(order, docs, t) <= |order|
    ensures (exists i :: 0 <= i < |order| && HasTerm(docs, order[i], t)) ==> Containing(order, docs, t) >= 1
  {
    if order != [] {
      ContainingBounds(order[1..], docs, t);
      if i :| 0 <= i < |order| && HasTerm(docs, order[i], t) {
        assert i > 0 ==> order[1..][i - 1] == order[i];
      }
    }
  }

  /** The count that `upsert` leaves, term by term. */
  lemma {:induction false} CountAfterUpsert(env: Env, ix: Index, id: string, text: string, metadata: Metadata,
                                            t: string)
    requires ix.WellFormed() && env.tokenize(text) != []
    ensures var ix' := Upserted(env, ix, id, text, metadata);
      Containing(ix'.order, ix'.docs, t) as int
        == Containing(ix.order, ix.docs, t) - Bit(HasTerm(ix.docs, id, t)) + Bit(t in TermFreq(env.tokenize(text)).at)
  {
    var doc := Doc(TermFreq(env.tokenize(text)), metadata, text);
    if id in ix.docs {
      ContainingReplace(ix.order, ix.docs, id, doc, t);
    } else {
      ContainingNew(ix.order, ix.docs, id, doc, t);
    }
  }

  // -------------------------------------------------------------------- scores

  /** `_idf` */
  function Idf(env: Env, docCount: nat, df: nat): real {
    env.log((if docCount == 0 then 1 else docCount) as real / (df + 1) as real) + 1.0
  }

  lemma {:induction false} HalfBound(n: nat, df: nat)
    requires n >= 1 && df <= n
    ensures n as real / (df + 1) as real >= 0.5
  {
    var x, y := n as real, (df + 1) as real;
    assert y <= x + 1.0 <= x + x;
    assert x / y >= 0.5 by {
      assert x == (x / y) * y;
    }
  }

  /** The inverse document frequency of any term of any index is positive. */
  lemma {:induction false} IdfPositive(env: Env, ix: Index, t: string)
    requires LawfulEnv(env) && ix.WellFormed()
    ensures Idf(env, |ix.order|, Containing(ix.order, ix.docs, t)) > 0.0
  {
    ContainingBounds(ix.order, ix.docs, t);
    var n := if |ix.order| == 0 then 1 else |ix.order|;
    HalfBound(n, Containing(ix.order, ix.docs, t));
    assert env.log(0.5) <= env.log(n as real / (Containing(ix.order, ix.docs, t) + 1) as real);
  }

  /** The documents that contain the term. */
  ghost function DocsWith(ix: Index, t: string): set<string> {
    set d | d in ix.docs && t in ix.docs[d].tf.at
  }

  /** Fewer documents contain s than t. */
  ghost predicate Rarer(ix: Index, s: string, t: string) {
    |DocsWith(ix, s)| < |DocsWith(ix, t)|
  }

  lemma {:induction false} ContainingIsSize(order: seq<string>, docs: map<string, Doc>, t: string)
    requires Distinct(order)
    ensures Containing(order, docs, t) == |set d | d in order && HasTerm(docs, d, t)|
  {
    hide HasTerm;
    if order != [] {
      var first, rest := order[0], order[1..];
      ContainingIsSize(rest, docs, t);
      var a, b := set d | d in order && HasTerm(docs, d, t), set d | d in rest && HasTerm(docs, d, t);
      assert order == [first] + rest;
      assert first !in rest;
      if HasTerm(docs, first, t) {
        assert a == b + {first};
      } else {
        assert a == b;
      }
    } else {
      assert (set d | d in order && HasTerm(docs, d, t)) == {};
    }
  }

  lemma {:induction false} DocsWithSize(ix: Index, t: string)
    requires ix.WellFormed()
    ensures Containing(ix.order, ix.docs, t) == |DocsWith(ix, t)|
  {
    hide Containing;
    ContainingIsSize(ix.order, ix.docs, t);
    assert DocsWith(ix, t) == set d | d in ix.order && HasTerm(ix.docs, d, t);
  }

  ghost predicate StrictLog(env: Env) {
    forall x, y :: 0.0 < x < y ==> env.log(x) < env.log(y)
  }

  lemma {:induction false} QuotientFalls(n: real, x: real, y: real)
    requires n > 0.0 && 0.0 < x <= y
    ensures 0.0 < n / y <= n / x && (x < y ==> n / y < n / x)
  {
    var p, q := n / x, n / y;
    assert p * x == n && q * y == n;
    assert q > 0.0;
    assert (p - q) * x == q * (y - x);
    FactorSign(q, y - x);
    FactorSign(p - q, x);
  }

  lemma {:induction false} FactorSign(u: real, v: real)
    ensures u > 0.0 && v >= 0.0 ==> u * v >= 0.0
    ensures u > 0.0 && v > 0.0 ==> u * v > 0.0
    ensures v > 0.0 && u * v >= 0.0 ==> u >= 0.0
    ensures v > 0.0 && u * v > 0.0 ==> u > 0.0
  {
  }

  /** In any index a term that fewer documents contain weighs at least as much,
      and more under a strictly increasing logarithm. */
  lemma {:induction false} RarerWeighsMore(env: Env, ix: Index, s: string, t: string)
    requires LawfulEnv(env) && ix.WellFormed() && !Rarer(ix, t, s)
    ensures var n := |ix.order|;
      var a, b := Idf(env, n, Containing(ix.order, ix.docs, s)), Idf(env, n, Containing(ix.order, ix.docs, t));
      a >= b > 0.0 && (StrictLog(env) && Rarer(ix, s, t) ==> a > b)
  {
    IdfPositive(env, ix, t);
    DocsWithSize(ix, s);
    DocsWithSize(ix, t);
    hide Containing, DocsWith, Index.WellFormed;
    var n := (if |ix.order| == 0 then 1 else |ix.order|) as real;
    var x, y := (Containing(ix.order, ix.docs, s) + 1) as real, (Containing(ix.order, ix.docs, t) + 1) as real;
    QuotientFalls(n, x, y);
  }

  /** `_tfidf`, given the document frequency of each term. */
  function TfIdf(env: Env, ix: Index, tf: Dict): (r: Dict)
    ensures r.keys == tf.keys && r.at.Keys == tf.at.Keys
  {
    Dict(tf.keys, map k | k in tf.at :: Mul(tf.at[k], Idf(env, |ix.order|, Containing(ix.order, ix.docs, k))))
  }

  lemma {:induction false} TfIdfPositive(env: Env, ix: Index, tf: Dict)
    requires LawfulEnv(env) && ix.WellFormed() && tf.Positive()
    ensures TfIdf(env, ix, tf).Positive()
  {
    hide Idf, LawfulEnv;
    var r := TfIdf(env, ix, tf);
    forall k | k in r.at ensures r.at[k] > 0.0 {
      IdfPositive(env, ix, k);
      MulPositive(tf.at[k], Idf(env, |ix.order|, Containing(ix.order, ix.docs, k)));
    }
  }

  /** The unrounded score of document d for the query tokens. */
  function Score(env: Env, ix: Index, query: seq<string>, d: string): real
    requires d in ix.docs
  {
    Cosine(env.sqrt, TfIdf(env, ix, TermFreq(query)), TfIdf(env, ix, ix.docs[d].tf))
  }

  ghost predicate SharesToken(ix: Index, query: seq<string>, d: string)
    requires d in ix.docs
  {
    exists t :: t in query && t in ix.docs[d].tf.at
  }

  lemma {:induction false} OverlapIsSharing(env: Env, ix: Index, query: seq<string>, d: string)
    requires d in ix.docs
    ensures SharesToken(ix, query, d) <==>
      exists k :: k in TfIdf(env, ix, TermFreq(query)).at && k in TfIdf(env, ix, ix.docs[d].tf).at
  {
    hide TfIdf;
    TermFreqPositive(query);
    var q, v := TfIdf(env, ix, TermFreq(query)), TfIdf(env, ix, ix.docs[d].tf);
    if k :| k in q.at && k in v.at { assert k in query; }
    if t :| t in query && t in ix.docs[d].tf.at { assert t in q.at && t in v.at; }
  }

  /** A document scores in [0, 1], and above 0 exactly when it shares a token
      with the query. */
  lemma {:induction false} ScoreMeaning(env: Env, ix: Index, query: seq<string>, d: string)
    requires LawfulEnv(env) && ix.WellFormed() && d in ix.docs && query != []
    ensures 0.0 <= Score(env, ix, query, d) <= 1.0
    ensures Score(env, ix, query, d) > 0.0 <==> SharesToken(ix, query, d)
  {
    assert SquareRoot(env.sqrt);
    TermFreqPositive(query);
    assert query[0] in TermFreq(query).keys;
    hide LawfulEnv, SquareRoot, Cosine, Magnitude, TfIdf, TermFreq, SharesToken;
    var q, v := TfIdf(env, ix, TermFreq(query)), TfIdf(env, ix, ix.docs[d].tf);
    TfIdfPositive(env, ix, TermFreq(query));
    TfIdfPositive(env, ix, ix.docs[d].tf);
    CosineMeaning(env.sqrt, q, v);
    OverlapIsSharing(env, ix, query, d);
  }

  /** The query's weight of a term, up to its length. */
  lemma {:induction false} WeightsCompare(env: Env, ix: Index, query: seq<string>, s: string, t: string)
    requires LawfulEnv(env) && ix.WellFormed() && !Rarer(ix, t, s)
    requires s in query && t in query && multiset(query)[s] >= multiset(query)[t]
    ensures var q := TfIdf(env, ix, TermFreq(query));
      && s in q.at && t in q.at && q.at[s] >= q.at[t]
      && (multiset(query)[s] > multiset(query)[t] ==> q.at[s] > q.at[t])
      && (StrictLog(env) && Rarer(ix, s, t) ==> q.at[s] > q.at[t])
  {
    hide Containing, DocsWith, Index.WellFormed, LawfulEnv, StrictLog, Idf, TermFreq, Mul;
    RarerWeighsMore(env, ix, s, t);
    TermFreqIsShare(query, s);
    TermFreqIsShare(query, t);
    TermFreqPositive(query);
    SharesCompare(multiset(query)[s], multiset(query)[t], |query|);
    var tf, n := TermFreq(query), |ix.order|;
    MulCompare(tf.at[s], tf.at[t],
               Idf(env, n, Containing(ix.order, ix.docs, s)), Idf(env, n, Containing(ix.order, ix.docs, t)));
  }

  lemma {:induction false} SharesCompare(x: nat, y: nat, n: nat)
    requires n > 0 && x >= y
    ensures x as real / n as real >= y as real / n as real
    ensures x > y ==> x as real / n as real > y as real / n as real
  {
  }

  lemma {:induction false} MulCompare(x: real, y: real, a: real, b: real)
    requires x >= y > 0.0 && a >= b > 0.0
    ensures Mul(x, a) >= Mul(y, b)
    ensures x > y || a > b ==> Mul(x, a) > Mul(y, b)
  {
    assert x * a >= y * a >= y * b;
    assert x > y ==> x * a > y * a;
    assert a > b ==> y * a > y * b;
  }

  /** For a query with two terms, a document whose text consists of the one that
      is at least as frequent in the query and at least as rare in the index
      scores at least as high as one that consists of the other; and higher if
      it is more frequent there, or rarer and the logarithm strict. */
  lemma {:induction false} RarerScoresHigher(env: Env, ix: Index, query: seq<string>, s: string, t: string,
                                             d: string, e: string)
    requires LawfulEnv(env) && ix.WellFormed() && d in ix.docs && e in ix.docs
    requires ix.docs[d].tf.keys == [s] && ix.docs[e].tf.keys == [t]
    requires s in query && t in query && multiset(query)[s] >= multiset(query)[t] && !Rarer(ix, t, s)
    ensures Score(env, ix, query, d) >= Score(env, ix, query, e)
    ensures multiset(query)[s] > multiset(query)[t] ==> Score(env, ix, query, d) > Score(env, ix, query, e)
    ensures StrictLog(env) && Rarer(ix, s, t) ==>
      Score(env, ix, query, d) > Score(env, ix, query, e)
  {
    assert SquareRoot(env.sqrt);
    hide LawfulEnv, SquareRoot, Cosine, Magnitude, TfIdf, TermFreq, DocsWith, Containing, StrictLog, Mul;
    var q := TfIdf(env, ix, TermFreq(query));
    WeightsCompare(env, ix, query, s, t);
    TermFreqPositive(query);
    TfIdfPositive(env, ix, TermFreq(query));
    TfIdfPositive(env, ix, ix.docs[d].tf);
    TfIdfPositive(env, ix, ix.docs[e].tf);
    MagnitudePositive(env.sqrt, q);
    OneTermCosine(env.sqrt, q, TfIdf(env, ix, ix.docs[d].tf), s);
    OneTermCosine(env.sqrt, q, TfIdf(env, ix, ix.docs[e].tf), t);
    QuotientsCompare(Score(env, ix, query, d), Score(env, ix, query, e), Magnitude(env.sqrt, q));
  }

  lemma {:induction false} QuotientsCompare(x: real, y: real, m: real)
    requires m > 0.0
    ensures Mul(x, m) >= Mul(y, m) ==> x >= y
    ensures Mul(x, m) > Mul(y, m) ==> x > y
  {
    assert (x - y) * m == x * m - y * m;
    FactorSign(x - y, m);
  }

  /** The weights a * i and h * k against g * i and b * j, for shares of n and m. */
  lemma {:induction false} CrossWeights(a: real, b: real, g: real, h: real, c: nat, d: nat, p: nat, q: nat,
                                        n: real, m: real, i: real, j: real, k: real)
    requires n > 0.0 && m > 0.0 && i > 0.0 && k >= j > 0.0 && d > 0 && p > 0
    requires a == c as real / n && b == d as real / n && g == p as real / m && h == q as real / m
    requires c * q >= p * d
    ensures Mul(Mul(a, i), Mul(h, k)) >= Mul(Mul(g, i), Mul(b, j))
    ensures c * q > p * d || k > j ==> Mul(Mul(a, i), Mul(h, k)) > Mul(Mul(g, i), Mul(b, j))
  {
    hide Mul;
    var left, right := a * h, g * b;
    ShareProducts(a, b, g, h, c, d, p, q, n, m);
    MulCompare(left, right, k, j);
    RegroupWeights(a, i, h, k);
    RegroupWeights(g, i, b, j);
    ScaleOrdered(i, Mul(left, k), Mul(right, j));
  }

  lemma {:induction false} ScaleOrdered(i: real, x: real, y: real)
    requires i > 0.0 && x >= y
    ensures Mul(i, x) >= Mul(i, y) && (x > y ==> Mul(i, x) > Mul(i, y))
  {
    assert Mul(i, x - y) == Mul(i, x) - Mul(i, y);
    if x > y {
      MulPositive(i, x - y);
    }
  }

  lemma {:induction false} RegroupWeights(a: real, i: real, h: real, k: real)
    ensures Mul(Mul(a, i), Mul(h, k)) == Mul(i, Mul(a * h, k))
  {
  }

  lemma {:induction false} ShareProducts(a: real, b: real, g: real, h: real, c: nat, d: nat, p: nat, q: nat,
                                         n: real, m: real)
    requires n > 0.0 && m > 0.0 && d > 0 && p > 0
    requires a == c as real / n && b == d as real / n && g == p as real / m && h == q as real / m
    requires c * q >= p * d
    ensures a * h >= g * b > 0.0 && (c * q > p * d ==> a * h > g * b)
  {
    var x, y, k := (c * q) as real, (p * d) as real, n * m;
    ProductPositive(n, m);
    SharesMultiply(c as real, n, q as real, m);
    SharesMultiply(p as real, m, d as real, n);
    assert (c as real) * (q as real) == x && (p as real) * (d as real) == y;
    assert p * d > 0;
    QuotientsOrdered(x, y, k);
  }

  lemma {:induction false} SharesMultiply(x: real, n: real, y: real, m: real)
    requires n > 0.0 && m > 0.0
    ensures n * m != 0.0 && (x / n) * (y / m) == (x * y) / (n * m)
  {
    ProductPositive(n, m);
    var u, v := x / n, y / m;
    assert u * n == x && v * m == y;
    assert u * v * (n * m) == x * y;
  }

  lemma {:induction false} QuotientsOrdered(x: real, y: real, k: real)
    requires k > 0.0 && x >= y > 0.0
    ensures x / k >= y / k > 0.0 && (x > y ==> x / k > y / k)
  {
    assert x / k - y / k == (x - y) / k;
    assert (x / k - y / k) * k == x - y && (y / k) * k == y;
    FactorSign(x / k - y / k, k);
    FactorSign(y / k, k);
  }

  /** How often t occurs in the text of d. */
  function Occurrences(env: Env, ix: Index, d: string, t: string): nat
    requires d in ix.docs
  {
    multiset(env.tokenize(ix.docs[d].text))[t]
  }

  /** For each occurrence of u, d has more of t than e has for each of v. */
  ghost predicate Purer(env: Env, ix: Index, t: string, d: string, u: string, e: string, v: string)
    requires d in ix.docs && e in ix.docs
  {
    Occurrences(env, ix, d, t) * Occurrences(env, ix, e, v) > Occurrences(env, ix, e, t) * Occurrences(env, ix, d, u)
  }

  ghost predicate HasTerms(ix: Index, d: string, t: string, u: string) {
    d in ix.docs && (ix.docs[d].tf.keys == [t, u] || ix.docs[d].tf.keys == [u, t])
  }

  /** For a query that consists of one term t, of two documents with two terms
      each, t and another, the one in which t occurs more often relative to the
      other term, and whose other term more documents contain, scores higher. */
  lemma {:induction false} PurerScoresHigher(env: Env, ix: Index, query: seq<string>, t: string,
                                             d: string, u: string, e: string, v: string)
    requires LawfulEnv(env) && ix.WellFormed() && Reflects(env, ix)
    requires query != [] && forall x :: x in query ==> x == t
    requires HasTerms(ix, d, t, u) && HasTerms(ix, e, t, v) && !Purer(env, ix, t, e, v, d, u) && !Rarer(ix, u, v)
    ensures Score(env, ix, query, d) >= Score(env, ix, query, e)
    ensures Purer(env, ix, t, d, u, e, v) || (StrictLog(env) && Rarer(ix, v, u)) ==>
      Score(env, ix, query, d) > Score(env, ix, query, e)
  {
    assert d in ix.docs && e in ix.docs;
    OneTerm(query, t);
    TermFreqPositive(query);
    assert SquareRoot(env.sqrt);
    hide LawfulEnv, SquareRoot, Cosine, TfIdf, TermFreq, Rarer, Purer, StrictLog, Mul, Reflects, Occurrences;
    var q := TfIdf(env, ix, TermFreq(query));
    var a, b := TfIdf(env, ix, ix.docs[d].tf), TfIdf(env, ix, ix.docs[e].tf);
    TfIdfPositive(env, ix, TermFreq(query));
    TfIdfPositive(env, ix, ix.docs[d].tf);
    TfIdfPositive(env, ix, ix.docs[e].tf);
    TwoTermCosines(env.sqrt, q, a, b, t, u, v);
    TwoTermCosines(env.sqrt, q, b, a, t, v, u);
    PurerWeights(env, ix, t, d, u, e, v);
  }

  lemma {:induction false} PurerWeights(env: Env, ix: Index, t: string, d: string, u: string, e: string, v: string)
    requires LawfulEnv(env) && ix.WellFormed() && Reflects(env, ix)
    requires HasTerm(ix.docs, d, t) && HasTerm(ix.docs, d, u) && HasTerm(ix.docs, e, t) && HasTerm(ix.docs, e, v)
    requires !Purer(env, ix, t, e, v, d, u) && !Rarer(ix, u, v)
    ensures var x, y := TfIdf(env, ix, ix.docs[d].tf).at, TfIdf(env, ix, ix.docs[e].tf).at;
      && Mul(x[t], y[v]) >= Mul(y[t], x[u])
      && (Purer(env, ix, t, d, u, e, v) || (StrictLog(env) && Rarer(ix, v, u)) ==>
            Mul(x[t], y[v]) > Mul(y[t], x[u]))
  {
    hide LawfulEnv, DocsWith, Containing, StrictLog, Mul, Idf, Index.WellFormed, Occurrences, Reflects;
    IdfPositive(env, ix, t);
    RarerWeighsMore(env, ix, v, u);
    var n := DocShares(env, ix, d, t, u);
    var m := DocShares(env, ix, e, t, v);
    var f, g := ix.docs[d].tf.at, ix.docs[e].tf.at;
    CrossWeights(f[t], f[u], g[t], g[v], Occurrences(env, ix, d, t), Occurrences(env, ix, d, u),
                 Occurrences(env, ix, e, t), Occurrences(env, ix, e, v), n, m,
                 WeightOf(env, ix, t), WeightOf(env, ix, u), WeightOf(env, ix, v));
  }

  function WeightOf(env: Env, ix: Index, t: string): real {
    Idf(env, |ix.order|, Containing(ix.order, ix.docs, t))
  }

  lemma {:induction false} DocShares(env: Env, ix: Index, d: string, t: string, u: string) returns (n: real)
    requires Reflects(env, ix) && HasTerm(ix.docs, d, t) && HasTerm(ix.docs, d, u)
    ensures n > 0.0 && Occurrences(env, ix, d, t) > 0 && Occurrences(env, ix, d, u) > 0
    ensures ix.docs[d].tf.at[t] == Occurrences(env, ix, d, t) as real / n
    ensures ix.docs[d].tf.at[u] == Occurrences(env, ix, d, u) as real / n
  {
    var tokens := env.tokenize(ix.docs[d].text);
    TermFreqPositive(tokens);
    hide TermFreq;
    assert t in tokens && u in tokens;
    TermFreqIsShare(tokens, t);
    TermFreqIsShare(tokens, u);
    n := |tokens| as real;
  }

  // -------------------------------------------------------------------- search

  function HitsFrom(env: Env, ix: Index, query: seq<string>, order: seq<string>): seq<Hit>
    requires forall i :: 0 <= i < |order| ==> order[i] in ix.docs
  {
    if order == [] then []
    else
      var d := order[0];
      var score := Score(env, ix, query, d);
      (if score > 0.0 then [Hit(d, env.round(score), ix.docs[d].metadata, ix.docs[d].text)] else [])
        + HitsFrom(env, ix, query, order[1..])
  }

  lemma {:induction false} HitsFromMembers(env: Env, ix: Index, query: seq<string>, order: seq<string>)
    requires forall i :: 0 <= i < |order| ==> order[i] in ix.docs
    ensures forall h :: h in HitsFrom(env, ix, query, order) <==>
      h.docId in order && Score(env, ix, query, h.docId) > 0.0
      && h == Hit(h.docId, env.round(Score(env, ix, query, h.docId)), ix.docs[h.docId].metadata, ix.docs[h.docId].text)
  {
    hide Score;
    if order != [] {
      HitsFromMembers(env, ix, query, order[1..]);
      assert order == [order[0]] + order[1..];
    }
  }

  /** Python's s[:limit]; a negative limit drops from the end. */
  function Take<T>(s: seq<T>, limit: int): (r: seq<T>)
    ensures r <= s
  {
    if limit >= 0 then s[..Min(limit, |s|)] else s[..Max(0, |s| + limit)]
  }

  function Ranked(hits: seq<Hit>): seq<Hit> {
    SortBy(hits, (h: Hit) => -h.score)
  }

  /** What `search` returns. */
  function SearchResult(env: Env, ix: Index, query: string, limit: int): seq<Hit>
    requires forall i :: 0 <= i < |ix.order| ==> ix.order[i] in ix.docs
  {
    var tokens := env.tokenize(query);
    if ix.order == [] || tokens == [] then [] else Take(Ranked(HitsFrom(env, ix, tokens, ix.order)), limit)
  }

  lemma {:induction false} RankedMembers(hits: seq<Hit>)
    ensures |Ranked(hits)| == |hits|
    ensures forall i, j :: 0 <= i < j < |Ranked(hits)| ==> Ranked(hits)[i].score >= Ranked(hits)[j].score
    ensures forall h :: h in Ranked(hits) <==> h in hits
  {
    var key := (h: Hit) => -h.score;
    SortByCorrect(hits, key);
    var r := SortBy(hits, key);
    forall i, j | 0 <= i < j < |r| ensures r[i].score >= r[j].score {
      assert key(r[i]) <= key(r[j]);
    }
  }

  /** The hit that document d makes. */
  function HitOf(env: Env, ix: Index, tokens: seq<string>, d: string): Hit
    requires d in ix.docs
  {
    Hit(d, env.round(Score(env, ix, tokens, d)), ix.docs[d].metadata, ix.docs[d].text)
  }

  lemma {:induction false} RoundedBounds(env: Env, x: real)
    requires LawfulEnv(env) && 0.0 <= x <= 1.0
    ensures 0.0 <= env.round(x) <= 1.0
  {
    assert env.round(0.0) <= env.round(x) <= env.round(1.0);
  }

  lemma {:induction false} HitsDistinct(env: Env, ix: Index, query: seq<string>, order: seq<string>)
    requires Distinct(order) && forall i :: 0 <= i < |order| ==> order[i] in ix.docs
    ensures Distinct(HitsFrom(env, ix, query, order))
  {
    hide Score;
    if order != [] {
      HitsDistinct(env, ix, query, order[1..]);
      HitsFromMembers(env, ix, query, order[1..]);
    }
  }

  ghost predicate DistinctDocs(r: seq<Hit>) {
    forall i, j :: 0 <= i < j < |r| ==> r[i].docId != r[j].docId
  }

  /** No document makes two hits. */
  lemma {:induction false} RankedDistinct(env: Env, ix: Index, tokens: seq<string>)
    requires ix.WellFormed()
    ensures DistinctDocs(Ranked(HitsFrom(env, ix, tokens, ix.order)))
  {
    var hits := HitsFrom(env, ix, tokens, ix.order);
    HitsDistinct(env, ix, tokens, ix.order);
    HitsFromMembers(env, ix, tokens, ix.order);
    RankedMembers(hits);
    SortByDistinct(hits, (h: Hit) => -h.score);
    hide Score, HitsFrom, SortBy;
    var all := Ranked(hits);
    forall i, j | 0 <= i < j < |all| ensures all[i].docId != all[j].docId {
      assert all[i] in hits && all[j] in hits;
    }
  }

  /** The two texts have a token in common. */
  ghost predicate CommonToken(env: Env, a: string, b: string) {
    exists t :: t in env.tokenize(a) && t in env.tokenize(b)
  }

  lemma {:induction false} SharingIsOfTexts(env: Env, ix: Index, query: string, d: string)
    requires Reflects(env, ix) && d in ix.docs
    ensures SharesToken(ix, env.tokenize(query), d) <==> CommonToken(env, query, ix.docs[d].text)
  {
    TermFreqPositive(env.tokenize(ix.docs[d].text));
    hide TermFreq;
  }

  /** The ranked hits are the documents sharing a token. */
  lemma {:induction false} RankedHits(env: Env, ix: Index, tokens: seq<string>)
    requires LawfulEnv(env) && ix.WellFormed() && tokens != []
    ensures var all := Ranked(HitsFrom(env, ix, tokens, ix.order));
      && (forall h :: h in all ==>
            && h.docId in ix.docs && SharesToken(ix, tokens, h.docId) && 0.0 <= h.score <= 1.0
            && h == HitOf(env, ix, tokens, h.docId))
      && (forall d :: d in ix.docs && SharesToken(ix, tokens, d) ==> HitOf(env, ix, tokens, d) in all)
  {
    hide Score, Ranked, HitsFrom, LawfulEnv;
    var hits := HitsFrom(env, ix, tokens, ix.order);
    HitsFromMembers(env, ix, tokens, ix.order);
    RankedMembers(hits);
    forall h | h in Ranked(hits)
      ensures h.docId in ix.docs && SharesToken(ix, tokens, h.docId) && 0.0 <= h.score <= 1.0
      ensures h == HitOf(env, ix, tokens, h.docId)
    {
      assert h in hits;
      ScoreMeaning(env, ix, tokens, h.docId);
      RoundedBounds(env, Score(env, ix, tokens, h.docId));
    }
    forall d | d in ix.docs && SharesToken(ix, tokens, d) ensures HitOf(env, ix, tokens, d) in Ranked(hits) {
      ScoreMeaning(env, ix, tokens, d);
      assert HitOf(env, ix, tokens, d) in hits;
    }
  }

  ghost predicate NoOmittedBetter(r: seq<Hit>, h: Hit, limit: nat) {
    h in r || (|r| == limit && forall i :: 0 <= i < |r| ==> r[i].score >= h.score)
  }

  lemma {:induction false} TakeKeepsBest(all: seq<Hit>, h: Hit, limit: nat)
    requires forall i, j :: 0 <= i < j < |all| ==> all[i].score >= all[j].score
    requires h in all
    ensures NoOmittedBetter(Take(all, limit), h, limit)
  {
    var j :| 0 <= j < |all| && all[j] == h;
    var r := Take(all, limit);
    if j < |r| {
      assert r[j] == h;
    }
  }

  /** Search over any index: only documents whose text shares a token with the
      query, each once, with its text and metadata, all when the limit allows,
      best first, and nothing omitted beats anything kept. */
  lemma {:induction false} SearchMeaning(env: Env, ix: Index, query: string, limit: nat)
    requires LawfulEnv(env) && ix.WellFormed() && Reflects(env, ix)
    ensures var r := SearchResult(env, ix, query, limit);
      && |r| <= limit && DistinctDocs(r)
      && (forall i, j :: 0 <= i < j < |r| ==> r[i].score >= r[j].score)
      && (forall h :: h in r ==>
            && h.docId in ix.docs && CommonToken(env, query, ix.docs[h.docId].text) && 0.0 <= h.score <= 1.0
            && h.text == ix.docs[h.docId].text && h.metadata == ix.docs[h.docId].metadata)
      && (forall d :: d in ix.docs && CommonToken(env, query, ix.docs[d].text) ==>
            NoOmittedBetter(r, HitOf(env, ix, env.tokenize(query), d), limit))
  {
    hide Score, HitsFrom, LawfulEnv, Ranked, NoOmittedBetter, CommonToken, Reflects, SharesToken;
    forall d | d in ix.docs
      ensures SharesToken(ix, env.tokenize(query), d) <==> CommonToken(env, query, ix.docs[d].text)
    {
      SharingIsOfTexts(env, ix, query, d);
    }
    var tokens := env.tokenize(query);
    var r := SearchResult(env, ix, query, limit);
    if ix.order != [] && tokens != [] {
      var all := Ranked(HitsFrom(env, ix, tokens, ix.order));
      RankedMembers(HitsFrom(env, ix, tokens, ix.order));
      RankedHits(env, ix, tokens);
      RankedDistinct(env, ix, tokens);
      assert r == Take(all, limit);
      assert forall h :: h in r ==> h in all;
      forall d | d in ix.docs && SharesToken(ix, tokens, d)
        ensures NoOmittedBetter(r, HitOf(env, ix, tokens, d), limit)
      {
        TakeKeepsBest(all, HitOf(env, ix, tokens, d), limit);
      }
    } else {
      NothingShared(ix, tokens);
    }
  }

  lemma {:induction false} NothingShared(ix: Index, tokens: seq<string>)
    requires ix.WellFormed() && (ix.order == [] || tokens == [])
    ensures forall d :: d in ix.docs ==> !SharesToken(ix, tokens, d)
  {
  }

  /** The text has no token but t. */
  ghost predicate ConsistsOf(env: Env, text: string, t: string) {
    forall x :: x in env.tokenize(text) ==> x == t
  }

  /** Search ranks by rarity: of two documents, one whose text consists of a term
      of the query and one that consists of another that is no more frequent in
      the query and no rarer in the index, the first comes before the second in
      every result that holds the second, unless they round to the same score. */
  lemma {:induction false} SearchPrefersRarer(env: Env, ix: Index, query: string, limit: nat, s: string, t: string,
                                              d: string, e: string, j: nat)
    requires LawfulEnv(env) && ix.WellFormed() && Reflects(env, ix) && d in ix.docs && e in ix.docs
    requires ConsistsOf(env, ix.docs[d].text, s) && ConsistsOf(env, ix.docs[e].text, t)
    requires var q := env.tokenize(query); s in q && t in q && multiset(q)[s] >= multiset(q)[t]
    requires !Rarer(ix, t, s)
    requires j < |SearchResult(env, ix, query, limit)| && SearchResult(env, ix, query, limit)[j].docId == e
    ensures var r, q := SearchResult(env, ix, query, limit), env.tokenize(query);
      && env.round(Score(env, ix, q, d)) >= env.round(Score(env, ix, q, e)) == r[j].score
      && ((exists i :: 0 <= i < j && r[i].docId == d) || env.round(Score(env, ix, q, d)) == r[j].score)
  {
    hide *;
    OrderKnown(ix);
    var r, q := SearchResult(env, ix, query, limit), env.tokenize(query);
    RarerHit(env, ix, query, s, t, d, e);
    SearchMeaning(env, ix, query, limit);
    ResultHit(env, ix, query, limit, j);
    HitScore(env, ix, q, d);
    HitScore(env, ix, q, e);
    HitOrder(r, HitOf(env, ix, q, d), limit, j);
  }

  lemma {:induction false} OrderKnown(ix: Index)
    requires ix.WellFormed()
    ensures forall i :: 0 <= i < |ix.order| ==> ix.order[i] in ix.docs
  {
  }

  lemma {:induction false} HitScore(env: Env, ix: Index, tokens: seq<string>, d: string)
    requires d in ix.docs
    ensures var h := HitOf(env, ix, tokens, d); h.docId == d && h.score == env.round(Score(env, ix, tokens, d))
  {
  }

  lemma {:induction false} HitOrder(r: seq<Hit>, h: Hit, limit: nat, j: nat)
    requires NoOmittedBetter(r, h, limit) && j < |r| && h.score >= r[j].score
    requires forall i, k :: 0 <= i < k < |r| ==> r[i].score >= r[k].score
    ensures (exists i :: 0 <= i < j && r[i].docId == h.docId) || h.score == r[j].score
  {
    if h.score != r[j].score {
      var i :| 0 <= i < |r| && r[i] == h;
      assert i < j;
    }
  }

  lemma {:induction false} OneTermDoc(env: Env, ix: Index, d: string, t: string)
    requires ix.WellFormed() && Reflects(env, ix) && d in ix.docs && ConsistsOf(env, ix.docs[d].text, t)
    ensures ix.docs[d].tf.keys == [t] && t in env.tokenize(ix.docs[d].text)
  {
    var tokens := env.tokenize(ix.docs[d].text);
    assert tokens != [];
    assert tokens[0] == t;
    OneTerm(tokens, t);
  }

  lemma {:induction false} RarerHit(env: Env, ix: Index, query: string, s: string, t: string, d: string, e: string)
    requires LawfulEnv(env) && ix.WellFormed() && Reflects(env, ix) && d in ix.docs && e in ix.docs
    requires ConsistsOf(env, ix.docs[d].text, s) && ConsistsOf(env, ix.docs[e].text, t)
    requires var q := env.tokenize(query); s in q && t in q && multiset(q)[s] >= multiset(q)[t]
    requires !Rarer(ix, t, s)
    ensures var q := env.tokenize(query);
      env.round(Score(env, ix, q, d)) >= env.round(Score(env, ix, q, e)) && CommonToken(env, query, ix.docs[d].text)
  {
    hide Score, TermFreq, DocsWith, ConsistsOf, Reflects, Index.WellFormed;
    OneTermDoc(env, ix, d, s);
    OneTermDoc(env, ix, e, t);
    RarerScoresHigher(env, ix, env.tokenize(query), s, t, d, e);
  }

  lemma {:induction false} ResultHit(env: Env, ix: Index, query: string, limit: nat, j: nat)
    requires LawfulEnv(env) && ix.WellFormed() && j < |SearchResult(env, ix, query, limit)|
    ensures var h := SearchResult(env, ix, query, limit)[j];
      h.docId in ix.docs && h == HitOf(env, ix, env.tokenize(query), h.docId)
  {
    hide Score, HitsFrom, LawfulEnv, Ranked;
    var tokens := env.tokenize(query);
    RankedHits(env, ix, tokens);
    var all := Ranked(HitsFrom(env, ix, tokens, ix.order));
    assert SearchResult(env, ix, query, limit)[j] == all[j];
  }

  lemma {:induction false} HitsFromAppend(env: Env, ix: Index, query: seq<string>, a: seq<string>, b: seq<string>)
    requires forall i :: 0 <= i < |a| ==> a[i] in ix.docs
    requires forall i :: 0 <= i < |b| ==> b[i] in ix.docs
    ensures HitsFrom(env, ix, query, a + b) == HitsFrom(env, ix, query, a) + HitsFrom(env, ix, query, b)
  {
    hide Score;
    if a == [] {
      assert a + b == b;
    } else {
      assert (a + b)[1..] == a[1..] + b;
      HitsFromAppend(env, ix, query, a[1..], b);
    }
  }

  // ----------------------------------------------------------------- the class

  class InMemoryVector {
    const env: Env
    var order: seq<string>
    var docs: map<string, Doc>
    var docFreq: map<string, int>

    constructor (env: Env)
      ensures Valid() && this.env == env && Contents() == Index([], map[])
    {
      this.env, order, docs, docFreq := env, [], map[], map[];
    }

    ghost function Contents(): Index
      reads this
    {
      Index(order, docs)
    }

    /** `self._doc_freq.get(term, 0)` */
    function Df(t: string): int
      reads this
    {
      if t in docFreq then docFreq[t] else 0
    }

    /** The weights are those of the texts, and the maintained table is the
        recomputed one. */
    ghost predicate Valid()
      reads this
    {
      Contents().WellFormed() && Reflects(env, Contents()) && forall t :: Df(t) == Containing(order, docs, t)
    }

    /** `for term in old["tf"]: df[term] = max(0, df[term] - 1)`.  Under the
        precondition every entry drops by exactly one: max never clamps. */
    method Decrement(terms: seq<string>)
      requires Distinct(terms) && forall i :: 0 <= i < |terms| ==> Df(terms[i]) >= 1
      modifies this`docFreq
      ensures forall t :: Df(t) == old(Df(t)) - Bit(t in terms)
    {
      for i := 0 to |terms|
        invariant forall t :: Df(t) == old(Df(t)) - Bit(t in terms[..i])
      {
        assert terms[i] !in terms[..i];
        assert terms[..i + 1] == terms[..i] + [terms[i]];
        docFreq := docFreq[terms[i] := Max(0, Df(terms[i]) - 1)];
      }
      assert terms[..|terms|] == terms;
    }

    method Increment(terms: seq<string>)
      requires Distinct(terms)
      modifies this`docFreq
      ensures forall t :: Df(t) == old(Df(t)) + Bit(t in terms)
    {
      for i := 0 to |terms|
        invariant forall t :: Df(t) == old(Df(t)) + Bit(t in terms[..i])
      {
        assert terms[i] !in terms[..i];
        assert terms[..i + 1] == terms[..i] + [terms[i]];
        docFreq := docFreq[terms[i] := Df(terms[i]) + 1];
      }
      assert terms[..|terms|] == terms;
    }

    lemma {:induction false} TermsCounted(id: string)
      requires Valid() && id in docs
      ensures forall i :: 0 <= i < |docs[id].tf.keys| ==> Df(docs[id].tf.keys[i]) >= 1
      ensures forall t :: t in docs[id].tf.keys <==> HasTerm(docs, id, t)
    {
      hide Containing;
      var j :| 0 <= j < |order| && order[j] == id;
      forall i | 0 <= i < |docs[id].tf.keys| ensures Df(docs[id].tf.keys[i]) >= 1 {
        var t := docs[id].tf.keys[i];
        assert HasTerm(docs, order[j], t);
        ContainingBounds(order, docs, t);
      }
    }

    /** Move the table from the old document of this id, if any, to the new. */
    method Recount(id: string, tf: Dict)
      requires Valid() && tf.WellFormed()
      modifies this`docFreq
      ensures forall t :: Df(t) == old(Df(t)) - Bit(HasTerm(docs, id, t)) + Bit(t in tf.at)
    {
      hide Containing;
      if id in docs {
        TermsCounted(id);
        Decrement(docs[id].tf.keys);
      }
      assert forall t :: Df(t) == old(Df(t)) - Bit(HasTerm(docs, id, t));
      Increment(tf.keys);
    }

    /** Index, re-index, or (for a text without tokens) do nothing. */
    method Upsert(id: string, text: string, metadata: Metadata)
      requires Valid()
      modifies this
      ensures Valid() && Contents() == Upserted(env, old(Contents()), id, text, metadata)
      ensures env.tokenize(text) == [] ==> docs == old(docs) && order == old(order)
      ensures env.tokenize(text) != [] ==>
        && id in docs && docs[id].text == text && docs[id].metadata == metadata
        && docs - {id} == old(docs) - {id} && order == if id in old(docs) then old(order) else old(order) + [id]
    {
      hide TermFreq, Containing, HasTerm, Reflects, Upserted;
      var tokens := env.tokenize(text);
      UpsertedIs(env, Contents(), id, text, metadata);
      if tokens == [] {
        return;
      }
      var tf := TermFreq(tokens);
      ghost var ix, ix' := Contents(), Upserted(env, Contents(), id, text, metadata);
      UpsertedWellFormed(env, ix, id, text, metadata);
      UpsertedReflects(env, ix, id, text, metadata);
      Recount(id, tf);
      order, docs := if id in docs then order else order + [id], docs[id := Doc(tf, metadata, text)];
      assert Contents() == ix';
      forall t ensures Df(t) == Containing(ix'.order, ix'.docs, t) {
        CountAfterUpsert(env, ix, id, text, metadata, t);
      }
    }

    method Delete(id: string)
      requires Valid()
      modifies this
      ensures Valid() && Contents() == Deleted(old(Contents()), id)
      ensures docs == old(docs) - {id}
      ensures forall i, j :: 0 <= i < j < |order| ==> ListedBefore(old(order), order[i], order[j])
    {
      hide ListedBefore;
      DeletedOrder(Contents(), id);
      hide Containing, Without, HasTerm, Reflects;
      if id in docs {
        ghost var ix := Contents();
        var terms := docs[id].tf.keys;
        DeletedWellFormed(ix, id);
        DeletedReflects(env, ix, id);
        TermsCounted(id);
        order, docs := Without(order, id), docs - {id};
        Decrement(terms);
        forall t ensures Df(t) == Containing(order, docs, t) {
          ContainingDelete(ix.order, ix.docs, id, t);
        }
      }
    }

    /** `_tfidf`, over the maintained table. */
    function Weigh(tf: Dict): Dict
      requires forall k :: k in tf.at ==> Df(k) >= 0
      reads this
    {
      Dict(tf.keys, map k | k in tf.at :: Mul(tf.at[k], Idf(env, |order|, Df(k))))
    }

    lemma {:induction false} WeighIsTfIdf(tf: Dict)
      requires Valid()
      ensures (forall k :: Df(k) >= 0) && Weigh(tf) == TfIdf(env, Contents(), tf)
    {
      hide Mul, Idf, Containing;
    }

    lemma {:induction false} ScoreNow(query: seq<string>, d: string)
      requires Valid() && d in docs
      ensures forall k :: Df(k) >= 0
      ensures Cosine(env.sqrt, Weigh(TermFreq(query)), Weigh(docs[d].tf)) == Score(env, Contents(), query, d)
    {
      hide TermFreq, Cosine, Containing, TfIdf;
      WeighIsTfIdf(TermFreq(query));
      WeighIsTfIdf(docs[d].tf);
    }

    /** The scoring loop of `search`. */
    method ScoreAll(tokens: seq<string>) returns (results: seq<Hit>)
      requires Valid()
      ensures results == HitsFrom(env, Contents(), tokens, order)
    {
      hide TermFreq, Cosine, Containing, HitsFrom, Score, Weigh, Index.WellFormed, Reflects;
      ghost var ix := Contents();
      KnownDocs();
      WeighIsTfIdf(TermFreq(tokens));
      var q := Weigh(TermFreq(tokens));
      results := [];
      NoHits(env, ix, tokens);
      assert order[..0] == [];
      for i := 0 to |order|
        invariant results == HitsFrom(env, ix, tokens, order[..i])
      {
        var d := order[i];
        ScoreNow(tokens, d);
        var score := Cosine(env.sqrt, q, Weigh(docs[d].tf));
        HitsFromAppend(env, ix, tokens, order[..i], [d]);
        OneHit(env, ix, tokens, d);
        assert order[..i + 1] == order[..i] + [d];
        if score > 0.0 {
          results := results + [Hit(d, env.round(score), docs[d].metadata, docs[d].text)];
        }
      }
      assert order[..|order|] == order;
    }

    lemma {:induction false} KnownDocs()
      requires Valid()
      ensures forall i :: 0 <= i < |order| ==> order[i] in docs
    {
    }

    method Search(query: string, limit: int) returns (r: seq<Hit>)
      requires Valid()
      ensures r == SearchResult(env, Contents(), query, limit)
    {
      hide Ranked, Containing, HitsFrom;
      if order == [] {
        return [];
      }
      var tokens := env.tokenize(query);
      if tokens == [] {
        return [];
      }
      var results := ScoreAll(tokens);
      r := Take(Ranked(results), limit);
    }
  }

  lemma {:induction false} NoHits(env: Env, ix: Index, query: seq<string>)
    ensures HitsFrom(env, ix, query, []) == []
  {
  }

  lemma {:induction false} OneHit(env: Env, ix: Index, query: seq<string>, d: string)
    requires d in ix.docs
    ensures HitsFrom(env, ix, query, [d]) == if Score(env, ix, query, d) > 0.0 then [HitOf(env, ix, query, d)] else []
  {
    hide Score;
    assert [d][1..] == [];
  }
}
