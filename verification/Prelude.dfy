/** Small datatypes and sequence helpers shared by every component. */
module Prelude {

  datatype Option<+T> = None | Some(value: T)

  /** A call that either returns a value or raises the named exception. */
  datatype Result<+T> = Ok(value: T) | Raised(error: Error)

  datatype Error =
    | KeyError
    | ValueError
    | RuntimeError
    | IntegrityError
    | DecryptionError
    | RecursionError
    | DecodeError

  function Max(x: int, y: int): int {
    if x >= y then x else y
  }

  function Min(x: int, y: int): int {
    if x <= y then x else y
  }

  function Map<S, T>(f: S -> T, s: seq<S>): (r: seq<T>)
    ensures |r| == |s|
    ensures forall i :: 0 <= i < |s| ==> r[i] == f(s[i])
  {
    if s == [] then [] else [f(s[0])] + Map(f, s[1..])
  }

  function Filter<T>(p: T -> bool, s: seq<T>): (r: seq<T>)
    ensures |r| <= |s|
    ensures forall i :: 0 <= i < |r| ==> r[i] in s && p(r[i])
    ensures forall i :: 0 <= i < |s| && p(s[i]) ==> s[i] in r
  {
    if s == [] then []
    else if p(s[0]) then [s[0]] + Filter(p, s[1..])
    else Filter(p, s[1..])
  }

  lemma {:induction false} FilterAppend<T>(p: T -> bool, a: seq<T>, b: seq<T>)
    ensures Filter(p, a + b) == Filter(p, a) + Filter(p, b)
  {
    if a == [] {
      assert a + b == b;
    } else {
      assert (a + b)[1..] == a[1..] + b;
      FilterAppend(p, a[1..], b);
    }
  }

  ghost predicate Distinct<T>(s: seq<T>) {
    forall i, j :: 0 <= i < j < |s| ==> s[i] != s[j]
  }

  lemma {:induction false} SubsetSize<T>(a: set<T>, b: set<T>)
    requires a <= b
    ensures |a| <= |b|
    ensures a != b ==> |a| < |b|
  {
    assert b == a + (b - a);
  }

  /** r is s with some elements left out and the order of the others kept. */
  ghost predicate Subsequence<T>(r: seq<T>, s: seq<T>) {
    if r == [] then true
    else if s == [] then false
    else (r[0] == s[0] && Subsequence(r[1..], s[1..])) || Subsequence(r, s[1..])
  }

  /** `sep.join(parts)` */
  function Join(sep: string, parts: seq<string>): string {
    if parts == [] then ""
    else if |parts| == 1 then parts[0]
    else Join(sep, parts[..|parts| - 1]) + sep + parts[|parts| - 1]
  }

  predicate FoundAt(text: string, part: string, at: nat) {
    at + |part| <= |text| && text[at..at + |part|] == part
  }

  /** The text is the parts one after another, part k from position at[k] on,
      with sep and nothing else between two of them. */
  ghost predicate LaidOut(text: string, sep: string, parts: seq<string>, at: seq<nat>) {
    && |at| == |parts|
    && (if parts == [] then text == "" else at[0] == 0 && at[|at| - 1] + |parts[|parts| - 1]| == |text|)
    && (forall k :: 0 <= k < |parts| ==> FoundAt(text, parts[k], at[k]))
    && (forall k, m :: 0 <= k && m == k + 1 && m < |parts| ==>
          at[m] == at[k] + |parts[k]| + |sep| && FoundAt(text, sep, at[k] + |parts[k]|))
  }

  ghost predicate IsJoin(text: string, sep: string, parts: seq<string>) {
    exists at :: LaidOut(text, sep, parts, at)
  }

  lemma {:induction false} FoundStill(text: string, rest: string, part: string, at: nat)
    requires FoundAt(text, part, at)
    ensures FoundAt(text + rest, part, at)
  {
    assert (text + rest)[at..at + |part|] == text[at..at + |part|];
  }

  lemma {:induction false} FoundLast(text: string, part: string)
    ensures FoundAt(text + part, part, |text|)
  {
  }

  lemma {:induction false} LaidOutMore(text: string, sep: string, parts: seq<string>, at: seq<nat>, last: string)
    requires parts != [] && LaidOut(text, sep, parts, at)
    ensures LaidOut(text + sep + last, sep, parts + [last], at + [|text| + |sep|])
  {
    hide FoundAt;
    var parts', at' := parts + [last], at + [|text| + |sep|];
    assert text + sep + last == text + (sep + last);
    FoundLast(text, sep);
    FoundStill(text + sep, last, sep, |text|);
    FoundLast(text + sep, last);
    forall k | 0 <= k < |parts'| ensures FoundAt(text + sep + last, parts'[k], at'[k]) {
      if k < |parts| {
        FoundStill(text, sep + last, parts[k], at[k]);
      }
    }
    forall k | 0 <= k < |parts| - 1 ensures FoundAt(text + sep + last, sep, at[k] + |parts[k]|) {
      var m := k + 1;
      assert at[m] == at[k] + |parts[k]| + |sep|;
      FoundStill(text, sep + last, sep, at[k] + |parts[k]|);
    }
  }

  lemma {:induction false} JoinLaysOut(sep: string, parts: seq<string>) returns (at: seq<nat>)
    ensures LaidOut(Join(sep, parts), sep, parts, at)
  {
    hide LaidOut;
    if |parts| <= 1 {
      at := OneLaidOut(sep, parts);
    } else {
      var front, last := parts[..|parts| - 1], parts[|parts| - 1];
      var before := JoinLaysOut(sep, front);
      at := before + [|Join(sep, front)| + |sep|];
      LaidOutMore(Join(sep, front), sep, front, before, last);
      assert parts == front + [last];
    }
  }

  lemma {:induction false} OneLaidOut(sep: string, parts: seq<string>) returns (at: seq<nat>)
    requires |parts| <= 1
    ensures LaidOut(Join(sep, parts), sep, parts, at)
  {
    at := if parts == [] then [] else [0];
  }

  /** The numbers below n with the property, each once, ascending. */
  ghost function Indices(p: nat -> bool, n: nat): (at: seq<nat>)
    ensures forall i, j :: 0 <= i < j < |at| ==> at[i] < at[j]
    ensures forall i: nat :: i in at <==> i < n && p(i)
    ensures forall k :: 0 <= k < |at| ==> at[k] < n
  {
    if n == 0 then [] else Indices(p, n - 1) + (if p(n - 1) then [n - 1] else [])
  }

  /** The concatenation of a sequence of sequences. */
  function Flatten<T>(s: seq<seq<T>>): seq<T> {
    if s == [] then [] else s[0] + Flatten(s[1..])
  }

  lemma {:induction false} FlattenAppend<T>(a: seq<seq<T>>, b: seq<seq<T>>)
    ensures Flatten(a + b) == Flatten(a) + Flatten(b)
  {
    if a == [] {
      assert a + b == b;
    } else {
      assert (a + b)[1..] == a[1..] + b;
      FlattenAppend(a[1..], b);
    }
  }
}
