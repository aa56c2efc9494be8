/** The dependency graph a coordination plan describes, seen as a rule that
    derives finished task ids, and what its least fixpoint means for a plan. */
module TaskGraph {
  import opened Prelude

  /** A task as `execute` finds it: whether it is still pending, and whether
      running it would end in "done". */
  datatype Node = Node(id: string, deps: set<string>, pending: bool, succeeds: bool)

  predicate Enabled(n: Node, done: set<string>) {
    n.pending && n.deps <= done
  }

  /** The ids finished by one wave over the tasks enabled by `done`. */
  function Step(g: seq<Node>, done: set<string>): set<string> {
    set i | 0 <= i < |g| && Enabled(g[i], done) && g[i].succeeds :: g[i].id
  }

  /** The ids finished after k waves. */
  function Rounds(g: seq<Node>, k: nat): set<string> {
    if k == 0 then {} else Step(g, Rounds(g, k - 1))
  }

  ghost predicate Closed(g: seq<Node>, ids: set<string>) {
    Step(g, ids) <= ids
  }

  /** The least set of ids containing every task that succeeds once all its
      dependencies are in the set. */
  function LeastFixpoint(g: seq<Node>): set<string> {
    Rounds(g, |g|)
  }

  /** The members of wave k, in plan order: enabled now and not before. */
  predicate InFront(g: seq<Node>, n: Node, k: nat) {
    Enabled(n, Rounds(g, k)) && (k == 0 || !Enabled(n, Rounds(g, k - 1)))
  }

  function FrontFrom(g: seq<Node>, k: nat, i: nat): (r: seq<nat>)
    requires i <= |g|
    ensures forall p :: 0 <= p < |r| ==> i <= r[p] < |g| && InFront(g, g[r[p]], k)
    ensures forall j :: i <= j < |g| && InFront(g, g[j], k) ==> j in r
    ensures forall p, q :: 0 <= p < q < |r| ==> r[p] < r[q]
    decreases |g| - i
  {
    if i == |g| then []
    else (if InFront(g, g[i], k) then [i] else []) + FrontFrom(g, k, i + 1)
  }

  function Front(g: seq<Node>, k: nat): (r: seq<nat>)
    ensures forall p :: 0 <= p < |r| ==> r[p] < |g| && InFront(g, g[r[p]], k)
    ensures forall j :: 0 <= j < |g| && InFront(g, g[j], k) ==> j in r
    ensures Distinct(r)
  {
    FrontFrom(g, k, 0)
  }

  /** The successful members of a front, in order. */
  function Winners(g: seq<Node>, front: seq<nat>): (r: seq<nat>)
    requires forall p :: 0 <= p < |front| ==> front[p] < |g|
    ensures forall p :: 0 <= p < |r| ==> r[p] < |g| && r[p] in front && g[r[p]].succeeds
    ensures forall p :: 0 <= p < |front| && g[front[p]].succeeds ==> front[p] in r
  {
    if front == [] then []
    else (if g[front[0]].succeeds then [front[0]] else []) + Winners(g, front[1..])
  }

  /** Tasks in the order their completion is recorded, over k waves. */
  function DoneOrder(g: seq<Node>, k: nat): (r: seq<nat>)
    ensures forall p :: 0 <= p < |r| ==> r[p] < |g| && g[r[p]].succeeds
  {
    if k == 0 then [] else DoneOrder(g, k - 1) + Winners(g, Front(g, k - 1))
  }

  // ---------------------------------------------------------------- fixpoint

  lemma {:induction false} StepWitness(g: seq<Node>, done: set<string>, d: string) returns (i: nat)
    requires d in Step(g, done)
    ensures i < |g| && Enabled(g[i], done) && g[i].succeeds && g[i].id == d
  {
    i :| 0 <= i < |g| && Enabled(g[i], done) && g[i].succeeds && g[i].id == d;
  }

  lemma {:induction false} InStep(g: seq<Node>, done: set<string>, i: nat)
    requires i < |g| && Enabled(g[i], done) && g[i].succeeds
    ensures g[i].id in Step(g, done)
  {
  }

  lemma {:induction false} StepMonotone(g: seq<Node>, x: set<string>, y: set<string>)
    requires x <= y
    ensures Step(g, x) <= Step(g, y)
  {
    forall d | d in Step(g, x) ensures d in Step(g, y) {
      var i :| 0 <= i < |g| && Enabled(g[i], x) && g[i].succeeds && g[i].id == d;
      assert Enabled(g[i], y);
    }
  }

  lemma {:induction false} RoundsGrow(g: seq<Node>, k: nat)
    ensures Rounds(g, k) <= Rounds(g, k + 1)
  {
    if k > 0 {
      RoundsGrow(g, k - 1);
      StepMonotone(g, Rounds(g, k - 1), Rounds(g, k));
    }
  }

  lemma {:induction false} RoundsMonotone(g: seq<Node>, j: nat, k: nat)
    requires j <= k
    ensures Rounds(g, j) <= Rounds(g, k)
  {
    if j < k {
      RoundsMonotone(g, j, k - 1);
      RoundsGrow(g, k - 1);
    }
  }

  lemma {:induction false} RoundsStable(g: seq<Node>, j: nat, k: nat)
    requires j <= k && Rounds(g, j + 1) == Rounds(g, j)
    ensures Rounds(g, k) == Rounds(g, j)
  {
    if j < k {
      RoundsStable(g, j, k - 1);
    }
  }

  lemma {:induction false} RoundsBelowClosed(g: seq<Node>, k: nat, x: set<string>)
    requires Closed(g, x)
    ensures Rounds(g, k) <= x
  {
    if k > 0 {
      RoundsBelowClosed(g, k - 1, x);
      StepMonotone(g, Rounds(g, k - 1), x);
    }
  }

  function Ids(g: seq<Node>): set<string> {
    set i | 0 <= i < |g| :: g[i].id
  }

  lemma {:induction false} IdsBounded(g: seq<Node>)
    ensures |Ids(g)| <= |g|
  {
    if g != [] {
      var rest := g[..|g| - 1];
      IdsBounded(rest);
      assert Ids(g) == Ids(rest) + {g[|g| - 1].id} by {
        forall d | d in Ids(g) ensures d in Ids(rest) + {g[|g| - 1].id} {
          var i :| 0 <= i < |g| && g[i].id == d;
          assert i < |rest| ==> rest[i].id == d;
        }
        assert forall i :: 0 <= i < |rest| ==> rest[i] == g[i];
      }
    }
  }

  lemma {:induction false} RoundsGrowOrStop(g: seq<Node>, k: nat)
    ensures Rounds(g, k + 1) == Rounds(g, k) || |Rounds(g, k + 1)| >= k + 1
  {
    hide Step;
    RoundsGrow(g, k);
    var now, next := Rounds(g, k), Rounds(g, k + 1);
    SubsetSize(now, next);
    if k > 0 {
      RoundsGrowOrStop(g, k - 1);
      if now == Rounds(g, k - 1) {
        assert next == Step(g, now) == now;
      }
    }
  }

  /** |g| waves are enough: the result is a fixpoint, and the least one. */
  lemma {:induction false} LeastFixpointCorrect(g: seq<Node>)
    ensures Step(g, LeastFixpoint(g)) == LeastFixpoint(g)
    ensures forall x :: Closed(g, x) ==> LeastFixpoint(g) <= x
    ensures forall k: nat :: Rounds(g, k) <= LeastFixpoint(g)
  {
    var n := |g|;
    RoundsGrowOrStop(g, n);
    IdsBounded(g);
    assert Rounds(g, n + 1) <= Ids(g);
    SubsetSize(Rounds(g, n + 1), Ids(g));
    assert Rounds(g, n + 1) == Rounds(g, n);
    forall x | Closed(g, x) ensures LeastFixpoint(g) <= x {
      RoundsBelowClosed(g, n, x);
    }
    forall k: nat ensures Rounds(g, k) <= LeastFixpoint(g) {
      RoundsBelowClosed(g, k, LeastFixpoint(g));
    }
  }

  /** A wave that derives nothing new has reached the least fixpoint. */
  lemma {:induction false} StableIsLeast(g: seq<Node>, k: nat)
    requires Rounds(g, k + 1) == Rounds(g, k)
    ensures Rounds(g, k) == LeastFixpoint(g)
  {
    LeastFixpointCorrect(g);
    assert Closed(g, Rounds(g, k));
  }

  // ------------------------------------------------------------------- order

  function IdsAt(g: seq<Node>, order: seq<nat>): set<string>
    requires forall p :: 0 <= p < |order| ==> order[p] < |g|
  {
    set p | 0 <= p < |order| :: g[order[p]].id
  }

  lemma {:induction false} IdsAtAppend(g: seq<Node>, a: seq<nat>, b: seq<nat>)
    requires forall p :: 0 <= p < |a| ==> a[p] < |g|
    requires forall p :: 0 <= p < |b| ==> b[p] < |g|
    ensures IdsAt(g, a + b) == IdsAt(g, a) + IdsAt(g, b)
  {
    forall d | d in IdsAt(g, a) + IdsAt(g, b) ensures d in IdsAt(g, a + b) {
      if d in IdsAt(g, a) {
        var p :| 0 <= p < |a| && g[a[p]].id == d;
        assert (a + b)[p] == a[p];
      } else {
        var p :| 0 <= p < |b| && g[b[p]].id == d;
        assert (a + b)[|a| + p] == b[p];
      }
    }
  }

  /** The tasks of wave k that succeed are the ids round k + 1 adds. */
  lemma {:induction false} RoundSplit(g: seq<Node>, k: nat)
    ensures Rounds(g, k + 1) == Rounds(g, k) + IdsAt(g, Winners(g, Front(g, k)))
  {
    var now, front := Rounds(g, k), Front(g, k);
    var won := Winners(g, front);
    RoundsGrow(g, k);
    forall d | d in Step(g, now) ensures d in now + IdsAt(g, won) {
      var i := StepWitness(g, now, d);
      if InFront(g, g[i], k) {
        assert i in front;
        assert i in won;
      } else {
        assert d in Step(g, Rounds(g, k - 1));
      }
    }
    forall d | d in IdsAt(g, won) ensures d in Step(g, now) {
      var p :| 0 <= p < |won| && g[won[p]].id == d;
      assert won[p] in front;
    }
  }

  /** The recorded completions are exactly the finished ids. */
  lemma {:induction false} DoneOrderIds(g: seq<Node>, k: nat)
    ensures IdsAt(g, DoneOrder(g, k)) == Rounds(g, k)
  {
    hide Winners, Front, Step;
    if k > 0 {
      DoneOrderIds(g, k - 1);
      RoundSplit(g, k - 1);
      IdsAtAppend(g, DoneOrder(g, k - 1), Winners(g, Front(g, k - 1)));
    }
  }

  lemma {:induction false} WinnerEnabled(g: seq<Node>, k: nat, p: nat)
    requires p < |Winners(g, Front(g, k))|
    ensures InFront(g, g[Winners(g, Front(g, k))[p]], k)
  {
    var front := Front(g, k);
    assert Winners(g, front)[p] in front;
  }

  /** Every dependency is recorded strictly before the tasks that need it. */
  lemma {:induction false} DependenciesFirst(g: seq<Node>, k: nat, p: nat, d: string)
    requires p < |DoneOrder(g, k)| && d in g[DoneOrder(g, k)[p]].deps
    ensures exists q :: 0 <= q < p && g[DoneOrder(g, k)[q]].id == d
  {
    hide Winners, Front, Step;
    var before, now := DoneOrder(g, k - 1), Winners(g, Front(g, k - 1));
    var order := DoneOrder(g, k);
    assert order == before + now;
    var q: nat;
    if p < |before| {
      DependenciesFirst(g, k - 1, p, d);
      q :| 0 <= q < p && g[before[q]].id == d;
    } else {
      WinnerEnabled(g, k - 1, p - |before|);
      DoneOrderIds(g, k - 1);
      assert d in IdsAt(g, before);
      q :| 0 <= q < |before| && g[before[q]].id == d;
    }
    assert order[q] == before[q];
  }

  lemma {:induction false} WinnersDistinct(g: seq<Node>, front: seq<nat>)
    requires forall p :: 0 <= p < |front| ==> front[p] < |g|
    requires Distinct(front)
    ensures Distinct(Winners(g, front))
  {
    if front != [] {
      WinnersDistinct(g, front[1..]);
      assert front[0] !in front[1..];
    }
  }

  lemma {:induction false} FrontsDisjoint(g: seq<Node>, n: Node, j: nat, k: nat)
    requires j < k && InFront(g, n, k)
    ensures !InFront(g, n, j)
  {
    RoundsMonotone(g, j, k - 1);
  }

  ghost predicate InSomeFront(g: seq<Node>, n: Node, k: nat) {
    exists j: nat :: j < k && InFront(g, n, j)
  }

  lemma {:induction false} DoneOrderFronts(g: seq<Node>, k: nat, p: nat)
    requires p < |DoneOrder(g, k)|
    ensures InSomeFront(g, g[DoneOrder(g, k)[p]], k)
  {
    hide Winners, Front, InFront;
    var before := DoneOrder(g, k - 1);
    if p < |before| {
      DoneOrderFronts(g, k - 1, p);
      var j: nat :| j < k - 1 && InFront(g, g[before[p]], j);
      assert j < k;
    } else {
      WinnerEnabled(g, k - 1, p - |before|);
    }
  }

  /** No task completes twice. */
  lemma {:induction false} DoneOrderDistinct(g: seq<Node>, k: nat)
    ensures Distinct(DoneOrder(g, k))
  {
    hide Winners, Front, InFront;
    if k > 0 {
      DoneOrderDistinct(g, k - 1);
      var before, now := DoneOrder(g, k - 1), Winners(g, Front(g, k - 1));
      WinnersDistinct(g, Front(g, k - 1));
      forall p, q | 0 <= p < |before| && 0 <= q < |now| ensures before[p] != now[q] {
        DoneOrderFronts(g, k - 1, p);
        WinnerEnabled(g, k - 1, q);
        var j: nat :| j < k - 1 && InFront(g, g[before[p]], j);
        if before[p] == now[q] { FrontsDisjoint(g, g[now[q]], j, k - 1); }
      }
    }
  }

  lemma {:induction false} NonemptyFront(g: seq<Node>, k: nat)
    requires k > 0 && Front(g, k) != []
    ensures Rounds(g, k) != Rounds(g, k - 1)
  {
    assert InFront(g, g[Front(g, k)[0]], k);
  }

  /** Waves after the last one that runs anything record nothing. */
  lemma {:induction false} DoneOrderStable(g: seq<Node>, k: nat, m: nat)
    requires k <= m && Front(g, k) == []
    ensures DoneOrder(g, m) == DoneOrder(g, k)
    ensures Rounds(g, m) == Rounds(g, k)
  {
    hide Front, Step, InFront;
    if k < m {
      DoneOrderStable(g, k, m - 1);
      RoundSplit(g, k);
      RoundsStable(g, k, m);
      if k < m - 1 {
        RoundsStable(g, k, m - 2);
        if Front(g, m - 1) != [] { NonemptyFront(g, m - 1); }
      }
    }
  }

  // ------------------------------------------------------------------- waves

  /** The wave, searched downwards from k, in which n is first enabled. */
  function FirstEnabled(g: seq<Node>, n: Node, k: nat): (w: nat)
    requires Enabled(n, Rounds(g, k))
    ensures w <= k && InFront(g, n, w)
  {
    if k > 0 && Enabled(n, Rounds(g, k - 1)) then FirstEnabled(g, n, k - 1) else k
  }

  ghost predicate Runs(g: seq<Node>, i: nat)
    requires i < |g|
  {
    Enabled(g[i], LeastFixpoint(g))
  }

  /** The wave, counted from 0, in which task i runs. */
  ghost function Wave(g: seq<Node>, i: nat): (w: nat)
    requires i < |g| && Runs(g, i)
    ensures InFront(g, g[i], w)
  {
    FirstEnabled(g, g[i], |g|)
  }

  lemma {:induction false} WaveUnique(g: seq<Node>, i: nat, k: nat)
    requires i < |g| && Runs(g, i) && InFront(g, g[i], k)
    ensures Wave(g, i) == k
  {
    if Wave(g, i) < k { FrontsDisjoint(g, g[i], Wave(g, i), k); }
    if k < Wave(g, i) { FrontsDisjoint(g, g[i], k, Wave(g, i)); }
  }

  ghost predicate DistinctIds(g: seq<Node>) {
    forall i, j :: 0 <= i < |g| && 0 <= j < |g| && g[i].id == g[j].id ==> i == j
  }

  /** A finished task was enabled in some wave before the id appeared. */
  lemma {:induction false} FinishedBefore(g: seq<Node>, j: nat, k: nat)
    requires DistinctIds(g) && j < |g| && g[j].id in Rounds(g, k)
    ensures Runs(g, j) && g[j].succeeds && Wave(g, j) < k
  {
    hide Step;
    var i := StepWitness(g, Rounds(g, k - 1), g[j].id);
    LeastFixpointCorrect(g);
    assert Rounds(g, k - 1) <= LeastFixpoint(g);
    var w := FirstEnabled(g, g[j], k - 1);
    WaveUnique(g, j, w);
  }

  /** Level optimality: a task runs in the wave right after the last of its
      dependencies, and in the first wave when it has none. */
  lemma {:induction false} WaveIsLevel(g: seq<Node>, i: nat)
    requires DistinctIds(g) && i < |g| && Runs(g, i)
    ensures g[i].deps == {} ==> Wave(g, i) == 0
    ensures forall j: nat :: j < |g| && g[j].id in g[i].deps ==> Runs(g, j) && g[j].succeeds && Wave(g, j) < Wave(g, i)
    ensures g[i].deps != {} ==>
      exists j: nat :: j < |g| && g[j].id in g[i].deps && Runs(g, j) && Wave(g, i) == Wave(g, j) + 1
  {
    hide Step;
    var w := Wave(g, i);
    if g[i].deps == {} {
      assert Enabled(g[i], Rounds(g, 0));
      WaveUnique(g, i, 0);
    }
    forall j: nat | j < |g| && g[j].id in g[i].deps
      ensures Runs(g, j) && g[j].succeeds && Wave(g, j) < w
    {
      FinishedBefore(g, j, w);
    }
    if g[i].deps != {} {
      assert w > 0;
      var d :| d in g[i].deps && d !in Rounds(g, w - 1);
      var j := LastFinisher(g, w, d);
    }
  }

  lemma {:induction false} RoundIsStep(g: seq<Node>, k: nat)
    requires k > 0
    ensures Rounds(g, k) == Step(g, Rounds(g, k - 1))
  {
  }

  lemma {:induction false} EnabledFinishes(g: seq<Node>, k: nat, j: nat)
    requires j < |g| && g[j].succeeds && Enabled(g[j], Rounds(g, k))
    ensures g[j].id in Rounds(g, k + 1)
  {
    assert g[j].id in Step(g, Rounds(g, k));
  }

  lemma {:induction false} LastFinisher(g: seq<Node>, w: nat, d: string) returns (j: nat)
    requires DistinctIds(g) && w > 0 && d in Rounds(g, w) && d !in Rounds(g, w - 1)
    ensures j < |g| && g[j].id == d && Runs(g, j) && Wave(g, j) + 1 == w
  {
    hide Step, LeastFixpoint, Rounds;
    RoundIsStep(g, w);
    j := StepWitness(g, Rounds(g, w - 1), d);
    FinishedBefore(g, j, w);
    if Wave(g, j) < w - 1 {
      EnabledFinishes(g, Wave(g, j), j);
      RoundsMonotone(g, Wave(g, j) + 1, w - 1);
    }
  }

  // ------------------------------------------------- what blocks, what finishes

  /** Every task naming an id of s waits for an id of s or for no task at all. */
  ghost predicate Stuck(g: seq<Node>, s: set<string>) {
    forall i :: 0 <= i < |g| && g[i].id in s ==>
      exists d :: d in g[i].deps && (d in s || d !in Ids(g))
  }

  /** When every run would succeed, an id stays unfinished exactly when it lies
      in a set whose members all wait inside the set (a dependency cycle, or
      something behind one) or on an unknown id. */
  lemma {:induction false} BlockedIffStuck(g: seq<Node>, id: string)
    requires id in Ids(g)
    requires forall i :: 0 <= i < |g| ==> g[i].pending && g[i].succeeds
    ensures id !in LeastFixpoint(g) <==> exists s :: id in s && Stuck(g, s)
  {
    LeastFixpointCorrect(g);
    var done := LeastFixpoint(g);
    if id !in done {
      var s := Ids(g) - done;
      forall i | 0 <= i < |g| && g[i].id in s
        ensures exists d :: d in g[i].deps && (d in s || d !in Ids(g))
      {
        assert g[i].id in Step(g, done) || !Enabled(g[i], done);
        var d :| d in g[i].deps && d !in done;
        assert d in s || d !in Ids(g);
      }
      assert Stuck(g, s);
    }
    if s :| id in s && Stuck(g, s) {
      assert Closed(g, Ids(g) - s) by {
        forall d | d in Step(g, Ids(g) - s) ensures d in Ids(g) - s {
          var i :| 0 <= i < |g| && Enabled(g[i], Ids(g) - s) && g[i].succeeds && g[i].id == d;
        }
      }
    }
  }

  lemma {:induction false} EarlierTasksFinish(g: seq<Node>, i: nat)
    requires forall j :: 0 <= j < |g| ==> g[j].pending && g[j].succeeds
    requires forall j, d :: 0 <= j < |g| && d in g[j].deps ==> exists e :: 0 <= e < j && g[e].id == d
    requires i < |g|
    ensures g[i].id in Rounds(g, i + 1)
  {
    forall d | d in g[i].deps ensures d in Rounds(g, i) {
      var e :| 0 <= e < i && g[e].id == d;
      EarlierTasksFinish(g, e);
      RoundsMonotone(g, e + 1, i);
    }
    assert Enabled(g[i], Rounds(g, i));
  }

  /** A plan whose dependencies all point to earlier tasks finishes completely
      when no run fails. */
  lemma {:induction false} OrderedPlanFinishes(g: seq<Node>)
    requires forall j :: 0 <= j < |g| ==> g[j].pending && g[j].succeeds
    requires forall j, d :: 0 <= j < |g| && d in g[j].deps ==> exists e :: 0 <= e < j && g[e].id == d
    ensures LeastFixpoint(g) == Ids(g)
  {
    LeastFixpointCorrect(g);
    forall i | 0 <= i < |g| ensures g[i].id in LeastFixpoint(g) {
      EarlierTasksFinish(g, i);
    }
    assert LeastFixpoint(g) <= Ids(g) by {
      if |g| > 0 { assert LeastFixpoint(g) == Step(g, Rounds(g, |g| - 1)); }
    }
  }
}
