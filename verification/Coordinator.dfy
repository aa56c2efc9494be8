/** `Coordinator.execute` and `_run_task` (walrusos/runtime/coordinator.py):
    dependency waves over the mutable tasks of a plan. */
module Coordinator {
  import opened Prelude
  import opened TaskGraph

  datatype Status = Pending | Assigned | InProgress | Done | Failed | Blocked

  datatype Event = Event(eventId: string)

  /** What the agent's event write does when a task runs: it raises, or stores
      the response and returns an event (or nothing). */
  datatype WriteOutcome = Raises | Writes(response: string, event: Option<Event>)

  /** What `gather(..., return_exceptions=True)` collects for one task. */
  datatype RunResult = Exception | Returned(event: Option<Event>)

  class Task {
    const id: string
    const dependsOn: seq<string>
    const assignedTo: Option<string>
    var status: Status
    var resultContent: Option<string>
    var resultEventId: Option<string>

    constructor (id: string, dependsOn: seq<string>, assignedTo: Option<string>)
      ensures this.id == id && this.dependsOn == dependsOn && this.assignedTo == assignedTo
      ensures status == Pending && resultContent == None && resultEventId == None
    {
      this.id, this.dependsOn, this.assignedTo := id, dependsOn, assignedTo;
      status, resultContent, resultEventId := Pending, None, None;
    }
  }

  /** What a task holds of its run: the response text and the event id. */
  datatype TaskResult = TaskResult(content: Option<string>, eventId: Option<string>)

  function ResultOf(t: Task): TaskResult
    reads t`resultContent, t`resultEventId
  {
    TaskResult(t.resultContent, t.resultEventId)
  }

  /** What a successful write puts there. */
  function OwnResult(write: WriteOutcome): TaskResult
    requires write.Writes?
  {
    TaskResult(Some(write.response), if write.event.Some? then Some(write.event.value.eventId) else None)
  }

  // ---------------------------------------------------------------- decompose

  /** A JSON value found in a `depends_on` array.  A Python bool is an int. */
  datatype Json = JInt(n: int) | JBool(b: bool) | JOther

  function IndexOf(j: Json): Option<int> {
    match j
    case JInt(n) => Some(n)
    case JBool(b) => Some(if b then 1 else 0)
    case JOther => None
  }

  /** The JSON value is the index of the id d. */
  predicate Refers(ids: seq<string>, j: Json, d: string) {
    IndexOf(j).Some? && 0 <= IndexOf(j).value < |ids| && ids[IndexOf(j).value] == d
  }

  /** The second pass of `decompose`: in-range indices become task ids. */
  function ResolveDeps(ids: seq<string>, indices: seq<Json>): (r: seq<string>)
    ensures |r| <= |indices|
    ensures forall p :: 0 <= p < |r| ==> exists q :: 0 <= q < |indices| && Refers(ids, indices[q], r[p])
    ensures forall q, n :: 0 <= q < |indices| && IndexOf(indices[q]) == Some(n) && 0 <= n < |ids| ==> ids[n] in r
  {
    if indices == [] then []
    else
      var first := match IndexOf(indices[0])
        case Some(n) => if 0 <= n < |ids| then [ids[n]] else []
        case None => [];
      first + ResolveDeps(ids, indices[1..])
  }

  // ------------------------------------------------------------------ execute

  predicate HasAgent(t: Task, agents: set<string>) {
    t.assignedTo.Some? && t.assignedTo.value in agents
  }

  predicate RunSucceeds(t: Task, agents: set<string>, write: WriteOutcome) {
    HasAgent(t, agents) && write.Writes?
  }

  /** A task as a node of the graph, given its status when `execute` starts. */
  function NodeOf(t: Task, initial: Status, agents: set<string>, write: WriteOutcome): Node {
    Node(t.id, (set d | d in t.dependsOn), initial == Pending, RunSucceeds(t, agents, write))
  }

  /** The plan as `execute` first sees it. */
  ghost function Graph(tasks: seq<Task>, agents: set<string>, writes: seq<WriteOutcome>): (g: seq<Node>)
    requires |writes| == |tasks|
    reads tasks
    ensures |g| == |tasks|
    ensures forall i :: 0 <= i < |g| ==>
      g[i] == NodeOf(tasks[i], tasks[i].status, agents, writes[i])
  {
    seq(|tasks|, i requires 0 <= i < |tasks| reads tasks => NodeOf(tasks[i], tasks[i].status, agents, writes[i]))
  }

  function EventOf(write: WriteOutcome): seq<Event> {
    if write.Writes? && write.event.Some? then [write.event.value] else []
  }

  /** The events returned by the given tasks, in order. */
  function EventsOf(writes: seq<WriteOutcome>, order: seq<nat>): seq<Event>
    requires forall p :: 0 <= p < |order| ==> order[p] < |writes|
  {
    if order == [] then [] else EventOf(writes[order[0]]) + EventsOf(writes, order[1..])
  }

  lemma {:induction false} EventsOfAppend(writes: seq<WriteOutcome>, a: seq<nat>, b: seq<nat>)
    requires forall p :: 0 <= p < |a| ==> a[p] < |writes|
    requires forall p :: 0 <= p < |b| ==> b[p] < |writes|
    ensures EventsOf(writes, a + b) == EventsOf(writes, a) + EventsOf(writes, b)
  {
    if a == [] {
      assert a + b == b;
    } else {
      assert (a + b)[1..] == a[1..] + b;
      EventsOfAppend(writes, a[1..], b);
    }
  }

  /** What a pending task has become after k waves. */
  function StatusAfter(g: seq<Node>, n: Node, initial: Status, k: nat): Status {
    if !n.pending then initial
    else if k > 0 && Enabled(n, Rounds(g, k - 1)) then (if n.succeeds then Done else Failed)
    else Pending
  }

  /** The verdict the dependency graph gives on a task. */
  function Verdict(g: seq<Node>, n: Node, initial: Status): Status {
    if !n.pending then initial
    else if !Enabled(n, LeastFixpoint(g)) then Blocked
    else if n.succeeds then Done
    else Failed
  }

  method RunTask(t: Task, agents: set<string>, write: WriteOutcome) returns (r: RunResult)
    modifies t
    ensures !HasAgent(t, agents) ==> t.status == Failed && r == Returned(None)
    ensures HasAgent(t, agents) && write.Raises? ==> t.status == InProgress && r == Exception
    ensures RunSucceeds(t, agents, write) ==>
      t.status == Done && r == Returned(write.event) && ResultOf(t) == OwnResult(write)
    ensures !RunSucceeds(t, agents, write) ==> ResultOf(t) == old(ResultOf(t))
  {
    if !HasAgent(t, agents) {
      t.status := Failed;
      return Returned(None);
    }
    t.status := InProgress;
    if write.Raises? {
      return Exception;
    }
    t.status := Done;
    t.resultContent := Some(write.response);
    t.resultEventId := if write.event.Some? then Some(write.event.value.eventId) else None;
    return Returned(write.event);
  }

  /** `[t for t in plan.tasks if t.status == "pending" and all(dep in completed)]` */
  function ReadyFrom(tasks: seq<Task>, completed: set<string>, i: nat): (r: seq<nat>)
    requires i <= |tasks|
    reads tasks
    ensures forall p :: 0 <= p < |r| ==> i <= r[p] < |tasks|
    ensures forall p, q :: 0 <= p < q < |r| ==> r[p] < r[q]
    decreases |tasks| - i
  {
    if i == |tasks| then []
    else
      (if tasks[i].status == Pending && forall d :: d in tasks[i].dependsOn ==> d in completed then [i] else [])
        + ReadyFrom(tasks, completed, i + 1)
  }

  ghost predicate Tracks(tasks: seq<Task>, g: seq<Node>, initial: seq<Status>, k: nat)
    requires |g| == |tasks| == |initial|
    reads tasks`status
  {
    forall i :: 0 <= i < |tasks| ==> tasks[i].status == StatusAfter(g, g[i], initial[i], k)
  }

  /** g and initial describe the tasks (whose ids and dependencies are fixed). */
  ghost predicate Describes(g: seq<Node>, initial: seq<Status>, tasks: seq<Task>, agents: set<string>,
                            writes: seq<WriteOutcome>)
    requires |writes| == |tasks|
  {
    && |g| == |tasks| == |initial|
    && forall i :: 0 <= i < |g| ==>
      g[i] == NodeOf(tasks[i], initial[i], agents, writes[i])
  }

  ghost predicate RunBy(g: seq<Node>, n: Node, k: nat) {
    n.pending && k > 0 && Enabled(n, Rounds(g, k - 1))
  }

  /** A task holds its own result once it has run well. */
  ghost predicate Results(tasks: seq<Task>, g: seq<Node>, writes: seq<WriteOutcome>, results: seq<TaskResult>, k: nat)
    requires |g| == |tasks| == |results| == |writes|
    requires forall i :: 0 <= i < |g| && g[i].succeeds ==> writes[i].Writes?
    reads tasks`resultContent, tasks`resultEventId
  {
    forall i :: 0 <= i < |tasks| ==>
      ResultOf(tasks[i]) == if RunBy(g, g[i], k) && g[i].succeeds then OwnResult(writes[i]) else results[i]
  }

  lemma {:induction false} ReadyIffInFront(tasks: seq<Task>, agents: set<string>, writes: seq<WriteOutcome>,
                                           g: seq<Node>, initial: seq<Status>, k: nat, i: nat)
    requires |writes| == |tasks| && Describes(g, initial, tasks, agents, writes)
    requires Tracks(tasks, g, initial, k) && i < |tasks|
    ensures tasks[i].status == Pending && (forall d :: d in tasks[i].dependsOn ==> d in Rounds(g, k))
      <==> InFront(g, g[i], k)
  {
    if k > 0 { RoundsGrow(g, k - 1); }
    hide Rounds;
    assert g[i] == NodeOf(tasks[i], initial[i], agents, writes[i]);
    assert tasks[i].status == StatusAfter(g, g[i], initial[i], k);
    assert (forall d :: d in tasks[i].dependsOn ==> d in Rounds(g, k)) <==> g[i].deps <= Rounds(g, k);
  }

  /** The code's `ready` list is the front of the graph. */
  lemma {:induction false} ReadyIsFront(tasks: seq<Task>, agents: set<string>, writes: seq<WriteOutcome>,
                                        g: seq<Node>, initial: seq<Status>, k: nat, i: nat)
    requires |writes| == |tasks| && Describes(g, initial, tasks, agents, writes)
    requires Tracks(tasks, g, initial, k) && i <= |tasks|
    requires |g| == |tasks|
    ensures ReadyFrom(tasks, Rounds(g, k), i) == FrontFrom(g, k, i)
    decreases |tasks| - i
  {
    hide Rounds, InFront, Tracks, Describes;
    if i < |tasks| {
      ReadyIsFront(tasks, agents, writes, g, initial, k, i + 1);
      ReadyIffInFront(tasks, agents, writes, g, initial, k, i);
    }
  }

  /** g has the ids and the outcomes of the tasks. */
  ghost predicate Matches(g: seq<Node>, tasks: seq<Task>, agents: set<string>, writes: seq<WriteOutcome>) {
    && |writes| == |tasks| == |g|
    && (forall i :: 0 <= i < |g| ==> g[i].id == tasks[i].id)
    && (forall i :: 0 <= i < |g| ==> g[i].succeeds == RunSucceeds(tasks[i], agents, writes[i]))
    && (forall i :: 0 <= i < |g| && g[i].succeeds ==> writes[i].Writes?)
  }

  ghost predicate Indices(front: seq<nat>, n: nat) {
    Distinct(front) && forall p :: 0 <= p < |front| ==> front[p] < n
  }

  /** How one run has left its task and its slot in the results. */
  ghost predicate Ran(t: Task, succeeds: bool, write: WriteOutcome, result: RunResult)
    reads t
  {
    if succeeds then
      write.Writes? && t.status == Done && result == Returned(write.event) && ResultOf(t) == OwnResult(write)
    else
      result == Exception || (result == Returned(None) && t.status == Failed)
  }

  /** The `gather` half of a wave: every ready task runs.  `runs` logs the
      calls of `_run_task`. */
  method RunAll(tasks: seq<Task>, agents: set<string>, writes: seq<WriteOutcome>, ready: seq<nat>, ghost g: seq<Node>)
    returns (results: seq<RunResult>, ghost runs: seq<nat>)
    requires Matches(g, tasks, agents, writes) && Distinct(tasks) && Indices(ready, |tasks|)
    modifies tasks
    ensures runs == ready && |results| == |ready|
    ensures forall i :: 0 <= i < |tasks| && i !in ready ==> tasks[i].status == old(tasks[i].status)
    ensures forall i :: 0 <= i < |tasks| && (i !in ready || !g[i].succeeds) ==>
      ResultOf(tasks[i]) == old(ResultOf(tasks[i]))
    ensures forall p :: 0 <= p < |ready| ==>
      Ran(tasks[ready[p]], g[ready[p]].succeeds, writes[ready[p]], results[p])
  {
    results, runs := [], [];
    for p := 0 to |ready|
      invariant |results| == p && runs == ready[..p]
      invariant forall i :: 0 <= i < |tasks| && i !in ready[..p] ==> tasks[i].status == old(tasks[i].status)
      invariant forall i :: 0 <= i < |tasks| && (i !in ready[..p] || !g[i].succeeds) ==>
        ResultOf(tasks[i]) == old(ResultOf(tasks[i]))
      invariant forall q :: 0 <= q < p ==>
        Ran(tasks[ready[q]], g[ready[q]].succeeds, writes[ready[q]], results[q])
    {
      var i := ready[p];
      assert i !in ready[..p];
      var r := RunTask(tasks[i], agents, writes[i]);
      results, runs := results + [r], runs + [i];
      assert Ran(tasks[i], g[i].succeeds, writes[i], results[p]);
      assert ready[..p + 1] == ready[..p] + [i];
    }
  }

  /** Book one result: a raised exception fails the task, a finished task
      contributes its id and its event. */
  method Record(t: Task, result: RunResult, completed: set<string>, allEvents: seq<Event>)
    returns (completed': set<string>, allEvents': seq<Event>)
    modifies t`status
    ensures t.status == if result.Exception? then Failed else old(t.status)
    ensures completed' == if result.Returned? && old(t.status) == Done then completed + {t.id} else completed
    ensures allEvents' == if result.Returned? && old(t.status) == Done && result.event.Some?
      then allEvents + [result.event.value] else allEvents
  {
    completed', allEvents' := completed, allEvents;
    if result.Exception? {
      t.status := Failed;
    } else if t.status == Done {
      completed' := completed + {t.id};
      if result.event.Some? {
        allEvents' := allEvents + [result.event.value];
      }
    }
  }

  /** The books after recording a front: the ids and events of its winners. */
  ghost predicate Booked(g: seq<Node>, writes: seq<WriteOutcome>, front: seq<nat>, completed: set<string>,
                         allEvents: seq<Event>,
                         completed': set<string>, allEvents': seq<Event>)
    requires |writes| == |g| && forall p :: 0 <= p < |front| ==> front[p] < |g|
    requires forall i :: 0 <= i < |g| && g[i].succeeds ==> writes[i].Writes?
  {
    && completed' == completed + IdsAt(g, Winners(g, front))
    && allEvents' == allEvents + EventsOf(writes, Winners(g, front))
  }

  lemma {:induction false} RanMeans(t: Task, succeeds: bool, write: WriteOutcome, result: RunResult)
    requires Ran(t, succeeds, write, result)
    ensures succeeds ==> write.Writes? && t.status == Done && result == Returned(write.event)
    ensures !succeeds ==> result == Exception || (result == Returned(None) && t.status == Failed)
  {
  }

  /** The other half: the results are recorded in plan order. */
  method RecordAll(tasks: seq<Task>, writes: seq<WriteOutcome>, ready: seq<nat>, ghost g: seq<Node>,
                   results: seq<RunResult>, completed: set<string>, allEvents: seq<Event>)
    returns (completed': set<string>, allEvents': seq<Event>)
    requires Distinct(tasks) && Indices(ready, |tasks|) && |writes| == |tasks| == |g|
    requires forall i :: 0 <= i < |g| ==> g[i].id == tasks[i].id
    requires forall i :: 0 <= i < |g| && g[i].succeeds ==> writes[i].Writes?
    requires |results| == |ready|
    requires forall p :: 0 <= p < |ready| ==>
      Ran(tasks[ready[p]], g[ready[p]].succeeds, writes[ready[p]], results[p])
    modifies tasks`status
    ensures forall i :: 0 <= i < |tasks| && i !in ready ==> tasks[i].status == old(tasks[i].status)
    ensures forall p :: 0 <= p < |ready| ==>
      tasks[ready[p]].status == if g[ready[p]].succeeds then Done else Failed
    ensures Booked(g, writes, ready, completed, allEvents, completed', allEvents')
  {
    hide Winners, IdsAt, EventsOf, Booked, Ran;
    completed', allEvents' := completed, allEvents;
    NoneBooked(g, writes, completed, allEvents);
    assert ready[..0] == [];
    for p := 0 to |ready|
      invariant forall i :: 0 <= i < |tasks| && i !in ready[..p] ==> tasks[i].status == old(tasks[i].status)
      invariant forall q :: p <= q < |ready| ==>
        Ran(tasks[ready[q]], g[ready[q]].succeeds, writes[ready[q]], results[q])
      invariant forall q :: 0 <= q < p ==>
        tasks[ready[q]].status == if g[ready[q]].succeeds then Done else Failed
      invariant Booked(g, writes, ready[..p], completed, allEvents, completed', allEvents')
    {
      var i := ready[p];
      ghost var soFar := (completed', allEvents');
      assert forall q :: 0 <= q < |ready| && q != p ==> ready[q] != i && tasks[ready[q]] != tasks[i];
      assert ready[..p + 1] == ready[..p] + [i];
      RanMeans(tasks[i], g[i].succeeds, writes[i], results[p]);
      completed', allEvents' := Record(tasks[i], results[p], completed', allEvents');
      BookedStep(g, writes, ready, p, completed, allEvents, soFar.0, soFar.1, completed', allEvents');
    }
    assert ready[..|ready|] == ready;
  }

  lemma {:induction false} NoneBooked(g: seq<Node>, writes: seq<WriteOutcome>, completed: set<string>,
                                      allEvents: seq<Event>)
    requires |writes| == |g| && forall i :: 0 <= i < |g| && g[i].succeeds ==> writes[i].Writes?
    ensures Booked(g, writes, [], completed, allEvents, completed, allEvents)
  {
    NoWinners(g, writes);
    assert allEvents + [] == allEvents;
  }

  lemma {:induction false} BookedStep(g: seq<Node>, writes: seq<WriteOutcome>, ready: seq<nat>, p: nat,
      completed: set<string>, allEvents: seq<Event>, completed1: set<string>, allEvents1: seq<Event>,
      completed2: set<string>, allEvents2: seq<Event>)
    requires |writes| == |g| && p < |ready|
    requires forall q :: 0 <= q < |ready| ==> ready[q] < |g|
    requires forall i :: 0 <= i < |g| && g[i].succeeds ==> writes[i].Writes?
    requires Booked(g, writes, ready[..p], completed, allEvents, completed1, allEvents1)
    requires completed2 == if g[ready[p]].succeeds then completed1 + {g[ready[p]].id} else completed1
    requires allEvents2 == if g[ready[p]].succeeds && writes[ready[p]].event.Some?
      then allEvents1 + [writes[ready[p]].event.value] else allEvents1
    ensures Booked(g, writes, ready[..p + 1], completed, allEvents, completed2, allEvents2)
  {
    hide Winners, IdsAt, EventsOf;
    WinnersStep(g, ready, p, writes);
  }

  lemma {:induction false} WinnersAppend(g: seq<Node>, a: seq<nat>, b: seq<nat>)
    requires forall p :: 0 <= p < |a| ==> a[p] < |g|
    requires forall p :: 0 <= p < |b| ==> b[p] < |g|
    ensures Winners(g, a + b) == Winners(g, a) + Winners(g, b)
  {
    if a == [] {
      assert a + b == b;
    } else {
      assert (a + b)[1..] == a[1..] + b;
      WinnersAppend(g, a[1..], b);
    }
  }

  lemma {:induction false} NoWinners(g: seq<Node>, writes: seq<WriteOutcome>)
    ensures Winners(g, []) == [] && IdsAt(g, []) == {} && EventsOf(writes, []) == []
  {
  }

  lemma {:induction false} WinnersStep(g: seq<Node>, ready: seq<nat>, p: nat, writes: seq<WriteOutcome>)
    requires |writes| == |g| && p < |ready|
    requires forall q :: 0 <= q < |ready| ==> ready[q] < |g|
    requires forall i :: 0 <= i < |g| && g[i].succeeds ==> writes[i].Writes?
    ensures !g[ready[p]].succeeds ==> Winners(g, ready[..p + 1]) == Winners(g, ready[..p])
    ensures g[ready[p]].succeeds ==>
      && IdsAt(g, Winners(g, ready[..p + 1])) == IdsAt(g, Winners(g, ready[..p])) + {g[ready[p]].id}
      && EventsOf(writes, Winners(g, ready[..p + 1])) == EventsOf(writes, Winners(g, ready[..p]))
        + (if writes[ready[p]].event.Some? then [writes[ready[p]].event.value] else [])
  {
    var i := ready[p];
    assert ready[..p + 1] == ready[..p] + [i];
    WinnersAppend(g, ready[..p], [i]);
    assert Winners(g, [i]) == if g[i].succeeds then [i] else [];
    if g[i].succeeds {
      IdsAtAppend(g, Winners(g, ready[..p]), [i]);
      assert IdsAt(g, [i]) == {g[i].id} by {
        assert [i][0] == i;
      }
      EventsOfAppend(writes, Winners(g, ready[..p]), [i]);
    }
  }

  /** A task still pending when the waves end is blocked. */
  function Unblock(s: Status): Status {
    if s == Pending then Blocked else s
  }

  /** The statuses once the loop has ended after k waves. */
  ghost predicate Ended(tasks: seq<Task>, g: seq<Node>, initial: seq<Status>, k: nat)
    requires |g| == |tasks| == |initial|
    reads tasks`status
  {
    forall i :: 0 <= i < |tasks| ==> tasks[i].status == Unblock(StatusAfter(g, g[i], initial[i], k))
  }

  /** "blocked" for whatever is still pending once nothing is ready. */
  method BlockPending(tasks: seq<Task>, ghost g: seq<Node>, ghost initial: seq<Status>, ghost k: nat)
    requires Distinct(tasks) && |g| == |tasks| == |initial| && Tracks(tasks, g, initial, k)
    modifies tasks`status
    ensures Ended(tasks, g, initial, k)
  {
    hide StatusAfter;
    for i := 0 to |tasks|
      invariant forall j :: 0 <= j < i ==> tasks[j].status == Unblock(old(tasks[j].status))
      invariant forall j :: i <= j < |tasks| ==> tasks[j].status == old(tasks[j].status)
    {
      if tasks[i].status == Pending {
        tasks[i].status := Blocked;
      }
    }
  }

  predicate Settled(tasks: seq<Task>)
    reads tasks
  {
    forall i :: 0 <= i < |tasks| ==> tasks[i].status in {Done, Failed, Blocked}
  }

  /** Indices of the tasks still pending after k waves. */
  ghost function StillPending(g: seq<Node>, k: nat): set<nat> {
    set i: nat | i < |g| && g[i].pending && !(k > 0 && Enabled(g[i], Rounds(g, k - 1)))
  }

  lemma {:induction false} IndexCount(s: set<nat>, n: nat)
    requires forall i :: i in s ==> i < n
    ensures |s| <= n
  {
    if n > 0 {
      var rest := s - {n - 1};
      IndexCount(rest, n - 1);
      assert s <= rest + {n - 1};
      SubsetSize(s, rest + {n - 1});
    }
  }

  /** Every wave that runs something takes tasks out of the pending set. */
  lemma {:induction false} PendingShrinks(g: seq<Node>, k: nat)
    requires Front(g, k) != []
    ensures |StillPending(g, k + 1)| < |StillPending(g, k)|
  {
    var i := Front(g, k)[0];
    assert InFront(g, g[i], k);
    if k > 0 { RoundsGrow(g, k - 1); }
    assert i in StillPending(g, k) && i !in StillPending(g, k + 1);
    SubsetSize(StillPending(g, k + 1), StillPending(g, k));
  }

  /** Nothing ready: the waves so far have reached the least fixpoint. */
  lemma {:induction false} QuietIsFinal(g: seq<Node>, k: nat, n: Node)
    requires Front(g, k) == [] && n in g
    ensures Rounds(g, k) == LeastFixpoint(g)
    ensures n.pending ==> (Enabled(n, LeastFixpoint(g)) <==> k > 0 && Enabled(n, Rounds(g, k - 1)))
  {
    RoundSplit(g, k);
    assert IdsAt(g, []) == {};
    StableIsLeast(g, k);
    var i :| 0 <= i < |g| && g[i] == n;
    assert !InFront(g, g[i], k);
    if k > 0 { RoundsGrow(g, k - 1); }
  }

  /** No task is left pending: the next wave would be empty. */
  lemma {:induction false} SettledIsQuiet(g: seq<Node>, k: nat)
    requires k > 0 && StillPending(g, k) == {}
    ensures Front(g, k) == []
  {
    if Front(g, k) != [] {
      PendingShrinks(g, k);
    }
  }

  /** The waves are the fronts of the graph, in order. */
  ghost predicate Fronts(g: seq<Node>, waves: seq<seq<nat>>) {
    forall w :: 0 <= w < |waves| ==> waves[w] == Front(g, w)
  }

  lemma {:induction false} StartOfRun(g: seq<Node>, writes: seq<WriteOutcome>)
    ensures Rounds(g, 0) == {} && DoneOrder(g, 0) == [] && EventsOf(writes, []) == []
    ensures |StillPending(g, 0)| <= |g| && Fronts(g, [])
  {
    IndexCount(StillPending(g, 0), |g|);
  }

  lemma {:induction false} FrontIs(g: seq<Node>, k: nat)
    ensures Front(g, k) == FrontFrom(g, k, 0)
  {
  }

  /** One wave moves a node's status exactly when it is in the front. */
  lemma {:induction false} StatusStep(g: seq<Node>, i: nat, initial: Status, k: nat)
    requires i < |g|
    ensures i in Front(g, k) ==>
      StatusAfter(g, g[i], initial, k + 1) == if g[i].succeeds then Done else Failed
    ensures i !in Front(g, k) ==> StatusAfter(g, g[i], initial, k + 1) == StatusAfter(g, g[i], initial, k)
    ensures i in Front(g, k) <==> RunBy(g, g[i], k + 1) && !RunBy(g, g[i], k)
    ensures RunBy(g, g[i], k) ==> RunBy(g, g[i], k + 1)
  {
    if k > 0 { RoundsGrow(g, k - 1); }
    if i in Front(g, k) {
      var p :| 0 <= p < |Front(g, k)| && Front(g, k)[p] == i;
      assert InFront(g, g[i], k);
    } else {
      assert !InFront(g, g[i], k);
    }
  }

  lemma {:induction false} EventsStep(g: seq<Node>, writes: seq<WriteOutcome>, k: nat)
    requires |writes| == |g|
    ensures EventsOf(writes, DoneOrder(g, k + 1))
      == EventsOf(writes, DoneOrder(g, k)) + EventsOf(writes, Winners(g, Front(g, k)))
  {
    EventsOfAppend(writes, DoneOrder(g, k), Winners(g, Front(g, k)));
  }

  /** One wave over the ready tasks. */
  method RunWave(tasks: seq<Task>, agents: set<string>, writes: seq<WriteOutcome>, ready: seq<nat>,
                 ghost g: seq<Node>, ghost initial: seq<Status>, ghost held: seq<TaskResult>, ghost k: nat,
                 completed: set<string>, allEvents: seq<Event>)
    returns (completed': set<string>, allEvents': seq<Event>, ghost runs: seq<nat>)
    requires Matches(g, tasks, agents, writes) && Distinct(tasks) && ready == Front(g, k)
    requires |initial| == |held| == |g|
    requires Tracks(tasks, g, initial, k) && Results(tasks, g, writes, held, k)
    requires completed == Rounds(g, k) && allEvents == EventsOf(writes, DoneOrder(g, k))
    modifies tasks
    ensures Tracks(tasks, g, initial, k + 1) && Results(tasks, g, writes, held, k + 1)
    ensures completed' == Rounds(g, k + 1) && allEvents' == EventsOf(writes, DoneOrder(g, k + 1))
    ensures runs == Front(g, k)
  {
    hide Rounds, Front, DoneOrder, EventsOf, Winners, IdsAt, Step, Enabled, StatusAfter, RunBy;
    var results;
    results, runs := RunAll(tasks, agents, writes, ready, g);
    completed', allEvents' := RecordAll(tasks, writes, ready, g, results, completed, allEvents);
    RoundSplit(g, k);
    EventsStep(g, writes, k);
    forall i: nat | i < |g|
      ensures tasks[i].status == StatusAfter(g, g[i], initial[i], k + 1)
      ensures ResultOf(tasks[i]) == if RunBy(g, g[i], k + 1) && g[i].succeeds then OwnResult(writes[i]) else held[i]
    {
      StatusStep(g, i, initial[i], k);
      if i in ready {
        var p :| 0 <= p < |ready| && ready[p] == i;
        assert Ran(tasks[i], g[i].succeeds, writes[i], results[p]);
      }
    }
  }

  lemma {:induction false} FinalVerdicts(g: seq<Node>, k: nat, i: nat, initial: Status)
    requires Front(g, k) == [] && i < |g| && (g[i].pending <==> initial == Pending)
    ensures Verdict(g, g[i], initial) == Unblock(StatusAfter(g, g[i], initial, k))
    ensures RunBy(g, g[i], k) <==> Enabled(g[i], LeastFixpoint(g))
  {
    QuietIsFinal(g, k, g[i]);
  }

  function FinalResult(g: seq<Node>, n: Node, write: WriteOutcome, initial: TaskResult): TaskResult
    requires n.succeeds ==> write.Writes?
  {
    if Enabled(n, LeastFixpoint(g)) && n.succeeds then OwnResult(write) else initial
  }

  lemma {:induction false} StartTracked(tasks: seq<Task>, agents: set<string>, writes: seq<WriteOutcome>,
                                        g: seq<Node>, initial: seq<Status>, held: seq<TaskResult>)
    requires |writes| == |tasks| && Describes(g, initial, tasks, agents, writes) && |held| == |g|
    requires forall i :: 0 <= i < |g| ==> tasks[i].status == initial[i] && ResultOf(tasks[i]) == held[i]
    ensures Matches(g, tasks, agents, writes)
    ensures Tracks(tasks, g, initial, 0) && Results(tasks, g, writes, held, 0)
  {
  }

  /** A settled plan has no node left to run. */
  lemma {:induction false} NonePending(tasks: seq<Task>, g: seq<Node>, initial: seq<Status>, k: nat)
    requires |g| == |initial| == |tasks| && k > 0 && Tracks(tasks, g, initial, k) && Settled(tasks)
    ensures Front(g, k) == [] && Ended(tasks, g, initial, k)
  {
    forall i: nat | i < |g| ensures i !in StillPending(g, k) {
      assert tasks[i].status == StatusAfter(g, g[i], initial[i], k);
    }
    SettledIsQuiet(g, k);
  }

  /** What an empty front says about the whole run. */
  lemma {:induction false} Finish(g: seq<Node>, k: nat, initial: seq<Status>)
    requires Front(g, k) == [] && k <= |g| == |initial|
    requires forall i :: 0 <= i < |g| ==> (g[i].pending <==> initial[i] == Pending)
    ensures DoneOrder(g, |g|) == DoneOrder(g, k)
    ensures forall i :: 0 <= i < |g| ==>
      Verdict(g, g[i], initial[i]) == Unblock(StatusAfter(g, g[i], initial[i], k))
    ensures forall i :: 0 <= i < |g| ==> (RunBy(g, g[i], k) <==> Enabled(g[i], LeastFixpoint(g)))
  {
    DoneOrderStable(g, k, |g|);
    forall i | 0 <= i < |g|
      ensures Verdict(g, g[i], initial[i]) == Unblock(StatusAfter(g, g[i], initial[i], k))
      ensures RunBy(g, g[i], k) <==> Enabled(g[i], LeastFixpoint(g))
    {
      FinalVerdicts(g, k, i, initial[i]);
    }
  }

  lemma {:induction false} FrontsStep(g: seq<Node>, waves: seq<seq<nat>>, runs: seq<nat>)
    requires Fronts(g, waves) && runs == Front(g, |waves|)
    ensures Fronts(g, waves + [runs])
  {
    hide Front;
  }

  /** The loop of `execute`.  It ends by an empty wave (k is the number of
      waves that ran something), never by running out of iterations. */
  method RunWaves(tasks: seq<Task>, agents: set<string>, writes: seq<WriteOutcome>,
                  ghost g: seq<Node>, ghost initial: seq<Status>, ghost held: seq<TaskResult>)
    returns (allEvents: seq<Event>, ghost k: nat, ghost waves: seq<seq<nat>>)
    requires Matches(g, tasks, agents, writes) && Distinct(tasks)
    requires Describes(g, initial, tasks, agents, writes)
    requires |g| == |tasks| == |initial| == |held| == |writes|
    requires forall i :: 0 <= i < |g| && g[i].succeeds ==> writes[i].Writes?
    requires Tracks(tasks, g, initial, 0) && Results(tasks, g, writes, held, 0)
    modifies tasks
    ensures k == |waves| <= |g| && Front(g, k) == []
    ensures Fronts(g, waves)
    ensures Ended(tasks, g, initial, k)
    ensures Results(tasks, g, writes, held, k)
    ensures allEvents == EventsOf(writes, DoneOrder(g, k))
  {
    hide Rounds, Front, DoneOrder, EventsOf, ReadyFrom, Winners, IdsAt, Step, StillPending, Tracks, Results, Ended,
      Matches, Describes, Settled, Distinct, Fronts;
    allEvents, waves := [], [];
    var completed: set<string> := {};
    var cap := Max(|tasks| * 3, 6);
    StartOfRun(g, writes);
    k := 0;
    for iteration := 0 to cap
      invariant k == iteration == |waves| && Fronts(g, waves)
      invariant completed == Rounds(g, k)
      invariant allEvents == EventsOf(writes, DoneOrder(g, k))
      invariant Tracks(tasks, g, initial, k) && Results(tasks, g, writes, held, k)
      invariant |StillPending(g, k)| + k <= |g|
    {
      var ready := ReadyFrom(tasks, completed, 0);
      ReadyIsFront(tasks, agents, writes, g, initial, k, 0);
      FrontIs(g, k);
      if ready == [] {
        BlockPending(tasks, g, initial, k);
        return;
      }
      PendingShrinks(g, k);
      ghost var runs;
      completed, allEvents, runs := RunWave(tasks, agents, writes, ready, g, initial, held, k, completed, allEvents);
      FrontsStep(g, waves, runs);
      k, waves := k + 1, waves + [runs];
      if Settled(tasks) {
        NonePending(tasks, g, initial, k);
        return;
      }
    }
    assert false;
  }

  /** No wave runs after an empty one. */
  lemma {:induction false} WaveEnds(g: seq<Node>, i: nat, k: nat)
    requires i < |g| && Runs(g, i) && Front(g, k) == []
    ensures Wave(g, i) < k
  {
    hide Front, LeastFixpoint, Rounds;
    QuietIsFinal(g, k, g[i]);
    WaveUnique(g, i, FirstEnabled(g, g[i], k - 1));
  }

  predicate WroteEvent(writes: seq<WriteOutcome>, i: nat, e: Event) {
    i < |writes| && writes[i].Writes? && writes[i].event == Some(e)
  }

  /** The tasks of the order whose writes returned an event. */
  function WithEvent(writes: seq<WriteOutcome>, order: seq<nat>): seq<nat>
    requires forall p :: 0 <= p < |order| ==> order[p] < |writes|
  {
    if order == [] then []
    else
      (if writes[order[0]].Writes? && writes[order[0]].event.Some? then [order[0]] else [])
        + WithEvent(writes, order[1..])
  }

  lemma {:induction false} EventsOfThese(writes: seq<WriteOutcome>, order: seq<nat>)
    requires Distinct(order) && forall p :: 0 <= p < |order| ==> order[p] < |writes|
    ensures var from, all := WithEvent(writes, order), EventsOf(writes, order);
      && |from| == |all| && Distinct(from)
      && (forall i :: i in from <==> i in order && writes[i].Writes? && writes[i].event.Some?)
      && (forall k :: 0 <= k < |from| ==> WroteEvent(writes, from[k], all[k]))
  {
    if order != [] {
      EventsOfThese(writes, order[1..]);
      assert order == [order[0]] + order[1..];
      assert order[0] !in order[1..];
    }
  }

  /** Once nothing is ready, the recorded tasks are those that ran well. */
  lemma {:induction false} RecordedIffRanWell(g: seq<Node>, k: nat, i: nat)
    requires Front(g, k) == [] && i < |g|
    ensures i in DoneOrder(g, k) <==> Runs(g, i) && g[i].succeeds
  {
    hide Front, LeastFixpoint, Rounds, DoneOrder;
    RecordedInFront(g, k, i);
    if Runs(g, i) {
      WaveEnds(g, i, k);
    }
    if j: nat :| j < k && InFront(g, g[i], j) {
      LeastFixpointCorrect(g);
    }
  }

  lemma {:induction false} RecordedInFront(g: seq<Node>, k: nat, i: nat)
    requires i < |g|
    ensures i in DoneOrder(g, k) <==> g[i].succeeds && InSomeFront(g, g[i], k)
  {
    hide InFront, Winners, Front, InSomeFront;
    FrontsSoFar(g, g[i], k);
    if k > 0 {
      RecordedInFront(g, k - 1, i);
      WinnerIff(g, k - 1, i);
    }
  }

  lemma {:induction false} FrontsSoFar(g: seq<Node>, n: Node, k: nat)
    ensures InSomeFront(g, n, k) <==> k > 0 && (InSomeFront(g, n, k - 1) || InFront(g, n, k - 1))
  {
    hide InFront;
  }

  lemma {:induction false} WinnerIff(g: seq<Node>, k: nat, i: nat)
    requires i < |g|
    ensures i in Winners(g, Front(g, k)) <==> g[i].succeeds && InFront(g, g[i], k)
  {
    hide InFront;
    var front := Front(g, k);
    if i in front {
      var p :| 0 <= p < |front| && front[p] == i;
    }
  }

  /** The collected events are those of the given tasks, one each and in order:
      all tasks that this run has done and whose writes returned an event. */
  ghost predicate CollectedFrom(tasks: seq<Task>, initial: seq<Status>, writes: seq<WriteOutcome>,
                                allEvents: seq<Event>, from: seq<nat>)
    requires |initial| == |writes| == |tasks|
    reads tasks`status
  {
    && |allEvents| == |from| && Distinct(from)
    && (forall i: nat :: i in from <==>
          i < |tasks| && initial[i] == Pending && tasks[i].status == Done && writes[i].Writes? && writes[i].event.Some?)
    && (forall k :: 0 <= k < |from| ==> WroteEvent(writes, from[k], allEvents[k]))
  }

  lemma {:induction false} EventsCollected(tasks: seq<Task>, g: seq<Node>, initial: seq<Status>, agents: set<string>,
                                           writes: seq<WriteOutcome>, k: nat)
    requires |writes| == |tasks| && Describes(g, initial, tasks, agents, writes) && Front(g, k) == []
    requires forall j :: 0 <= j < |g| ==> tasks[j].status == Verdict(g, g[j], initial[j])
    ensures CollectedFrom(tasks, initial, writes, EventsOf(writes, DoneOrder(g, k)), WithEvent(writes, DoneOrder(g, k)))
  {
    hide Front, LeastFixpoint, Rounds, DoneOrder, EventsOf, WithEvent;
    var order := DoneOrder(g, k);
    DoneOrderDistinct(g, k);
    EventsOfThese(writes, order);
    forall i: nat | i < |g| ensures i in order <==> initial[i] == Pending && tasks[i].status == Done {
      RecordedIffRanWell(g, k, i);
      assert g[i] == NodeOf(tasks[i], initial[i], agents, writes[i]);
      assert tasks[i].status == Verdict(g, g[i], initial[i]);
    }
  }

  ghost function Statuses(tasks: seq<Task>): (s: seq<Status>)
    reads tasks
    ensures |s| == |tasks| && forall i :: 0 <= i < |tasks| ==> s[i] == tasks[i].status
  {
    seq(|tasks|, i requires 0 <= i < |tasks| reads tasks => tasks[i].status)
  }

  /** d is the id of a task that this run has done. */
  ghost predicate IsDone(tasks: seq<Task>, initial: seq<Status>, d: string)
    requires |initial| == |tasks|
    reads tasks`status
  {
    exists j :: 0 <= j < |tasks| && initial[j] == Pending && tasks[j].status == Done && tasks[j].id == d
  }

  ghost predicate DependenciesDone(tasks: seq<Task>, initial: seq<Status>, i: nat)
    requires |initial| == |tasks| && i < |tasks|
    reads tasks`status
  {
    forall d :: d in tasks[i].dependsOn ==> IsDone(tasks, initial, d)
  }

  /** The verdict on task i in the tasks' own fields. */
  ghost predicate Judged(tasks: seq<Task>, initial: seq<Status>, agents: set<string>, write: WriteOutcome, i: nat)
    requires |initial| == |tasks| && i < |tasks|
    reads tasks
  {
    var t := tasks[i];
    if initial[i] != Pending then t.status == initial[i]
    else if !DependenciesDone(tasks, initial, i) then t.status == Blocked
    else if t.assignedTo.None? || t.assignedTo.value !in agents || write.Raises? then t.status == Failed
    else
      && t.status == Done && t.resultContent == Some(write.response)
      && t.resultEventId == match write.event case Some(e) => Some(e.eventId) case None => None
  }

  /** An id is finished exactly when a task with it ends as done. */
  lemma {:induction false} FinishedIffDone(g: seq<Node>, d: string)
    ensures d in LeastFixpoint(g) <==>
      exists j :: 0 <= j < |g| && g[j].pending && Verdict(g, g[j], Pending) == Done && g[j].id == d
  {
    hide LeastFixpoint, Step;
    LeastFixpointCorrect(g);
    var done := LeastFixpoint(g);
    if d in done {
      var j := StepWitness(g, done, d);
      assert g[j].pending && Verdict(g, g[j], Pending) == Done;
    }
    forall j | 0 <= j < |g| && g[j].pending && Verdict(g, g[j], Pending) == Done && g[j].id == d
      ensures d in done
    {
      InStep(g, done, j);
    }
  }

  lemma {:induction false} JudgedByGraph(tasks: seq<Task>, g: seq<Node>, initial: seq<Status>, agents: set<string>,
                                         writes: seq<WriteOutcome>, held: TaskResult, i: nat)
    requires |writes| == |tasks| && Describes(g, initial, tasks, agents, writes) && i < |g|
    requires forall j :: 0 <= j < |g| ==> tasks[j].status == Verdict(g, g[j], initial[j])
    requires g[i].succeeds ==> writes[i].Writes?
    requires ResultOf(tasks[i]) == FinalResult(g, g[i], writes[i], held)
    ensures Judged(tasks, initial, agents, writes[i], i)
  {
    hide LeastFixpoint;
    assert g[i] == NodeOf(tasks[i], initial[i], agents, writes[i]);
    forall d ensures d in LeastFixpoint(g) <==> IsDone(tasks, initial, d) {
      FinishedIffDone(g, d);
      if j :| 0 <= j < |g| && g[j].pending && Verdict(g, g[j], Pending) == Done && g[j].id == d {
        assert g[j] == NodeOf(tasks[j], initial[j], agents, writes[j]);
        assert tasks[j].status == Done;
      }
      if j :| 0 <= j < |tasks| && initial[j] == Pending && tasks[j].status == Done && tasks[j].id == d {
        assert g[j] == NodeOf(tasks[j], initial[j], agents, writes[j]);
      }
    }
    assert forall d :: d in g[i].deps <==> d in tasks[i].dependsOn;
  }

  /** Run the plan.  The dependency graph alone decides every verdict: a task
      is done exactly when it is in the least fixpoint, failed when its
      dependencies are but its run is not, blocked otherwise.  No plan, cyclic
      or not, exhausts the iteration cap.  `waves` holds the tasks run by each
      wave. */
  method Execute(tasks: seq<Task>, agents: set<string>, writes: seq<WriteOutcome>)
    returns (allEvents: seq<Event>, ghost waves: seq<seq<nat>>)
    requires |writes| == |tasks| && Distinct(tasks)
    modifies tasks
    ensures var g := old(Graph(tasks, agents, writes));
      && (forall i :: 0 <= i < |tasks| ==> tasks[i].status == Verdict(g, g[i], old(tasks[i].status)))
      && (forall i :: 0 <= i < |tasks| ==>
            ResultOf(tasks[i]) == FinalResult(g, g[i], writes[i], old(ResultOf(tasks[i]))))
      && allEvents == EventsOf(writes, DoneOrder(g, |g|))
      && Fronts(g, waves) && Front(g, |waves|) == []
    ensures forall i :: 0 <= i < |tasks| ==> Judged(tasks, old(Statuses(tasks)), agents, writes[i], i)
    ensures exists from :: CollectedFrom(tasks, old(Statuses(tasks)), writes, allEvents, from)
  {
    hide Rounds, DoneOrder, EventsOf, Winners, Enabled, StatusAfter, Verdict, RunBy, LeastFixpoint, Front, Fronts;
    ghost var g := Graph(tasks, agents, writes);
    ghost var initial := seq(|tasks|, i requires 0 <= i < |tasks| reads tasks => tasks[i].status);
    ghost var held := seq(|tasks|, i requires 0 <= i < |tasks| reads tasks => ResultOf(tasks[i]));
    StartTracked(tasks, agents, writes, g, initial, held);
    ghost var k;
    allEvents, k, waves := RunWaves(tasks, agents, writes, g, initial, held);
    Finish(g, k, initial);
    forall i | 0 <= i < |tasks| ensures Judged(tasks, initial, agents, writes[i], i) {
      JudgedByGraph(tasks, g, initial, agents, writes, held[i], i);
    }
    EventsCollected(tasks, g, initial, agents, writes, k);
    assert initial == old(Statuses(tasks));
  }

  /** How to read a verdict: every pending task is settled, and with distinct
      ids "done" means membership in the least fixpoint. */
  lemma {:induction false} VerdictMeaning(g: seq<Node>, i: nat)
    requires i < |g| && g[i].pending
    ensures Verdict(g, g[i], Pending) in {Done, Failed, Blocked}
    ensures DistinctIds(g) ==> (Verdict(g, g[i], Pending) == Done <==> g[i].id in LeastFixpoint(g))
    ensures Verdict(g, g[i], Pending) == Failed <==> g[i].deps <= LeastFixpoint(g) && !g[i].succeeds
    ensures Verdict(g, g[i], Pending) == Blocked <==> exists d :: d in g[i].deps && d !in LeastFixpoint(g)
  {
    hide LeastFixpoint, Step;
    LeastFixpointCorrect(g);
    var done := LeastFixpoint(g);
    if Enabled(g[i], done) && g[i].succeeds {
      InStep(g, done, i);
    }
    if DistinctIds(g) && g[i].id in done {
      var j := StepWitness(g, done, g[i].id);
    }
  }

  /** Every task that is enabled in the end runs once, in its wave, and no
      other task ever runs. */
  lemma {:induction false} RunsOnceInItsWave(g: seq<Node>, waves: seq<seq<nat>>, i: nat, w: nat)
    requires i < |g| && w < |waves| && Fronts(g, waves) && Front(g, |waves|) == []
    ensures i in waves[w] <==> Runs(g, i) && Wave(g, i) == w
    ensures Runs(g, i) ==> Wave(g, i) < |waves|
    ensures Distinct(waves[w])
  {
    hide Front, LeastFixpoint, Rounds;
    LeastFixpointCorrect(g);
    if i in waves[w] {
      var p :| 0 <= p < |waves[w]| && waves[w][p] == i;
      assert InFront(g, g[i], w);
      WaveUnique(g, i, w);
    }
    if Runs(g, i) {
      WaveEnds(g, i, |waves|);
    }
  }

  /** Where, in the collected events, the event of the p-th completed task
      stands if it has one. */
  function EventIndex(writes: seq<WriteOutcome>, order: seq<nat>, p: nat): nat
    requires p <= |order| && forall q :: 0 <= q < |order| ==> order[q] < |writes|
  {
    |EventsOf(writes, order[..p])|
  }

  lemma {:induction false} EventAtIndex(writes: seq<WriteOutcome>, order: seq<nat>, p: nat)
    requires p < |order| && forall q :: 0 <= q < |order| ==> order[q] < |writes|
    ensures EventIndex(writes, order, p + 1) == EventIndex(writes, order, p) + |EventOf(writes[order[p]])|
    ensures EventOf(writes[order[p]]) != [] ==>
      && EventIndex(writes, order, p) < |EventsOf(writes, order)|
      && [EventsOf(writes, order)[EventIndex(writes, order, p)]] == EventOf(writes[order[p]])
  {
    var one := [order[p]];
    assert EventsOf(writes, one) == EventOf(writes[order[p]]) by {
      assert one[1..] == [];
    }
    EventsOfAppend(writes, order[..p], one);
    assert order[..p + 1] == order[..p] + one;
    EventsOfAppend(writes, order[..p + 1], order[p + 1..]);
    assert order == order[..p + 1] + order[p + 1..];
  }

  lemma {:induction false} EventIndexGrows(writes: seq<WriteOutcome>, order: seq<nat>, p: nat, q: nat)
    requires p <= q <= |order| && forall i :: 0 <= i < |order| ==> order[i] < |writes|
    ensures EventIndex(writes, order, p) <= EventIndex(writes, order, q)
  {
    EventsOfAppend(writes, order[..p], order[p..q]);
    assert order[..q] == order[..p] + order[p..q];
  }

  /** In the events `execute` returns, the event of a completed task stands
      after the event of every dependency of it that has one. */
  lemma {:induction false} DependencyEventsFirst(g: seq<Node>, writes: seq<WriteOutcome>, p: nat, d: string)
    requires |writes| == |g| && p < |DoneOrder(g, |g|)| && d in g[DoneOrder(g, |g|)[p]].deps
    requires EventOf(writes[DoneOrder(g, |g|)[p]]) != []
    ensures var order, all := DoneOrder(g, |g|), EventsOf(writes, DoneOrder(g, |g|));
      exists q :: 0 <= q < p && g[order[q]].id == d
        && (EventOf(writes[order[q]]) != [] ==>
              && EventIndex(writes, order, q) < EventIndex(writes, order, p) < |all|
              && [all[EventIndex(writes, order, q)]] == EventOf(writes[order[q]])
              && [all[EventIndex(writes, order, p)]] == EventOf(writes[order[p]]))
  {
    hide DoneOrder, EventsOf, EventIndex, EventOf;
    var order := DoneOrder(g, |g|);
    DependenciesFirst(g, |g|, p, d);
    var q :| 0 <= q < p && g[order[q]].id == d;
    EventAtIndex(writes, order, q);
    EventAtIndex(writes, order, p);
    EventIndexGrows(writes, order, q + 1, p);
  }
}
