/** Ancestry, isolation, replay and blob lifetime of memory streams. */
module StreamFacts {
  import opened Prelude
  import opened Streams
  import opened StreamEngine
  import opened StreamRuns

  // ----------------------------------------------------------------- ancestry

  ghost predicate Earlier(log: seq<Event>, i: nat, p: string) {
    p == GENESIS || exists j :: 0 <= j < i && j < |log| && log[j].id == p
  }

  /** Every parent is genesis or an event written strictly earlier. */
  ghost predicate Grounded(log: seq<Event>) {
    forall i :: 0 <= i < |log| ==> forall p :: p in log[i].parents ==> Earlier(log, i, p)
  }

  lemma {:induction false} GroundedAdd(log: seq<Event>, e: Event)
    requires Grounded(log) && forall p :: p in e.parents ==> Earlier(log, |log|, p)
    ensures Grounded(log + [e])
  {
    var log' := log + [e];
    forall i, p | 0 <= i < |log'| && p in log'[i].parents ensures Earlier(log', i, p) {
      if p != GENESIS {
        assert i < |log| ==> log'[i] == log[i];
        assert Earlier(log, i, p);
        var j :| 0 <= j < i && j < |log| && log[j].id == p;
        assert log'[j].id == p;
      }
    }
  }

  lemma {:induction false} HeadEarlier(h: History, sid: string)
    requires Sound(h)
    ensures Earlier(h.log, |h.log|, HeadOrGenesis(h.rows, sid))
  {
    hide Of, Chained, DistinctIds;
    var s := Of(h.rows, sid);
    if s != [] {
      var last := s[|s| - 1];
      assert last in h.rows;
      var i :| 0 <= i < |h.rows| && h.rows[i] == last;
      assert last in h.log;
      var j :| 0 <= j < |h.log| && h.log[j] == last;
    }
  }

  lemma {:induction false} NextGrounded(hash: Hash, h: History, op: Op)
    requires Sound(h) && Grounded(h.log)
    ensures Grounded(Next(hash, h, op).log)
  {
    hide Sound, Grounded, Of, HeadOrGenesis, FindRow, Earlier, NextDrawn, KnownType, Unstored;
    var h' := Next(hash, h, op);
    assert Earlier(h.log, |h.log|, GENESIS) by { GenesisEarlier(h.log); }
    match op
    case AppendOp(sid, id, meta, _, _, _) =>
      HeadEarlier(h, sid);
      if KnownType(meta.memoryType) && Unstored(h, id) { GroundedAdd(h.log, h'.log[|h.log|]); }
    case ForkOp(_, from, _, id) =>
      if FindRow(h.rows, from).Some? && Unstored(h, id) { GroundedAdd(h.log, h'.log[|h.log|]); }
    case MergeOp(target, source, id) =>
      HeadEarlier(h, target);
      HeadEarlier(h, source);
      if Unstored(h, id) { GroundedAdd(h.log, h'.log[|h.log|]); }
    case _ =>
  }

  lemma {:induction false} GenesisEarlier(log: seq<Event>)
    ensures Earlier(log, |log|, GENESIS)
  {
  }

  /** Over every run, across forks, merges and deletions. */
  lemma {:induction false} RunGrounded(hash: Hash, ops: seq<Op>)
    requires FreshRun(hash, NOTHING, ops)
    ensures Grounded(RunHistory(hash, NOTHING, ops).log)
  {
    if ops != [] {
      var before := ops[..|ops| - 1];
      RunGrounded(hash, before);
      RunSound(hash, before);
      hide Grounded, Sound, Next;
      NextGrounded(hash, RunHistory(hash, NOTHING, before), ops[|ops| - 1]);
    }
  }

  lemma {:induction false} RunSound(hash: Hash, ops: seq<Op>)
    requires FreshRun(hash, NOTHING, ops)
    ensures Sound(RunHistory(hash, NOTHING, ops))
  {
    RunRep(hash, true, ops);
  }

  /** walk[k + 1] is the position of a parent of the event at walk[k]. */
  ghost predicate AncestorWalk(log: seq<Event>, walk: seq<nat>) {
    && (forall k :: 0 <= k < |walk| ==> walk[k] < |log|)
    && (forall k :: 0 < k < |walk| ==> log[walk[k]].id in log[walk[k - 1]].parents)
  }

  /** No event's id is named as a parent by an event written before it (or by
      itself): ids of deleted events are not used again while they are named. */
  ghost predicate NoReusedParents(log: seq<Event>) {
    forall i, j :: 0 <= i <= j < |log| ==> log[j].id !in log[i].parents
  }

  /** Every step of every ancestor walk goes back at least one event. */
  ghost predicate WalksEnd(log: seq<Event>) {
    forall walk, k: nat :: AncestorWalk(log, walk) && k < |walk| ==> walk[k] + k <= walk[0]
  }

  lemma {:induction false} WalkGoesBack(log: seq<Event>, walk: seq<nat>, k: nat)
    requires NoReusedParents(log) && AncestorWalk(log, walk) && k < |walk|
    ensures walk[k] + k <= walk[0]
  {
    if k > 0 {
      WalkGoesBack(log, walk, k - 1);
      var child, parent := walk[k - 1], walk[k];
      assert log[parent].id in log[child].parents;
    }
  }

  /** Ancestor walks go back in time, and so end, if and only if no event's id
      was named as a parent before it was written. */
  lemma {:induction false} WalksEndIff(log: seq<Event>)
    ensures WalksEnd(log) <==> NoReusedParents(log)
  {
    if NoReusedParents(log) {
      forall walk, k: nat | AncestorWalk(log, walk) && k < |walk| ensures walk[k] + k <= walk[0] {
        WalkGoesBack(log, walk, k);
      }
    } else {
      var i, j :| 0 <= i <= j < |log| && log[j].id in log[i].parents;
      var walk: seq<nat> := [i, j];
      assert AncestorWalk(log, walk);
      assert walk[1] + 1 > walk[0];
    }
  }

  ghost predicate Named(log: seq<Event>, id: string) {
    exists i :: 0 <= i < |log| && id in log[i].parents
  }

  /** One operation keeps the walks ending if and only if the event it writes,
      if any, has an id that no event names as a parent. */
  lemma {:induction false} NextWalksEndIff(hash: Hash, h: History, op: Op)
    requires Sound(h) && Fresh(h, op)
    ensures var log := Next(hash, h, op).log;
      && h.log <= log && |log| <= |h.log| + 1
      && (WalksEnd(log) <==> WalksEnd(h.log) && (|log| > |h.log| ==> !Named(h.log, log[|h.log|].id)))
  {
    WalksEndIff(h.log);
    WalksEndIff(Next(hash, h, op).log);
    hide Sound, HeadOrGenesis, NextDrawn, KnownType, Drop, WalksEnd, NoReusedParents, Named, Unstored, FindRow;
    var log := Next(hash, h, op).log;
    if |log| > |h.log| {
      var e := log[|h.log|];
      assert log == h.log + [e];
      match op {
        case AppendOp(sid, id, _, _, _, _) => HeadIsOther(h, sid, id);
        case ForkOp(_, _, _, id) =>
        case MergeOp(target, source, id) =>
          HeadIsOther(h, target, id);
          HeadIsOther(h, source, id);
        case _ =>
      }
      assert e.id !in e.parents;
      ReusedStep(h.log, e);
    } else {
      assert log == h.log;
    }
  }

  /** A new event does not name itself. */
  lemma {:induction false} HeadIsOther(h: History, sid: string, id: string)
    requires Sound(h)
    ensures Unstored(h, id) && UsableId(id) ==> HeadOrGenesis(h.rows, sid) != id
  {
    hide Of, Chained, DrawnAhead, FindRow;
    var s := Of(h.rows, sid);
    if s != [] {
      assert s[|s| - 1] in h.rows;
    }
  }

  lemma {:induction false} ReusedStep(log: seq<Event>, e: Event)
    requires e.id !in e.parents
    ensures NoReusedParents(log + [e]) <==> NoReusedParents(log) && !Named(log, e.id)
  {
    var log' := log + [e];
    assert log'[|log|] == e;
    assert forall i :: 0 <= i < |log| ==> log'[i] == log[i];
  }

  /** An append whose id is that of a deleted event closes a loop: x is written
      to stream a and merged into stream b, a is deleted, and x is written to b. */
  lemma {:induction false} ReusedIdLoops(hash: Hash, payload: Payload)
    ensures var ops := [AppendOp("a", "x", OBSERVATION, None, None, payload), MergeOp("b", "a", "y"), DeleteOp("a"),
                        AppendOp("b", "x", OBSERVATION, None, None, payload)];
      && FreshRun(hash, NOTHING, ops)
      && !WalksEnd(RunHistory(hash, NOTHING, ops).log)
  {
    hide RunHistory, FreshRun, WalksEnd, Sound;
    var x, m := AppendOp("a", "x", OBSERVATION, None, None, payload), MergeOp("b", "a", "y");
    var d, x2 := DeleteOp("a"), AppendOp("b", "x", OBSERVATION, None, None, payload);
    var ops := [x, m, d, x2];
    var h1, h2, h3 := LoopSteps(hash, payload);
    hide Next;
    RunSteps(hash, ops, h1, h2, h3);
    RunSound(hash, ops[..3]);
    NextWalksEndIff(hash, h3, x2);
    assert "x" in h3.log[1].parents;
  }

  lemma {:induction false} LoopSteps(hash: Hash, payload: Payload) returns (h1: History, h2: History, h3: History)
    ensures h1 == Next(hash, NOTHING, AppendOp("a", "x", OBSERVATION, None, None, payload))
    ensures h2 == Next(hash, h1, MergeOp("b", "a", "y"))
    ensures h3 == Next(hash, h2, DeleteOp("a"))
    ensures |h3.log| == 2 && "x" in h3.log[1].parents && Unstored(h3, "x")
    ensures var h4 := Next(hash, h3, AppendOp("b", "x", OBSERVATION, None, None, payload));
      |h4.log| == 3 && h4.log[2].id == "x"
  {
    ObservationKnown();
    hide KnownType, Stamped, NextDrawn, Of, HeadOrGenesis, Drop;
    h1 := Next(hash, NOTHING, AppendOp("a", "x", OBSERVATION, None, None, payload));
    var e1 := h1.log[0];
    assert h1.rows == [e1] && e1.stream == "a" && e1.id == "x";
    OneRow(e1);
    h2 := Next(hash, h1, MergeOp("b", "a", "y"));
    assert "y"[0] != "x"[0];
    OtherRow(e1, "y");
    var e2 := h2.log[1];
    assert h2.rows == [e1, e2] && e2.stream == "b" && e2.id == "y" && e2.parents[1] == "x";
    h3 := Next(hash, h2, DeleteOp("a"));
    DropOne(e1, e2);
    OtherRow(e2, "x");
  }

  lemma {:induction false} OtherRow(e: Event, id: string)
    requires e.id != id
    ensures FindRow([e], id) == None
  {
  }

  lemma {:induction false} OneRow(e: Event)
    ensures HeadOrGenesis([e], e.stream) == e.id
  {
    assert [e][1..] == [];
  }

  lemma {:induction false} DropOne(e1: Event, e2: Event)
    requires e1.stream == "a" && e2.stream == "b"
    ensures Drop([e1, e2], "a") == [e2]
  {
    assert [e1, e2][1..] == [e2] && [e2][1..] == [];
    assert "a"[0] != "b"[0];
    assert Drop([e2], "a") == [e2] + Drop([], "a");
  }

  lemma {:induction false} RunSteps(hash: Hash, ops: seq<Op>, h1: History, h2: History, h3: History)
    requires |ops| == 4 && h1 == Next(hash, NOTHING, ops[0])
    requires h2 == Next(hash, h1, ops[1]) && h3 == Next(hash, h2, ops[2])
    requires Fresh(NOTHING, ops[0]) && Fresh(h1, ops[1]) && Fresh(h2, ops[2]) && Fresh(h3, ops[3])
    ensures RunHistory(hash, NOTHING, ops[..3]) == h3 && RunHistory(hash, NOTHING, ops) == Next(hash, h3, ops[3])
    ensures FreshRun(hash, NOTHING, ops) && FreshRun(hash, NOTHING, ops[..3])
  {
    hide Next, Fresh;
    assert ops[..1][..0] == [] && ops[..2][..1] == ops[..1] && ops[..3][..2] == ops[..2];
    assert RunHistory(hash, NOTHING, ops[..1]) == h1;
    assert RunHistory(hash, NOTHING, ops[..2]) == h2;
    assert FreshRun(hash, NOTHING, ops[..1]);
    assert FreshRun(hash, NOTHING, ops[..2]);
  }

  /** The stream whose events an operation may change. */
  function Touched(op: Op): Option<string> {
    match op
    case AppendOp(sid, _, _, _, _, _) => Some(sid)
    case ForkOp(_, _, newSid, _) => Some(newSid)
    case MergeOp(target, _, _) => Some(target)
    case DeleteOp(sid) => Some(sid)
    case _ => None
  }

  /** The operation writes an event whose id is that of a parent already named. */
  ghost predicate ReusesParent(h: History, op: Op) {
    Touched(op).Some? && Writes(h, op, Touched(op).value) && Named(h.log, op.id)
  }

  lemma {:induction false} NextLog(hash: Hash, h: History, op: Op)
    ensures var log := Next(hash, h, op).log;
      if Touched(op).Some? && Writes(h, op, Touched(op).value)
      then |log| == |h.log| + 1 && log[|h.log|].id == op.id
      else |log| == |h.log|
  {
    hide HeadOrGenesis, NextDrawn, KnownType, Unstored, Drop, FindRow;
  }

  /** No write of the run does that. */
  ghost predicate NoParentReused(hash: Hash, h: History, ops: seq<Op>) {
    ops == []
    || (NoParentReused(hash, h, ops[..|ops| - 1])
        && !ReusesParent(RunHistory(hash, h, ops[..|ops| - 1]), ops[|ops| - 1]))
  }

  /** Over every run, refused writes included, every ancestor walk goes back in
      time and so ends if and only if no write used the id of a parent again. */
  lemma {:induction false} RunWalksEndIff(hash: Hash, ops: seq<Op>)
    requires FreshRun(hash, NOTHING, ops)
    ensures WalksEnd(RunHistory(hash, NOTHING, ops).log) <==> NoParentReused(hash, NOTHING, ops)
  {
    hide WalksEnd, ReusesParent, Next, Fresh;
    if ops == [] {
      WalksEndIff(NOTHING.log);
    } else {
      var front := ops[..|ops| - 1];
      RunWalksEndIff(hash, front);
      RunSound(hash, front);
      StepWalksEndIff(hash, RunHistory(hash, NOTHING, front), ops[|ops| - 1]);
    }
  }

  lemma {:induction false} StepWalksEndIff(hash: Hash, h: History, op: Op)
    requires Sound(h) && Fresh(h, op)
    ensures WalksEnd(Next(hash, h, op).log) <==> WalksEnd(h.log) && !ReusesParent(h, op)
  {
    hide Sound, Fresh, WalksEnd, Next, Writes, Named;
    NextWalksEndIff(hash, h, op);
    NextLog(hash, h, op);
  }

  /** The event an operation writes, if any, has an id that no event had before,
      not even a deleted one. */
  predicate Unused(h: History, op: Op) {
    Touched(op).Some? && Writes(h, op, Touched(op).value) ==> op.id !in Ids(h.log)
  }

  predicate UnusedIds(hash: Hash, h: History, ops: seq<Op>) {
    ops == []
    || (UnusedIds(hash, h, ops[..|ops| - 1]) && Unused(RunHistory(hash, h, ops[..|ops| - 1]), ops[|ops| - 1]))
  }

  lemma {:induction false} UnusedIsNoParent(h: History, op: Op)
    requires Grounded(h.log) && Fresh(h, op) && Unused(h, op)
    ensures !ReusesParent(h, op)
  {
    hide FindRow, KnownType, Unstored;
    assert forall j :: 0 <= j < |h.log| ==> Ids(h.log)[j] == h.log[j].id;
  }

  lemma {:induction false} UnusedRun(hash: Hash, ops: seq<Op>)
    requires FreshRun(hash, NOTHING, ops) && UnusedIds(hash, NOTHING, ops)
    ensures NoParentReused(hash, NOTHING, ops)
  {
    hide ReusesParent, Grounded, Unused, Fresh, RunHistory;
    if ops != [] {
      var front := ops[..|ops| - 1];
      UnusedRun(hash, front);
      RunGrounded(hash, front);
      UnusedIsNoParent(RunHistory(hash, NOTHING, front), ops[|ops| - 1]);
    }
  }

  /** In particular they end while no deleted event's id is used again. */
  lemma {:induction false} RunWalksEnd(hash: Hash, ops: seq<Op>)
    requires FreshRun(hash, NOTHING, ops) && UnusedIds(hash, NOTHING, ops)
    ensures WalksEnd(RunHistory(hash, NOTHING, ops).log)
  {
    UnusedRun(hash, ops);
    RunWalksEndIff(hash, ops);
  }

  // ---------------------------------------------------------------- isolation

  /** Fork fills one new stream, append and merge add one event at the end of
      their target, delete empties its stream; every other stream stays, and a
      refused write changes none. */
  lemma {:induction false} OnlyTouchedChanges(hash: Hash, h: History, op: Op, sid: string)
    requires Sound(h) && Fresh(h, op)
    ensures Touched(op) != Some(sid) ==> Of(Next(hash, h, op).rows, sid) == Of(h.rows, sid)
    ensures Writes(h, op, sid) ==>
      exists e :: Of(Next(hash, h, op).rows, sid) == Of(h.rows, sid) + [e] && e.id == op.id
    ensures op.ForkOp? && Writes(h, op, sid) ==> |Of(Next(hash, h, op).rows, sid)| == 1
    ensures !Writes(h, op, sid) && !op.DeleteOp? ==> Of(Next(hash, h, op).rows, sid) == Of(h.rows, sid)
    ensures op.DeleteOp? && op.sid == sid ==> Of(Next(hash, h, op).rows, sid) == []
  {
    hide Sound, Of, Drop, FindRow, HeadOrGenesis, UsableId, Unstored, NextDrawn, KnownType;
    var h' := Next(hash, h, op);
    if op.ForkOp? { NewStreamEmpty(h, op.newSid); }
    if |h'.log| > |h.log| {
      OfOne(h.rows, h'.rows[|h.rows|], sid);
    } else if op.DeleteOp? {
      OfDrop(h.rows, op.sid, sid);
    }
  }

  // ------------------------------------------------------------------- replay

  /** `read`: the payload of an event, or none when its blob is gone (the
      timeline shows such an event with an empty payload). */
  function Read(e: Engine, id: string): Option<Payload> {
    var event := Get(e.tables, id);
    if event.Some? && event.value.blobId in e.blobs then Some(e.blobs[event.value.blobId]) else None
  }

  function TimelineOf(e: Engine, events: seq<Event>): (r: seq<(Event, Option<Payload>)>)
    ensures |r| == |events|
    ensures forall i :: 0 <= i < |events| ==> r[i] == (events[i], Read(e, events[i].id))
  {
    if events == [] then [] else [(events[0], Read(e, events[0].id))] + TimelineOf(e, events[1..])
  }

  /** The loop of `replay` from position i (counted from 0) on. */
  function ReplayFrom<P>(tl: seq<(Event, P)>, i: nat, from: int, upTo: Option<int>): seq<P>
    requires i <= |tl|
    decreases |tl| - i
  {
    if i == |tl| then []
    else
      var epoch := if tl[i].0.epoch != 0 then tl[i].0.epoch else i + 1;
      (if epoch >= from && (upTo.None? || epoch <= upTo.value) then [tl[i].1] else [])
        + ReplayFrom(tl, i + 1, from, upTo)
  }

  function Clamp(x: int, n: nat): (r: nat)
    ensures r <= n
  {
    if x < 0 then 0 else if x > n then n else x
  }

  function Seconds<E, P>(s: seq<(E, P)>): (r: seq<P>)
    ensures |r| == |s|
    ensures forall i :: 0 <= i < |s| ==> r[i] == s[i].1
  {
    if s == [] then [] else [s[0].1] + Seconds(s[1..])
  }

  /** The payloads at positions lo up to hi. */
  function Payloads<P>(tl: seq<(Event, P)>, lo: nat, hi: nat): seq<P>
    requires hi <= |tl|
  {
    if lo <= hi then Seconds(tl[lo..hi]) else []
  }

  lemma {:induction false} PayloadsStep<P>(tl: seq<(Event, P)>, i: nat, hi: nat)
    requires i < hi <= |tl|
    ensures Payloads(tl, i, hi) == [tl[i].1] + Payloads(tl, i + 1, hi)
  {
    assert tl[i..hi] == [tl[i]] + tl[i + 1..hi];
    assert tl[i..hi][1..] == tl[i + 1..hi];
  }

  lemma {:induction false} NoPayloads<P>(tl: seq<(Event, P)>, lo: nat, hi: nat)
    requires hi <= lo && hi <= |tl|
    ensures Payloads(tl, lo, hi) == []
  {
    if lo <= hi { assert tl[lo..hi] == []; }
  }

  /** How many leading events have an epoch below the bound. */
  function Below<P>(tl: seq<(Event, P)>, bound: int): (n: nat)
    ensures n <= |tl|
    ensures forall i :: 0 <= i < n ==> tl[i].0.epoch < bound
    ensures n < |tl| ==> tl[n].0.epoch >= bound
  {
    if tl == [] || tl[0].0.epoch >= bound then 0 else 1 + Below(tl[1..], bound)
  }

  function UpperBound<P>(tl: seq<(Event, P)>, upTo: Option<int>): (r: nat)
    ensures r <= |tl|
  {
    if upTo.None? then |tl| else Below(tl, upTo.value + 1)
  }

  ghost predicate Increasing<P>(tl: seq<(Event, P)>) {
    && (forall i :: 0 <= i < |tl| ==> tl[i].0.epoch > 0)
    && (forall i, j :: 0 <= i < j < |tl| ==> tl[i].0.epoch < tl[j].0.epoch)
  }

  lemma {:induction false} BelowMeaning<P>(tl: seq<(Event, P)>, i: nat, bound: int)
    requires Increasing(tl) && i < |tl|
    ensures tl[i].0.epoch >= bound <==> Below(tl, bound) <= i
  {
    hide Below;
    var n := Below(tl, bound);
    if n < i {
      assert tl[n].0.epoch < tl[i].0.epoch;
    }
  }

  /** From position i on, the loop keeps exactly the positions in range. */
  lemma {:induction false} ReplayFromSlice<P>(tl: seq<(Event, P)>, i: nat, from: int, upTo: Option<int>)
    requires i <= |tl| && Increasing(tl)
    ensures ReplayFrom(tl, i, from, upTo) == Payloads(tl, Max(i, Below(tl, from)), UpperBound(tl, upTo))
    decreases |tl| - i
  {
    hide Payloads, Below;
    var lo, hi := Below(tl, from), UpperBound(tl, upTo);
    if i == |tl| {
      NoPayloads(tl, Max(i, lo), hi);
    } else {
      ReplayFromSlice(tl, i + 1, from, upTo);
      BelowMeaning(tl, i, from);
      if upTo.Some? { BelowMeaning(tl, i, upTo.value + 1); }
      if i >= hi {
        NoPayloads(tl, Max(i, lo), hi);
        NoPayloads(tl, Max(i + 1, lo), hi);
      } else if lo <= i {
        PayloadsStep(tl, i, hi);
      }
    }
  }

  /** In every reachable SQLite state, `replay(stream, up_to, from)` is one
      contiguous slice of the timeline's payloads: from the first event whose
      epoch reaches `from` to the last whose epoch does not exceed `up_to`. */
  lemma {:induction false} ReplayIsSlice(hash: Hash, ops: seq<Op>, sid: string, from: int, upTo: Option<int>)
    requires FreshRun(hash, NOTHING, ops)
    ensures var e := RunEngine(hash, NewEngine(true), ops);
      var tl := TimelineOf(e, List(e.tables, sid));
      ReplayFrom(tl, 0, from, upTo) == Payloads(tl, Below(tl, from), UpperBound(tl, upTo))
  {
    SqliteStreamsWellFormed(hash, ops, sid);
    var e := RunEngine(hash, NewEngine(true), ops);
    var tl := TimelineOf(e, List(e.tables, sid));
    hide RunEngine, FreshRun, TimelineOf, List, ReplayFrom, Chain;
    forall i, j | 0 <= i <= j < |tl| ensures tl[i].0.epoch > 0 && (i < j ==> tl[i].0.epoch < tl[j].0.epoch) {
      EpochsIncrease(List(e.tables, sid), i, j);
    }
    ReplayFromSlice(tl, 0, from, upTo);
  }

  /** While no append to the stream was refused, epochs are positions counted
      from one, so the slice is the one from `from` to `up_to`. */
  lemma {:induction false} ReplayByPosition(hash: Hash, ops: seq<Op>, sid: string, from: int, upTo: Option<int>)
    requires FreshRun(hash, NOTHING, ops)
    requires !Skipped(hash, NOTHING, ops, sid)
    ensures var e := RunEngine(hash, NewEngine(true), ops);
      var tl := TimelineOf(e, List(e.tables, sid));
      ReplayFrom(tl, 0, from, upTo)
        == Payloads(tl, Clamp(from - 1, |tl|), if upTo.None? then |tl| else Clamp(upTo.value, |tl|))
  {
    ReplayIsSlice(hash, ops, sid, from, upTo);
    EpochsContiguousIff(hash, ops, sid);
    var e := RunEngine(hash, NewEngine(true), ops);
    var tl := TimelineOf(e, List(e.tables, sid));
    hide RunEngine, FreshRun, TimelineOf, List, ReplayFrom, Payloads, Below, Skipped;
    assert forall i :: 0 <= i < |tl| ==> tl[i].0.epoch == i + 1;
    BelowIsClamp(tl, from);
    if upTo.Some? { BelowIsClamp(tl, upTo.value + 1); }
  }

  lemma {:induction false} BelowIsClamp<P>(tl: seq<(Event, P)>, bound: int)
    requires forall i :: 0 <= i < |tl| ==> tl[i].0.epoch == i + 1
    ensures Below(tl, bound) == Clamp(bound - 1, |tl|)
  {
    hide Below;
    var n := Below(tl, bound);
    if n > 0 {
      assert tl[n - 1].0.epoch == n;
    }
  }

  // ------------------------------------------------------------ blob lifetime

  ghost predicate ContentAddressed(hash: Hash, e: Engine) {
    forall b :: b in e.blobs ==> hash(e.blobs[b]) == b
  }

  ghost predicate Injective(hash: Hash) {
    forall p, q :: hash(p) == hash(q) ==> p == q
  }

  /** A payload that can be read stays readable, unchanged, under every
      operation except a deletion; and an append makes its own readable. */
  lemma {:induction false} PayloadsKept(hash: Hash, e: Engine, op: Op, b: string)
    requires Injective(hash) && ContentAddressed(hash, e)
    ensures ContentAddressed(hash, Do(hash, e, op))
    ensures !op.DeleteOp? && b in e.blobs ==> b in Do(hash, e, op).blobs && Do(hash, e, op).blobs[b] == e.blobs[b]
    ensures op.AppendOp? ==>
      var stored := Stamped(op.payload, op.meta, op.signature);
      hash(stored) in Do(hash, e, op).blobs && Do(hash, e, op).blobs[hash(stored)] == stored
  {
    hide AppendEvent, NextEpoch, HeadOr, Get, CreateStream, RegisterStream, DeleteRows, List, BlobIds, KnownType,
      Stamped;
  }

  /** Deleting a stream also deletes blobs by content.  The payload of an event
      of another stream survives exactly when no deleted event had the same
      content. */
  lemma {:induction false} DeleteKeepsPayloadIff(e: Engine, h: History, gone: string, event: Event)
    requires Sound(h) && Represents(e, h) && event in h.rows && event.stream != gone && event.blobId in e.blobs
    ensures Get(Delete(e, gone).tables, event.id).Some?
    ensures Read(Delete(e, gone), event.id).Some? <==>
      forall x :: x in Of(h.rows, gone) ==> x.blobId != event.blobId
  {
    hide Sound, Represents, Of, DeleteRows, Get, List, BlobIds, HeadOf, Head, HeadOr, HeadOrGenesis, FindRow,
      ReadBack, StoredRows;
    SurvivorGets(e, h, gone, event);
    RunAnswers(e, h, gone, event.id);
    SharedBlob(e, h, gone, event.blobId);
  }

  lemma {:induction false} SurvivorGets(e: Engine, h: History, gone: string, event: Event)
    requires Sound(h) && Represents(e, h) && event in h.rows && event.stream != gone
    ensures var found := Get(Delete(e, gone).tables, event.id);
      found.Some? && found.value.blobId == event.blobId
  {
    hide Sound, Represents, Of, Drop, FindRow, Delete, Get, List, HeadOf, Head, HeadOr, HeadOrGenesis, StoredRows,
      ReadBack;
    var h' := Dropped(h, gone);
    DeleteRep(e, h, gone);
    DroppedSound(h, gone);
    SurvivorFound(h, gone, event);
    RunAnswers(Delete(e, gone), h', gone, event.id);
  }

  lemma {:induction false} SharedBlob(e: Engine, h: History, gone: string, b: string)
    requires List(e.tables, gone) == ReadBack(e.tables, Of(h.rows, gone))
    ensures b in BlobIds(List(e.tables, gone)) <==> !forall x :: x in Of(h.rows, gone) ==> x.blobId != b
  {
    hide List, Of;
    var s := Of(h.rows, gone);
    BlobsRead(e.tables, s);
    if b in BlobIds(s) {
      var i :| 0 <= i < |s| && s[i].blobId == b;
      assert s[i] in s;
    }
  }

  lemma {:induction false} SurvivorFound(h: History, gone: string, event: Event)
    requires Sound(h) && event in h.rows && event.stream != gone
    ensures FindRow(Drop(h.rows, gone), event.id) == Some(event)
  {
    hide Chained, Of, FindRow, Drop;
    var rows := Drop(h.rows, gone);
    assert event in rows;
    DropDistinct(h.rows, gone);
    var i :| 0 <= i < |rows| && rows[i] == event;
    SameRow(rows, event, FindRow(rows, event.id).value);
  }

  lemma {:induction false} BlobsRead(t: Tables, s: seq<Event>)
    ensures BlobIds(ReadBack(t, s)) == BlobIds(s)
  {
    forall b | b in BlobIds(s) ensures b in BlobIds(ReadBack(t, s)) {
      var i :| 0 <= i < |s| && s[i].blobId == b;
      assert ReadBack(t, s)[i].blobId == b;
    }
    forall b | b in BlobIds(ReadBack(t, s)) ensures b in BlobIds(s) {
      var i :| 0 <= i < |s| && ReadBack(t, s)[i].blobId == b;
      assert s[i].blobId == b;
    }
  }

  // ------------------------------------------------- where the invariant breaks

  /** A refused append (an unknown memory type, or an id already stored) burns
      an epoch: the next event this engine writes to the stream skips one,
      until a restart. */
  lemma {:induction false} EpochGapIff(hash: Hash, e: Engine, h: History, sid: string, first: string, meta: Meta,
                                       second: string, payload: Payload)
    requires Sound(h) && Represents(e, h) && e.tables.Sqlite?
    requires UsableId(first) && FreshId(h, second) && second != first
    ensures var (e1, r1) := Append(hash, e, sid, first, meta, None, None, payload);
      var (e2, r2) := Append(hash, e1, sid, second, OBSERVATION, None, None, payload);
      && r2.Ok?
      && (r1.Ok? <==> KnownType(meta.memoryType) && Unstored(h, first))
      && (r1 == Raised(ValueError) <==> !KnownType(meta.memoryType))
      && (r2.value.epoch == LastEpoch(List(e1.tables, sid)) + 1 <==> r1.Ok?)
      && NextEpoch(Restart(e1), sid) == LastEpoch(List(e1.tables, sid)) + 1
  {
    hide Sound, Represents, Of, HeadOr, HeadOrGenesis, List, UsableId, Unstored, HeadOf, Head, StoredRows, KnownType,
      LastEpoch, Stamped, Refused;
    RunAnswers(e, h, sid, first);
    var (e1, r1) := Append(hash, e, sid, first, meta, None, None, payload);
    if !Unstored(h, first) || !KnownType(meta.memoryType) {
      RefusedRep(hash, e, h, sid, first, [HeadOr(e.tables, sid)], meta.memoryType, None, Stamped(payload, meta, None));
      AcceptedAfterRefusal(hash, h, e1, sid, second, payload);
    } else {
      AcceptedAfterAppend(hash, e, h, sid, first, meta, second, payload);
    }
  }

  lemma {:induction false} AcceptedAfterAppend(hash: Hash, e: Engine, h: History, sid: string, first: string,
                                               meta: Meta, second: string, payload: Payload)
    requires Sound(h) && Represents(e, h) && e.tables.Sqlite? && KnownType(meta.memoryType)
    requires FreshId(h, first) && FreshId(h, second) && second != first
    ensures var (e1, r1) := Append(hash, e, sid, first, meta, None, None, payload);
      var (e2, r2) := Append(hash, e1, sid, second, OBSERVATION, None, None, payload);
      && r1.Ok? && r2.Ok? && r2.value.epoch == LastEpoch(List(e1.tables, sid)) + 1
      && NextEpoch(Restart(e1), sid) == LastEpoch(List(e1.tables, sid)) + 1
  {
    hide Sound, Represents, Of, HeadOr, HeadOrGenesis, List, UsableId, Unstored, HeadOf, Head, StoredRows, KnownType,
      LastEpoch, Stamped, NextDrawn;
    RunAnswers(e, h, sid, first);
    var e1 := Append(hash, e, sid, first, meta, None, None, payload).0;
    var parents, stamped := [HeadOr(e.tables, sid)], Stamped(payload, meta, None);
    var h1 := Written(h, sid, first, parents, meta.memoryType, None, hash(stamped));
    WriteRep(hash, e, h, sid, first, parents, meta.memoryType, None, stamped);
    NextSound(hash, h, AppendOp(sid, first, meta, None, None, payload));
    FreshAfter(h, h1, first, second);
    ObservationKnown();
    EpochAnswer(e1, h1, sid);
    var stamped2 := Stamped(payload, OBSERVATION, None);
    WriteRep(hash, e1, h1, sid, second, [HeadOr(e1.tables, sid)], "observation", None, stamped2);
    LastWritten(e1, h1, h, sid);
    RestartRep(e1, h1);
    RestartSound(h1);
    EpochAnswer(Restart(e1), h1.(drawn := map[]), sid);
    RestartDrawn(e1, h1, sid);
  }

  /** Right after a write the last stored epoch is the last one drawn. */
  lemma {:induction false} LastWritten(e: Engine, h: History, h0: History, sid: string)
    requires Sound(h) && Represents(e, h) && h.rows != [] && h == Added(h0, h.rows[|h.rows| - 1])
    requires h.rows[|h.rows| - 1].stream == sid
    ensures NextDrawn(h, sid) == LastEpoch(List(e.tables, sid)) + 1
  {
    hide Sound, Of, StoredRows, HeadOf, HeadOr, HeadOrGenesis, FindRow, Represents, List;
    OfOne(h0.rows, h.rows[|h.rows| - 1], sid);
    StoredLast(e, h, sid);
  }

  lemma {:induction false} StoredLast(e: Engine, h: History, sid: string)
    requires Sound(h) && Represents(e, h)
    ensures LastEpoch(List(e.tables, sid)) == LastEpoch(Of(h.rows, sid))
    ensures List(e.tables, sid) == [] <==> Of(h.rows, sid) == []
  {
    hide Sound, Of, HeadOf, HeadOr, HeadOrGenesis, FindRow, Represents, List;
    RunAnswers(e, h, sid, "");
  }

  lemma {:induction false} RestartDrawn(e: Engine, h: History, sid: string)
    requires Sound(h) && Represents(e, h)
    ensures NextDrawn(h.(drawn := map[]), sid) == LastEpoch(List(e.tables, sid)) + 1
  {
    hide Sound, Of, LastEpoch, Represents, List;
    StoredLast(e, h, sid);
  }

  lemma {:induction false} FreshAfter(h: History, h1: History, first: string, second: string)
    requires FreshId(h, second) && second != first && |h1.rows| == |h.rows| + 1 && h1.rows[..|h.rows|] == h.rows
    requires h1.rows[|h.rows|].id == first
    ensures FreshId(h1, second)
  {
    hide FindRow;
    forall i | 0 <= i < |h1.rows| ensures h1.rows[i].id != second {
      if i < |h.rows| { assert h1.rows[i] == h.rows[i]; }
    }
  }

  lemma {:induction false} RestartRep(e: Engine, h: History)
    requires Represents(e, h) && e.tables.Sqlite?
    ensures Represents(Restart(e), h.(drawn := map[]))
  {
    SameTables(e.tables, h, h.(drawn := map[]));
    hide SqlRep, Of;
  }

  lemma {:induction false} AcceptedAfterRefusal(hash: Hash, h: History, e1: Engine, sid: string, id: string,
                                                payload: Payload)
    requires Sound(h) && Represents(e1, Refused(h, sid)) && e1.tables.Sqlite? && FreshId(h, id)
    ensures var r := Append(hash, e1, sid, id, OBSERVATION, None, None, payload).1;
      r.Ok? && r.value.epoch > LastEpoch(List(e1.tables, sid)) + 1
    ensures NextEpoch(Restart(e1), sid) == LastEpoch(List(e1.tables, sid)) + 1
  {
    hide Sound, Represents, Of, FindRow, StoredRows, HeadOr, List, UsableId, LastEpoch, Stamped, KnownType, NextDrawn;
    var h1 := Refused(h, sid);
    RefusedSound(h, sid);
    NextDrawnLater(h, sid);
    StillFresh(h, h1, id);
    ObservationKnown();
    EpochAnswer(e1, h1, sid);
    WriteRep(hash, e1, h1, sid, id, [HeadOr(e1.tables, sid)], "observation", None, Stamped(payload, OBSERVATION, None));
    StoredLast(e1, h1, sid);
    RestartRep(e1, h1);
    RestartSound(h1);
    EpochAnswer(Restart(e1), h1.(drawn := map[]), sid);
    RestartDrawn(e1, h1, sid);
    DrawnTwice(h, sid);
  }

  lemma {:induction false} DrawnTwice(h: History, sid: string)
    ensures NextDrawn(Refused(h, sid), sid) == NextDrawn(h, sid) + 1
  {
  }

  /** Over the in-memory ledger, which persists no counter, a new engine on the
      same ledger draws a later epoch exactly for streams that are still empty. */
  lemma {:induction false} InMemoryRestartIff(e: Engine, h: History, sid: string)
    requires Sound(h) && Represents(e, h) && e.tables.InMem?
    ensures NextEpoch(Restart(e), sid) > LastEpoch(List(e.tables, sid)) <==> List(e.tables, sid) == []
  {
    hide Represents, Of, HeadOf, HeadOrGenesis, FindRow, List, Chain;
    StoredLast(e, h, sid);
    var s := Of(h.rows, sid);
    assert Chain(s);
    if s != [] { EpochsIncrease(s, |s| - 1, |s| - 1); }
  }
}
