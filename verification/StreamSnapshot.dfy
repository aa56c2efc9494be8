/** Snapshot and restore of a stream: `snapshot` and `restore_snapshot`
    (walrusos/engine/memory.py:394-449). */
module StreamSnapshot {
  import opened Prelude
  import opened Streams
  import opened StreamEngine
  import opened StreamRuns
  import opened StreamFacts
  import ME = MemoryEngine

  /** What a snapshot records of a stream and a restore reads: its payloads.
      (It also asks each event for a `class_type`, which memory events do not
      have, and so records "episodic" for all of them.) */
  function SnapshotOf(e: Engine, sid: string): seq<Option<Payload>> {
    Seconds(TimelineOf(e, List(e.tables, sid)))
  }

  /** It is what reading each listed event gives, in order. */
  lemma {:induction false} SnapshotReads(e: Engine, sid: string)
    ensures var events := List(e.tables, sid);
      && |SnapshotOf(e, sid)| == |events|
      && forall i :: 0 <= i < |events| ==> SnapshotOf(e, sid)[i] == Read(e, events[i].id)
  {
    hide List, Read;
  }

  const EPISODIC := DefaultMeta("episodic")

  /** An event whose blob is gone is snapshot with an empty object. */
  const EMPTY_OBJECT := Plain(Text("{}"))

  function Shown(p: Option<Payload>): Payload {
    if p.Some? then p.value else EMPTY_OBJECT
  }

  /** The payload that a restore from the snapshot blob snap appends: without
      its signature, and marked. */
  function Unsigned(p: Option<Payload>, snap: string): Payload {
    Shown(p).(signature := None, restoredFrom := Some(snap))
  }

  /** A restore of the first n payloads, as operations of the engine. */
  function RestoreOps(sid: string, ids: seq<string>, payloads: seq<Option<Payload>>, snap: string, n: nat): seq<Op>
    requires n <= |ids| && n <= |payloads|
  {
    if n == 0 then [CreateOp(sid)]
    else
      RestoreOps(sid, ids, payloads, snap, n - 1)
        + [AppendOp(sid, ids[n - 1], EPISODIC, None, None, Unsigned(payloads[n - 1], snap))]
  }

  /** The payload a restored event ends up with. */
  function RestoredPayload(p: Option<Payload>, snap: string): Payload {
    Stamped(Unsigned(p, snap), EPISODIC, None)
  }

  /** What is left of a payload: its body, and nothing else. */
  lemma {:induction false} RestoredKeepsBodyOnly(p: Option<Payload>, snap: string)
    ensures var r := RestoredPayload(p, snap);
      && r.body == Shown(p).body
      && (r.meta == Shown(p).meta <==> Shown(p).meta == Some(EPISODIC))
      && (r.signature == Shown(p).signature <==> Shown(p).signature == None)
      && (r == Shown(p) <==> Shown(p) == Payload(Shown(p).body, Some(EPISODIC), None, Some(snap)))
  {
  }

  /** Epochs drawn for the stream before the restore (none, for a new id). */
  function Offset(h: History, sid: string): nat {
    if sid in h.drawn then h.drawn[sid] else 0
  }

  /** Event i of the restored stream, as the history records it. */
  ghost predicate RestoredAt(hash: Hash, e: Engine, s: seq<Event>, offset: nat, ids: seq<string>,
                             payloads: seq<Option<Payload>>, snap: string, i: nat)
    requires i < |s| && i < |ids| && i < |payloads|
  {
    var p := RestoredPayload(payloads[i], snap);
    && s[i].id == ids[i] && s[i].epoch == offset + i + 1 && s[i].memoryType == "episodic" && s[i].blobId == hash(p)
    && hash(p) in e.blobs && e.blobs[hash(p)] == p
  }

  /** What a restore of n payloads has done to a history and an engine. */
  ghost predicate Restored(hash: Hash, e0: Engine, h0: History, e: Engine, h: History, sid: string, ids: seq<string>,
                           payloads: seq<Option<Payload>>, snap: string, n: nat)
    requires n <= |ids| && n <= |payloads|
  {
    && Represents(e, h) && Sound(h) && ContentAddressed(hash, e) && (e.tables.InMem? <==> e0.tables.InMem?)
    && |Of(h.rows, sid)| == n && NextDrawn(h, sid) == Offset(h0, sid) + n + 1
    && (forall i :: 0 <= i < n ==> RestoredAt(hash, e, Of(h.rows, sid), Offset(h0, sid), ids, payloads, snap, i))
    && (forall other :: other != sid ==> Of(h.rows, other) == Of(h0.rows, other))
    && (forall b :: b in e0.blobs ==> b in e.blobs && e.blobs[b] == e0.blobs[b])
  }

  lemma {:induction false} RunSnoc(hash: Hash, e: Engine, h: History, ops: seq<Op>, op: Op)
    ensures RunEngine(hash, e, ops + [op]) == Do(hash, RunEngine(hash, e, ops), op)
    ensures RunHistory(hash, h, ops + [op]) == Next(hash, RunHistory(hash, h, ops), op)
    ensures FreshRun(hash, h, ops + [op]) ==> FreshRun(hash, h, ops) && Fresh(RunHistory(hash, h, ops), op)
    ensures NewIds(hash, h, ops + [op]) ==> NewIds(hash, h, ops) && NewId(RunHistory(hash, h, ops), op)
  {
    hide Do, Next, Fresh, NewIds;
    assert (ops + [op])[..|ops + [op]| - 1] == ops;
    if NewIds(hash, h, ops + [op]) { NewIdsFront(hash, h, ops + [op]); }
  }

  lemma {:induction false} RestoreSteps(hash: Hash, e: Engine, h: History, sid: string, ids: seq<string>,
                                        payloads: seq<Option<Payload>>, snap: string, n: nat)
    requires n <= |ids| && n <= |payloads| && Injective(hash)
    requires Represents(e, h) && Sound(h) && ContentAddressed(hash, e)
    requires FreshRun(hash, h, RestoreOps(sid, ids, payloads, snap, n))
    requires NewIds(hash, h, RestoreOps(sid, ids, payloads, snap, n))
    ensures var ops := RestoreOps(sid, ids, payloads, snap, n);
      Restored(hash, e, h, RunEngine(hash, e, ops), RunHistory(hash, h, ops), sid, ids, payloads, snap, n)
  {
    hide Restored, Represents, Sound, FreshRun, NewIds, RunEngine, RunHistory, ContentAddressed, Injective, RestoredAt,
      Unsigned;
    if n == 0 {
      assert [] + [CreateOp(sid)] == [CreateOp(sid)];
      RunSnoc(hash, e, h, [], CreateOp(sid));
      NothingRun(hash, e, h);
      RestoreCreates(hash, e, h, sid, ids, payloads, snap);
    } else {
      var ops := RestoreOps(sid, ids, payloads, snap, n - 1);
      var op := AppendOp(sid, ids[n - 1], EPISODIC, None, None, Unsigned(payloads[n - 1], snap));
      RunSnoc(hash, e, h, ops, op);
      RestoreSteps(hash, e, h, sid, ids, payloads, snap, n - 1);
      RestoreAppends(hash, e, h, RunEngine(hash, e, ops), RunHistory(hash, h, ops), sid, ids, payloads, snap, n - 1);
    }
  }

  lemma {:induction false} NothingRun(hash: Hash, e: Engine, h: History)
    ensures RunEngine(hash, e, []) == e && RunHistory(hash, h, []) == h
  {
  }

  lemma {:induction false} RestoreCreates(hash: Hash, e: Engine, h: History, sid: string, ids: seq<string>,
                                          payloads: seq<Option<Payload>>, snap: string)
    requires Represents(e, h) && Sound(h) && ContentAddressed(hash, e) && Injective(hash) && Fresh(h, CreateOp(sid))
    ensures Restored(hash, e, h, Do(hash, e, CreateOp(sid)), Next(hash, h, CreateOp(sid)), sid, ids, payloads, snap, 0)
  {
    hide Represents, Sound, ContentAddressed, Injective, Of, CreateStream;
    StepRep(hash, e, h, CreateOp(sid));
    PayloadsKept(hash, e, CreateOp(sid), "");
    NewStreamEmpty(h, sid);
  }

  lemma {:induction false} RestoreAppends(hash: Hash, e0: Engine, h0: History, e: Engine, h: History, sid: string,
                                          ids: seq<string>, payloads: seq<Option<Payload>>, snap: string, n: nat)
    requires n < |ids| && n < |payloads| && Injective(hash)
    requires Restored(hash, e0, h0, e, h, sid, ids, payloads, snap, n)
    requires var op := AppendOp(sid, ids[n], EPISODIC, None, None, Unsigned(payloads[n], snap));
      Fresh(h, op) && NewId(h, op)
    ensures var op := AppendOp(sid, ids[n], EPISODIC, None, None, Unsigned(payloads[n], snap));
      Restored(hash, e0, h0, Do(hash, e, op), Next(hash, h, op), sid, ids, payloads, snap, n + 1)
  {
    hide Represents, Sound, ContentAddressed, Injective, Of, Fresh, NewId, Do, Next, Added, Unsigned, RestoredPayload,
      NextDrawn, RestoredAt;
    var op := AppendOp(sid, ids[n], EPISODIC, None, None, Unsigned(payloads[n], snap));
    var p := RestoredPayload(payloads[n], snap);
    var e', h' := Do(hash, e, op), Next(hash, h, op);
    StepRep(hash, e, h, op);
    var x := RestoreNext(hash, h, op, payloads[n], snap);
    StoredByAppend(hash, e, op, payloads[n], snap);
    forall b | b in e.blobs ensures b in e'.blobs && e'.blobs[b] == e.blobs[b] {
      PayloadsKept(hash, e, op, b);
    }
    forall other ensures Of(h'.rows, other) == if other == sid then Of(h.rows, sid) + [x] else Of(h.rows, other) {
      OfOne(h.rows, x, other);
    }
    forall i | 0 <= i < n + 1
      ensures RestoredAt(hash, e', Of(h'.rows, sid), Offset(h0, sid), ids, payloads, snap, i)
    {
      RestoredStill(hash, e, e', Of(h.rows, sid), x, Offset(h0, sid), ids, payloads, snap, i);
    }
  }

  lemma {:induction false} RestoredStill(hash: Hash, e: Engine, e': Engine, s: seq<Event>, x: Event, offset: nat,
                                         ids: seq<string>, payloads: seq<Option<Payload>>, snap: string, i: nat)
    requires i <= |s| && |s| < |ids| && |s| < |payloads|
    requires i < |s| ==> RestoredAt(hash, e, s, offset, ids, payloads, snap, i)
    requires forall b :: b in e.blobs ==> b in e'.blobs && e'.blobs[b] == e.blobs[b]
    requires x.id == ids[|s|] && x.epoch == offset + |s| + 1 && x.memoryType == "episodic"
    requires var p := RestoredPayload(payloads[|s|], snap);
      x.blobId == hash(p) && hash(p) in e'.blobs && e'.blobs[hash(p)] == p
    ensures RestoredAt(hash, e', s + [x], offset, ids, payloads, snap, i)
  {
    hide RestoredPayload;
  }

  /** The event that restoring a payload adds to the history. */
  lemma {:induction false} RestoreNext(hash: Hash, h: History, op: Op, p: Option<Payload>, snap: string)
    returns (x: Event)
    requires op.AppendOp? && op == AppendOp(op.sid, op.id, EPISODIC, None, None, Unsigned(p, snap)) && NewId(h, op)
    ensures Next(hash, h, op) == Added(h, x) && Next(hash, h, op).rows == h.rows + [x]
    ensures x.id == op.id && x.stream == op.sid && x.epoch == NextDrawn(h, op.sid) && x.memoryType == "episodic"
    ensures x.blobId == hash(RestoredPayload(p, snap))
    ensures NextDrawn(Next(hash, h, op), op.sid) == x.epoch + 1
  {
    EpisodicKnown();
    hide KnownType, Of, HeadOrGenesis, Unsigned, Unstored;
    x := Event(op.id, op.sid, [HeadOrGenesis(h.rows, op.sid)], NextDrawn(h, op.sid), "episodic", None,
               hash(RestoredPayload(p, snap)));
  }

  lemma {:induction false} StoredByAppend(hash: Hash, e: Engine, op: Op, p: Option<Payload>, snap: string)
    requires Injective(hash) && ContentAddressed(hash, e)
    requires op.AppendOp? && op == AppendOp(op.sid, op.id, EPISODIC, None, None, Unsigned(p, snap))
    ensures var q, e' := RestoredPayload(p, snap), Do(hash, e, op);
      ContentAddressed(hash, e') && hash(q) in e'.blobs && e'.blobs[hash(q)] == q
  {
    hide Do, Unsigned, Stamped, ContentAddressed, Injective;
    PayloadsKept(hash, e, op, "");
  }

  lemma {:induction false} EpisodicKnown()
    ensures KnownType("episodic")
  {
  }

  /** Restoring a snapshot of any stream: the new stream has exactly its
      payload bodies, in order, each with default episodic `_meta`, no
      signature and the snapshot's marker, in episodic events under new ids,
      with consecutive epochs; every other stream lists what it did before. */
  lemma {:induction false} SnapshotRestores(hash: Hash, e: Engine, h: History, from: string, sid: string,
                                            ids: seq<string>, snap: string)
    requires Injective(hash) && Represents(e, h) && Sound(h) && ContentAddressed(hash, e)
    requires |ids| == |SnapshotOf(e, from)|
    requires FreshRun(hash, h, RestoreOps(sid, ids, SnapshotOf(e, from), snap, |ids|))
    requires NewIds(hash, h, RestoreOps(sid, ids, SnapshotOf(e, from), snap, |ids|))
    ensures var payloads := SnapshotOf(e, from);
      var e' := RunEngine(hash, e, RestoreOps(sid, ids, payloads, snap, |ids|));
      var tl := TimelineOf(e', List(e'.tables, sid));
      && |tl| == |payloads|
      && (forall i :: 0 <= i < |tl| ==>
            && tl[i].1 == Some(Payload(Shown(payloads[i]).body, Some(EPISODIC), None, Some(snap)))
            && tl[i].0.id == ids[i] && tl[i].0.epoch == Offset(h, sid) + i + 1 && tl[i].0.memoryType == "episodic")
      && (forall other :: other != sid ==> List(e'.tables, other) == List(e.tables, other))
  {
    hide Restored, Represents, Sound, FreshRun, NewIds, RunEngine, RunHistory, ContentAddressed, Injective, RestoreOps,
      SnapshotOf, List, Shown;
    var payloads := SnapshotOf(e, from);
    var ops := RestoreOps(sid, ids, payloads, snap, |ids|);
    RestoreSteps(hash, e, h, sid, ids, payloads, snap, |ids|);
    var e', h' := RunEngine(hash, e, ops), RunHistory(hash, h, ops);
    RestoredListing(hash, e, h, e', h', sid, ids, payloads, snap);
    forall other | other != sid ensures List(e'.tables, other) == List(e.tables, other) {
      OtherListing(hash, e, h, e', h', sid, ids, payloads, snap, other);
    }
    forall i | 0 <= i < |ids|
      ensures var event := List(e'.tables, sid)[i];
        event.id == ids[i] && event.epoch == Offset(h, sid) + i + 1 && event.memoryType == "episodic"
      ensures Read(e', ids[i]) == Some(RestoredPayload(payloads[i], snap))
    {
      RestoredRead(hash, e, h, e', h', sid, ids, payloads, snap, i);
    }
  }

  /** The memory types survive a restore exactly when they were all episodic,
      and the `_meta` of the payloads exactly when it was the default. */
  lemma {:induction false} RestoreKeepsIff(hash: Hash, e: Engine, h: History, from: string, sid: string,
                                           ids: seq<string>, snap: string)
    requires Injective(hash) && Represents(e, h) && Sound(h) && ContentAddressed(hash, e)
    requires |ids| == |SnapshotOf(e, from)|
    requires FreshRun(hash, h, RestoreOps(sid, ids, SnapshotOf(e, from), snap, |ids|))
    requires NewIds(hash, h, RestoreOps(sid, ids, SnapshotOf(e, from), snap, |ids|))
    ensures var payloads, events := SnapshotOf(e, from), List(e.tables, from);
      var e' := RunEngine(hash, e, RestoreOps(sid, ids, payloads, snap, |ids|));
      var tl := TimelineOf(e', List(e'.tables, sid));
      && |tl| == |payloads| == |events|
      && ((forall i :: 0 <= i < |tl| ==> tl[i].0.memoryType == events[i].memoryType)
          <==> forall i :: 0 <= i < |tl| ==> events[i].memoryType == "episodic")
      && ((forall i :: 0 <= i < |tl| ==> tl[i].1.Some? && tl[i].1.value.meta == Shown(payloads[i]).meta)
          <==> forall i :: 0 <= i < |tl| ==> Shown(payloads[i]).meta == Some(EPISODIC))
  {
    SnapshotRestores(hash, e, h, from, sid, ids, snap);
    hide Represents, Sound, FreshRun, NewIds, RunEngine, ContentAddressed, Injective, RestoreOps, List, Shown, Offset;
    var payloads, events := SnapshotOf(e, from), List(e.tables, from);
    var e' := RunEngine(hash, e, RestoreOps(sid, ids, payloads, snap, |ids|));
    var tl := TimelineOf(e', List(e'.tables, sid));
    hide TimelineOf;
    forall i | 0 <= i < |tl|
      ensures tl[i].0.memoryType == events[i].memoryType <==> events[i].memoryType == "episodic"
      ensures tl[i].1.Some?
      ensures tl[i].1.value.meta == Shown(payloads[i]).meta <==> Shown(payloads[i]).meta == Some(EPISODIC)
    {
    }
  }

  lemma {:induction false} RunContentAddressed(hash: Hash, sqlite: bool, ops: seq<Op>)
    requires Injective(hash)
    ensures ContentAddressed(hash, RunEngine(hash, NewEngine(sqlite), ops))
  {
    if ops != [] {
      RunContentAddressed(hash, sqlite, ops[..|ops| - 1]);
      hide Do, ContentAddressed, Injective;
      PayloadsKept(hash, RunEngine(hash, NewEngine(sqlite), ops[..|ops| - 1]), ops[|ops| - 1], "");
    }
  }

  /** In every state that a run over the SQLite ledger reaches. */
  lemma {:induction false} RunSnapshotRestores(hash: Hash, ops: seq<Op>, from: string, sid: string, ids: seq<string>,
                                               snap: string)
    requires Injective(hash) && FreshRun(hash, NOTHING, ops)
    requires var payloads := SnapshotOf(RunEngine(hash, NewEngine(true), ops), from);
      && |ids| == |payloads|
      && FreshRun(hash, RunHistory(hash, NOTHING, ops), RestoreOps(sid, ids, payloads, snap, |ids|))
      && NewIds(hash, RunHistory(hash, NOTHING, ops), RestoreOps(sid, ids, payloads, snap, |ids|))
    ensures var e := RunEngine(hash, NewEngine(true), ops);
      var payloads := SnapshotOf(e, from);
      var e' := RunEngine(hash, e, RestoreOps(sid, ids, payloads, snap, |ids|));
      var tl := TimelineOf(e', List(e'.tables, sid));
      var events := List(e.tables, from);
      && |tl| == |payloads| == |events|
      && (forall i :: 0 <= i < |tl| ==>
            && tl[i].1 == Some(Payload(Shown(Read(e, events[i].id)).body, Some(EPISODIC), None, Some(snap)))
            && tl[i].0.id == ids[i] && tl[i].0.memoryType == "episodic")
      && (forall other :: other != sid ==> List(e'.tables, other) == List(e.tables, other))
  {
    hide *;
    SnapshotReads(RunEngine(hash, NewEngine(true), ops), from);
    RunRep(hash, true, ops);
    RunContentAddressed(hash, true, ops);
    SnapshotRestores(hash, RunEngine(hash, NewEngine(true), ops), RunHistory(hash, NOTHING, ops), from, sid, ids, snap);
  }

  lemma {:induction false} RestoredListing(hash: Hash, e0: Engine, h0: History, e: Engine, h: History, sid: string,
                                           ids: seq<string>,
                                           payloads: seq<Option<Payload>>, snap: string)
    requires |ids| == |payloads| && Restored(hash, e0, h0, e, h, sid, ids, payloads, snap, |ids|)
    ensures |List(e.tables, sid)| == |ids|
  {
    hide Represents, Sound, ContentAddressed, Of, RestoredAt, List;
    RunAnswers(e, h, sid, "");
  }

  lemma {:induction false} OtherListing(hash: Hash, e0: Engine, h0: History, e: Engine, h: History, sid: string,
                                        ids: seq<string>,
                                        payloads: seq<Option<Payload>>, snap: string, other: string)
    requires |ids| == |payloads| && Restored(hash, e0, h0, e, h, sid, ids, payloads, snap, |ids|) && other != sid
    requires Represents(e0, h0) && Sound(h0)
    ensures List(e.tables, other) == List(e0.tables, other)
  {
    hide Represents, Sound, ContentAddressed, Of, RestoredAt, List, StoredRows;
    RunAnswers(e, h, other, "");
    RunAnswers(e0, h0, other, "");
  }

  lemma {:induction false} RestoredRead(hash: Hash, e0: Engine, h0: History, e: Engine, h: History, sid: string,
                                        ids: seq<string>,
                                        payloads: seq<Option<Payload>>, snap: string, i: nat)
    requires |ids| == |payloads| && Restored(hash, e0, h0, e, h, sid, ids, payloads, snap, |ids|) && i < |ids|
    requires |List(e.tables, sid)| == |ids|
    ensures var event := List(e.tables, sid)[i];
      event.id == ids[i] && event.epoch == Offset(h0, sid) + i + 1 && event.memoryType == "episodic"
    ensures Read(e, ids[i]) == Some(RestoredPayload(payloads[i], snap))
  {
    hide Represents, ContentAddressed, Of, List, Get, FindRow, StoredRows;
    assert RestoredAt(hash, e, Of(h.rows, sid), Offset(h0, sid), ids, payloads, snap, i);
    RunAnswers(e, h, sid, ids[i]);
    var event := Of(h.rows, sid)[i];
    FoundRow(h, event);
  }

  lemma {:induction false} FoundRow(h: History, event: Event)
    requires Sound(h) && event in h.rows
    ensures FindRow(h.rows, event.id) == Some(event)
  {
    hide Of, Chain;
    var i :| 0 <= i < |h.rows| && h.rows[i] == event;
    SameRow(h.rows, event, FindRow(h.rows, event.id).value);
  }

  /** The append of event n raised the error and left the engine as it is. */
  ghost predicate StoppedAt(hash: Hash, before: Engine, after: Engine, error: Error, sid: string, ids: seq<string>,
                            payloads: seq<Option<Payload>>, snap: string, n: nat)
    requires n < |ids| && n < |payloads|
  {
    var reached := RunEngine(hash, before, RestoreOps(sid, ids, payloads, snap, n));
    Append(hash, reached, sid, ids[n], EPISODIC, None, None, Unsigned(payloads[n], snap)) == (after, Raised(error))
  }

  /** `restore_snapshot` on the engine object. */
  method RestoreSnapshot(engine: ME.Engine, payloads: seq<Option<Payload>>, snap: string, sid: string, ids: seq<string>)
    returns (r: Result<string>)
    requires |ids| == |payloads|
    modifies engine, engine.storage, engine.LedgerObject()
    ensures r.Ok? ==>
      && r.value == sid
      && engine.State() == RunEngine(engine.hash, old(engine.State()), RestoreOps(sid, ids, payloads, snap, |ids|))
    ensures r.Raised? ==>
      exists n: nat :: n < |ids| &&
        StoppedAt(engine.hash, old(engine.State()), engine.State(), r.error, sid, ids, payloads, snap, n)
  {
    hide RunEngine, Append, CreateStream;
    ghost var start := engine.State();
    engine.CreateStream(sid);
    RunOne(engine.hash, start, [], CreateOp(sid));
    for i := 0 to |ids|
      invariant engine.State() == RunEngine(engine.hash, start, RestoreOps(sid, ids, payloads, snap, i))
    {
      var payload := Shown(payloads[i]);
      payload := payload.(signature := None);
      payload := payload.(restoredFrom := Some(snap));
      var written := engine.Append(sid, ids[i], EPISODIC, None, None, payload);
      ghost var op := AppendOp(sid, ids[i], EPISODIC, None, None, payload);
      RunOne(engine.hash, start, RestoreOps(sid, ids, payloads, snap, i), op);
      if written.Raised? {
        assert StoppedAt(engine.hash, start, engine.State(), written.error, sid, ids, payloads, snap, i);
        return Raised(written.error);
      }
    }
    return Ok(sid);
  }

  lemma {:induction false} RunOne(hash: Hash, e: Engine, ops: seq<Op>, op: Op)
    ensures RunEngine(hash, e, ops + [op]) == Do(hash, RunEngine(hash, e, ops), op)
    ensures ops == [] ==> ops + [op] == [op] && RunEngine(hash, e, ops) == e
  {
    hide Do;
    assert (ops + [op])[..|ops + [op]| - 1] == ops;
  }
}
