/** Whole runs of the memory engine: what holds after any sequence of
    operations, over either ledger. */
module StreamRuns {
  import opened Prelude
  import opened Streams
  import opened StreamEngine

  /** An event as the ledger gives it back. */
  function ReadBack(t: Tables, s: seq<Event>): seq<Event> {
    if t.InMem? then s else StoredRows(s)
  }

  /** The answers of either ledger, in terms of the history. */
  lemma {:induction false} Answers(t: Tables, h: History, sid: string, id: string)
    requires Sound(h) && TablesRep(t, h)
    ensures List(t, sid) == ReadBack(t, Of(h.rows, sid))
    ensures Head(t, sid) == HeadOf(h.rows, sid) && HeadOr(t, sid) == HeadOrGenesis(h.rows, sid)
    ensures Get(t, id).Some? <==> FindRow(h.rows, id).Some?
    ensures Get(t, id).Some? ==> Get(t, id).value.epoch == FindRow(h.rows, id).value.epoch
    ensures Get(t, id) == if t.InMem? then FindRow(h.rows, id)
      else if FindRow(h.rows, id).Some? then Some(AsStored(FindRow(h.rows, id).value)) else None
  {
    HeadUsable(h, sid);
    hide Sound, HeadOf, FindRow, StoredRows, Of, MemRep, SqlRep, MemList, SqlList, MemHead, SqlHead, MemGet, SqlGet;
    match t
    case InMem(m) => MemAnswers(m, h, sid, id);
    case Sqlite(q) => SqlAnswers(q, h, sid, id);
  }

  lemma {:induction false} RunAnswers(e: Engine, h: History, sid: string, id: string)
    requires Sound(h) && Represents(e, h)
    ensures List(e.tables, sid) == ReadBack(e.tables, Of(h.rows, sid))
    ensures Head(e.tables, sid) == HeadOf(h.rows, sid) && HeadOr(e.tables, sid) == HeadOrGenesis(h.rows, sid)
    ensures Get(e.tables, id) == if e.tables.InMem? then FindRow(h.rows, id)
      else if FindRow(h.rows, id).Some? then Some(AsStored(FindRow(h.rows, id).value)) else None
  {
    hide Sound, HeadOf, HeadOr, Head, List, Get, FindRow, Of, TablesRep, AllCached, HeadOrGenesis, ReadBack;
    Answers(e.tables, h, sid, id);
  }

  lemma {:induction false} EpochAnswer(e: Engine, h: History, sid: string)
    requires Sound(h) && Represents(e, h)
    ensures NextEpoch(e, sid) == NextDrawn(h, sid)
  {
    hide Sound, Of, SqlRep, MemRep, SqlCounter, HeadOf;
    match e.tables
    case InMem(m) =>
    case Sqlite(q) => SqlAnswers(q, h, sid, "");
  }

  lemma {:induction false} AppendRep(t: Tables, h: History, e: Event)
    requires Sound(h) && TablesRep(t, h) && FreshId(h, e.id)
    ensures AppendEvent(t, e.stream, e).Ok? && TablesRep(AppendEvent(t, e.stream, e).value, Added(h, e))
    ensures AppendEvent(t, e.stream, e).value.InMem? <==> t.InMem?
  {
    hide Sound, Of, SqlRep, MemRep, MemAppend, SqlAppend, FreshId;
    match t
    case InMem(m) => MemAppended(m, h, e);
    case Sqlite(q) => SqlAppended(q, h, e);
  }

  lemma {:induction false} CachedAdded(h: History, e: Event)
    requires AllCached(h)
    ensures AllCached(Added(h, e))
  {
    hide Of;
    forall s ensures Of(h.rows + [e], s) == if s == e.stream then Of(h.rows, s) + [e] else Of(h.rows, s) {
      OfOne(h.rows, e, s);
    }
  }

  /** A write with a fresh id succeeds and adds exactly one event. */
  lemma {:induction false} WriteRep(hash: Hash, e: Engine, h: History, sid: string, id: string, parents: seq<string>,
                                    memoryType: string, embedding: Option<seq<real>>, payload: Payload)
    requires Sound(h) && Represents(e, h) && FreshId(h, id) && KnownType(memoryType)
    ensures var (e', r) := Write(hash, e, sid, id, parents, memoryType, embedding, payload);
      && r.Ok?
      && Represents(e', Written(h, sid, id, parents, memoryType, embedding, hash(payload)))
      && (e'.tables.InMem? <==> e.tables.InMem?)
  {
    EpochAnswer(e, h, sid);
    var event := Event(id, sid, parents, NextEpoch(e, sid), memoryType, embedding, hash(payload));
    AppendRep(e.tables, h, event);
    hide Sound, Of, TablesRep, AllCached, AppendEvent, NextEpoch, NextDrawn, FreshId, KnownType;
    if e.tables.InMem? { CachedAdded(h, event); }
  }

  lemma {:induction false} StoredIsRefused(t: Tables, h: History, sid: string, event: Event)
    requires TablesRep(t, h) && t.Sqlite? && !Unstored(h, event.id)
    ensures AppendEvent(t, sid, event) == Raised(IntegrityError)
  {
    hide FindRow, StoredRows, SqlStreams;
    FindStored(h.rows, event.id);
  }

  lemma {:induction false} DrawnRep(e: Engine, h: History, sid: string, blobs: map<string, Payload>)
    requires Represents(e, h)
    ensures Represents(Engine(e.tables, e.epochs[sid := NextDrawn(h, sid)], blobs), Refused(h, sid))
  {
    hide NextDrawn, Of, TablesRep;
    SameTables(e.tables, h, Refused(h, sid));
  }

  /** A refused write changes the cache alone. */
  lemma {:induction false} RefusedRep(hash: Hash, e: Engine, h: History, sid: string, id: string, parents: seq<string>,
                                      memoryType: string, embedding: Option<seq<real>>, payload: Payload)
    requires Sound(h) && Represents(e, h)
    requires !KnownType(memoryType) || (e.tables.Sqlite? && !Unstored(h, id))
    ensures var (e', r) := Write(hash, e, sid, id, parents, memoryType, embedding, payload);
      && r == Raised(if KnownType(memoryType) then IntegrityError else ValueError)
      && e'.tables == e.tables && Represents(e', Refused(h, sid))
  {
    hide Sound, NextEpoch, NextDrawn, KnownType, TablesRep, AllCached, Unstored, AppendEvent, Refused;
    EpochAnswer(e, h, sid);
    if KnownType(memoryType) {
      var event := Event(id, sid, parents, NextEpoch(e, sid), memoryType, embedding, hash(payload));
      StoredIsRefused(e.tables, h, sid, event);
    }
    hide Represents;
    DrawnRep(e, h, sid, e.blobs[hash(payload) := payload]);
  }

  /** The tables know nothing of the epochs drawn. */
  lemma {:induction false} SameTables(t: Tables, h: History, h': History)
    requires TablesRep(t, h) && h'.known == h.known && h'.rows == h.rows
    ensures TablesRep(t, h')
  {
    hide Of, HeadOrGenesis, MemOrders, MemEvents, StoredRows;
  }

  lemma {:induction false} CreateRep(e: Engine, h: History, sid: string)
    requires Sound(h) && Represents(e, h) && sid !in h.known
    ensures Represents(e.(tables := CreateStream(e.tables, sid)), h.(known := h.known + {sid}))
  {
    hide Sound, Of, SqlRep, MemRep, MemCreate, SqlCreate;
    match e.tables
    case InMem(m) => MemCreated(m, h, sid);
    case Sqlite(q) => SqlCreated(q, h, sid);
  }

  lemma {:induction false} KnownStream(t: Tables, h: History, sid: string)
    requires TablesRep(t, h)
    ensures sid in h.known ==> RegisterStream(t, sid) == t
    ensures sid !in h.known ==> RegisterStream(t, sid) == CreateStream(t, sid)
  {
    hide Of, HeadOrGenesis, MemOrders, MemEvents, StoredRows;
  }

  lemma {:induction false} RegisterRep(e: Engine, h: History, sid: string)
    requires Sound(h) && Represents(e, h)
    ensures Represents(e.(tables := RegisterStream(e.tables, sid)), h.(known := h.known + {sid}))
  {
    hide Sound, TablesRep, AllCached, RegisterStream, CreateStream;
    KnownStream(e.tables, h, sid);
    if sid in h.known {
      assert h.(known := h.known + {sid}) == h by { assert h.known + {sid} == h.known; }
    } else {
      CreateRep(e, h, sid);
    }
  }

  lemma {:induction false} DeleteRep(e: Engine, h: History, sid: string)
    requires Sound(h) && Represents(e, h)
    ensures Represents(Delete(e, sid), Dropped(h, sid))
  {
    hide Sound, Of, Drop, SqlRep, MemRep, MemDelete, SqlDelete, List, BlobIds;
    forall s ensures Of(Drop(h.rows, sid), s) == if s == sid then [] else Of(h.rows, s) {
      OfDrop(h.rows, sid, s);
    }
    match e.tables
    case InMem(m) => MemDeleted(m, h, sid);
    case Sqlite(q) => SqlDeleted(q, h, sid);
  }

  /** The two writes of a fork: create the stream, append its first event. */
  lemma {:induction false} ForkWrites(hash: Hash, e: Engine, h: History, newSid: string, id: string, note: Payload)
    requires Sound(h) && Represents(e, h) && newSid !in h.known && FreshId(h, id)
    ensures var created := e.(tables := CreateStream(e.tables, newSid));
      var e' := Append(hash, created, newSid, id, SYSTEM, None, None, note).0;
      && Represents(e', Written(h, newSid, id, [GENESIS], "system", None, hash(Stamped(note, SYSTEM, None))))
      && (e'.tables.InMem? <==> e.tables.InMem?)
  {
    hide Sound, Represents, FreshId, Write, Of, HeadOr, CreateStream, HeadOrGenesis, Written;
    var e1, h1 := e.(tables := CreateStream(e.tables, newSid)), h.(known := h.known + {newSid});
    var stamped := Stamped(note, SYSTEM, None);
    CreateRep(e, h, newSid);
    KnownMoreSound(h, newSid);
    StillFresh(h, h1, id);
    NewStreamEmpty(h, newSid);
    RunAnswers(e1, h1, newSid, "");
    SameKind(e.tables, newSid);
    WriteRep(hash, e1, h1, newSid, id, [GENESIS], "system", None, stamped);
    WrittenKnown(h, newSid, id, [GENESIS], "system", None, hash(stamped));
  }

  lemma {:induction false} ForkSource(e: Engine, h: History, from: string)
    requires Sound(h) && Represents(e, h)
    ensures Get(e.tables, from).Some? <==> FindRow(h.rows, from).Some?
    ensures Get(e.tables, from).Some? ==> Get(e.tables, from).value.epoch == FindRow(h.rows, from).value.epoch
  {
    hide Sound, Represents, Of, FindRow, Get, HeadOr, HeadOrGenesis, Head, List, HeadOf;
    RunAnswers(e, h, "", from);
  }

  /** A fork whose event is refused has created its stream by then. */
  lemma {:induction false} ForkRefused(hash: Hash, e: Engine, h: History, newSid: string, id: string, note: Payload)
    requires Sound(h) && Represents(e, h) && newSid !in h.known && e.tables.Sqlite? && !Unstored(h, id)
    ensures var created := e.(tables := CreateStream(e.tables, newSid));
      var e' := Append(hash, created, newSid, id, SYSTEM, None, None, note).0;
      && Represents(e', Refused(h.(known := h.known + {newSid}), newSid))
      && (e'.tables.InMem? <==> e.tables.InMem?)
  {
    hide Sound, Represents, Unstored, Write, Of, HeadOr, CreateStream, Refused, KnownType;
    var e1, h1 := e.(tables := CreateStream(e.tables, newSid)), h.(known := h.known + {newSid});
    CreateRep(e, h, newSid);
    KnownMoreSound(h, newSid);
    SameKind(e.tables, newSid);
    assert Unstored(h1, id) == Unstored(h, id) by { SameStored(h, h1, id); }
    RefusedRep(hash, e1, h1, newSid, id, [HeadOr(e1.tables, newSid)], "system", None, Stamped(note, SYSTEM, None));
  }

  lemma {:induction false} SameStored(h: History, h1: History, id: string)
    requires h1.rows == h.rows
    ensures Unstored(h1, id) == Unstored(h, id)
  {
  }

  lemma {:induction false} ForkRep(hash: Hash, e: Engine, h: History, sid: string, from: string, newSid: string,
                                   id: string)
    requires Sound(h) && Represents(e, h) && newSid !in h.known && UsableId(id)
    requires e.tables.Sqlite? || NewId(h, ForkOp(sid, from, newSid, id))
    ensures Represents(Fork(hash, e, sid, from, newSid, id).0, Next(hash, h, ForkOp(sid, from, newSid, id)))
    ensures Fork(hash, e, sid, from, newSid, id).0.tables.InMem? <==> e.tables.InMem?
  {
    hide Sound, Represents, UsableId, FindRow, Get, CreateStream, Append, Written, Refused, Unstored;
    ForkSource(e, h, from);
    if FindRow(h.rows, from).Some? {
      var note := Plain(ForkNote(sid, from, FindRow(h.rows, from).value.epoch));
      if Unstored(h, id) {
        ForkWrites(hash, e, h, newSid, id, note);
      } else {
        ForkRefused(hash, e, h, newSid, id, note);
      }
    }
  }

  lemma {:induction false} WrittenKnown(h: History, sid: string, id: string, parents: seq<string>, memoryType: string,
                                        embedding: Option<seq<real>>, blobId: string)
    ensures Written(h.(known := h.known + {sid}), sid, id, parents, memoryType, embedding, blobId)
      == Written(h, sid, id, parents, memoryType, embedding, blobId)
  {
    assert h.known + {sid} + {sid} == h.known + {sid};
  }

  lemma {:induction false} StillFresh(h: History, h1: History, id: string)
    requires FreshId(h, id) && h1.rows == h.rows
    ensures FreshId(h1, id)
  {
  }

  lemma {:induction false} SameKind(t: Tables, sid: string)
    ensures CreateStream(t, sid).InMem? <==> t.InMem?
  {
  }

  lemma {:induction false} ObservationKnown()
    ensures KnownType("observation")
  {
  }

  /** A write ends in the history that Next says. */
  lemma {:induction false} WriteOrRefuse(hash: Hash, e: Engine, h: History, sid: string, id: string,
                                         parents: seq<string>, memoryType: string, embedding: Option<seq<real>>,
                                         payload: Payload)
    requires Sound(h) && Represents(e, h) && UsableId(id)
    requires e.tables.Sqlite? || (KnownType(memoryType) ==> Unstored(h, id))
    ensures var e' := Write(hash, e, sid, id, parents, memoryType, embedding, payload).0;
      && Represents(e', if !KnownType(memoryType) || !Unstored(h, id) then Refused(h, sid)
                        else Written(h, sid, id, parents, memoryType, embedding, hash(payload)))
      && (e'.tables.InMem? <==> e.tables.InMem?)
  {
    hide Sound, Represents, UsableId, Write, Written, Refused, KnownType, Unstored;
    if KnownType(memoryType) && Unstored(h, id) {
      WriteRep(hash, e, h, sid, id, parents, memoryType, embedding, payload);
    } else {
      RefusedRep(hash, e, h, sid, id, parents, memoryType, embedding, payload);
    }
  }

  /** Every operation takes a represented history to the next one. */
  lemma {:induction false} StepRep(hash: Hash, e: Engine, h: History, op: Op)
    requires Sound(h) && Represents(e, h) && Fresh(h, op)
    requires e.tables.Sqlite? || (NewId(h, op) && !op.RestartOp?)
    ensures Represents(Do(hash, e, op), Next(hash, h, op)) && Sound(Next(hash, h, op))
    ensures Do(hash, e, op).tables.InMem? <==> e.tables.InMem?
  {
    NextSound(hash, h, op);
    match op
    case CreateOp(sid) => CreateRep(e, h, sid);
    case RegisterOp(sid) => RegisterRep(e, h, sid);
    case AppendOp(sid, id, meta, embedding, signature, payload) =>
      Answers(e.tables, h, sid, id);
      WriteOrRefuse(hash, e, h, sid, id, [HeadOrGenesis(h.rows, sid)], meta.memoryType, embedding,
                    Stamped(payload, meta, signature));
    case ForkOp(sid, from, newSid, id) => ForkRep(hash, e, h, sid, from, newSid, id);
    case MergeOp(target, source, id) =>
      Answers(e.tables, h, target, id);
      Answers(e.tables, h, source, id);
      var th, sh := HeadOrGenesis(h.rows, target), HeadOrGenesis(h.rows, source);
      ObservationKnown();
      WriteOrRefuse(hash, e, h, target, id, [th, sh], "observation", None, Plain(MergeNote(source, sh, th)));
    case DeleteOp(sid) => DeleteRep(e, h, sid);
    case RestartOp => SameTables(e.tables, h, Next(hash, h, op));
  }

  // --------------------------------------------------------------------- runs

  function RunEngine(hash: Hash, e: Engine, ops: seq<Op>): Engine {
    if ops == [] then e else Do(hash, RunEngine(hash, e, ops[..|ops| - 1]), ops[|ops| - 1])
  }

  function RunHistory(hash: Hash, h: History, ops: seq<Op>): History {
    if ops == [] then h else Next(hash, RunHistory(hash, h, ops[..|ops| - 1]), ops[|ops| - 1])
  }

  ghost predicate FreshRun(hash: Hash, h: History, ops: seq<Op>) {
    ops == [] || (FreshRun(hash, h, ops[..|ops| - 1]) && Fresh(RunHistory(hash, h, ops[..|ops| - 1]), ops[|ops| - 1]))
  }

  /** No write of the run comes with an id that is stored at the time. */
  predicate NewIds(hash: Hash, h: History, ops: seq<Op>) {
    forall i :: 0 <= i < |ops| ==> NewId(RunHistory(hash, h, ops[..i]), ops[i])
  }

  const NOTHING: History := History({}, [], [], map[])

  function NewEngine(sqlite: bool): Engine {
    Engine(if sqlite then Sqlite(Sql(map[], [])) else InMem(Mem(map[], map[], map[])), map[], map[])
  }

  lemma {:induction false} NothingStored(sqlite: bool)
    ensures Sound(NOTHING) && Represents(NewEngine(sqlite), NOTHING)
  {
    assert Of([], "") == [];
    EmptyChain();
    assert Chained([]);
  }

  lemma {:induction false} NewIdsFront(hash: Hash, h: History, ops: seq<Op>)
    requires ops != [] && NewIds(hash, h, ops)
    ensures NewIds(hash, h, ops[..|ops| - 1])
    ensures NewId(RunHistory(hash, h, ops[..|ops| - 1]), ops[|ops| - 1])
  {
    hide NewId, RunHistory;
    var front := ops[..|ops| - 1];
    forall i | 0 <= i < |front| ensures NewId(RunHistory(hash, h, front[..i]), front[i]) {
      assert front[..i] == ops[..i];
    }
  }

  /** After any run, the engine's state is the run's history.  Over SQLite that
      includes restarts and writes refused for a repeated id. */
  lemma {:induction false} RunRep(hash: Hash, sqlite: bool, ops: seq<Op>)
    requires FreshRun(hash, NOTHING, ops)
    requires sqlite || (NewIds(hash, NOTHING, ops) && forall i :: 0 <= i < |ops| ==> !ops[i].RestartOp?)
    ensures Represents(RunEngine(hash, NewEngine(sqlite), ops), RunHistory(hash, NOTHING, ops))
    ensures Sound(RunHistory(hash, NOTHING, ops))
    ensures RunEngine(hash, NewEngine(sqlite), ops).tables.Sqlite? <==> sqlite
  {
    hide NewIds;
    if ops == [] {
      NothingStored(sqlite);
    } else {
      var before, last := ops[..|ops| - 1], ops[|ops| - 1];
      if !sqlite { NewIdsFront(hash, NOTHING, ops); }
      RunRep(hash, sqlite, before);
      hide Represents, Sound, Fresh, Do, Next, NewId;
      StepRep(hash, RunEngine(hash, NewEngine(sqlite), before), RunHistory(hash, NOTHING, before), last);
    }
  }

  lemma {:induction false} SoundChain(h: History, sid: string)
    requires Sound(h)
    ensures Chain(Of(h.rows, sid))
  {
    hide Chain;
  }

  /** Over the SQLite ledger, restarts and refused appends included: in every
      stream the epochs increase, each event's first parent is the event before
      it, and the head is the last event. */
  lemma {:induction false} SqliteStreamsWellFormed(hash: Hash, ops: seq<Op>, sid: string)
    requires FreshRun(hash, NOTHING, ops)
    ensures var t := RunEngine(hash, NewEngine(true), ops).tables;
      && Chain(List(t, sid))
      && Head(t, sid) == (if List(t, sid) == [] then None else Some(List(t, sid)[|List(t, sid)| - 1].id))
  {
    hide Represents, Sound, RunEngine, RunHistory, FreshRun, Of, Chain, List, Head;
    RunRep(hash, true, ops);
    var e, h := RunEngine(hash, NewEngine(true), ops), RunHistory(hash, NOTHING, ops);
    SoundChain(h, sid);
    RunAnswers(e, h, sid, "");
    StoredChain(Of(h.rows, sid));
  }

  lemma {:induction false} StoredBefore(s: seq<Event>, i: nat)
    requires i <= |s|
    ensures Before(StoredRows(s), i) == Before(s, i) && EpochBefore(StoredRows(s), i) == EpochBefore(s, i)
  {
  }

  lemma {:induction false} StoredChain(s: seq<Event>)
    requires Chain(s)
    ensures Chain(StoredRows(s))
  {
    var r := StoredRows(s);
    hide StoredRows, Before, EpochBefore;
    forall i | 0 <= i < |r|
      ensures r[i].epoch > EpochBefore(r, i) && |r[i].parents| > 0 && r[i].parents[0] == Before(r, i)
    {
      StoredBefore(s, i);
      assert r[i].epoch == s[i].epoch && r[i].parents == s[i].parents;
    }
  }

  predicate NoEmptyEmbedding(s: seq<Event>) {
    forall i :: 0 <= i < |s| ==> s[i].embedding != Some([])
  }

  /** Same run, two ledgers, same answers.  An empty embedding comes back from
      SQLite as none, so the listings are identical exactly when no listed
      embedding is empty. */
  lemma {:induction false} LedgersAgree(hash: Hash, ops: seq<Op>, sid: string, id: string)
    requires FreshRun(hash, NOTHING, ops) && NewIds(hash, NOTHING, ops)
    requires forall i :: 0 <= i < |ops| ==> !ops[i].RestartOp?
    ensures var m, q := RunEngine(hash, NewEngine(false), ops).tables, RunEngine(hash, NewEngine(true), ops).tables;
      && List(q, sid) == StoredRows(List(m, sid))
      && (List(q, sid) == List(m, sid) <==> NoEmptyEmbedding(List(m, sid)))
      && Head(q, sid) == Head(m, sid)
      && Get(q, id) == (if Get(m, id).Some? then Some(AsStored(Get(m, id).value)) else None)
  {
    hide NewIds;
    RunRep(hash, false, ops);
    RunRep(hash, true, ops);
    var h := RunHistory(hash, NOTHING, ops);
    hide RunEngine, RunHistory, FreshRun, Sound, Represents, List, Of, StoredRows, Get, FindRow;
    RunAnswers(RunEngine(hash, NewEngine(false), ops), h, sid, id);
    RunAnswers(RunEngine(hash, NewEngine(true), ops), h, sid, id);
    ListingsEqual(Of(h.rows, sid));
  }

  lemma {:induction false} ListingsEqual(s: seq<Event>)
    ensures StoredRows(s) == s <==> NoEmptyEmbedding(s)
  {
    if StoredRows(s) == s {
      forall i | 0 <= i < |s| ensures s[i].embedding != Some([]) {
        assert StoredRows(s)[i] == AsStored(s[i]);
      }
    }
  }

  // ------------------------------------------------------------------- epochs

  /** The operation adds an event to the stream. */
  predicate Writes(h: History, op: Op, sid: string) {
    match op
    case AppendOp(s, id, meta, _, _, _) => s == sid && KnownType(meta.memoryType) && Unstored(h, id)
    case ForkOp(_, from, newSid, id) => newSid == sid && FindRow(h.rows, from).Some? && Unstored(h, id)
    case MergeOp(target, _, id) => target == sid && Unstored(h, id)
    case _ => false
  }

  /** The operation draws an epoch for the stream and is then refused: its
      memory type is unknown, or its id is stored already. */
  predicate Refuses(h: History, op: Op, sid: string) {
    match op
    case AppendOp(s, id, meta, _, _, _) => s == sid && (!KnownType(meta.memoryType) || !Unstored(h, id))
    case ForkOp(_, from, newSid, id) => newSid == sid && FindRow(h.rows, from).Some? && !Unstored(h, id)
    case MergeOp(target, _, id) => target == sid && !Unstored(h, id)
    case _ => false
  }

  /** The operation makes the engine forget what it drew for the stream. */
  predicate Forgets(op: Op, sid: string) {
    op.RestartOp? || (op.DeleteOp? && op.sid == sid)
  }

  /** A write to the stream was refused, and since then no event was added,
      the stream was not deleted, and the engine was not restarted. */
  predicate Pending(hash: Hash, h: History, ops: seq<Op>, sid: string) {
    if ops == [] then false
    else
      var front, last := ops[..|ops| - 1], ops[|ops| - 1];
      if Refuses(RunHistory(hash, h, front), last, sid) then true
      else if Writes(RunHistory(hash, h, front), last, sid) || Forgets(last, sid) then false
      else Pending(hash, h, front, sid)
  }

  /** Since the stream was last deleted, an event was added while the refusal
      of a write before it was still pending. */
  predicate Skipped(hash: Hash, h: History, ops: seq<Op>, sid: string) {
    if ops == [] then false
    else
      var front, last := ops[..|ops| - 1], ops[|ops| - 1];
      && !(last.DeleteOp? && last.sid == sid)
      && (Skipped(hash, h, front, sid)
          || (Writes(RunHistory(hash, h, front), last, sid) && Pending(hash, h, front, sid)))
  }

  /** The epochs drawn and stored for a stream, as its refusals determine them. */
  ghost predicate Numbered(h: History, sid: string, pending: bool, skipped: bool) {
    && (pending <==> NextDrawn(h, sid) != LastEpoch(Of(h.rows, sid)) + 1)
    && (Contiguous(Of(h.rows, sid)) <==> !skipped)
  }

  lemma {:induction false} ContiguousGrows(s: seq<Event>, e: Event)
    requires Chain(s) && e.epoch > LastEpoch(s)
    ensures Contiguous(s + [e]) <==> Contiguous(s) && e.epoch == LastEpoch(s) + 1
  {
    var s' := s + [e];
    if Contiguous(s') {
      forall i | 0 <= i < |s| ensures s[i].epoch == i + 1 {
        assert s'[i] == s[i];
      }
      assert s'[|s|] == e;
    } else if Contiguous(s) && e.epoch == LastEpoch(s) + 1 {
      assert forall i :: 0 <= i < |s'| ==> s'[i].epoch == i + 1;
    }
  }

  lemma {:induction false} WrittenNumbered(h: History, e: Event, pending: bool, skipped: bool)
    requires Sound(h) && e.epoch == NextDrawn(h, e.stream) && Numbered(h, e.stream, pending, skipped)
    ensures Numbered(Added(h, e), e.stream, false, skipped || pending)
  {
    NextDrawnLater(h, e.stream);
    SoundChain(h, e.stream);
    hide Sound, Of, Chain, Contiguous;
    OfOne(h.rows, e, e.stream);
    ContiguousGrows(Of(h.rows, e.stream), e);
  }

  lemma {:induction false} OtherNumbered(h: History, e: Event, sid: string, pending: bool, skipped: bool)
    requires e.stream != sid && Numbered(h, sid, pending, skipped)
    ensures Numbered(Added(h, e), sid, pending, skipped)
  {
    hide Of, Contiguous;
    OfOne(h.rows, e, sid);
  }

  lemma {:induction false} RefusedNumbered(h: History, s: string, sid: string, pending: bool, skipped: bool)
    requires Sound(h) && Numbered(h, sid, pending, skipped)
    ensures Numbered(Refused(h, s), sid, pending || s == sid, skipped)
  {
    NextDrawnLater(h, sid);
    hide Sound, Of, Contiguous;
  }

  lemma {:induction false} DroppedNumbered(h: History, gone: string, sid: string, pending: bool, skipped: bool)
    requires Numbered(h, sid, pending, skipped)
    ensures Numbered(Dropped(h, gone), sid, pending && gone != sid, skipped && gone != sid)
  {
    hide Of, Drop;
    OfDrop(h.rows, gone, sid);
  }

  lemma {:induction false} StepNumbered(hash: Hash, h: History, op: Op, sid: string, pending: bool, skipped: bool)
    requires Sound(h) && Fresh(h, op) && Numbered(h, sid, pending, skipped)
    ensures Numbered(Next(hash, h, op), sid,
                     Refuses(h, op, sid) || (pending && !Writes(h, op, sid) && !Forgets(op, sid)),
                     !(op.DeleteOp? && op.sid == sid) && (skipped || (Writes(h, op, sid) && pending)))
  {
    hide Sound, Of, Contiguous, KnownType, HeadOrGenesis, NextDrawn, FindRow, Numbered, UsableId, Unstored;
    var h' := Next(hash, h, op);
    match op
    case AppendOp(s, id, meta, _, _, _) =>
      if !KnownType(meta.memoryType) || !Unstored(h, id) {
        RefusedNumbered(h, s, sid, pending, skipped);
      } else {
        AddedNumbered(h, h'.rows[|h.rows|], sid, pending, skipped);
      }
    case ForkOp(_, from, newSid, id) =>
      if FindRow(h.rows, from).Some? {
        if Unstored(h, id) {
          AddedNumbered(h, h'.rows[|h.rows|], sid, pending, skipped);
        } else {
          KnownMoreNumbered(h, newSid, sid, pending, skipped);
          KnownMoreSound(h, newSid);
          RefusedNumbered(h.(known := h.known + {newSid}), newSid, sid, pending, skipped);
        }
      }
    case MergeOp(target, _, id) =>
      if Unstored(h, id) {
        AddedNumbered(h, h'.rows[|h.rows|], sid, pending, skipped);
      } else {
        RefusedNumbered(h, target, sid, pending, skipped);
      }
    case DeleteOp(gone) => DroppedNumbered(h, gone, sid, pending, skipped);
    case RestartOp => RestartNumbered(h, sid, pending, skipped);
    case _ => KnownMoreNumbered(h, op.sid, sid, pending, skipped);
  }

  lemma {:induction false} AddedNumbered(h: History, e: Event, sid: string, pending: bool, skipped: bool)
    requires Sound(h) && e.epoch == NextDrawn(h, e.stream) && Numbered(h, sid, pending, skipped)
    ensures Numbered(Added(h, e), sid, pending && e.stream != sid, skipped || (e.stream == sid && pending))
  {
    hide Sound, Numbered, Added, NextDrawn;
    if e.stream == sid {
      WrittenNumbered(h, e, pending, skipped);
    } else {
      OtherNumbered(h, e, sid, pending, skipped);
    }
  }

  lemma {:induction false} RestartNumbered(h: History, sid: string, pending: bool, skipped: bool)
    requires Numbered(h, sid, pending, skipped)
    ensures Numbered(h.(drawn := map[]), sid, false, skipped)
  {
    hide Of, Contiguous;
  }

  lemma {:induction false} KnownMoreNumbered(h: History, s: string, sid: string, pending: bool, skipped: bool)
    requires Numbered(h, sid, pending, skipped)
    ensures Numbered(h.(known := h.known + {s}), sid, pending, skipped)
  {
    hide Of, Contiguous;
  }

  lemma {:induction false} RunNumbered(hash: Hash, ops: seq<Op>, sid: string)
    requires FreshRun(hash, NOTHING, ops)
    ensures Numbered(RunHistory(hash, NOTHING, ops), sid,
                     Pending(hash, NOTHING, ops, sid), Skipped(hash, NOTHING, ops, sid))
  {
    if ops == [] {
      assert Of([], sid) == [];
    } else {
      var front, last := ops[..|ops| - 1], ops[|ops| - 1];
      RunNumbered(hash, front, sid);
      RunRep(hash, true, front);
      hide Numbered, Sound, Represents, Next, Fresh, Writes, Refuses, RunEngine;
      StepNumbered(hash, RunHistory(hash, NOTHING, front), last, sid,
                   Pending(hash, NOTHING, front, sid), Skipped(hash, NOTHING, front, sid));
    }
  }

  lemma {:induction false} StoredContiguous(s: seq<Event>)
    ensures Contiguous(StoredRows(s)) <==> Contiguous(s)
  {
    forall i | 0 <= i < |s| ensures StoredRows(s)[i].epoch == s[i].epoch {
    }
  }

  /** A stream's epochs are exactly 1..n if and only if, since its last
      deletion, no event was added while a refused write was pending. */
  lemma {:induction false} EpochsContiguousIff(hash: Hash, ops: seq<Op>, sid: string)
    requires FreshRun(hash, NOTHING, ops)
    ensures Contiguous(List(RunEngine(hash, NewEngine(true), ops).tables, sid)) <==> !Skipped(hash, NOTHING, ops, sid)
  {
    RunRep(hash, true, ops);
    RunNumbered(hash, ops, sid);
    hide RunEngine, RunHistory, FreshRun, Sound, Represents, List, Of, StoredRows, Contiguous, NextDrawn;
    var h := RunHistory(hash, NOTHING, ops);
    RunAnswers(RunEngine(hash, NewEngine(true), ops), h, sid, "");
    StoredContiguous(Of(h.rows, sid));
  }

  /** No write to the stream is refused in the run. */
  predicate NoRefusals(hash: Hash, h: History, ops: seq<Op>, sid: string) {
    forall i :: 0 <= i < |ops| ==> !Refuses(RunHistory(hash, h, ops[..i]), ops[i], sid)
  }

  /** In particular they are while no write to the stream is refused. */
  lemma {:induction false} AcceptedWritesContiguous(hash: Hash, ops: seq<Op>, sid: string)
    requires FreshRun(hash, NOTHING, ops) && NoRefusals(hash, NOTHING, ops, sid)
    ensures Contiguous(List(RunEngine(hash, NewEngine(true), ops).tables, sid))
  {
    EpochsContiguousIff(hash, ops, sid);
    NeverSkips(hash, ops, sid);
  }

  lemma {:induction false} NeverSkips(hash: Hash, ops: seq<Op>, sid: string)
    requires NoRefusals(hash, NOTHING, ops, sid)
    ensures !Pending(hash, NOTHING, ops, sid) && !Skipped(hash, NOTHING, ops, sid)
  {
    hide Writes, Refuses, RunHistory;
    if ops != [] {
      var front := ops[..|ops| - 1];
      forall i | 0 <= i < |front| ensures !Refuses(RunHistory(hash, NOTHING, front[..i]), front[i], sid) {
        assert front[..i] == ops[..i];
      }
      NeverSkips(hash, front, sid);
    }
  }
}
