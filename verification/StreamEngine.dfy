/** The operations of `MemoryEngine` (walrusos/engine/memory.py) as functions on
    the state of a ledger, the epoch cache and the blob store, and what they do
    to the history of the streams. */
module StreamEngine {
  import opened Prelude
  import opened Streams

  /** What a payload says, apart from the keys below: a caller's JSON text, or
      one of the engine's own notes. */
  datatype Body =
    | Text(json: string)
    | ForkNote(stream: string, event: string, epoch: nat)
    | MergeNote(source: string, sourceHead: string, targetHead: string)

  /** The `_meta` key: what an append records about its event.  The importance
      is a JSON numeral. */
  datatype Meta = Meta(
    tags: seq<string>, importance: string, summary: Option<string>, project: Option<string>, memoryType: string)

  /** The defaults of `append`. */
  function DefaultMeta(memoryType: string): Meta {
    Meta([], "0.5", None, None, memoryType)
  }

  /** A payload with its keys `_meta`, `_signature` and `_restored_from_snapshot`. */
  datatype Payload = Payload(body: Body, meta: Option<Meta>, signature: Option<string>, restoredFrom: Option<string>)

  function Plain(body: Body): Payload {
    Payload(body, None, None, None)
  }

  /** `append` puts its own `_meta` in, over any other, and a signature if it
      has one. */
  function Stamped(p: Payload, meta: Meta, signature: Option<string>): Payload {
    p.(meta := Some(meta), signature := if signature.Some? then signature else p.signature)
  }

  datatype Tables = InMem(m: Mem) | Sqlite(q: Sql)

  /** The engine: ledger tables, epoch cache, content-addressed blobs. */
  datatype Engine = Engine(tables: Tables, epochs: map<string, nat>, blobs: map<string, Payload>)

  type Hash = Payload -> string

  // ------------------------------------------------------- the ledger adapter

  function Head(t: Tables, sid: string): Option<string> {
    match t case InMem(m) => MemHead(m, sid) case Sqlite(q) => SqlHead(q, sid)
  }

  /** `await self.ledger.get_head(stream_id) or "genesis"` */
  function HeadOr(t: Tables, sid: string): string {
    var head := Head(t, sid);
    if head.Some? && head.value != "" then head.value else GENESIS
  }

  function Get(t: Tables, id: string): Option<Event> {
    match t case InMem(m) => MemGet(m, id) case Sqlite(q) => SqlGet(q, id)
  }

  function List(t: Tables, sid: string): seq<Event> {
    match t case InMem(m) => MemList(m, sid) case Sqlite(q) => SqlList(q, sid)
  }

  function CreateStream(t: Tables, sid: string): Tables {
    match t case InMem(m) => InMem(MemCreate(m, sid)) case Sqlite(q) => Sqlite(SqlCreate(q, sid))
  }

  /** `register_stream`: nothing happens to a stream that is already there. */
  function RegisterStream(t: Tables, sid: string): Tables {
    match t
    case InMem(m) => if sid in m.streams then t else CreateStream(t, sid)
    case Sqlite(q) => if sid in q.streams then t else CreateStream(t, sid)
  }

  function AppendEvent(t: Tables, sid: string, e: Event): Result<Tables> {
    match t
    case InMem(m) => (match MemAppend(m, sid, e) case Ok(m') => Ok(InMem(m')) case Raised(x) => Raised(x))
    case Sqlite(q) => (match SqlAppend(q, sid, e) case Ok(q') => Ok(Sqlite(q')) case Raised(x) => Raised(x))
  }

  function DeleteRows(t: Tables, sid: string): Tables {
    match t case InMem(m) => InMem(MemDelete(m, sid)) case Sqlite(q) => Sqlite(SqlDelete(q, sid))
  }

  // --------------------------------------------------------------- the engine

  /** `_next_epoch`: the cache, or on a cold cache the persisted counter. */
  function NextEpoch(e: Engine, sid: string): nat {
    1 + if sid in e.epochs then e.epochs[sid]
        else match e.tables case InMem(_) => 0 case Sqlite(q) => SqlCounter(q, sid)
  }

  /** The values the event model admits (walrusos/core/models/memory.py:24-34). */
  const MEMORY_TYPES: set<string> := {
    "semantic", "episodic", "procedural", "working", "system", "langgraph", "langgraph_write", "observation",
    "summary" }

  predicate KnownType(memoryType: string) {
    memoryType in MEMORY_TYPES
  }

  /** Store the payload, draw the epoch, build and write the event.  When the
      event model or the ledger refuses the event, the blob and the drawn epoch
      stay. */
  function Write(hash: Hash, e: Engine, sid: string, id: string, parents: seq<string>, memoryType: string,
                 embedding: Option<seq<real>>, payload: Payload): (Engine, Result<Event>)
  {
    var epoch := NextEpoch(e, sid);
    var event := Event(id, sid, parents, epoch, memoryType, embedding, hash(payload));
    var epochs, blobs := e.epochs[sid := epoch], e.blobs[hash(payload) := payload];
    if !KnownType(memoryType) then (Engine(e.tables, epochs, blobs), Raised(ValueError)) else
    match AppendEvent(e.tables, sid, event)
    case Ok(tables) => (Engine(tables, epochs, blobs), Ok(event))
    case Raised(x) => (Engine(e.tables, epochs, blobs), Raised(x))
  }

  function Append(hash: Hash, e: Engine, sid: string, id: string, meta: Meta, embedding: Option<seq<real>>,
                  signature: Option<string>, payload: Payload): (Engine, Result<Event>)
  {
    Write(hash, e, sid, id, [HeadOr(e.tables, sid)], meta.memoryType, embedding, Stamped(payload, meta, signature))
  }

  const SYSTEM := DefaultMeta("system")

  const OBSERVATION := DefaultMeta("observation")

  /** A new stream whose first event notes where it branches off. */
  function Fork(hash: Hash, e: Engine, sid: string, from: string, newSid: string, id: string): (Engine, Result<Event>) {
    match Get(e.tables, from)
    case None => (e, Raised(KeyError))
    case Some(event) =>
      Append(hash, e.(tables := CreateStream(e.tables, newSid)), newSid, id, SYSTEM, None, None,
             Plain(ForkNote(sid, from, event.epoch)))
  }

  /** A two-parent commit on the target stream, without `_meta`. */
  function Merge(hash: Hash, e: Engine, target: string, source: string, id: string): (Engine, Result<Event>) {
    var targetHead, sourceHead := HeadOr(e.tables, target), HeadOr(e.tables, source);
    Write(hash, e, target, id, [targetHead, sourceHead], "observation", None,
          Plain(MergeNote(source, sourceHead, targetHead)))
  }

  function BlobIds(events: seq<Event>): set<string> {
    set i | 0 <= i < |events| :: events[i].blobId
  }

  function Delete(e: Engine, sid: string): Engine {
    Engine(DeleteRows(e.tables, sid), e.epochs - {sid}, e.blobs - BlobIds(List(e.tables, sid)))
  }

  /** A new engine over the same ledger and storage. */
  function Restart(e: Engine): Engine {
    e.(epochs := map[])
  }

  // --------------------------------------------------- operations and histories

  datatype Op =
    | CreateOp(sid: string)
    | RegisterOp(sid: string)
    | AppendOp(sid: string, id: string, meta: Meta, embedding: Option<seq<real>>, signature: Option<string>,
               payload: Payload)
    | ForkOp(sid: string, from: string, newSid: string, id: string)
    | MergeOp(target: string, source: string, id: string)
    | DeleteOp(sid: string)
    | RestartOp

  function Do(hash: Hash, e: Engine, op: Op): Engine {
    match op
    case CreateOp(sid) => e.(tables := CreateStream(e.tables, sid))
    case RegisterOp(sid) => e.(tables := RegisterStream(e.tables, sid))
    case AppendOp(sid, id, meta, embedding, signature, payload) =>
      Append(hash, e, sid, id, meta, embedding, signature, payload).0
    case ForkOp(sid, from, newSid, id) => Fork(hash, e, sid, from, newSid, id).0
    case MergeOp(target, source, id) => Merge(hash, e, target, source, id).0
    case DeleteOp(sid) => Delete(e, sid)
    case RestartOp => Restart(e)
  }

  function Added(h: History, e: Event): History {
    History(h.known + {e.stream}, h.rows + [e], h.log + [e], h.drawn[e.stream := e.epoch])
  }

  function Written(h: History, sid: string, id: string, parents: seq<string>, memoryType: string,
                   embedding: Option<seq<real>>, blobId: string): History
  {
    Added(h, Event(id, sid, parents, NextDrawn(h, sid), memoryType, embedding, blobId))
  }

  /** A refused write leaves nothing but its epoch, drawn. */
  function Refused(h: History, sid: string): History {
    h.(drawn := h.drawn[sid := NextDrawn(h, sid)])
  }

  function Dropped(h: History, sid: string): History {
    History(h.known - {sid}, Drop(h.rows, sid), h.log, h.drawn - {sid})
  }

  /** What each operation does to the history.  A write is refused when its
      memory type is unknown or its id is stored already. */
  function Next(hash: Hash, h: History, op: Op): History {
    match op
    case CreateOp(sid) => h.(known := h.known + {sid})
    case RegisterOp(sid) => h.(known := h.known + {sid})
    case AppendOp(sid, id, meta, embedding, signature, payload) =>
      if !KnownType(meta.memoryType) || !Unstored(h, id) then Refused(h, sid)
      else Written(h, sid, id, [HeadOrGenesis(h.rows, sid)], meta.memoryType, embedding,
                   hash(Stamped(payload, meta, signature)))
    case ForkOp(sid, from, newSid, id) =>
      var event := FindRow(h.rows, from);
      if event.None? then h
      else if !Unstored(h, id) then Refused(h.(known := h.known + {newSid}), newSid)
      else Written(h, newSid, id, [GENESIS], "system", None,
                   hash(Stamped(Plain(ForkNote(sid, from, event.value.epoch)), SYSTEM, None)))
    case MergeOp(target, source, id) =>
      var targetHead, sourceHead := HeadOrGenesis(h.rows, target), HeadOrGenesis(h.rows, source);
      if !Unstored(h, id) then Refused(h, target)
      else Written(h, target, id, [targetHead, sourceHead], "observation", None,
                   hash(Plain(MergeNote(source, sourceHead, targetHead))))
    case DeleteOp(sid) => Dropped(h, sid)
    case RestartOp => h.(drawn := map[])
  }

  /** No stored event has the id. */
  predicate Unstored(h: History, id: string) {
    FindRow(h.rows, id).None?
  }

  ghost predicate FreshId(h: History, id: string) {
    UsableId(id) && Unstored(h, id)
  }

  /** Generated stream ids are new; event ids are any usable ones. */
  ghost predicate Fresh(h: History, op: Op) {
    match op
    case CreateOp(sid) => sid !in h.known
    case AppendOp(_, id, _, _, _, _) => UsableId(id)
    case ForkOp(_, _, newSid, id) => newSid !in h.known && UsableId(id)
    case MergeOp(_, _, id) => UsableId(id)
    case _ => true
  }

  /** No write comes with an id that is stored already. */
  predicate NewId(h: History, op: Op) {
    match op
    case AppendOp(_, id, meta, _, _, _) => KnownType(meta.memoryType) ==> Unstored(h, id)
    case ForkOp(_, from, _, id) => FindRow(h.rows, from).Some? ==> Unstored(h, id)
    case MergeOp(_, _, id) => Unstored(h, id)
    case _ => true
  }

  ghost predicate TablesRep(t: Tables, h: History) {
    match t case InMem(m) => MemRep(m, h) case Sqlite(q) => SqlRep(q, h)
  }

  /** No stream with events is missing from the cache. */
  ghost predicate AllCached(h: History) {
    forall sid :: sid !in h.drawn ==> Of(h.rows, sid) == []
  }

  /** The tables and the epoch cache say what the history says.  The in-memory
      ledger persists no counter and so needs the cache to be complete. */
  ghost predicate Represents(e: Engine, h: History) {
    TablesRep(e.tables, h) && e.epochs == h.drawn && (e.tables.InMem? ==> AllCached(h))
  }

  // -------------------------------------------------------- soundness of steps

  lemma {:induction false} FreshIsNew(h: History, e: Event)
    requires Sound(h) && FreshId(h, e.id)
    ensures DistinctIds(h.rows + [e])
  {
    hide Of, Chain, FindRow;
  }

  lemma {:induction false} ChainGrows(s: seq<Event>, e: Event)
    requires Chain(s) && e.epoch > LastEpoch(s) && |e.parents| > 0
    requires e.parents[0] == Before(s, |s|)
    ensures Chain(s + [e])
  {
    var s' := s + [e];
    forall i | 0 <= i < |s'|
      ensures s'[i].epoch > EpochBefore(s', i) && |s'[i].parents| > 0 && s'[i].parents[0] == Before(s', i)
    {
      assert Before(s', i) == Before(s, i) && EpochBefore(s', i) == EpochBefore(s, i);
      assert i < |s| ==> s'[i] == s[i];
    }
  }

  lemma {:induction false} ChainedAdded(rows: seq<Event>, e: Event)
    requires Chained(rows) && e.epoch > LastEpoch(Of(rows, e.stream))
    requires |e.parents| > 0 && e.parents[0] == HeadOrGenesis(rows, e.stream)
    ensures Chained(rows + [e])
  {
    hide Of, Chain;
    forall sid ensures Chain(Of(rows + [e], sid)) {
      OfOne(rows, e, sid);
      assert Chain(Of(rows, sid));
      if sid == e.stream { ChainGrows(Of(rows, sid), e); }
    }
  }

  lemma {:induction false} DrawnAdded(h: History, e: Event)
    requires DrawnAhead(h)
    ensures DrawnAhead(Added(h, e))
  {
    hide Of;
    forall sid
      ensures LastEpoch(Of(h.rows + [e], sid)) == if sid == e.stream then e.epoch else LastEpoch(Of(h.rows, sid))
    {
      OfOne(h.rows, e, sid);
    }
  }

  lemma {:induction false} AddedSound(h: History, e: Event)
    requires Sound(h) && FreshId(h, e.id)
    requires e.epoch > LastEpoch(Of(h.rows, e.stream))
    requires |e.parents| > 0 && e.parents[0] == HeadOrGenesis(h.rows, e.stream)
    ensures Sound(Added(h, e))
  {
    FreshIsNew(h, e);
    ChainedAdded(h.rows, e);
    DrawnAdded(h, e);
    hide Of, DistinctIds, Chained, HeadOrGenesis, DrawnAhead;
    var h' := Added(h, e);
    assert h'.log[|h.log|] == e && h'.rows[|h.rows|] == e;
    forall i | 0 <= i < |h'.rows|
      ensures h'.rows[i] in h'.log && h'.rows[i].stream in h'.known && UsableId(h'.rows[i].id)
    {
      if i < |h.rows| { assert h'.rows[i] == h.rows[i]; }
    }
    forall i | 0 <= i < |h'.log| ensures UsableId(h'.log[i].id) {
      if i < |h.log| { assert h'.log[i] == h.log[i]; }
    }
  }

  /** A drawn epoch is beyond the stored ones. */
  lemma {:induction false} NextDrawnLater(h: History, sid: string)
    requires Sound(h)
    ensures NextDrawn(h, sid) > LastEpoch(Of(h.rows, sid))
  {
    hide Of, Chained, DistinctIds;
  }

  lemma {:induction false} RefusedSound(h: History, sid: string)
    requires Sound(h)
    ensures Sound(Refused(h, sid))
  {
    NextDrawnLater(h, sid);
    hide Of, Chained, DistinctIds, NextDrawn;
  }

  lemma {:induction false} DroppedSound(h: History, gone: string)
    requires Sound(h)
    ensures Sound(Dropped(h, gone))
  {
    hide Of, Chain;
    var rows := Drop(h.rows, gone);
    DropDistinct(h.rows, gone);
    EmptyChain();
    forall sid ensures Of(rows, sid) == if sid == gone then [] else Of(h.rows, sid) {
      OfDrop(h.rows, gone, sid);
    }
    forall sid ensures Chain(Of(rows, sid)) {
      assert Chain(Of(h.rows, sid));
    }
    forall i | 0 <= i < |rows|
      ensures rows[i] in h.log && rows[i].stream in h.known - {gone} && UsableId(rows[i].id)
    {
      var j :| 0 <= j < |h.rows| && h.rows[j] == rows[i];
    }
  }

  lemma {:induction false} EmptyChain()
    ensures Chain([])
  {
  }

  lemma {:induction false} NewStreamEmpty(h: History, sid: string)
    requires Sound(h) && sid !in h.known
    ensures Of(h.rows, sid) == [] && HeadOrGenesis(h.rows, sid) == GENESIS
  {
    UnknownEmpty(h, sid);
  }

  /** Every operation keeps the invariant of the histories. */
  lemma {:induction false} NextSound(hash: Hash, h: History, op: Op)
    requires Sound(h) && Fresh(h, op)
    ensures Sound(Next(hash, h, op))
  {
    hide Chain, DistinctIds, Of, Drop, NextDrawn, KnownType, DrawnAhead, UsableId, Unstored;
    match op
    case AppendOp(sid, id, meta, embedding, signature, payload) =>
      NextDrawnLater(h, sid);
      if KnownType(meta.memoryType) && Unstored(h, id) {
        AddedSound(h, Event(id, sid, [HeadOrGenesis(h.rows, sid)], NextDrawn(h, sid), meta.memoryType, embedding,
                            hash(Stamped(payload, meta, signature))));
      } else {
        RefusedSound(h, sid);
      }
    case ForkOp(sid, from, newSid, id) =>
      var event := FindRow(h.rows, from);
      if event.Some? {
        NewStreamEmpty(h, newSid);
        NextDrawnLater(h, newSid);
        KnownMoreSound(h, newSid);
        if Unstored(h, id) {
          AddedSound(h, Event(id, newSid, [GENESIS], NextDrawn(h, newSid), "system", None,
                              hash(Stamped(Plain(ForkNote(sid, from, event.value.epoch)), SYSTEM, None))));
        } else {
          RefusedSound(h.(known := h.known + {newSid}), newSid);
        }
      }
    case MergeOp(target, source, id) =>
      var targetHead, sourceHead := HeadOrGenesis(h.rows, target), HeadOrGenesis(h.rows, source);
      NextDrawnLater(h, target);
      if Unstored(h, id) {
        AddedSound(h, Event(id, target, [targetHead, sourceHead], NextDrawn(h, target), "observation", None,
                            hash(Plain(MergeNote(source, sourceHead, targetHead)))));
      } else {
        RefusedSound(h, target);
      }
    case DeleteOp(sid) => DroppedSound(h, sid);
    case RestartOp => RestartSound(h);
    case _ => KnownMoreSound(h, op.sid);
  }

  lemma {:induction false} RestartSound(h: History)
    requires Sound(h)
    ensures Sound(h.(drawn := map[]))
  {
    hide Of, Chained, DistinctIds;
  }

  lemma {:induction false} KnownMoreSound(h: History, sid: string)
    requires Sound(h)
    ensures Sound(h.(known := h.known + {sid}))
  {
    hide Of, Chained, DistinctIds;
  }

  // --------------------------------------------- both ledgers follow the history

  lemma {:induction false} MemHeadsCreated(m: Mem, h: History, sid: string)
    requires MemHeads(m, h) && HeadOrGenesis(h.rows, sid) == GENESIS
    ensures MemHeads(MemCreate(m, sid), h.(known := h.known + {sid}))
  {
    hide HeadOrGenesis;
  }

  lemma {:induction false} MemCreated(m: Mem, h: History, sid: string)
    requires Sound(h) && MemRep(m, h) && sid !in h.known
    ensures MemRep(MemCreate(m, sid), h.(known := h.known + {sid}))
  {
    NewStreamEmpty(h, sid);
    hide Sound, MemHeads, MemEvents, HeadOrGenesis, Of, Ids;
    MemHeadsCreated(m, h, sid);
    assert forall s :: MemOrder(MemCreate(m, sid), s) == MemOrder(m, s);
  }

  lemma {:induction false} SqlStreamsCreated(streams: map<string, StreamRow>, h: History, sid: string)
    requires SqlStreams(streams, h) && HeadOrGenesis(h.rows, sid) == GENESIS && Of(h.rows, sid) == []
    ensures SqlStreams(streams[sid := StreamRow(GENESIS, 0)], h.(known := h.known + {sid}))
  {
    hide HeadOrGenesis, Of;
  }

  lemma {:induction false} SqlCreated(q: Sql, h: History, sid: string)
    requires Sound(h) && SqlRep(q, h) && sid !in h.known
    ensures SqlRep(SqlCreate(q, sid), h.(known := h.known + {sid}))
  {
    NewStreamEmpty(h, sid);
    hide Sound, HeadOrGenesis, Of, StoredRows, SqlStreams;
    SqlStreamsCreated(q.streams, h, sid);
  }

  lemma {:induction false} IdsOne(s: seq<Event>, e: Event)
    ensures Ids(s + [e]) == Ids(s) + [e.id]
  {
  }

  lemma {:induction false} HeadAfterAppend(rows: seq<Event>, e: Event, sid: string)
    ensures HeadOrGenesis(rows + [e], sid) == if e.stream == sid then e.id else HeadOrGenesis(rows, sid)
  {
    hide Of;
    OfOne(rows, e, sid);
  }

  lemma {:induction false} MemOrdersAppended(m: Mem, rows: seq<Event>, e: Event)
    requires MemOrders(m, rows) && e.id != ""
    ensures MemOrders(MemAppend(m, e.stream, e).value, rows + [e])
  {
    hide Of, Ids;
    var m' := MemAppend(m, e.stream, e).value;
    forall sid ensures MemOrder(m', sid) == Ids(Of(rows + [e], sid)) {
      OfOne(rows, e, sid);
      IdsOne(Of(rows, sid), e);
      assert MemOrder(m, sid) == Ids(Of(rows, sid));
    }
  }

  lemma {:induction false} MemEventsAppended(events: map<string, Event>, rows: seq<Event>, e: Event)
    requires MemEvents(events, rows) && DistinctIds(rows + [e])
    ensures MemEvents(events[e.id := e], rows + [e])
  {
    var rows' := rows + [e];
    assert rows'[|rows|] == e;
    forall i | 0 <= i < |rows'| ensures rows'[i].id in events[e.id := e] && events[e.id := e][rows'[i].id] == rows'[i] {
      if i < |rows| { assert rows'[i] == rows[i] && rows'[i].id != rows'[|rows|].id; }
    }
  }

  lemma {:induction false} MemHeadsAppended(m: Mem, h: History, e: Event)
    requires MemHeads(m, h) && e.id != ""
    ensures MemHeads(MemAppend(m, e.stream, e).value, Added(h, e))
  {
    hide HeadOrGenesis;
    var m', h' := MemAppend(m, e.stream, e).value, Added(h, e);
    forall sid | sid in h'.known ensures m'.streams[sid] == HeadOrGenesis(h'.rows, sid) {
      HeadAfterAppend(h.rows, e, sid);
    }
  }

  lemma {:induction false} MemAppended(m: Mem, h: History, e: Event)
    requires Sound(h) && MemRep(m, h) && FreshId(h, e.id)
    ensures MemAppend(m, e.stream, e).Ok? && MemRep(MemAppend(m, e.stream, e).value, Added(h, e))
  {
    FreshIsNew(h, e);
    hide Sound, DistinctIds, MemHeads, MemOrders, MemEvents;
    MemHeadsAppended(m, h, e);
    MemOrdersAppended(m, h.rows, e);
    MemEventsAppended(m.events, h.rows, e);
  }

  lemma {:induction false} SqlStreamsAppended(streams: map<string, StreamRow>, h: History, e: Event)
    requires SqlStreams(streams, h)
    ensures SqlStreams(streams[e.stream := StreamRow(e.id, e.epoch)], Added(h, e))
  {
    hide HeadOrGenesis, Of;
    var h' := Added(h, e);
    forall sid | sid in h'.known
      ensures streams[e.stream := StreamRow(e.id, e.epoch)][sid]
        == StreamRow(HeadOrGenesis(h'.rows, sid), LastEpoch(Of(h'.rows, sid)))
    {
      HeadAfterAppend(h.rows, e, sid);
      OfOne(h.rows, e, sid);
    }
  }

  lemma {:induction false} SqlAppended(q: Sql, h: History, e: Event)
    requires Sound(h) && SqlRep(q, h) && FreshId(h, e.id)
    ensures SqlAppend(q, e.stream, e).Ok? && SqlRep(SqlAppend(q, e.stream, e).value, Added(h, e))
  {
    FreshIsNew(h, e);
    hide Sound, DistinctIds, FreshId, FindRow, StoredRows, SqlStreams, Of;
    FindStored(h.rows, e.id);
    StoredAppend(h.rows, e);
    SqlStreamsAppended(q.streams, h, e);
    assert e.(stream := e.stream) == e;
  }

  lemma {:induction false} NoIds()
    ensures Ids([]) == []
  {
  }

  lemma {:induction false} MemOrdersDeleted(m: Mem, rows: seq<Event>, gone: string)
    requires MemOrders(m, rows)
    ensures MemOrders(MemDelete(m, gone), Drop(rows, gone))
  {
    hide Of, Ids, Drop;
    NoIds();
    forall sid ensures MemOrder(MemDelete(m, gone), sid) == Ids(Of(Drop(rows, gone), sid)) {
      OfDrop(rows, gone, sid);
      assert MemOrder(m, sid) == Ids(Of(rows, sid));
    }
  }

  /** An id is listed under a stream exactly when its event belongs there. */
  lemma {:induction false} OrderHolds(rows: seq<Event>, sid: string, e: Event)
    requires DistinctIds(rows) && e in rows
    ensures e.id in Ids(Of(rows, sid)) <==> e.stream == sid
  {
    hide Of;
    var s := Of(rows, sid);
    if e.stream == sid {
      assert e in s;
      var i :| 0 <= i < |s| && s[i] == e;
      assert Ids(s)[i] == e.id;
    }
    forall i | 0 <= i < |s| && s[i].id == e.id ensures e.stream == sid {
      SameRow(rows, e, s[i]);
    }
  }

  lemma {:induction false} MemEventsDeleted(m: Mem, rows: seq<Event>, gone: string)
    requires MemOrders(m, rows) && MemEvents(m.events, rows) && DistinctIds(rows)
    ensures MemEvents(MemDelete(m, gone).events, Drop(rows, gone))
  {
    hide Of, Ids, Drop, DistinctIds;
    var events, left := MemDelete(m, gone).events, Drop(rows, gone);
    assert MemOrder(m, gone) == Ids(Of(rows, gone));
    forall id | id in events ensures events[id] in left && events[id].id == id {
      OrderHolds(rows, gone, m.events[id]);
      var i :| 0 <= i < |rows| && rows[i] == m.events[id];
    }
    forall i | 0 <= i < |left| ensures left[i].id in events && events[left[i].id] == left[i] {
      OrderHolds(rows, gone, left[i]);
      var j :| 0 <= j < |rows| && rows[j] == left[i];
    }
  }

  lemma {:induction false} HeadAfterDrop(rows: seq<Event>, gone: string, sid: string)
    requires sid != gone
    ensures HeadOrGenesis(Drop(rows, gone), sid) == HeadOrGenesis(rows, sid)
    ensures Of(Drop(rows, gone), sid) == Of(rows, sid)
  {
    OfDrop(rows, gone, sid);
    hide Of, Drop;
  }

  lemma {:induction false} MemHeadsDeleted(m: Mem, h: History, gone: string)
    requires MemHeads(m, h)
    ensures MemHeads(MemDelete(m, gone), Dropped(h, gone))
  {
    hide HeadOrGenesis, Drop, Of;
    forall sid | sid in h.known && sid != gone
      ensures HeadOrGenesis(Drop(h.rows, gone), sid) == HeadOrGenesis(h.rows, sid)
    {
      HeadAfterDrop(h.rows, gone, sid);
    }
  }

  lemma {:induction false} MemDeleted(m: Mem, h: History, gone: string)
    requires Sound(h) && MemRep(m, h)
    ensures MemRep(MemDelete(m, gone), Dropped(h, gone))
  {
    assert DistinctIds(h.rows);
    hide Sound, DistinctIds, Drop, MemHeads, MemOrders, MemEvents;
    MemHeadsDeleted(m, h, gone);
    MemOrdersDeleted(m, h.rows, gone);
    MemEventsDeleted(m, h.rows, gone);
  }

  lemma {:induction false} SqlDeleted(q: Sql, h: History, gone: string)
    requires Sound(h) && SqlRep(q, h)
    ensures SqlRep(SqlDelete(q, gone), Dropped(h, gone))
  {
    hide Sound, HeadOrGenesis, Of, Drop, StoredRows;
    DropStored(h.rows, gone);
    forall sid | sid in h.known && sid != gone
      ensures HeadOrGenesis(Drop(h.rows, gone), sid) == HeadOrGenesis(h.rows, sid)
      ensures Of(Drop(h.rows, gone), sid) == Of(h.rows, sid)
    {
      HeadAfterDrop(h.rows, gone, sid);
    }
  }
}
