/** Memory streams as one table of events in the order they were written, and
    the two ledgers that store them (walrusos/adapters/in_memory.py:88-193,
    walrusos/adapters/sqlite_ledger.py:329-486). */
module Streams {
  import opened Prelude
  import opened StableSort

  /** A memory event.  `parents` is the source's parent_id split at its comma:
      one parent, or for a merge two.  Unsigned fields that no code below
      inspects are left out. */
  datatype Event = Event(id: string, stream: string, parents: seq<string>, epoch: nat,
                         memoryType: string, embedding: Option<seq<real>>, blobId: string)

  const GENESIS: string := "genesis"

  /** The rows of one stream, in writing order. */
  function Of(rows: seq<Event>, sid: string): (r: seq<Event>)
    ensures forall i :: 0 <= i < |r| ==> r[i] in rows && r[i].stream == sid
    ensures forall i :: 0 <= i < |rows| && rows[i].stream == sid ==> rows[i] in r
  {
    if rows == [] then []
    else (if rows[0].stream == sid then [rows[0]] else []) + Of(rows[1..], sid)
  }

  /** The rows that do not belong to the stream. */
  function Drop(rows: seq<Event>, sid: string): (r: seq<Event>)
    ensures forall i :: 0 <= i < |r| ==> r[i] in rows && r[i].stream != sid
    ensures forall i :: 0 <= i < |rows| && rows[i].stream != sid ==> rows[i] in r
  {
    if rows == [] then []
    else (if rows[0].stream != sid then [rows[0]] else []) + Drop(rows[1..], sid)
  }

  function Ids(rows: seq<Event>): (r: seq<string>)
    ensures |r| == |rows|
    ensures forall i :: 0 <= i < |rows| ==> r[i] == rows[i].id
  {
    if rows == [] then [] else [rows[0].id] + Ids(rows[1..])
  }

  ghost predicate DistinctIds(rows: seq<Event>) {
    forall i, j :: 0 <= i < j < |rows| ==> rows[i].id != rows[j].id
  }

  function HeadOf(rows: seq<Event>, sid: string): Option<string> {
    var s := Of(rows, sid);
    if s == [] then None else Some(s[|s| - 1].id)
  }

  function HeadOrGenesis(rows: seq<Event>, sid: string): string {
    var head := HeadOf(rows, sid);
    if head.Some? then head.value else GENESIS
  }

  lemma {:induction false} OfAppend(a: seq<Event>, b: seq<Event>, sid: string)
    ensures Of(a + b, sid) == Of(a, sid) + Of(b, sid)
  {
    if a == [] {
      assert a + b == b;
    } else {
      assert (a + b)[1..] == a[1..] + b;
      OfAppend(a[1..], b, sid);
    }
  }

  lemma {:induction false} OfOne(rows: seq<Event>, e: Event, sid: string)
    ensures Of(rows + [e], sid) == if e.stream == sid then Of(rows, sid) + [e] else Of(rows, sid)
  {
    OfAppend(rows, [e], sid);
    assert [e][1..] == [];
  }

  lemma {:induction false} OfDrop(rows: seq<Event>, gone: string, sid: string)
    ensures Of(Drop(rows, gone), sid) == if sid == gone then [] else Of(rows, sid)
  {
    if rows != [] {
      OfDrop(rows[1..], gone, sid);
      if rows[0].stream != gone {
        assert Drop(rows, gone)[1..] == Drop(rows[1..], gone);
      } else {
        assert Drop(rows, gone) == Drop(rows[1..], gone);
        assert sid != gone ==> Of(rows, sid) == Of(rows[1..], sid);
      }
    }
  }

  lemma {:induction false} DropDistinct(rows: seq<Event>, sid: string)
    requires DistinctIds(rows)
    ensures DistinctIds(Drop(rows, sid))
  {
    if rows != [] {
      DropDistinct(rows[1..], sid);
      var rest := Drop(rows[1..], sid);
      forall i | 0 <= i < |rest| ensures rest[i].id != rows[0].id {
        assert rest[i] in rows[1..];
        var j :| 0 <= j < |rows[1..]| && rows[1..][j] == rest[i];
        assert rows[j + 1] == rest[i];
      }
    }
  }

  lemma {:induction false} SameRow(rows: seq<Event>, a: Event, b: Event)
    requires DistinctIds(rows) && a in rows && b in rows && a.id == b.id
    ensures a == b
  {
  }

  // ----------------------------------------------------------- InMemoryLedger

  /** The three dictionaries of `InMemoryLedger`. */
  datatype Mem = Mem(streams: map<string, string>, events: map<string, Event>, order: map<string, seq<string>>)

  function MemOrder(m: Mem, sid: string): seq<string> {
    if sid in m.order then m.order[sid] else []
  }

  function MemCreate(m: Mem, sid: string): Mem {
    m.(streams := m.streams[sid := GENESIS])
  }

  function MemAppend(m: Mem, sid: string, e: Event): Result<Mem> {
    if e.id == "" then Raised(ValueError)
    else Ok(Mem(m.streams[sid := e.id], m.events[e.id := e], m.order[sid := MemOrder(m, sid) + [e.id]]))
  }

  function MemDelete(m: Mem, sid: string): Mem {
    Mem(m.streams - {sid}, m.events - (set id | id in MemOrder(m, sid)), m.order - {sid})
  }

  function MemHead(m: Mem, sid: string): Option<string> {
    if sid in m.streams && m.streams[sid] != GENESIS then Some(m.streams[sid]) else None
  }

  function MemGet(m: Mem, id: string): Option<Event> {
    if id in m.events then Some(m.events[id]) else None
  }

  function Lookup(events: map<string, Event>, ids: seq<string>): seq<Event> {
    if ids == [] then []
    else (if ids[0] in events then [events[ids[0]]] else []) + Lookup(events, ids[1..])
  }

  function MemList(m: Mem, sid: string): seq<Event> {
    Lookup(m.events, MemOrder(m, sid))
  }

  // ------------------------------------------------------------- SQLiteLedger

  datatype StreamRow = StreamRow(head: string, counter: nat)

  /** The stream table and the event table of `SQLiteLedger`. */
  datatype Sql = Sql(streams: map<string, StreamRow>, rows: seq<Event>)

  /** What is read back of a stored event: `json.dumps(x) if x else None`
      turns an empty embedding into none at all. */
  function AsStored(e: Event): Event {
    if e.embedding == Some([]) then e.(embedding := None) else e
  }

  function StoredRows(rows: seq<Event>): (r: seq<Event>)
    ensures |r| == |rows|
    ensures forall i :: 0 <= i < |rows| ==> r[i] == AsStored(rows[i])
  {
    if rows == [] then [] else [AsStored(rows[0])] + StoredRows(rows[1..])
  }

  function FindRow(rows: seq<Event>, id: string): (r: Option<Event>)
    ensures r.Some? ==> r.value in rows && r.value.id == id
    ensures r.None? <==> forall i :: 0 <= i < |rows| ==> rows[i].id != id
  {
    if rows == [] then None else if rows[0].id == id then Some(rows[0]) else FindRow(rows[1..], id)
  }

  function SqlCreate(q: Sql, sid: string): Sql {
    q.(streams := q.streams[sid := StreamRow(GENESIS, 0)])
  }

  /** The primary key refuses an id that is already in the table. */
  function SqlAppend(q: Sql, sid: string, e: Event): Result<Sql> {
    if FindRow(q.rows, e.id).Some? then Raised(IntegrityError)
    else Ok(Sql(q.streams[sid := StreamRow(e.id, e.epoch)], q.rows + [AsStored(e.(stream := sid))]))
  }

  function SqlDelete(q: Sql, sid: string): Sql {
    Sql(q.streams - {sid}, Drop(q.rows, sid))
  }

  function SqlHead(q: Sql, sid: string): Option<string> {
    if sid in q.streams && q.streams[sid].head != GENESIS then Some(q.streams[sid].head) else None
  }

  function SqlGet(q: Sql, id: string): Option<Event> {
    FindRow(q.rows, id)
  }

  /** `where(stream_id == sid).order_by(epoch)` */
  function SqlList(q: Sql, sid: string): seq<Event> {
    SortBy(Of(q.rows, sid), (e: Event) => e.epoch as real)
  }

  function SqlCounter(q: Sql, sid: string): nat {
    if sid in q.streams then q.streams[sid].counter else 0
  }

  // ---------------------------------------------------------- representation

  /** The streams that exist, their events in writing order, every event ever
      written, including those of deleted streams, and the last epoch that the
      running engine drew for each stream it has written to or tried to. */
  datatype History = History(known: set<string>, rows: seq<Event>, log: seq<Event>, drawn: map<string, nat>)

  /** One stream: its epochs increase, the first parent of its first event is
      genesis, that of each later event the event before it. */
  ghost predicate Chain(s: seq<Event>) {
    forall i :: 0 <= i < |s| ==>
      && s[i].epoch > EpochBefore(s, i)
      && |s[i].parents| > 0
      && s[i].parents[0] == Before(s, i)
  }

  function Before(s: seq<Event>, i: nat): string
    requires i <= |s|
  {
    if i == 0 then GENESIS else s[i - 1].id
  }

  function EpochBefore(s: seq<Event>, i: nat): nat
    requires i <= |s|
  {
    if i == 0 then 0 else s[i - 1].epoch
  }

  function LastEpoch(s: seq<Event>): nat {
    EpochBefore(s, |s|)
  }

  /** The epochs are exactly 1, 2, ..., n. */
  ghost predicate Contiguous(s: seq<Event>) {
    forall i :: 0 <= i < |s| ==> s[i].epoch == i + 1
  }

  lemma {:induction false} EpochsIncrease(s: seq<Event>, i: nat, j: nat)
    requires Chain(s) && i <= j < |s|
    ensures 0 < s[i].epoch && (i < j ==> s[i].epoch < s[j].epoch) && s[i].epoch > i
  {
    if i < j {
      EpochsIncrease(s, i, j - 1);
      assert EpochBefore(s, j) == s[j - 1].epoch;
    } else if i > 0 {
      EpochsIncrease(s, i - 1, i - 1);
      assert EpochBefore(s, i) == s[i - 1].epoch;
    }
  }

  /** The epoch the next write to a stream will draw. */
  function NextDrawn(h: History, sid: string): nat {
    1 + if sid in h.drawn then h.drawn[sid] else LastEpoch(Of(h.rows, sid))
  }

  ghost predicate Chained(rows: seq<Event>) {
    forall sid :: Chain(Of(rows, sid))
  }

  predicate UsableId(id: string) {
    id != "" && id != GENESIS
  }

  /** An invariant of every reachable history. */
  ghost predicate Sound(h: History) {
    && DistinctIds(h.rows)
    && (forall i :: 0 <= i < |h.rows| ==> h.rows[i] in h.log && h.rows[i].stream in h.known && UsableId(h.rows[i].id))
    && (forall i :: 0 <= i < |h.log| ==> UsableId(h.log[i].id))
    && Chained(h.rows)
    && DrawnAhead(h)
  }

  /** No stored epoch exceeds the last one drawn. */
  ghost predicate DrawnAhead(h: History) {
    forall sid :: sid in h.drawn ==> LastEpoch(Of(h.rows, sid)) <= h.drawn[sid]
  }

  ghost predicate MemHeads(m: Mem, h: History) {
    && m.streams.Keys == h.known
    && forall sid :: sid in h.known ==> m.streams[sid] == HeadOrGenesis(h.rows, sid)
  }

  ghost predicate MemOrders(m: Mem, rows: seq<Event>) {
    forall sid :: MemOrder(m, sid) == Ids(Of(rows, sid))
  }

  ghost predicate MemEvents(events: map<string, Event>, rows: seq<Event>) {
    && (forall id :: id in events ==> events[id] in rows && events[id].id == id)
    && (forall i :: 0 <= i < |rows| ==> rows[i].id in events && events[rows[i].id] == rows[i])
  }

  /** The three dictionaries say what the history says. */
  ghost predicate MemRep(m: Mem, h: History) {
    MemHeads(m, h) && MemOrders(m, h.rows) && MemEvents(m.events, h.rows)
  }

  ghost predicate SqlStreams(streams: map<string, StreamRow>, h: History) {
    && streams.Keys == h.known
    && forall sid :: sid in h.known ==>
         streams[sid] == StreamRow(HeadOrGenesis(h.rows, sid), LastEpoch(Of(h.rows, sid)))
  }

  /** The two tables say what the history says. */
  ghost predicate SqlRep(q: Sql, h: History) {
    SqlStreams(q.streams, h) && q.rows == StoredRows(h.rows)
  }

  lemma {:induction false} LookupListed(events: map<string, Event>, s: seq<Event>)
    requires forall i :: 0 <= i < |s| ==> s[i].id in events && events[s[i].id] == s[i]
    ensures Lookup(events, Ids(s)) == s
  {
    if s != [] {
      assert Ids(s)[1..] == Ids(s[1..]);
      LookupListed(events, s[1..]);
    }
  }

  lemma {:induction false} OfStored(rows: seq<Event>, sid: string)
    ensures Of(StoredRows(rows), sid) == StoredRows(Of(rows, sid))
  {
    if rows != [] {
      OfStored(rows[1..], sid);
      assert StoredRows(rows)[1..] == StoredRows(rows[1..]);
      if rows[0].stream == sid {
        assert StoredRows(Of(rows, sid))[1..] == StoredRows(Of(rows[1..], sid)) by {
          assert Of(rows, sid)[1..] == Of(rows[1..], sid);
        }
      }
    }
  }

  lemma {:induction false} DropStored(rows: seq<Event>, sid: string)
    ensures Drop(StoredRows(rows), sid) == StoredRows(Drop(rows, sid))
  {
    if rows != [] {
      DropStored(rows[1..], sid);
      assert StoredRows(rows)[1..] == StoredRows(rows[1..]);
      if rows[0].stream != sid {
        assert Drop(rows, sid)[1..] == Drop(rows[1..], sid);
      }
    }
  }

  lemma {:induction false} StoredAppend(rows: seq<Event>, e: Event)
    ensures StoredRows(rows + [e]) == StoredRows(rows) + [AsStored(e)]
  {
  }

  lemma {:induction false} FindStored(rows: seq<Event>, id: string)
    ensures FindRow(StoredRows(rows), id) ==
      if FindRow(rows, id).Some? then Some(AsStored(FindRow(rows, id).value)) else None
  {
    if rows != [] && rows[0].id != id {
      FindStored(rows[1..], id);
      assert StoredRows(rows)[1..] == StoredRows(rows[1..]);
    }
  }

  lemma {:induction false} HeadUsable(h: History, sid: string)
    requires Sound(h)
    ensures HeadOf(h.rows, sid).Some? ==> UsableId(HeadOf(h.rows, sid).value) && sid in h.known
  {
    hide Of, Chain;
    var s := Of(h.rows, sid);
    if s != [] {
      var last := s[|s| - 1];
      assert last in h.rows && last.stream == sid;
      var i :| 0 <= i < |h.rows| && h.rows[i] == last;
    }
  }

  lemma {:induction false} MemGets(m: Mem, h: History, id: string)
    requires Sound(h) && MemRep(m, h)
    ensures MemGet(m, id) == FindRow(h.rows, id)
  {
    hide Of, Chain, FindRow, MemOrder;
    var found := FindRow(h.rows, id);
    if found.Some? {
      var i :| 0 <= i < |h.rows| && h.rows[i] == found.value;
      assert h.rows[i].id in m.events;
    }
  }

  /** What both ledgers answer, in terms of the history. */
  lemma {:induction false} MemAnswers(m: Mem, h: History, sid: string, id: string)
    requires Sound(h) && MemRep(m, h)
    ensures MemList(m, sid) == Of(h.rows, sid)
    ensures MemHead(m, sid) == HeadOf(h.rows, sid)
    ensures MemGet(m, id) == FindRow(h.rows, id)
  {
    hide Of, Chain, FindRow, Lookup, Ids;
    var s := Of(h.rows, sid);
    forall i | 0 <= i < |s| ensures s[i].id in m.events && m.events[s[i].id] == s[i] {
      assert s[i] in h.rows;
      var j :| 0 <= j < |h.rows| && h.rows[j] == s[i];
    }
    LookupListed(m.events, s);
    assert MemOrder(m, sid) == Ids(s);
    HeadUsable(h, sid);
    MemGets(m, h, id);
  }

  lemma {:induction false} AscendingEpochs(h: History, sid: string)
    requires Sound(h)
    ensures Ascending(StoredRows(Of(h.rows, sid)), (e: Event) => e.epoch as real)
  {
    hide Of, StoredRows;
    var s := Of(h.rows, sid);
    assert Chain(s);
    forall i, j | 0 <= i < j < |s| ensures s[i].epoch < s[j].epoch {
      EpochsIncrease(s, i, j);
    }
  }

  lemma {:induction false} SqlAnswers(q: Sql, h: History, sid: string, id: string)
    requires Sound(h) && SqlRep(q, h)
    ensures SqlList(q, sid) == StoredRows(Of(h.rows, sid))
    ensures SqlHead(q, sid) == HeadOf(h.rows, sid)
    ensures SqlGet(q, id) == if FindRow(h.rows, id).Some? then Some(AsStored(FindRow(h.rows, id).value)) else None
    ensures SqlCounter(q, sid) == LastEpoch(Of(h.rows, sid))
  {
    OfStored(h.rows, sid);
    AscendingEpochs(h, sid);
    hide Of, Chain, FindRow, StoredRows, Ascending;
    SortByFixed(StoredRows(Of(h.rows, sid)), (e: Event) => e.epoch as real);
    FindStored(h.rows, id);
    HeadUsable(h, sid);
    if sid !in h.known { UnknownEmpty(h, sid); }
  }

  lemma {:induction false} UnknownEmpty(h: History, sid: string)
    requires Sound(h) && sid !in h.known
    ensures Of(h.rows, sid) == []
  {
    HeadUsable(h, sid);
  }
}
