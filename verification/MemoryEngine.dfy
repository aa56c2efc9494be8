/** The ledgers and the engine as objects with state: each method is proved to
    compute the corresponding function of Streams and StreamEngine. */
module MemoryEngine {
  import opened Prelude
  import opened Streams
  import SE = StreamEngine
  import SF = StreamFacts

  type Payload = SE.Payload

  class InMemoryStorage {
    var blobs: map<string, Payload>

    constructor ()
      ensures blobs == map[]
    {
      blobs := map[];
    }

    method StoreBlob(hash: SE.Hash, payload: Payload) returns (blobId: string)
      modifies this
      ensures blobId == hash(payload) && blobs == old(blobs)[blobId := payload]
    {
      blobId := hash(payload);
      blobs := blobs[blobId := payload];
    }

    method DeleteBlob(blobId: string)
      modifies this
      ensures blobs == old(blobs) - {blobId}
    {
      blobs := blobs - {blobId};
    }
  }

  class InMemoryLedger {
    var streams: map<string, string>
    var events: map<string, Event>
    var order: map<string, seq<string>>

    constructor ()
      ensures Value() == Mem(map[], map[], map[])
    {
      streams, events, order := map[], map[], map[];
    }

    function Value(): Mem
      reads this
    {
      Mem(streams, events, order)
    }

    method CreateStream(sid: string)
      modifies this
      ensures Value() == MemCreate(old(Value()), sid)
    {
      streams := streams[sid := GENESIS];
    }

    method DeleteStream(sid: string)
      modifies this
      ensures Value() == MemDelete(old(Value()), sid)
    {
      var eventIds := if sid in order then order[sid] else [];
      order := order - {sid};
      for i := 0 to |eventIds|
        invariant events == old(events) - (set id | id in eventIds[..i])
        invariant streams == old(streams) && order == old(order) - {sid}
      {
        assert eventIds[..i + 1] == eventIds[..i] + [eventIds[i]];
        events := events - {eventIds[i]};
      }
      assert eventIds[..|eventIds|] == eventIds;
      streams := streams - {sid};
    }

    method AppendEvent(sid: string, e: Event) returns (error: Option<Error>)
      modifies this
      ensures match MemAppend(old(Value()), sid, e)
        case Ok(m) => error == None && Value() == m
        case Raised(x) => error == Some(x) && Value() == old(Value())
    {
      if e.id == "" {
        return Some(ValueError);
      }
      events := events[e.id := e];
      streams := streams[sid := e.id];
      order := order[sid := (if sid in order then order[sid] else []) + [e.id]];
      return None;
    }

    method ListEvents(sid: string) returns (r: seq<Event>)
      ensures r == MemList(Value(), sid)
    {
      hide Lookup;
      var ids := if sid in order then order[sid] else [];
      r := [];
      ghost var r0 := Lookup(events, ids);
      assert ids[0..] == ids;
      for i := 0 to |ids|
        invariant r + Lookup(events, ids[i..]) == r0
      {
        LookupStep(events, ids, i, r);
        if ids[i] in events {
          r := r + [events[ids[i]]];
        }
      }
      NoLookup(events);
      assert ids[|ids|..] == [] && r + [] == r;
    }
  }

  class SQLiteLedger {
    var streams: map<string, StreamRow>
    var rows: seq<Event>

    constructor ()
      ensures Value() == Sql(map[], [])
    {
      streams, rows := map[], [];
    }

    function Value(): Sql
      reads this
    {
      Sql(streams, rows)
    }

    method CreateStream(sid: string)
      modifies this
      ensures Value() == SqlCreate(old(Value()), sid)
    {
      streams := streams[sid := StreamRow(GENESIS, 0)];
    }

    method RegisterStream(sid: string)
      modifies this
      ensures Value() == if sid in old(streams) then old(Value()) else SqlCreate(old(Value()), sid)
    {
      if sid !in streams {
        streams := streams[sid := StreamRow(GENESIS, 0)];
      }
    }

    method DeleteStream(sid: string)
      modifies this
      ensures Value() == SqlDelete(old(Value()), sid)
    {
      rows := Drop(rows, sid);
      streams := streams - {sid};
    }

    /** One transaction: the event row, the head and the epoch counter, or
        nothing at all. */
    method AppendEvent(sid: string, e: Event) returns (error: Option<Error>)
      modifies this
      ensures match SqlAppend(old(Value()), sid, e)
        case Ok(q) => error == None && Value() == q
        case Raised(x) => error == Some(x) && Value() == old(Value())
    {
      var record := if sid in streams then streams[sid] else StreamRow(GENESIS, 0);
      if FindRow(rows, e.id).Some? {
        return Some(IntegrityError);
      }
      rows := rows + [AsStored(e.(stream := sid))];
      record := record.(head := e.id, counter := e.epoch);
      streams := streams[sid := record];
      return None;
    }
  }

  datatype Ledger = MemLedger(mem: InMemoryLedger) | SqlLedger(sql: SQLiteLedger)

  class Engine {
    const hash: SE.Hash
    const ledger: Ledger
    const storage: InMemoryStorage
    var epochs: map<string, nat>

    /** A new engine starts with a cold epoch cache. */
    constructor (hash: SE.Hash, ledger: Ledger, storage: InMemoryStorage)
      ensures this.hash == hash && this.ledger == ledger && this.storage == storage && epochs == map[]
    {
      this.hash, this.ledger, this.storage, epochs := hash, ledger, storage, map[];
    }

    function LedgerObject(): object {
      match ledger case MemLedger(l) => l case SqlLedger(l) => l
    }

    function Tables(): SE.Tables
      reads LedgerObject()
    {
      match ledger case MemLedger(l) => SE.InMem(l.Value()) case SqlLedger(l) => SE.Sqlite(l.Value())
    }

    function State(): SE.Engine
      reads this, storage, LedgerObject()
    {
      SE.Engine(Tables(), epochs, storage.blobs)
    }

    method CreateStream(sid: string)
      modifies LedgerObject()
      ensures State() == SE.Do(hash, old(State()), SE.CreateOp(sid))
    {
      match ledger
      case MemLedger(l) => l.CreateStream(sid);
      case SqlLedger(l) => l.CreateStream(sid);
    }

    /** The in-memory ledger has no register_stream of its own. */
    method RegisterStream(sid: string)
      modifies LedgerObject()
      ensures State() == SE.Do(hash, old(State()), SE.RegisterOp(sid))
    {
      match ledger
      case MemLedger(l) => if sid !in l.streams { l.streams := l.streams[sid := GENESIS]; }
      case SqlLedger(l) => l.RegisterStream(sid);
    }

    method NextEpoch(sid: string) returns (epoch: nat)
      modifies this
      ensures epoch == SE.NextEpoch(old(State()), sid)
      ensures State() == old(State()).(epochs := old(epochs)[sid := epoch])
    {
      if sid !in epochs {
        var persisted := match ledger
          case MemLedger(_) => 0
          case SqlLedger(l) => SqlCounter(l.Value(), sid);
        epochs := epochs[sid := persisted];
      }
      epochs := epochs[sid := epochs[sid] + 1];
      return epochs[sid];
    }

    method WriteEvent(sid: string, id: string, parents: seq<string>, memoryType: string, embedding: Option<seq<real>>,
                      payload: Payload) returns (r: Result<Event>)
      modifies this, storage, LedgerObject()
      ensures (State(), r) == SE.Write(hash, old(State()), sid, id, parents, memoryType, embedding, payload)
    {
      var blobId := storage.StoreBlob(hash, payload);
      var epoch := NextEpoch(sid);
      if !SE.KnownType(memoryType) {
        return Raised(ValueError);
      }
      var event := Event(id, sid, parents, epoch, memoryType, embedding, blobId);
      var error;
      match ledger {
        case MemLedger(l) => error := l.AppendEvent(sid, event);
        case SqlLedger(l) => error := l.AppendEvent(sid, event);
      }
      if error.Some? {
        return Raised(error.value);
      }
      return Ok(event);
    }

    method Append(sid: string, id: string, meta: SE.Meta, embedding: Option<seq<real>>, signature: Option<string>,
                  payload: Payload) returns (r: Result<Event>)
      modifies this, storage, LedgerObject()
      ensures (State(), r) == SE.Append(hash, old(State()), sid, id, meta, embedding, signature, payload)
    {
      var parent := SE.HeadOr(Tables(), sid);
      var stamped := payload;
      if signature.Some? {
        stamped := stamped.(signature := signature);
      }
      stamped := stamped.(meta := Some(meta));
      r := WriteEvent(sid, id, [parent], meta.memoryType, embedding, stamped);
    }

    method Fork(sid: string, from: string, newSid: string, id: string) returns (r: Result<Event>)
      modifies this, storage, LedgerObject()
      ensures (State(), r) == SE.Fork(hash, old(State()), sid, from, newSid, id)
    {
      var event := SE.Get(Tables(), from);
      if event.None? {
        return Raised(KeyError);
      }
      CreateStream(newSid);
      r := Append(newSid, id, SE.SYSTEM, None, None, SE.Plain(SE.ForkNote(sid, from, event.value.epoch)));
    }

    method Merge(target: string, source: string, id: string) returns (r: Result<Event>)
      modifies this, storage, LedgerObject()
      ensures (State(), r) == SE.Merge(hash, old(State()), target, source, id)
    {
      var targetHead, sourceHead := SE.HeadOr(Tables(), target), SE.HeadOr(Tables(), source);
      r := WriteEvent(target, id, [targetHead, sourceHead], "observation", None,
                      SE.Plain(SE.MergeNote(source, sourceHead, targetHead)));
    }

    method ListEvents(sid: string) returns (r: seq<Event>)
      ensures r == SE.List(Tables(), sid)
    {
      match ledger
      case MemLedger(l) => r := l.ListEvents(sid);
      case SqlLedger(l) => r := SqlList(l.Value(), sid);
    }

    method DeleteStream(sid: string)
      modifies this, storage, LedgerObject()
      ensures State() == SE.Delete(old(State()), sid)
    {
      hide SE.List, SE.BlobIds;
      var events := ListEvents(sid);
      NoBlobIds();
      for i := 0 to |events|
        invariant storage.blobs == old(storage.blobs) - SE.BlobIds(events[..i])
        invariant Tables() == old(Tables()) && epochs == old(epochs)
      {
        storage.DeleteBlob(events[i].blobId);
        BlobIdsOne(events, i);
      }
      assert events[..|events|] == events;
      match ledger {
        case MemLedger(l) => l.DeleteStream(sid);
        case SqlLedger(l) => l.DeleteStream(sid);
      }
      epochs := epochs - {sid};
    }

    method Timeline(sid: string) returns (tl: seq<(Event, Option<Payload>)>)
      ensures tl == SF.TimelineOf(State(), SE.List(Tables(), sid))
    {
      hide SE.List, SF.Read, SF.TimelineOf;
      var events := ListEvents(sid);
      tl := [];
      for i := 0 to |events|
        invariant |tl| == i
        invariant forall k :: 0 <= k < i ==> tl[k] == (events[k], SF.Read(State(), events[k].id))
      {
        tl := tl + [(events[i], SF.Read(State(), events[i].id))];
      }
    }

    method Replay(sid: string, upTo: Option<int>, from: int) returns (result: seq<Option<Payload>>)
      ensures result == SF.ReplayFrom(SF.TimelineOf(State(), SE.List(Tables(), sid)), 0, from, upTo)
    {
      hide SE.List, SF.TimelineOf;
      var tl := Timeline(sid);
      result := [];
      for i := 0 to |tl|
        invariant result + SF.ReplayFrom(tl, i, from, upTo) == SF.ReplayFrom(tl, 0, from, upTo)
      {
        ghost var rest := SF.ReplayFrom(tl, i + 1, from, upTo);
        assert result + ([tl[i].1] + rest) == (result + [tl[i].1]) + rest && result + ([] + rest) == result + rest;
        var epoch := if tl[i].0.epoch != 0 then tl[i].0.epoch else i + 1;
        if epoch >= from && (upTo.None? || epoch <= upTo.value) {
          result := result + [tl[i].1];
        }
      }
    }
  }

  lemma {:induction false} LookupStep(events: map<string, Event>, ids: seq<string>, i: nat, r: seq<Event>)
    requires i < |ids|
    ensures r + Lookup(events, ids[i..])
      == (if ids[i] in events then r + [events[ids[i]]] else r) + Lookup(events, ids[i + 1..])
  {
    assert ids[i..][1..] == ids[i + 1..];
    var rest := Lookup(events, ids[i + 1..]);
    if ids[i] in events {
      assert r + ([events[ids[i]]] + rest) == (r + [events[ids[i]]]) + rest;
    }
  }

  lemma {:induction false} NoLookup(events: map<string, Event>)
    ensures Lookup(events, []) == []
  {
  }

  lemma {:induction false} NoBlobIds()
    ensures SE.BlobIds([]) == {}
  {
  }

  lemma {:induction false} BlobIdsOne(events: seq<Event>, i: nat)
    requires i < |events|
    ensures SE.BlobIds(events[..i + 1]) == SE.BlobIds(events[..i]) + {events[i].blobId}
  {
    var a, b := events[..i], events[..i + 1];
    forall x | x in SE.BlobIds(a) ensures x in SE.BlobIds(b) {
      var k :| 0 <= k < |a| && a[k].blobId == x;
      assert b[k] == a[k];
    }
    assert b[i] == events[i];
    forall x | x in SE.BlobIds(b) ensures x in SE.BlobIds(a) + {events[i].blobId} {
      var k :| 0 <= k < |b| && b[k].blobId == x;
      assert k < i ==> a[k] == b[k];
    }
  }
}
