/** What one accepted write leaves to be read: `append`, `fork` and
    `merge_streams` (walrusos/engine/memory.py:104-358) seen through the listings
    and payloads of the streams, over either ledger. */
module StreamWrites {
  import opened Prelude
  import opened Streams
  import opened StreamEngine
  import opened StreamRuns
  import opened StreamFacts

  /** The runs whose state StreamRuns describes: any over SQLite, and over the
      in-memory ledger those with new ids and one engine. */
  ghost predicate Reachable(hash: Hash, sqlite: bool, ops: seq<Op>) {
    && FreshRun(hash, NOTHING, ops)
    && (sqlite || (NewIds(hash, NOTHING, ops) && forall i :: 0 <= i < |ops| ==> !ops[i].RestartOp?))
  }

  /** The id of the last event listed, or genesis when there is none. */
  function LastId(listing: seq<Event>): string {
    if listing == [] then "genesis" else listing[|listing| - 1].id
  }

  /** The write of x to its stream: it is listed last there, with a later epoch
      than all before, its payload can be read, and no other listing changes. */
  ghost predicate Lands(e: Engine, e': Engine, x: Event, payload: Payload) {
    && List(e'.tables, x.stream) == List(e.tables, x.stream) + [x]
    && x.epoch > LastEpoch(List(e.tables, x.stream))
    && Get(e'.tables, x.id) == Some(x) && Read(e', x.id) == Some(payload)
    && forall other :: other != x.stream ==> List(e'.tables, other) == List(e.tables, other)
  }

  /** x as the ledger gives it back. */
  function Back(t: Tables, x: Event): Event {
    if t.InMem? then x else AsStored(x)
  }

  lemma {:induction false} ReadBackMore(t: Tables, s: seq<Event>, x: Event)
    ensures ReadBack(t, s + [x]) == ReadBack(t, s) + [Back(t, x)]
    ensures LastId(ReadBack(t, s)) == LastId(s) && LastEpoch(ReadBack(t, s)) == LastEpoch(s)
  {
    hide StoredRows;
  }

  lemma {:induction false} HeadIsLastId(e: Engine, h: History, sid: string)
    requires Sound(h) && Represents(e, h)
    ensures HeadOrGenesis(h.rows, sid) == LastId(List(e.tables, sid))
  {
    RunAnswers(e, h, sid, "");
    hide Sound, Represents, List, Of, ReadBack;
    LastOf(h.rows, sid);
    ReadBackMore(e.tables, Of(h.rows, sid), Event("", "", [], 0, "", None, ""));
  }

  lemma {:induction false} LastOf(rows: seq<Event>, sid: string)
    ensures HeadOrGenesis(rows, sid) == LastId(Of(rows, sid))
  {
  }

  lemma {:induction false} FindNew(rows: seq<Event>, x: Event)
    requires DistinctIds(rows + [x])
    ensures FindRow(rows + [x], x.id) == Some(x)
  {
    hide FindRow;
    var rows' := rows + [x];
    assert rows'[|rows|] == x;
    SameRow(rows', x, FindRow(rows', x.id).value);
  }

  lemma {:induction false} ListingAfter(e: Engine, h: History, e': Engine, x: Event, sid: string)
    requires Sound(h) && Represents(e, h) && Sound(Added(h, x)) && Represents(e', Added(h, x))
    requires e'.tables.InMem? <==> e.tables.InMem?
    ensures List(e'.tables, sid) == List(e.tables, sid) + (if sid == x.stream then [Back(e.tables, x)] else [])
    ensures LastEpoch(List(e.tables, sid)) == LastEpoch(Of(h.rows, sid))
  {
    hide Sound, Represents, List, Get, ReadBack, Of, FindRow, LastEpoch, Head, HeadOf, HeadOr, HeadOrGenesis, Back;
    RunAnswers(e, h, sid, "");
    RunAnswers(e', Added(h, x), sid, "");
    OfOne(h.rows, x, sid);
    ReadBackMore(e.tables, Of(h.rows, sid), x);
    SameReadBack(e.tables, e'.tables, Of(Added(h, x).rows, sid));
    assert List(e.tables, sid) + [] == List(e.tables, sid);
  }

  lemma {:induction false} GetAfter(e: Engine, h: History, e': Engine, x: Event)
    requires Sound(Added(h, x)) && Represents(e', Added(h, x))
    requires e'.tables.InMem? <==> e.tables.InMem?
    ensures Get(e'.tables, x.id) == Some(Back(e.tables, x))
  {
    FindNew(h.rows, x);
    hide Sound, Represents, List, Get, ReadBack, Of, FindRow, LastEpoch, Head, HeadOf, HeadOr, HeadOrGenesis;
    RunAnswers(e', Added(h, x), x.stream, x.id);
  }

  /** A step that adds x to the history. */
  lemma {:induction false} AddedLands(e: Engine, h: History, e': Engine, x: Event, payload: Payload)
    requires Sound(h) && Represents(e, h) && Sound(Added(h, x)) && Represents(e', Added(h, x))
    requires (e'.tables.InMem? <==> e.tables.InMem?) && x.epoch > LastEpoch(Of(h.rows, x.stream))
    requires x.blobId in e'.blobs && e'.blobs[x.blobId] == payload
    ensures Lands(e, e', Back(e.tables, x), payload)
  {
    hide Sound, Represents, List, Get, Of, LastEpoch, Added;
    GetAfter(e, h, e', x);
    var y := Back(e.tables, x);
    assert y.stream == x.stream && y.id == x.id && y.blobId == x.blobId && y.epoch == x.epoch;
    forall sid
      ensures List(e'.tables, sid) == List(e.tables, sid) + (if sid == x.stream then [y] else [])
    {
      ListingAfter(e, h, e', x, sid);
    }
    ListingAfter(e, h, e', x, x.stream);
  }

  lemma {:induction false} SameReadBack(t: Tables, t': Tables, s: seq<Event>)
    requires t'.InMem? <==> t.InMem?
    ensures ReadBack(t', s) == ReadBack(t, s)
  {
  }

  lemma {:induction false} WriteStores(hash: Hash, e: Engine, sid: string, id: string, parents: seq<string>,
                                       memoryType: string, embedding: Option<seq<real>>, payload: Payload)
    ensures var (e', r) := Write(hash, e, sid, id, parents, memoryType, embedding, payload);
      hash(payload) in e'.blobs && e'.blobs[hash(payload)] == payload
  {
  }

  /** A write through the engine, onto the head of its stream. */
  lemma {:induction false} WriteLands(hash: Hash, e: Engine, h: History, sid: string, id: string, parents: seq<string>,
                                      memoryType: string, embedding: Option<seq<real>>, payload: Payload)
    returns (x: Event)
    requires Sound(h) && Represents(e, h) && UsableId(id)
    requires |parents| > 0 && parents[0] == HeadOrGenesis(h.rows, sid)
    requires e.tables.Sqlite? || (KnownType(memoryType) ==> Unstored(h, id))
    ensures var (e', r) := Write(hash, e, sid, id, parents, memoryType, embedding, payload);
      && (r.Ok? <==> KnownType(memoryType) && Unstored(h, id))
      && (r.Ok? ==> Lands(e, e', x, payload))
    ensures x.id == id && x.stream == sid && x.parents == parents && x.memoryType == memoryType
    ensures x.embedding == if e.tables.Sqlite? && embedding == Some([]) then None else embedding
  {
    hide Sound, Represents, UsableId, Write, KnownType, Unstored, Lands, Of, HeadOrGenesis, NextDrawn, LastEpoch;
    var written := Event(id, sid, parents, NextDrawn(h, sid), memoryType, embedding, hash(payload));
    x := Back(e.tables, written);
    if KnownType(memoryType) && Unstored(h, id) {
      WriteRep(hash, e, h, sid, id, parents, memoryType, embedding, payload);
      WriteStores(hash, e, sid, id, parents, memoryType, embedding, payload);
      NextDrawnLater(h, sid);
      AddedSound(h, written);
      AddedLands(e, h, Write(hash, e, sid, id, parents, memoryType, embedding, payload).0, written, payload);
    } else {
      RefusedRep(hash, e, h, sid, id, parents, memoryType, embedding, payload);
    }
  }

  lemma {:induction false} Reached(hash: Hash, sqlite: bool, ops: seq<Op>) returns (e: Engine, h: History)
    requires Reachable(hash, sqlite, ops)
    ensures e == RunEngine(hash, NewEngine(sqlite), ops) && h == RunHistory(hash, NOTHING, ops)
    ensures Sound(h) && Represents(e, h) && (e.tables.Sqlite? <==> sqlite)
  {
    RunRep(hash, sqlite, ops);
    e, h := RunEngine(hash, NewEngine(sqlite), ops), RunHistory(hash, NOTHING, ops);
  }

  lemma {:induction false} StreamHead(e: Engine, h: History, sid: string)
    requires Sound(h) && Represents(e, h)
    ensures HeadOr(e.tables, sid) == HeadOrGenesis(h.rows, sid) == LastId(List(e.tables, sid))
  {
    RunAnswers(e, h, sid, "");
    HeadIsLastId(e, h, sid);
  }

  lemma {:induction false} UnstoredIff(e: Engine, h: History, id: string)
    requires Sound(h) && Represents(e, h)
    ensures Unstored(h, id) <==> Get(e.tables, id).None?
  {
    RunAnswers(e, h, "", id);
    hide Sound, Represents, Get, List, Of, FindRow;
  }

  /** Over every run and both ledgers: an append of a known memory type and a new
      id is accepted.  The event listed for it hangs on the stream's last event,
      has the type and embedding asked for (SQLite keeps no empty embedding), and
      reading it gives the caller's payload with the `_meta` and, if there was
      one, the signature of the append. */
  lemma {:induction false} AppendLands(hash: Hash, sqlite: bool, ops: seq<Op>, sid: string, id: string, meta: Meta,
                                       embedding: Option<seq<real>>, signature: Option<string>, payload: Payload)
    returns (x: Event, p: Payload)
    requires Reachable(hash, sqlite, ops) && UsableId(id)
    requires var e := RunEngine(hash, NewEngine(sqlite), ops); sqlite || Get(e.tables, id).None?
    ensures var e := RunEngine(hash, NewEngine(sqlite), ops);
      var (e', r) := Append(hash, e, sid, id, meta, embedding, signature, payload);
      && (r.Ok? <==> KnownType(meta.memoryType) && Get(e.tables, id).None?)
      && (r.Ok? ==> Lands(e, e', x, p))
      && x.parents == [LastId(List(e.tables, sid))]
    ensures x.id == id && x.stream == sid && x.memoryType == meta.memoryType
    ensures x.embedding == if sqlite && embedding == Some([]) then None else embedding
    ensures p.body == payload.body && p.meta == Some(meta) && p.restoredFrom == payload.restoredFrom
    ensures p.signature == if signature.Some? then signature else payload.signature
  {
    var e, h := Reached(hash, sqlite, ops);
    hide Reachable, RunEngine, Represents, Sound, UsableId, KnownType, Unstored, Get, List, Lands, Write,
      HeadOrGenesis, LastId, HeadOr, FindRow;
    StreamHead(e, h, sid);
    UnstoredIff(e, h, id);
    p := Stamped(payload, meta, signature);
    x := WriteLands(hash, e, h, sid, id, [HeadOr(e.tables, sid)], meta.memoryType, embedding, p);
  }

  /** Over every run and both ledgers: a merge with a new id is accepted.  The
      event added to the target has exactly two parents, the last event of the
      target before it and the last event of the source, each genesis when that
      stream is empty, and its payload names the source and both heads. */
  lemma {:induction false} MergeLands(hash: Hash, sqlite: bool, ops: seq<Op>, target: string, source: string,
                                      id: string)
    requires Reachable(hash, sqlite, ops) && UsableId(id)
    requires var e := RunEngine(hash, NewEngine(sqlite), ops); sqlite || Get(e.tables, id).None?
    ensures var e := RunEngine(hash, NewEngine(sqlite), ops);
      var (e', r) := Merge(hash, e, target, source, id);
      var ours, theirs := LastId(List(e.tables, target)), LastId(List(e.tables, source));
      && (r.Ok? <==> Get(e.tables, id).None?)
      && (r.Ok? ==> exists x ::
            && Lands(e, e', x, Payload(MergeNote(source, theirs, ours), None, None, None))
            && x.id == id && x.stream == target && x.parents == [ours, theirs] && x.memoryType == "observation"
            && x.embedding == None)
  {
    var e, h := Reached(hash, sqlite, ops);
    ObservationKnown();
    hide Reachable, RunEngine, Represents, Sound, UsableId, KnownType, Unstored, Get, List, Lands, Write,
      HeadOrGenesis, LastId, HeadOr, FindRow;
    StreamHead(e, h, target);
    StreamHead(e, h, source);
    UnstoredIff(e, h, id);
    var ours, theirs := HeadOr(e.tables, target), HeadOr(e.tables, source);
    var p := Payload(MergeNote(source, theirs, ours), None, None, None);
    var x := WriteLands(hash, e, h, target, id, [ours, theirs], "observation", None, p);
    var (e', r) := Merge(hash, e, target, source, id);
    assert r.Ok? ==> Lands(e, e', x, p);
  }

  /** Over every run and both ledgers: a fork from a stored event, into a new
      stream and under a new id, is accepted.  The new stream lists one event,
      whose parent is genesis and whose payload names the stream, the event and
      the epoch it branches off at; from an unknown event it raises KeyError and
      changes nothing. */
  lemma {:induction false} ForkLands(hash: Hash, sqlite: bool, ops: seq<Op>, sid: string, from: string,
                                     newSid: string, id: string)
    requires Reachable(hash, sqlite, ops)
    requires Fresh(RunHistory(hash, NOTHING, ops), ForkOp(sid, from, newSid, id))
    requires var e := RunEngine(hash, NewEngine(sqlite), ops); sqlite || Get(e.tables, id).None?
    ensures var e := RunEngine(hash, NewEngine(sqlite), ops);
      var (e', r) := Fork(hash, e, sid, from, newSid, id);
      var origin := Get(e.tables, from);
      && (r.Ok? <==> origin.Some? && Get(e.tables, id).None?)
      && (origin.None? ==> r == Raised(KeyError) && e' == e)
      && (r.Ok? ==> exists x ::
            && Lands(e, e', x,
                     Payload(ForkNote(sid, from, origin.value.epoch), Some(DefaultMeta("system")), None, None))
            && List(e.tables, newSid) == [] && x.id == id && x.stream == newSid && x.parents == ["genesis"]
            && x.memoryType == "system")
  {
    var e, h := Reached(hash, sqlite, ops);
    hide Reachable, RunEngine, Represents, Sound, UsableId, KnownType, Unstored, Get, List, Lands, Write, RunHistory,
      HeadOrGenesis, LastId, HeadOr, FindRow, CreateStream;
    UnstoredIff(e, h, id);
    var origin := Get(e.tables, from);
    if origin.Some? {
      var p := Stamped(Plain(ForkNote(sid, from, origin.value.epoch)), SYSTEM, None);
      var x := OpenedLands(hash, e, h, newSid, id, p);
      var (e', r) := Fork(hash, e, sid, from, newSid, id);
      assert r.Ok? ==> Lands(e, e', x, p);
    }
  }

  /** The first event of a stream that is created for it. */
  lemma {:induction false} OpenedLands(hash: Hash, e: Engine, h: History, newSid: string, id: string, p: Payload)
    returns (x: Event)
    requires Sound(h) && Represents(e, h) && newSid !in h.known && UsableId(id)
    requires e.tables.Sqlite? || Unstored(h, id)
    ensures var created := e.(tables := CreateStream(e.tables, newSid));
      var (e', r) := Write(hash, created, newSid, id, [HeadOr(created.tables, newSid)], "system", None, p);
      && (r.Ok? <==> Unstored(h, id)) && (r.Ok? ==> Lands(e, e', x, p))
    ensures List(e.tables, newSid) == []
    ensures x.id == id && x.stream == newSid && x.parents == ["genesis"] && x.memoryType == "system"
  {
    SystemKnown();
    var e1, h1 := e.(tables := CreateStream(e.tables, newSid)), h.(known := h.known + {newSid});
    hide Represents, Sound, UsableId, KnownType, Unstored, Get, List, Write, HeadOrGenesis, HeadOr, FindRow,
      CreateStream, LastEpoch;
    CreateRep(e, h, newSid);
    KnownMoreSound(h, newSid);
    NewStreamEmpty(h, newSid);
    SameStored(h, h1, id);
    SameKind(e.tables, newSid);
    StreamHead(e1, h1, newSid);
    x := WriteLands(hash, e1, h1, newSid, id, ["genesis"], "system", None, p);
    forall s ensures List(e1.tables, s) == List(e.tables, s) {
      SameListing(e, h, e1, h1, s);
    }
    EmptyListing(e, h, newSid);
  }

  lemma {:induction false} SameListing(e: Engine, h: History, e1: Engine, h1: History, sid: string)
    requires Sound(h) && Represents(e, h) && Sound(h1) && Represents(e1, h1) && h1.rows == h.rows
    requires e1.tables.InMem? <==> e.tables.InMem?
    ensures List(e1.tables, sid) == List(e.tables, sid)
  {
    RunAnswers(e, h, sid, "");
    RunAnswers(e1, h1, sid, "");
  }

  lemma {:induction false} EmptyListing(e: Engine, h: History, sid: string)
    requires Sound(h) && Represents(e, h) && Of(h.rows, sid) == []
    ensures List(e.tables, sid) == []
  {
    RunAnswers(e, h, sid, "");
  }

  lemma {:induction false} SystemKnown()
    ensures KnownType("system")
  {
  }

  /** Over every run and both ledgers: after a deletion the stream lists nothing
      and has no head, the next event appended to it hangs on genesis with epoch
      one, and every other listing and head is what it was. */
  lemma {:induction false} DeleteClears(hash: Hash, sqlite: bool, ops: seq<Op>, sid: string)
    requires Reachable(hash, sqlite, ops)
    ensures var e := RunEngine(hash, NewEngine(sqlite), ops);
      var e' := Delete(e, sid);
      && List(e'.tables, sid) == [] && Head(e'.tables, sid) == None
      && HeadOr(e'.tables, sid) == "genesis" && NextEpoch(e', sid) == 1
      && forall other :: other != sid ==>
        List(e'.tables, other) == List(e.tables, other) && Head(e'.tables, other) == Head(e.tables, other)
  {
    var e, h := Reached(hash, sqlite, ops);
    hide Reachable, RunEngine, RunHistory, Represents, Sound, Get, List, Head, HeadOr, Delete, NextEpoch, Of, Drop;
    var e' := Delete(e, sid);
    DeleteRep(e, h, sid);
    DroppedSound(h, sid);
    forall s
      ensures List(e'.tables, s) == (if s == sid then [] else List(e.tables, s))
      ensures Head(e'.tables, s) == (if s == sid then None else Head(e.tables, s))
    {
      ListingAfterDelete(e, h, sid, s);
    }
    NoHead(e', Dropped(h, sid), sid);
    EpochAnswer(e', Dropped(h, sid), sid);
    FirstDrawn(h, sid);
  }

  lemma {:induction false} SameKindDeleted(e: Engine, sid: string)
    ensures Delete(e, sid).tables.InMem? <==> e.tables.InMem?
  {
  }

  lemma {:induction false} FirstDrawn(h: History, sid: string)
    ensures NextDrawn(Dropped(h, sid), sid) == 1
  {
    OfDrop(h.rows, sid, sid);
  }

  lemma {:induction false} NoHead(e: Engine, h: History, sid: string)
    requires Sound(h) && Represents(e, h) && Head(e.tables, sid) == None
    ensures HeadOr(e.tables, sid) == "genesis"
  {
  }

  lemma {:induction false} ListingAfterDelete(e: Engine, h: History, gone: string, sid: string)
    requires Sound(h) && Represents(e, h)
    requires Sound(Dropped(h, gone)) && Represents(Delete(e, gone), Dropped(h, gone))
    ensures var t, t' := e.tables, Delete(e, gone).tables;
      && List(t', sid) == (if sid == gone then [] else List(t, sid))
      && Head(t', sid) == (if sid == gone then None else Head(t, sid))
  {
    SameKindDeleted(e, gone);
    OfDrop(h.rows, gone, sid);
    hide Represents, Sound, Get, List, Head, HeadOr, Delete, Of, Drop;
    RunAnswers(e, h, sid, "");
    RunAnswers(Delete(e, gone), Dropped(h, gone), sid, "");
  }
}
