/** Lineages, common ancestors, forks and merges of protocol-event streams:
    `TimeTravelEngine` (walrusos/engine/time_travel.py:21-141) over
    `InMemoryLedger` (walrusos/adapters/in_memory.py:104-118, 187-193). */
module TimeTravel {
  import opened Prelude
  import opened Protocol
  import opened StableSort

  /** Canonical hashing, decimal numerals, and timestamps as numbers. */
  datatype Codec = Codec(digest: Payload -> string, numeral: nat -> string, rank: string -> real)

  /** Equal digests mean equal fields: canonical JSON forgets only key order. */
  ghost predicate Lawful(c: Codec) {
    && (forall p, q :: c.digest(p) == c.digest(q) ==> forall key :: Field(p, key) == Field(q, key))
    && (forall m, n :: c.numeral(m) == c.numeral(n) ==> m == n)
  }

  // --------------------------------------------------------------- the ledger

  datatype Ledger = Ledger(events: map<string, Event>, order: map<string, seq<string>>)

  function OrderOf(l: Ledger, sid: string): seq<string> {
    if sid in l.order then l.order[sid] else []
  }

  /** `[events[eid] for eid in ids if eid in events]` */
  function Lookup(events: map<string, Event>, ids: seq<string>): seq<Event> {
    if ids == [] then []
    else
      var last := ids[|ids| - 1];
      Lookup(events, ids[..|ids| - 1]) + (if last in events then [events[last]] else [])
  }

  /** `list_events` */
  function Listed(l: Ledger, sid: string): seq<Event> {
    Lookup(l.events, OrderOf(l, sid))
  }

  /** `append_event`: an event with a used id replaces the old one. */
  function Put(l: Ledger, sid: string, e: Event): Ledger {
    Ledger(l.events[e.id := e], l.order[sid := OrderOf(l, sid) + [e.id]])
  }

  function ByTime(c: Codec): Event -> real {
    (e: Event) => c.rank(e.timestamp)
  }

  /** `get_stream_lineage` */
  function Lineage(c: Codec, l: Ledger, sid: string): seq<Event> {
    SortBy(Listed(l, sid), ByTime(c))
  }

  /** No stream has ever held this id. */
  ghost predicate Fresh(l: Ledger, id: string) {
    id !in l.events && forall s :: s in l.order ==> id !in l.order[s]
  }

  /** e is later than everything in the stream. */
  ghost predicate Latest(c: Codec, l: Ledger, sid: string, e: Event) {
    forall i :: 0 <= i < |Listed(l, sid)| ==> c.rank(Listed(l, sid)[i].timestamp) <= c.rank(e.timestamp)
  }

  lemma {:induction false} LookupElsewhere(events: map<string, Event>, ids: seq<string>, e: Event)
    requires e.id !in ids
    ensures Lookup(events[e.id := e], ids) == Lookup(events, ids)
  {
    if ids != [] {
      LookupElsewhere(events, ids[..|ids| - 1], e);
    }
  }

  lemma {:induction false} LookupIds(events: map<string, Event>, ids: seq<string>)
    requires forall id :: id in events ==> events[id].id == id
    ensures forall i :: 0 <= i < |Lookup(events, ids)| ==>
      Lookup(events, ids)[i].id in events && events[Lookup(events, ids)[i].id] == Lookup(events, ids)[i]
  {
    if ids != [] {
      LookupIds(events, ids[..|ids| - 1]);
    }
  }

  lemma {:induction false} PutFresh(l: Ledger, sid: string, e: Event, s: string)
    requires Fresh(l, e.id)
    ensures Listed(Put(l, sid, e), s) == Listed(l, s) + (if s == sid then [e] else [])
  {
    LookupElsewhere(l.events, OrderOf(l, s), e);
    var ids := OrderOf(l, sid) + [e.id];
    assert ids[..|ids| - 1] == OrderOf(l, sid);
  }

  lemma {:induction false} WithKeySnoc<T>(s: seq<T>, x: T, key: T -> real, k: real)
    ensures WithKey(s + [x], key, k) == WithKey(s, key, k) + WithKey([x], key, k)
  {
    if s != [] {
      WithKeySnoc(s[1..], x, key, k);
      assert (s + [x])[1..] == s[1..] + [x];
    } else {
      assert s + [x] == [x];
    }
  }

  /** A last element that is not smaller than the others stays last. */
  lemma {:induction false} SortBySnoc<T>(s: seq<T>, x: T, key: T -> real)
    requires forall i :: 0 <= i < |s| ==> key(s[i]) <= key(x)
    ensures SortBy(s + [x], key) == SortBy(s, key) + [x]
  {
    hide SortBy, WithKey;
    SortByCorrect(s, key);
    SortByCorrect(s + [x], key);
    var a, b := SortBy(s + [x], key), SortBy(s, key) + [x];
    forall k ensures WithKey(a, key, k) == WithKey(b, key, k) {
      WithKeySnoc(s, x, key, k);
      WithKeySnoc(SortBy(s, key), x, key, k);
    }
    StableSortUnique(a, b, key);
  }

  lemma {:induction false} LineageGrows(c: Codec, l: Ledger, sid: string, e: Event, s: string)
    requires Fresh(l, e.id) && Latest(c, l, sid, e)
    ensures Lineage(c, Put(l, sid, e), s) == Lineage(c, l, s) + (if s == sid then [e] else [])
  {
    hide SortBy, Put, Listed;
    PutFresh(l, sid, e, s);
    if s == sid {
      SortBySnoc(Listed(l, s), e, ByTime(c));
    } else {
      assert Listed(l, s) + [] == Listed(l, s);
    }
  }

  /** Every id in the table is that of its event. */
  ghost predicate Keyed(l: Ledger) {
    forall id :: id in l.events ==> l.events[id].id == id
  }

  lemma {:induction false} KeyedPut(l: Ledger, sid: string, e: Event)
    requires Keyed(l)
    ensures Keyed(Put(l, sid, e))
  {
  }

  lemma {:induction false} LineageIds(c: Codec, l: Ledger, s: string, i: nat)
    requires Keyed(l) && i < |Lineage(c, l, s)|
    ensures var e := Lineage(c, l, s)[i]; e.id in l.events && l.events[e.id] == e
  {
    hide SortBy;
    LookupIds(l.events, OrderOf(l, s));
    SortByCorrect(Listed(l, s), ByTime(c));
    assert Lineage(c, l, s)[i] in Listed(l, s);
  }

  // --------------------------------------------------------------- the ancestor

  /** How many leading events have pairwise equal ids. */
  function Agree(a: seq<Event>, b: seq<Event>): (n: nat)
    ensures n <= |a| && n <= |b|
    ensures forall i :: 0 <= i < n ==> a[i].id == b[i].id
    ensures n < |a| && n < |b| ==> a[n].id != b[n].id
  {
    if a == [] || b == [] || a[0].id != b[0].id then 0 else 1 + Agree(a[1..], b[1..])
  }

  lemma {:induction false} AgreeIs(a: seq<Event>, b: seq<Event>, n: nat)
    requires n <= |a| && n <= |b| && forall i :: 0 <= i < n ==> a[i].id == b[i].id
    requires n < |a| && n < |b| ==> a[n].id != b[n].id
    ensures Agree(a, b) == n
  {
  }

  /** The first event of a that b's opening fork event names, if any. */
  function ForkPoint(a: seq<Event>, b: seq<Event>): (k: Option<nat>)
    ensures k.Some? ==>
      && b != [] && b[0].kind == MemoryForked && k.value < |a| && Some(a[k.value].id) == b[0].parent
      && forall i :: 0 <= i < k.value ==> Some(a[i].id) != b[0].parent
    ensures k.None? && b != [] && b[0].kind == MemoryForked ==>
      forall i :: 0 <= i < |a| ==> Some(a[i].id) != b[0].parent
  {
    if b == [] || b[0].kind != MemoryForked || a == [] then None
    else if Some(a[0].id) == b[0].parent then Some(0)
    else
      match ForkPoint(a[1..], b)
      case None => None
      case Some(k) => Some(k + 1)
  }

  datatype Diff = Diff(lca: Option<Event>, a: seq<Event>, b: seq<Event>)

  /** `find_lca` on two lineages. */
  function Lca(a: seq<Event>, b: seq<Event>): Diff {
    var n := Agree(a, b);
    if n > 0 then Diff(Some(a[n - 1]), a[n..], b[n..])
    else
      match ForkPoint(a, b)
      case None => Diff(None, a, b)
      case Some(k) => Diff(Some(a[k]), a[k + 1..], b)
  }

  predicate SameRoot(a: seq<Event>, b: seq<Event>) {
    a != [] && b != [] && a[0].id == b[0].id
  }

  function Mirror(d: Diff): Diff {
    Diff(d.lca, d.b, d.a)
  }

  /** One table holds the events of both lineages. */
  ghost predicate OneTable(a: seq<Event>, b: seq<Event>) {
    forall i, j :: 0 <= i < |a| && 0 <= j < |b| && a[i].id == b[j].id ==> a[i] == b[j]
  }

  lemma {:induction false} SameEvents(a: seq<Event>, b: seq<Event>, n: nat)
    requires OneTable(a, b) && n <= |a| && n <= |b| && forall i :: 0 <= i < n ==> a[i].id == b[i].id
    ensures a[..n] == b[..n]
  {
    forall i | 0 <= i < n ensures a[i] == b[i] {
    }
  }

  lemma {:induction false} PrefixSplit(a: seq<Event>, b: seq<Event>)
    requires SameRoot(a, b) && OneTable(a, b)
    ensures var d := Lca(a, b);
      && |d.a| < |a| && |a| - |d.a| == |b| - |d.b|
      && var n := |a| - |d.a|;
        && a[..n] == b[..n] && a == a[..n] + d.a && b == b[..n] + d.b && d.lca == Some(a[n - 1])
        && (d.a == [] || d.b == [] || d.a[0].id != d.b[0].id)
  {
    hide OneTable, ForkPoint;
    SameEvents(a, b, Agree(a, b));
  }

  /** b opens with a fork at event k of a, the first with that id. */
  ghost predicate OpensWithForkAt(a: seq<Event>, b: seq<Event>, k: nat) {
    && k < |a| && b != [] && b[0].kind == MemoryForked && b[0].parent == Some(a[k].id)
    && forall i :: 0 <= i < k ==> a[i].id != a[k].id
  }

  /** Lineages with different roots: if the second opens with a fork of the
      first, the ancestor is the event forked at, and the second is divergent as
      a whole; otherwise there is no ancestor and both are. */
  lemma {:induction false} OtherRoots(a: seq<Event>, b: seq<Event>)
    requires !SameRoot(a, b)
    ensures forall k: nat :: OpensWithForkAt(a, b, k) ==> Lca(a, b) == Diff(Some(a[k]), a[k + 1..], b)
    ensures (forall k: nat :: !OpensWithForkAt(a, b, k)) ==> Lca(a, b) == Diff(None, a, b)
  {
    assert Agree(a, b) == 0;
    var f := ForkPoint(a, b);
    hide ForkPoint, Agree;
    if f.Some? {
      assert OpensWithForkAt(a, b, f.value);
      forall k: nat | OpensWithForkAt(a, b, k) ensures k == f.value {
        assert Some(a[k].id) == b[0].parent;
      }
    }
  }

  lemma {:induction false} MirroredIff(a: seq<Event>, b: seq<Event>)
    requires OneTable(a, b)
    ensures Lca(b, a) == Mirror(Lca(a, b)) <==> SameRoot(a, b) || (ForkPoint(a, b).None? && ForkPoint(b, a).None?)
  {
    hide ForkPoint;
    AgreeIs(b, a, Agree(a, b));
    if Agree(a, b) == 0 {
      assert !SameRoot(a, b);
      if ForkPoint(a, b).Some? {
        assert |Lca(a, b).a| < |a| && (|Lca(b, a).b| == |a|);
      } else if ForkPoint(b, a).Some? {
        assert |Lca(b, a).a| < |b| && |Lca(a, b).b| == |b|;
      }
    }
  }

  /** Two lineages of one ledger share its event table. */
  lemma {:induction false} LineagesShareTable(c: Codec, l: Ledger, s: string, t: string)
    requires Keyed(l)
    ensures OneTable(Lineage(c, l, s), Lineage(c, l, t))
  {
    hide Lineage;
    var a, b := Lineage(c, l, s), Lineage(c, l, t);
    forall i, j | 0 <= i < |a| && 0 <= j < |b| && a[i].id == b[j].id ensures a[i] == b[j] {
      LineageIds(c, l, s, i);
      LineageIds(c, l, t, j);
    }
  }

  /** When the roots of two streams agree their lineages are split at their
      longest common prefix, whatever the events are, and a fork event plays no
      part. */
  lemma {:induction false} SameRootSplit(c: Codec, l: Ledger, s: string, t: string)
    requires Keyed(l) && SameRoot(Lineage(c, l, s), Lineage(c, l, t))
    ensures var a, b := Lineage(c, l, s), Lineage(c, l, t);
      var d := Lca(a, b);
      && |d.a| < |a| && |a| - |d.a| == |b| - |d.b|
      && var n := |a| - |d.a|;
        && a[..n] == b[..n] && a == a[..n] + d.a && b == b[..n] + d.b && d.lca == Some(a[n - 1])
        && (d.a == [] || d.b == [] || d.a[0].id != d.b[0].id)
  {
    hide Lineage, Lca, OneTable;
    LineagesShareTable(c, l, s, t);
    PrefixSplit(Lineage(c, l, s), Lineage(c, l, t));
  }

  /** `find_lca` is symmetric on two streams of a ledger exactly when the roots
      agree or neither lineage opens with a fork of the other. */
  lemma {:induction false} SymmetricIff(c: Codec, l: Ledger, s: string, t: string)
    requires Keyed(l)
    ensures var a, b := Lineage(c, l, s), Lineage(c, l, t);
      Lca(b, a) == Mirror(Lca(a, b)) <==> SameRoot(a, b) || (ForkPoint(a, b).None? && ForkPoint(b, a).None?)
  {
    hide Lineage, Lca, OneTable, ForkPoint;
    LineagesShareTable(c, l, s, t);
    MirroredIff(Lineage(c, l, s), Lineage(c, l, t));
  }

  // ---------------------------------------------------------------------- forks

  const GENESIS := "genesis"
  const UNSIGNED := "v0_migration"

  function ForkPayload(sid: string, original: string, at: string): Payload {
    [("stream_id", Str(sid)), ("original_stream_id", Str(original)), ("forked_at", Str(at))]
  }

  /** The caller's arguments, with the fresh stream id and the clock. */
  datatype ForkCall = ForkCall(agentId: string, wallet: string, original: string, at: string, sid: string, now: string)

  function ForkEvent(c: Codec, workspaceId: string, f: ForkCall): Event {
    var p := ForkPayload(f.sid, f.original, f.at);
    Event(c.digest(p), MemoryForked, workspaceId, Some(f.agentId), f.wallet, None, None, Some(f.at), Some(f.at),
          UNSIGNED, f.now, None, p)
  }

  predicate Contains(events: seq<Event>, id: string) {
    exists i :: 0 <= i < |events| && events[i].id == id
  }

  /** e notes the fork f: its payload names the new stream, the original and the
      event forked at, which is also its parent. */
  ghost predicate NotesFork(c: Codec, e: Event, f: ForkCall) {
    && e.kind == MemoryForked && e.parent == e.previousHash == Some(f.at)
    && e.agentId == Some(f.agentId) && e.wallet == f.wallet && e.timestamp == f.now
    && e.id == c.digest(e.payload) && |e.payload| == 3
    && Field(e.payload, "stream_id") == Some(Str(f.sid))
    && Field(e.payload, "original_stream_id") == Some(Str(f.original))
    && Field(e.payload, "forked_at") == Some(Str(f.at))
  }

  lemma {:induction false} ForkEventNotes(c: Codec, workspaceId: string, f: ForkCall)
    ensures NotesFork(c, ForkEvent(c, workspaceId, f), f)
  {
    var p := ForkPayload(f.sid, f.original, f.at);
    assert p[1..][0] == p[1] && p[1..][1..][0] == p[2];
    assert Field(p, "original_stream_id") == Field(p[1..], "original_stream_id");
    assert Field(p, "forked_at") == Field(p[1..][1..], "forked_at");
  }

  lemma {:induction false} LookupContains(events: map<string, Event>, ids: seq<string>, id: string)
    requires forall x :: x in events ==> events[x].id == x
    ensures Contains(Lookup(events, ids), id) <==> id in ids && id in events
  {
    if ids != [] {
      var front, last := ids[..|ids| - 1], ids[|ids| - 1];
      LookupContains(events, front, id);
      assert ids == front + [last];
      var a, b := Lookup(events, front), Lookup(events, ids);
      if Contains(a, id) {
        var i :| 0 <= i < |a| && a[i].id == id;
        assert b[i] == a[i];
      }
      if last in events {
        assert b[|a|] == events[last];
      }
    }
  }

  /** A lineage holds exactly the stored events listed for the stream. */
  lemma {:induction false} LineageContains(c: Codec, l: Ledger, s: string, id: string)
    requires Keyed(l)
    ensures Contains(Lineage(c, l, s), id) <==> id in OrderOf(l, s) && id in l.events
  {
    hide SortBy;
    LookupContains(l.events, OrderOf(l, s), id);
    SortByCorrect(Listed(l, s), ByTime(c));
    var a, b := Listed(l, s), Lineage(c, l, s);
    if Contains(a, id) {
      var i :| 0 <= i < |a| && a[i].id == id;
      assert a[i] in multiset(b);
    }
    if Contains(b, id) {
      var i :| 0 <= i < |b| && b[i].id == id;
      assert b[i] in multiset(a);
    }
  }

  /** `fork_stream` without a key. */
  function Forked(c: Codec, l: Ledger, f: ForkCall): (Ledger, Result<string>) {
    var lineage := Lineage(c, l, f.original);
    if !Contains(lineage, f.at) then (l, Raised(ValueError))
    else (Put(l, f.sid, ForkEvent(c, lineage[0].workspaceId, f)), Ok(f.sid))
  }

  /** An event appended to a stream. */
  datatype Entry = Entry(sid: string, event: Event)

  function Puts(l: Ledger, entries: seq<Entry>): Ledger
    decreases |entries|
  {
    if entries == [] then l else Puts(Put(l, entries[0].sid, entries[0].event), entries[1..])
  }

  /** Every entry has a new id and is the latest of its stream. */
  ghost predicate Growing(c: Codec, l: Ledger, entries: seq<Entry>)
    decreases |entries|
  {
    entries != [] ==>
      var e := entries[0];
      && Fresh(l, e.event.id) && Latest(c, l, e.sid, e.event)
      && Growing(c, Put(l, e.sid, e.event), entries[1..])
  }

  function Added(entries: seq<Entry>, s: string): seq<Event> {
    if entries == [] then []
    else (if entries[0].sid == s then [entries[0].event] else []) + Added(entries[1..], s)
  }

  lemma {:induction false} GrowingLineage(c: Codec, l: Ledger, entries: seq<Entry>, s: string)
    requires Growing(c, l, entries)
    ensures Lineage(c, Puts(l, entries), s) == Lineage(c, l, s) + Added(entries, s)
    decreases |entries|
  {
    hide Lineage, Put, Fresh, Latest;
    if entries != [] {
      var e := entries[0];
      LineageGrows(c, l, e.sid, e.event, s);
      GrowingLineage(c, Put(l, e.sid, e.event), entries[1..], s);
    }
  }

  lemma {:induction false} GrowingKeyed(c: Codec, l: Ledger, entries: seq<Entry>)
    requires Keyed(l) && Growing(c, l, entries)
    ensures Keyed(Puts(l, entries))
    decreases |entries|
  {
    hide Put, Fresh, Latest, Keyed;
    if entries != [] {
      KeyedPut(l, entries[0].sid, entries[0].event);
      GrowingKeyed(c, Put(l, entries[0].sid, entries[0].event), entries[1..]);
    }
  }

  /** Added events have ids that the ledger did not hold. */
  lemma {:induction false} AddedAreNew(c: Codec, l: Ledger, entries: seq<Entry>, s: string)
    requires Growing(c, l, entries)
    ensures forall i :: 0 <= i < |Added(entries, s)| ==> Added(entries, s)[i].id !in l.events
    decreases |entries|
  {
    hide Latest;
    if entries != [] {
      AddedAreNew(c, Put(l, entries[0].sid, entries[0].event), entries[1..], s);
    }
  }

  lemma {:induction false} AddedApart(c: Codec, l: Ledger, entries: seq<Entry>, s: string, t: string)
    requires Growing(c, l, entries) && s != t
    ensures Apart(Added(entries, s), Added(entries, t))
    decreases |entries|
  {
    hide Latest;
    if entries != [] {
      var l' := Put(l, entries[0].sid, entries[0].event);
      AddedApart(c, l', entries[1..], s, t);
      AddedAreNew(c, l', entries[1..], s);
      AddedAreNew(c, l', entries[1..], t);
    }
  }

  /** The fork's lineage after the call: the fork event alone; every other
      stream's is unchanged. */
  lemma {:induction false} ForkLineages(c: Codec, l: Ledger, f: ForkCall, s: string)
    requires Forked(c, l, f).1.Ok? && OrderOf(l, f.sid) == []
    requires Fresh(l, c.digest(ForkPayload(f.sid, f.original, f.at)))
    ensures var w := Lineage(c, l, f.original)[0].workspaceId;
      Lineage(c, Forked(c, l, f).0, s) == if s == f.sid then [ForkEvent(c, w, f)] else Lineage(c, l, s)
  {
    hide SortBy, Fresh, Put;
    var e := ForkEvent(c, Lineage(c, l, f.original)[0].workspaceId, f);
    assert Listed(l, f.sid) == [];
    LineageGrows(c, l, f.sid, e, s);
    SortByCorrect(Listed(l, f.sid), ByTime(c));
    if s == f.sid {
      assert Lineage(c, l, s) == [];
      assert [] + [e] == [e];
    } else {
      assert Lineage(c, l, s) + [] == Lineage(c, l, s);
    }
  }

  /** Fork then diff: whatever is appended to the two branches afterwards, the
      ancestor is the event forked at, the first branch is what follows it, and
      the second is the whole fork. */
  lemma {:induction false} ForkThenDiff(c: Codec, l: Ledger, f: ForkCall, entries: seq<Entry>)
    requires Keyed(l) && OrderOf(l, f.sid) == [] && Fresh(l, c.digest(ForkPayload(f.sid, f.original, f.at)))
    requires Forked(c, l, f).1.Ok? && Growing(c, Forked(c, l, f).0, entries)
    ensures var before := Lineage(c, l, f.original);
      var l' := Puts(Forked(c, l, f).0, entries);
      var a, b := Lineage(c, l', f.original), Lineage(c, l', f.sid);
      && a == before + Added(entries, f.original)
      && b == [ForkEvent(c, before[0].workspaceId, f)] + Added(entries, f.sid)
      && exists k :: 0 <= k < |before| && before[k].id == f.at && Lca(a, b) == Diff(Some(before[k]), a[k + 1..], b)
  {
    hide Lineage, Growing, Puts, Added, Fresh, Put, Forked, Agree;
    var before := Lineage(c, l, f.original);
    var l1 := Forked(c, l, f).0;
    ForkFound(c, l, f);
    ForkLineages(c, l, f, f.original);
    ForkLineages(c, l, f, f.sid);
    GrowingLineage(c, l1, entries, f.original);
    GrowingLineage(c, l1, entries, f.sid);
    var a, b := before + Added(entries, f.original), [ForkEvent(c, before[0].workspaceId, f)] + Added(entries, f.sid);
    AgreeIs(a, b, 0);
    var at :| 0 <= at < |before| && before[at].id == f.at;
    assert a[at].id == f.at;
    var k := ForkPoint(a, b);
    assert k.Some? && k.value <= at;
    assert a[k.value] == before[k.value];
  }

  lemma {:induction false} ForkFound(c: Codec, l: Ledger, f: ForkCall)
    requires Keyed(l) && OrderOf(l, f.sid) == [] && Fresh(l, c.digest(ForkPayload(f.sid, f.original, f.at)))
    requires Forked(c, l, f).1.Ok?
    ensures Contains(Lineage(c, l, f.original), f.at) && f.original != f.sid
    ensures Lineage(c, l, f.original)[0].id != c.digest(ForkPayload(f.sid, f.original, f.at))
  {
    LineageIds(c, l, f.original, 0);
    hide SortBy;
    SortByCorrect(Listed(l, f.original), ByTime(c));
  }

  /** Asked the other way round, `find_lca` never gives the mirrored answer. */
  lemma {:induction false} ReversedDiffDiffers(c: Codec, l: Ledger, f: ForkCall, entries: seq<Entry>)
    requires Keyed(l) && OrderOf(l, f.sid) == [] && Fresh(l, c.digest(ForkPayload(f.sid, f.original, f.at)))
    requires Forked(c, l, f).1.Ok? && Growing(c, Forked(c, l, f).0, entries)
    ensures var l' := Puts(Forked(c, l, f).0, entries);
      var a, b := Lineage(c, l', f.original), Lineage(c, l', f.sid);
      Lca(b, a) != Mirror(Lca(a, b))
  {
    hide Lineage, Growing, Puts, Added, Fresh, Put, Forked, Agree, ForkPoint;
    ForkThenDiff(c, l, f, entries);
    var l' := Puts(Forked(c, l, f).0, entries);
    var a, b := Lineage(c, l', f.original), Lineage(c, l', f.sid);
    assert |Lca(a, b).a| < |a| && Lca(a, b).b == b;
    LcaSecond(b, a);
  }

  lemma {:induction false} LcaSecond(a: seq<Event>, b: seq<Event>)
    ensures |Lca(a, b).b| < |b| ==> |Lca(a, b).a| < |a|
  {
  }

  // --------------------------------------------------------------------- merges

  function MergePayload(c: Codec, target: string, source: string, count: nat): Payload {
    [("stream_id", Str(target)), ("merged_from_stream", Str(source)),
     ("divergent_events_merged", Other(c.numeral(count), count != 0))]
  }

  datatype MergeCall = MergeCall(agentId: string, wallet: string, source: string, target: string, now: string)

  /** The merge event for two lineages. */
  function MergeEvent(c: Codec, m: MergeCall, target: seq<Event>, source: seq<Event>): Event {
    var d := Lca(target, source);
    var head := if d.a != [] then d.a[|d.a| - 1].id else if d.lca.Some? then d.lca.value.id else GENESIS;
    var p := MergePayload(c, m.target, m.source, |d.b|);
    Event(c.digest(p), MemoryMerged, "unknown", Some(m.agentId), m.wallet, None, None, Some(head), Some(head),
          UNSIGNED, m.now, None, p)
  }

  /** `merge_streams` without a key. */
  function Merged(c: Codec, l: Ledger, m: MergeCall): Ledger {
    Put(l, m.target, MergeEvent(c, m, Lineage(c, l, m.target), Lineage(c, l, m.source)))
  }

  /** Whatever the ancestor, a merge's parent is the target's last event, or
      genesis when the target is empty. */
  lemma {:induction false} MergeParentIsHead(c: Codec, m: MergeCall, target: seq<Event>, source: seq<Event>)
    ensures MergeEvent(c, m, target, source).parent
      == Some(if target == [] then GENESIS else target[|target| - 1].id)
  {
  }

  /** A merge event's id depends on the two stream ids and the number of
      divergent events, and on nothing else. */
  lemma {:induction false} MergeIdIff(c: Codec, m: MergeCall, t: seq<Event>, s: seq<Event>,
                                      n: MergeCall, u: seq<Event>, v: seq<Event>)
    requires Lawful(c)
    ensures MergeEvent(c, m, t, s).id == MergeEvent(c, n, u, v).id
      <==> m.target == n.target && m.source == n.source && |Lca(t, s).b| == |Lca(u, v).b|
  {
    hide Lca;
    var i, j := |Lca(t, s).b|, |Lca(u, v).b|;
    var p, q := MergePayload(c, m.target, m.source, i), MergePayload(c, n.target, n.source, j);
    MergeFields(c, m.target, m.source, i);
    MergeFields(c, n.target, n.source, j);
    if c.digest(p) == c.digest(q) {
      assert Field(p, "stream_id") == Field(q, "stream_id");
      assert Field(p, "merged_from_stream") == Field(q, "merged_from_stream");
      assert Field(p, "divergent_events_merged") == Field(q, "divergent_events_merged");
      assert c.numeral(i) == c.numeral(j);
    }
  }

  /** e notes the merge m: its payload names both streams and how many events of
      the source were divergent, and its parent is the given head. */
  ghost predicate NotesMerge(c: Codec, e: Event, m: MergeCall, divergent: nat, head: string) {
    && e.kind == MemoryMerged && e.parent == e.previousHash == Some(head)
    && e.agentId == Some(m.agentId) && e.wallet == m.wallet && e.timestamp == m.now
    && e.id == c.digest(e.payload) && |e.payload| == 3
    && Field(e.payload, "stream_id") == Some(Str(m.target))
    && Field(e.payload, "merged_from_stream") == Some(Str(m.source))
    && Field(e.payload, "divergent_events_merged") == Some(Other(c.numeral(divergent), divergent != 0))
  }

  lemma {:induction false} MergeEventNotes(c: Codec, m: MergeCall, t: seq<Event>, s: seq<Event>)
    ensures NotesMerge(c, MergeEvent(c, m, t, s), m, |s| - Agree(t, s),
                       if t == [] then "genesis" else t[|t| - 1].id)
  {
    MergeParentIsHead(c, m, t, s);
    MergeFields(c, m.target, m.source, |Lca(t, s).b|);
    hide Field;
  }

  lemma {:induction false} MergeFields(c: Codec, target: string, source: string, count: nat)
    ensures var p := MergePayload(c, target, source, count);
      && Field(p, "stream_id") == Some(Str(target)) && Field(p, "merged_from_stream") == Some(Str(source))
      && Field(p, "divergent_events_merged") == Some(Other(c.numeral(count), count != 0))
  {
    var p := MergePayload(c, target, source, count);
    assert p[1..][0] == p[1] && p[1..][1..][0] == p[2];
    assert Field(p, "merged_from_stream") == Field(p[1..], "merged_from_stream");
    assert Field(p, "divergent_events_merged") == Field(p[1..][1..], "divergent_events_merged");
  }

  ghost predicate Apart(a: seq<Event>, b: seq<Event>) {
    forall i, j :: 0 <= i < |a| && 0 <= j < |b| ==> a[i].id != b[j].id
  }

  /** New events on both sides lengthen the divergent paths by themselves. */
  lemma {:induction false} DivergenceGrows(t: seq<Event>, s: seq<Event>, mid: seq<Event>, more: seq<Event>)
    requires Apart(mid, s) && Apart(t + mid, more)
    ensures |Lca(t + mid, s + more).b| == |Lca(t, s).b| + |more|
  {
    hide ForkPoint;
    var n := Agree(t, s);
    var t', s' := t + mid, s + more;
    if n < |s| && n < |t| {
      assert s'[n] == s[n] && t'[n] == t[n];
    } else if n < |s| && mid != [] {
      assert s'[n] == s[n] && t'[n] == mid[0];
    } else if n == |s| && more != [] && n < |t'| {
      assert s'[n] == more[0] && t'[n] in t';
    }
    AgreeIs(t', s', n);
  }

  /** A second merge of the same streams, after any growth of both with new
      ids, reuses the first one's id exactly when the source has not grown.  If
      the target has not grown either it is its own parent. */
  lemma {:induction false} SecondMergeReusesIdIff(c: Codec, m: MergeCall, n: MergeCall,
                                                 t: seq<Event>, s: seq<Event>, mid: seq<Event>, more: seq<Event>)
    requires Lawful(c) && n.target == m.target && n.source == m.source
    requires var x := MergeEvent(c, m, t, s); Apart([x] + mid, s) && Apart(t + ([x] + mid), more)
    ensures var x := MergeEvent(c, m, t, s);
      var t' := t + ([x] + mid);
      var y := MergeEvent(c, n, t', s + more);
      && (y.id == x.id <==> more == [])
      && y.parent == Some(t'[|t'| - 1].id)
      && (mid == [] ==> (y.parent == Some(y.id) <==> more == []))
  {
    hide Lca, Lawful;
    var x := MergeEvent(c, m, t, s);
    var t' := t + ([x] + mid);
    MergeParentIsHead(c, n, t', s + more);
    MergeIdIff(c, n, t', s + more, m, t, s);
    DivergenceGrows(t, s, [x] + mid, more);
  }

  /** Merging again after the target grew and the source did not replaces the
      first merge event by the second, which is listed twice and whose parent is
      the target's last event: itself, if the target has not grown. */
  lemma {:induction false} RepeatedMergeReplaces(c: Codec, l: Ledger, m: MergeCall, entries: seq<Entry>, n: MergeCall)
    requires Lawful(c) && n.target == m.target && n.source == m.source && m.target != m.source && Keyed(l)
    requires var x := MergeEvent(c, m, Lineage(c, l, m.target), Lineage(c, l, m.source));
      Fresh(l, x.id) && Latest(c, l, m.target, x)
    requires Growing(c, Merged(c, l, m), entries)
    ensures var x := MergeEvent(c, m, Lineage(c, l, m.target), Lineage(c, l, m.source));
      var l1 := Puts(Merged(c, l, m), entries);
      var y := MergeEvent(c, n, Lineage(c, l1, m.target), Lineage(c, l1, m.source));
      var mid := Added(entries, m.target);
      && (y.id == x.id <==> Added(entries, m.source) == [])
      && y.parent == Some(if mid == [] then x.id else mid[|mid| - 1].id)
      && Merged(c, l1, n).events[y.id] == y
      && OrderOf(Merged(c, l1, n), m.target) == OrderOf(l1, m.target) + [y.id]
      && x.id in OrderOf(l1, m.target)
  {
    hide Lineage, MergeEvent, Lawful, Latest, Growing, Fresh, Apart;
    var t, s := Lineage(c, l, m.target), Lineage(c, l, m.source);
    var x := MergeEvent(c, m, t, s);
    var mid, more := Added(entries, m.target), Added(entries, m.source);
    var l0 := Merged(c, l, m);
    KeyedPut(l, m.target, x);
    LineageGrows(c, l, m.target, x, m.target);
    LineageGrows(c, l, m.target, x, m.source);
    GrowingLineage(c, l0, entries, m.target);
    GrowingLineage(c, l0, entries, m.source);
    assert t + [x] + mid == t + ([x] + mid) && s + [] == s;
    MergeApart(c, l, m, entries);
    SecondMergeReusesIdIff(c, m, n, t, s, mid, more);
    OrderKept(l0, entries, m.target, x.id);
  }

  lemma {:induction false} OrderKept(l: Ledger, entries: seq<Entry>, s: string, id: string)
    requires id in OrderOf(l, s)
    ensures id in OrderOf(Puts(l, entries), s)
    decreases |entries|
  {
    if entries != [] {
      OrderKept(Put(l, entries[0].sid, entries[0].event), entries[1..], s, id);
    }
  }

  /** All the events involved have different ids. */
  lemma {:induction false} MergeApart(c: Codec, l: Ledger, m: MergeCall, entries: seq<Entry>)
    requires Keyed(l) && m.target != m.source
    requires Fresh(l, MergeEvent(c, m, Lineage(c, l, m.target), Lineage(c, l, m.source)).id)
    requires Growing(c, Merged(c, l, m), entries)
    ensures var t, s := Lineage(c, l, m.target), Lineage(c, l, m.source);
      var x := MergeEvent(c, m, t, s);
      var mid, more := Added(entries, m.target), Added(entries, m.source);
      Apart([x] + mid, s) && Apart(t + ([x] + mid), more)
  {
    hide Lineage, MergeEvent, Growing;
    var t, s := Lineage(c, l, m.target), Lineage(c, l, m.source);
    var x := MergeEvent(c, m, t, s);
    var l0 := Merged(c, l, m);
    var mid, more := Added(entries, m.target), Added(entries, m.source);
    AddedAreNew(c, l0, entries, m.target);
    AddedAreNew(c, l0, entries, m.source);
    AddedApart(c, l0, entries, m.target, m.source);
    forall i | 0 <= i < |t| ensures t[i].id in l.events { LineageIds(c, l, m.target, i); }
    forall i | 0 <= i < |s| ensures s[i].id in l.events { LineageIds(c, l, m.source, i); }
    assert x.id in l0.events && forall id :: id in l.events ==> id in l0.events;
  }

  // ----------------------------------------------------------------- the engine

  class TimeTravelEngine {
    const codec: Codec
    var events: map<string, Event>
    var order: map<string, seq<string>>

    constructor (codec: Codec)
      ensures Valid() && this.codec == codec && State() == Ledger(map[], map[])
    {
      this.codec, events, order := codec, map[], map[];
    }

    ghost function State(): Ledger
      reads this
    {
      Ledger(events, order)
    }

    ghost predicate Valid()
      reads this
    {
      Keyed(State())
    }

    method ListEvents(sid: string) returns (r: seq<Event>)
      ensures r == Listed(State(), sid)
    {
      var ids := if sid in order then order[sid] else [];
      r := [];
      for i := 0 to |ids|
        invariant r == Lookup(events, ids[..i])
      {
        assert ids[..i + 1][..i] == ids[..i];
        if ids[i] in events {
          r := r + [events[ids[i]]];
        }
      }
      assert ids[..|ids|] == ids;
    }

    method AppendEvent(sid: string, e: Event)
      requires Valid()
      modifies this
      ensures Valid() && State() == Put(old(State()), sid, e)
      ensures events == old(events)[e.id := e] && order == old(order)[sid := old(OrderOf(State(), sid)) + [e.id]]
    {
      events := events[e.id := e];
      order := order[sid := (if sid in order then order[sid] else []) + [e.id]];
    }

    method GetStreamLineage(sid: string) returns (r: seq<Event>)
      ensures r == Lineage(codec, State(), sid)
    {
      hide Listed, SortBy;
      var listed := ListEvents(sid);
      r := SortBy(listed, ByTime(codec));
    }

    /** The loop over the zipped lineages. */
    static method CommonPrefix(a: seq<Event>, b: seq<Event>) returns (n: nat)
      ensures n == Agree(a, b)
    {
      n := 0;
      while n < |a| && n < |b| && a[n].id == b[n].id
        invariant n <= |a| && n <= |b|
        invariant forall k :: 0 <= k < n ==> a[k].id == b[k].id
      {
        n := n + 1;
      }
      AgreeIs(a, b, n);
    }

    /** The loop that looks for the event a fork names. */
    static method FindForked(a: seq<Event>, parent: Option<string>) returns (k: nat)
      ensures k <= |a| && forall i :: 0 <= i < k ==> Some(a[i].id) != parent
      ensures k < |a| ==> Some(a[k].id) == parent
    {
      k := 0;
      while k < |a| && Some(a[k].id) != parent
        invariant k <= |a| && forall i :: 0 <= i < k ==> Some(a[i].id) != parent
      {
        k := k + 1;
      }
    }

    method FindLca(sa: string, sb: string) returns (lca: Option<Event>, restA: seq<Event>, restB: seq<Event>)
      ensures Diff(lca, restA, restB) == Lca(Lineage(codec, State(), sa), Lineage(codec, State(), sb))
    {
      hide Lineage, Agree, ForkPoint;
      var a := GetStreamLineage(sa);
      var b := GetStreamLineage(sb);
      var n := CommonPrefix(a, b);
      if n > 0 {
        return Some(a[n - 1]), a[n..], b[n..];
      }
      if b != [] && b[0].kind == MemoryForked {
        var k := FindForked(a, b[0].parent);
        if k < |a| {
          return Some(a[k]), a[k + 1..], b;
        }
      }
      return None, a, b;
    }

    method ForkStream(f: ForkCall) returns (r: Result<string>)
      requires Valid()
      modifies this
      ensures Valid() && (State(), r) == Forked(codec, old(State()), f)
      ensures r.Ok? <==> f.at in old(OrderOf(State(), f.original)) && f.at in old(events)
      ensures r.Raised? ==> r.error == ValueError && State() == old(State())
      ensures r.Ok? ==> exists e ::
        && NotesFork(codec, e, f) && e.workspaceId == Lineage(codec, old(State()), f.original)[0].workspaceId
        && events == old(events)[e.id := e]
        && order == old(order)[f.sid := old(OrderOf(State(), f.sid)) + [e.id]]
    {
      LineageContains(codec, State(), f.original, f.at);
      hide Lineage, Put, Keyed, NotesFork;
      var lineage := GetStreamLineage(f.original);
      if !Contains(lineage, f.at) {
        return Raised(ValueError);
      }
      ForkEventNotes(codec, lineage[0].workspaceId, f);
      AppendEvent(f.sid, ForkEvent(codec, lineage[0].workspaceId, f));
      return Ok(f.sid);
    }

    method MergeStreams(m: MergeCall) returns (id: string)
      requires Valid()
      modifies this
      ensures Valid() && State() == Merged(codec, old(State()), m)
      ensures var l := old(State());
        id == MergeEvent(codec, m, Lineage(codec, l, m.target), Lineage(codec, l, m.source)).id
      ensures id in events && events == old(events)[id := events[id]]
      ensures order == old(order)[m.target := old(OrderOf(State(), m.target)) + [id]]
      ensures var t, s := Lineage(codec, old(State()), m.target), Lineage(codec, old(State()), m.source);
        NotesMerge(codec, events[id], m, |s| - Agree(t, s), if t == [] then "genesis" else t[|t| - 1].id)
    {
      MergeEventNotes(codec, m, Lineage(codec, State(), m.target), Lineage(codec, State(), m.source));
      hide Lineage, Put, Lca, Keyed, NotesMerge;
      var lca, a, b := FindLca(m.target, m.source);
      var head := if a != [] then a[|a| - 1].id else if lca.Some? then lca.value.id else GENESIS;
      var p := MergePayload(codec, m.target, m.source, |b|);
      var e := Event(codec.digest(p), MemoryMerged, "unknown", Some(m.agentId), m.wallet, None, None,
                     Some(head), Some(head), UNSIGNED, m.now, None, p);
      AppendEvent(m.target, e);
      return e.id;
    }
  }
}
