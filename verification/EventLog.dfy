/** The hash-chained protocol log: `EventStoreEngine._compute_event_hash` and
    `append` (walrusos/engine/event_store.py:35-109), over the event table of
    walrusos/adapters/sqlite_ledger.py:256-290. */
module EventLog {
  import opened Prelude
  import opened Protocol
  import VectorIndex
  import VectorMath

  /** `json.dumps` and `json.loads`, SHA-256 in hex, and the order of the ISO
      timestamps as a number. */
  datatype Codec = Codec(
    dumps: Payload -> string,
    loads: string -> Option<Payload>,
    sha: string -> string,
    rank: string -> real)

  predicate HexDigit(c: char) {
    '0' <= c <= '9' || 'a' <= c <= 'f'
  }

  predicate Hex(s: string) {
    s != "" && forall i :: 0 <= i < |s| ==> HexDigit(s[i])
  }

  predicate ObjectText(text: string) {
    text != "" && text[0] == '{'
  }

  /** SHA-256 is treated as injective; an object's text starts with a brace. */
  ghost predicate Lawful(c: Codec) {
    && (forall a, b :: c.sha(a) == c.sha(b) ==> a == b)
    && (forall a :: Hex(c.sha(a)))
    && (forall p :: ObjectText(c.dumps(p)))
  }

  // ------------------------------------------------------------------ the hash

  /** `_compute_event_hash` */
  function EventHash(c: Codec, text: string, previous: Option<string>): string {
    c.sha(if previous.Some? && previous.value != "" then previous.value + ":" + text else text)
  }

  lemma {:induction false} ColonSplits(a: string, s: string, b: string, t: string)
    requires Hex(a) && Hex(b) && a + ":" + s == b + ":" + t
    ensures a == b && s == t
  {
    var x, y := a + ":" + s, b + ":" + t;
    assert x[|a|] == ':' && y[|b|] == ':';
    assert forall i :: 0 <= i < |a| ==> x[i] == a[i];
    assert forall i :: 0 <= i < |b| ==> y[i] == b[i];
    assert |a| == |b|;
    assert a == x[..|a|] && b == y[..|b|];
    assert s == x[|a| + 1..] && t == y[|b| + 1..];
  }

  lemma {:induction false} LinkedIsNoObject(a: string, s: string)
    requires Hex(a)
    ensures !ObjectText(a + ":" + s)
  {
    assert (a + ":" + s)[0] == a[0];
  }

  /** The hash determines both the payload text and the previous hash. */
  lemma {:induction false} HashInjective(c: Codec, s: string, p: Option<string>, t: string, q: Option<string>)
    requires Lawful(c) && ObjectText(s) && ObjectText(t)
    requires (p.Some? ==> Hex(p.value)) && (q.Some? ==> Hex(q.value))
    ensures EventHash(c, s, p) == EventHash(c, t, q) <==> s == t && p == q
  {
    if EventHash(c, s, p) == EventHash(c, t, q) {
      if p.Some? && q.Some? {
        ColonSplits(p.value, s, q.value, t);
      } else if p.Some? {
        LinkedIsNoObject(p.value, s);
      } else if q.Some? {
        LinkedIsNoObject(q.value, t);
      }
    }
  }

  // ---------------------------------------------------------------- the chains

  /** A workspace's events in the order they were inserted. */
  function Timeline(rows: seq<Event>, w: string): seq<Event> {
    if rows == [] then []
    else
      var last := rows[|rows| - 1];
      Timeline(rows[..|rows| - 1], w) + (if last.workspaceId == w then [last] else [])
  }

  function Head(rows: seq<Event>, w: string): Option<string> {
    var t := Timeline(rows, w);
    if t == [] then None else Some(t[|t| - 1].id)
  }

  /** The JSON texts of the events' payloads. */
  function Texts(c: Codec, events: seq<Event>): (r: seq<string>)
    ensures |r| == |events|
    ensures forall i :: 0 <= i < |r| ==> r[i] == c.dumps(events[i].payload)
  {
    if events == [] then []
    else Texts(c, events[..|events| - 1]) + [c.dumps(events[|events| - 1].payload)]
  }

  /** The id that a history of payload texts leads to. */
  function ChainId(c: Codec, texts: seq<string>): Option<string> {
    if texts == [] then None
    else Some(EventHash(c, texts[|texts| - 1], ChainId(c, texts[..|texts| - 1])))
  }

  ghost predicate ObjectTexts(texts: seq<string>) {
    forall i :: 0 <= i < |texts| ==> ObjectText(texts[i])
  }

  lemma {:induction false} ChainIdIsHex(c: Codec, texts: seq<string>)
    requires Lawful(c)
    ensures ChainId(c, texts).Some? <==> texts != []
    ensures texts != [] ==> Hex(ChainId(c, texts).value)
  {
    hide Hex;
  }

  /** The id at the end of a chain determines the whole chain. */
  lemma {:induction false} ChainIdInjective(c: Codec, a: seq<string>, b: seq<string>)
    requires Lawful(c) && ObjectTexts(a) && ObjectTexts(b)
    ensures ChainId(c, a) == ChainId(c, b) <==> a == b
  {
    hide Lawful, EventHash, ObjectText, Hex;
    ChainIdIsHex(c, a);
    ChainIdIsHex(c, b);
    if a != [] && b != [] {
      var a', b' := a[..|a| - 1], b[..|b| - 1];
      ChainIdIsHex(c, a');
      ChainIdIsHex(c, b');
      ChainIdInjective(c, a', b');
      HashInjective(c, a[|a| - 1], ChainId(c, a'), b[|b| - 1], ChainId(c, b'));
      assert a == a' + [a[|a| - 1]] && b == b' + [b[|b| - 1]];
    }
  }

  /** now is later than every event of the workspace. */
  ghost predicate ClockAdvances(c: Codec, rows: seq<Event>, w: string, now: string) {
    forall i :: 0 <= i < |rows| && rows[i].workspaceId == w ==> c.rank(rows[i].timestamp) < c.rank(now)
  }

  ghost predicate LinkedAt(c: Codec, rows: seq<Event>, i: nat)
    requires i < |rows|
  {
    var e := rows[i];
    && e.previousHash == Head(rows[..i], e.workspaceId)
    && e.id == EventHash(c, c.dumps(e.payload), e.previousHash)
    && e.blobHash == Some(c.sha(c.dumps(e.payload)))
    && e.parent == None
    && ClockAdvances(c, rows[..i], e.workspaceId, e.timestamp)
  }

  /** Every event is hashed onto its workspace's previous event. */
  ghost predicate Linked(c: Codec, rows: seq<Event>) {
    forall i :: 0 <= i < |rows| ==> LinkedAt(c, rows, i)
  }

  lemma {:induction false} LinkedPrefix(c: Codec, rows: seq<Event>, n: nat)
    requires n <= |rows| && Linked(c, rows)
    ensures Linked(c, rows[..n])
  {
    hide LinkedAt;
    forall i | 0 <= i < n ensures LinkedAt(c, rows[..n], i) {
      LinkedAtPrefix(c, rows, n, i);
    }
  }

  lemma {:induction false} LinkedAtPrefix(c: Codec, rows: seq<Event>, n: nat, i: nat)
    requires i < n <= |rows|
    ensures LinkedAt(c, rows[..n], i) <==> LinkedAt(c, rows, i)
  {
    assert rows[..n][..i] == rows[..i];
  }

  /** A workspace's head is the chain id of its payload texts, so it depends on
      nothing else. */
  lemma {:induction false} HeadIsChainId(c: Codec, rows: seq<Event>, w: string)
    requires Linked(c, rows)
    ensures Head(rows, w) == ChainId(c, Texts(c, Timeline(rows, w)))
  {
    if rows != [] {
      var n := |rows| - 1;
      LinkedPrefix(c, rows, n);
      HeadIsChainId(c, rows[..n], w);
      assert LinkedAt(c, rows, n);
      if rows[n].workspaceId == w {
        var t := Timeline(rows, w);
        assert t[..|t| - 1] == Timeline(rows[..n], w);
        assert Texts(c, t)[..|t| - 1] == Texts(c, t[..|t| - 1]);
        assert t[|t| - 1] == rows[n];
      } else {
        assert Timeline(rows, w) == Timeline(rows[..n], w);
      }
    }
  }

  lemma {:induction false} TextsAreObjects(c: Codec, events: seq<Event>)
    requires Lawful(c)
    ensures ObjectTexts(Texts(c, events))
  {
  }

  /** Two logs have the same head exactly when they have the same history of
      payloads: the head id commits to the whole log. */
  lemma {:induction false} SameHeadSameHistory(c: Codec, a: seq<Event>, v: string, b: seq<Event>, w: string)
    requires Lawful(c) && Linked(c, a) && Linked(c, b)
    ensures Head(a, v) == Head(b, w) <==> Texts(c, Timeline(a, v)) == Texts(c, Timeline(b, w))
  {
    hide Lawful;
    HeadIsChainId(c, a, v);
    HeadIsChainId(c, b, w);
    TextsAreObjects(c, Timeline(a, v));
    TextsAreObjects(c, Timeline(b, w));
    ChainIdInjective(c, Texts(c, Timeline(a, v)), Texts(c, Timeline(b, w)));
  }

  // -------------------------------------------------------------- latest event

  /** What `ORDER BY timestamp DESC LIMIT 1` may return. */
  ghost predicate IsLatest(c: Codec, rows: seq<Event>, w: string, i: nat) {
    && i < |rows| && rows[i].workspaceId == w
    && forall j :: 0 <= j < |rows| && rows[j].workspaceId == w ==>
         c.rank(rows[j].timestamp) <= c.rank(rows[i].timestamp)
  }

  /** What `get_latest_event_hash` may return. */
  ghost predicate LatestId(c: Codec, rows: seq<Event>, w: string, id: Option<string>) {
    if id.None? then forall i :: 0 <= i < |rows| ==> rows[i].workspaceId != w
    else exists i :: 0 <= i < |rows| && IsLatest(c, rows, w, i) && rows[i].id == id.value
  }

  /** On a linked log that is the head of the chain. */
  lemma {:induction false} LatestIdIsHead(c: Codec, rows: seq<Event>, w: string, id: Option<string>)
    requires Linked(c, rows) && LatestId(c, rows, w, id)
    ensures id == Head(rows, w)
  {
    hide Linked, IsLatest;
    if id.None? {
      var k := HeadPosition(rows, w);
    } else {
      var i :| 0 <= i < |rows| && IsLatest(c, rows, w, i) && rows[i].id == id.value;
      LatestIsHead(c, rows, w, i);
    }
  }

  lemma {:induction false} HeadPosition(rows: seq<Event>, w: string) returns (k: int)
    ensures -1 <= k < |rows|
    ensures forall j :: k < j < |rows| ==> rows[j].workspaceId != w
    ensures k < 0 ==> Head(rows, w) == None
    ensures k >= 0 ==> rows[k].workspaceId == w && Head(rows, w) == Some(rows[k].id)
  {
    if rows == [] {
      k := -1;
    } else if rows[|rows| - 1].workspaceId == w {
      k := |rows| - 1;
    } else {
      k := HeadPosition(rows[..|rows| - 1], w);
      assert Timeline(rows, w) == Timeline(rows[..|rows| - 1], w);
    }
  }

  lemma {:induction false} LaterRow(c: Codec, rows: seq<Event>, i: nat, k: nat)
    requires i < k < |rows| && LinkedAt(c, rows, k) && rows[i].workspaceId == rows[k].workspaceId
    ensures c.rank(rows[i].timestamp) < c.rank(rows[k].timestamp)
  {
    assert rows[..k][i] == rows[i];
  }

  /** With advancing clocks the latest event is the head of the chain. */
  lemma {:induction false} LatestIsHead(c: Codec, rows: seq<Event>, w: string, i: nat)
    requires Linked(c, rows) && IsLatest(c, rows, w, i)
    ensures Head(rows, w) == Some(rows[i].id)
  {
    var k := HeadPosition(rows, w);
    assert LinkedAt(c, rows, k);
    if i < k {
      LaterRow(c, rows, i, k);
    }
  }

  // -------------------------------------------------------------------- append

  /** The string values of a payload, in order. */
  function Strings(p: Payload): seq<string> {
    if p == [] then []
    else Strings(p[..|p| - 1]) + (match p[|p| - 1].1 case Str(s) => [s] case Other(_, _) => [])
  }

  ghost function StringPositions(p: Payload): seq<nat> {
    Indices((i: nat) => i < |p| && p[i].1.Str?, |p|)
  }

  /** vals are the string values of p, all of them and in order. */
  ghost predicate AreStringsOf(vals: seq<string>, p: Payload) {
    var at := StringPositions(p);
    |vals| == |at| && forall k :: 0 <= k < |at| ==> p[at[k]].1 == Str(vals[k])
  }

  lemma {:induction false} StringsMeaning(p: Payload, n: nat)
    requires n <= |p|
    ensures var at, vals := Indices((i: nat) => i < |p| && p[i].1.Str?, n), Strings(p[..n]);
      |vals| == |at| && forall k :: 0 <= k < |at| ==> p[at[k]].1 == Str(vals[k])
  {
    if n > 0 {
      assert p[..n][..n - 1] == p[..n - 1] && p[..n][n - 1] == p[n - 1];
      StringsMeaning(p, n - 1);
    }
  }

  lemma {:induction false} StringsAre(p: Payload)
    ensures AreStringsOf(Strings(p), p)
  {
    StringsMeaning(p, |p|);
    assert p[..|p|] == p;
  }

  /** Indexing one event: its string values under its id. */
  function Indexed(env: VectorIndex.Env, ix: VectorIndex.Index, e: Event): VectorIndex.Index {
    if e.kind == MemoryAppended && Strings(e.payload) != [] then
      VectorIndex.Upserted(env, ix, e.id, Join(" ", Strings(e.payload)), VectorIndex.Metadata(e.workspaceId, e.agentId))
    else ix
  }

  /** e is no memory event or its string values have no tokens. */
  predicate Tokenless(env: VectorIndex.Env, e: Event) {
    e.kind != MemoryAppended || Strings(e.payload) == [] || env.tokenize(Join(" ", Strings(e.payload))) == []
  }

  lemma {:induction false} IndexStep(env: VectorIndex.Env, ix: VectorIndex.Index, e: Event)
    ensures Tokenless(env, e) ==> Indexed(env, ix, e) == ix
    ensures !Tokenless(env, e) ==>
      && e.id in Indexed(env, ix, e).docs
      && Indexed(env, ix, e).docs[e.id].text == Join(" ", Strings(e.payload))
      && Indexed(env, ix, e).docs[e.id].metadata == VectorIndex.Metadata(e.workspaceId, e.agentId)
    ensures forall d :: d != e.id ==>
      (d in Indexed(env, ix, e).docs <==> d in ix.docs) && (d in ix.docs ==> Indexed(env, ix, e).docs[d] == ix.docs[d])
  {
    hide Strings, Join, VectorMath.TermFreq;
  }

  const NOTHING := VectorIndex.Index([], map[])

  function IndexOf(env: VectorIndex.Env, rows: seq<Event>): VectorIndex.Index {
    if rows == [] then NOTHING
    else Indexed(env, IndexOf(env, rows[..|rows| - 1]), rows[|rows| - 1])
  }

  /** The arguments of an append, with what the clock, the blob network and the
      anchoring answered during it. */
  datatype Call = Call(
    kind: Kind, workspaceId: string, wallet: string, payload: Payload, agentId: Option<string>, signature: string,
    now: string, blobId: string, digest: Option<string>)

  /** The event of a call that found the given latest hash. */
  function EventAfter(c: Codec, previous: Option<string>, call: Call): Event {
    var text := c.dumps(call.payload);
    Event(EventHash(c, text, previous), call.kind, call.workspaceId, call.agentId, call.wallet,
          Some(call.blobId), Some(c.sha(text)), None, previous, call.signature, call.now, call.digest, call.payload)
  }

  function NewEvent(c: Codec, rows: seq<Event>, call: Call): Event {
    EventAfter(c, Head(rows, call.workspaceId), call)
  }

  predicate HasId(rows: seq<Event>, id: string) {
    exists i :: 0 <= i < |rows| && rows[i].id == id
  }

  ghost predicate DistinctIds(rows: seq<Event>) {
    forall i, j :: 0 <= i < j < |rows| ==> rows[i].id != rows[j].id
  }

  datatype Store = Store(rows: seq<Event>, blobs: map<string, string>, index: VectorIndex.Index)

  /** One append.  The event id is the table's primary key, so a repeated one
      raises; the blob has been stored by then. */
  function AppendedAfter(c: Codec, env: VectorIndex.Env, st: Store, call: Call, previous: Option<string>)
    : (Store, Result<Event>)
  {
    var e := EventAfter(c, previous, call);
    var blobs := st.blobs[call.blobId := c.dumps(call.payload)];
    if HasId(st.rows, e.id) then (Store(st.rows, blobs, st.index), Raised(IntegrityError))
    else (Store(st.rows + [e], blobs, Indexed(env, st.index, e)), Ok(e))
  }

  /** An append that found the head of its workspace's chain. */
  function Appended(c: Codec, env: VectorIndex.Env, st: Store, call: Call): (Store, Result<Event>) {
    AppendedAfter(c, env, st, call, Head(st.rows, call.workspaceId))
  }

  lemma {:induction false} LinkedExtend(c: Codec, rows: seq<Event>, call: Call)
    requires Linked(c, rows) && ClockAdvances(c, rows, call.workspaceId, call.now)
    ensures Linked(c, rows + [NewEvent(c, rows, call)])
  {
    var e := NewEvent(c, rows, call);
    var rows' := rows + [e];
    assert rows'[..|rows|] == rows;
    assert LinkedAt(c, rows', |rows|);
    hide LinkedAt, NewEvent;
    forall i | 0 <= i < |rows| ensures LinkedAt(c, rows', i) {
      LinkedAtPrefix(c, rows', |rows|, i);
    }
  }

  /** Every id in the table is the chain id of a history. */
  lemma {:induction false} RowIdIsChainId(c: Codec, rows: seq<Event>, i: nat)
    requires i < |rows| && Linked(c, rows)
    ensures Some(rows[i].id) == ChainId(c, Texts(c, Timeline(rows[..i + 1], rows[i].workspaceId)))
  {
    LinkedPrefix(c, rows, i + 1);
    var r, w := rows[..i + 1], rows[i].workspaceId;
    HeadIsChainId(c, r, w);
    var t := Timeline(r, w);
    assert r[|r| - 1] == rows[i];
    assert t[|t| - 1] == rows[i];
  }

  lemma {:induction false} TimelineGrows(rows: seq<Event>, i: nat, w: string)
    requires i <= |rows|
    ensures |Timeline(rows[..i], w)| <= |Timeline(rows, w)|
  {
    if i < |rows| {
      TimelineGrows(rows[..|rows| - 1], i, w);
      assert rows[..|rows| - 1][..i] == rows[..i];
    } else {
      assert rows[..i] == rows;
    }
  }

  /** Row i ends, in its own workspace, the history that the append would end. */
  ghost predicate SameHistory(c: Codec, rows: seq<Event>, call: Call, i: nat)
    requires i < |rows|
  {
    Texts(c, Timeline(rows[..i + 1], rows[i].workspaceId))
      == Texts(c, Timeline(rows, call.workspaceId)) + [c.dumps(call.payload)]
  }

  /** The id an append computes is the chain id of the history it makes. */
  lemma {:induction false} NewIdIsChainId(c: Codec, rows: seq<Event>, call: Call)
    requires Linked(c, rows)
    ensures Some(NewEvent(c, rows, call).id)
      == ChainId(c, Texts(c, Timeline(rows, call.workspaceId)) + [c.dumps(call.payload)])
  {
    hide Linked, Timeline, Texts;
    var front := Texts(c, Timeline(rows, call.workspaceId));
    var b := front + [c.dumps(call.payload)];
    HeadIsChainId(c, rows, call.workspaceId);
    assert b[..|b| - 1] == front;
  }

  lemma {:induction false} CollidesAt(c: Codec, rows: seq<Event>, call: Call, i: nat)
    requires Lawful(c) && Linked(c, rows) && i < |rows|
    ensures rows[i].id == NewEvent(c, rows, call).id <==> SameHistory(c, rows, call, i)
  {
    hide Linked, Timeline, Texts, ChainId, NewEvent;
    var a := Texts(c, Timeline(rows[..i + 1], rows[i].workspaceId));
    var b := Texts(c, Timeline(rows, call.workspaceId)) + [c.dumps(call.payload)];
    RowIdIsChainId(c, rows, i);
    NewIdIsChainId(c, rows, call);
    TextsAreObjects(c, Timeline(rows[..i + 1], rows[i].workspaceId));
    TextsAreObjects(c, Timeline(rows, call.workspaceId));
    assert ObjectTexts(b);
    hide Lawful;
    ChainIdInjective(c, a, b);
  }

  /** An append raises exactly when some workspace once had the very history of
      payloads the append would make, and that is always another workspace. */
  lemma {:induction false} AppendCollidesIff(c: Codec, env: VectorIndex.Env, st: Store, call: Call)
    requires Lawful(c) && Linked(c, st.rows)
    ensures Appended(c, env, st, call).1.Raised? <==> exists i :: 0 <= i < |st.rows| && SameHistory(c, st.rows, call, i)
    ensures forall i :: 0 <= i < |st.rows| && SameHistory(c, st.rows, call, i) ==>
      st.rows[i].workspaceId != call.workspaceId
  {
    assert Appended(c, env, st, call).1.Raised? <==> HasId(st.rows, NewEvent(c, st.rows, call).id);
    hide Lawful, SameHistory, NewEvent, Appended;
    forall i | 0 <= i < |st.rows|
      ensures st.rows[i].id == NewEvent(c, st.rows, call).id <==> SameHistory(c, st.rows, call, i)
    {
      CollidesAt(c, st.rows, call, i);
    }
    forall i | 0 <= i < |st.rows| && SameHistory(c, st.rows, call, i)
      ensures st.rows[i].workspaceId != call.workspaceId
    {
      OwnHistoryIsShorter(c, st.rows, call, i);
    }
  }

  lemma {:induction false} OwnHistoryIsShorter(c: Codec, rows: seq<Event>, call: Call, i: nat)
    requires i < |rows| && SameHistory(c, rows, call, i)
    ensures rows[i].workspaceId != call.workspaceId
  {
    TimelineGrows(rows, i + 1, call.workspaceId);
  }

  // ---------------------------------------------------------------------- runs

  const EMPTY := Store([], map[], NOTHING)

  /** An append and what its latest-hash query answered. */
  datatype Step = Step(call: Call, previous: Option<string>)

  function Run(c: Codec, env: VectorIndex.Env, steps: seq<Step>): Store {
    if steps == [] then EMPTY
    else
      var last := steps[|steps| - 1];
      AppendedAfter(c, env, Run(c, env, steps[..|steps| - 1]), last.call, last.previous).0
  }

  /** Every answer is what the query may have returned at the time. */
  ghost predicate Answered(c: Codec, env: VectorIndex.Env, steps: seq<Step>) {
    forall i :: 0 <= i < |steps| ==>
      LatestId(c, Run(c, env, steps[..i]).rows, steps[i].call.workspaceId, steps[i].previous)
  }

  /** Later appends to a workspace read a later clock. */
  ghost predicate Timely(c: Codec, steps: seq<Step>) {
    forall i, j :: 0 <= i < j < |steps| && steps[i].call.workspaceId == steps[j].call.workspaceId ==>
      c.rank(steps[i].call.now) < c.rank(steps[j].call.now)
  }

  /** A blob id stands for one content. */
  ghost predicate HonestNetwork(c: Codec, steps: seq<Step>) {
    forall i, j :: 0 <= i < j < |steps| && steps[i].call.blobId == steps[j].call.blobId ==>
      c.dumps(steps[i].call.payload) == c.dumps(steps[j].call.payload)
  }

  /** e carries what call asked for. */
  predicate From(e: Event, call: Call) {
    && e.kind == call.kind && e.workspaceId == call.workspaceId && e.agentId == call.agentId
    && e.wallet == call.wallet && e.signature == call.signature && e.timestamp == call.now
    && e.digest == call.digest && e.blobId == Some(call.blobId) && e.payload == call.payload
  }

  ghost predicate Retained(c: Codec, st: Store) {
    forall i :: 0 <= i < |st.rows| ==>
      && st.rows[i].blobId.Some? && st.rows[i].blobId.value in st.blobs
      && st.blobs[st.rows[i].blobId.value] == c.dumps(st.rows[i].payload)
  }

  ghost predicate FromCalls(rows: seq<Event>, steps: seq<Step>) {
    forall i :: 0 <= i < |rows| ==> exists j :: 0 <= j < |steps| && From(rows[i], steps[j].call)
  }

  /** Every event names the hash of its own text. */
  ghost predicate Hashed(c: Codec, rows: seq<Event>) {
    forall i :: 0 <= i < |rows| ==> rows[i].blobHash == Some(c.sha(c.dumps(rows[i].payload)))
  }

  /** Every run of appends, whatever the clock read and the latest-hash query
      answered: ids are distinct, every row comes from a call and names its
      content's hash, and the index is the one built from the rows. */
  lemma {:induction false} RunSound(c: Codec, env: VectorIndex.Env, steps: seq<Step>)
    ensures var st := Run(c, env, steps);
      DistinctIds(st.rows) && FromCalls(st.rows, steps) && Hashed(c, st.rows) && st.index == IndexOf(env, st.rows)
  {
    hide AppendedAfter, IndexOf, FromCalls, Hashed, DistinctIds;
    if steps == [] {
      EmptySound(c, env);
    } else {
      var front, last := steps[..|steps| - 1], steps[|steps| - 1];
      RunSound(c, env, front);
      AppendSound(c, env, Run(c, env, front), last);
      RowsFromCalls(c, Run(c, env, front), env, steps);
    }
  }

  lemma {:induction false} EmptySound(c: Codec, env: VectorIndex.Env)
    ensures var st := Run(c, env, []);
      && DistinctIds(st.rows) && FromCalls(st.rows, []) && Hashed(c, st.rows) && st.index == IndexOf(env, st.rows)
      && Retained(c, st) && Linked(c, st.rows)
  {
  }

  lemma {:induction false} SourceCall(rows: seq<Event>, steps: seq<Step>, i: nat) returns (j: nat)
    requires i < |rows| && FromCalls(rows, steps)
    ensures j < |steps| && From(rows[i], steps[j].call)
  {
    var e := rows[i];
    var k :| 0 <= k < |steps| && From(e, steps[k].call);
    j := k;
  }

  lemma {:induction false} AppendSound(c: Codec, env: VectorIndex.Env, st: Store, step: Step)
    requires DistinctIds(st.rows) && Hashed(c, st.rows) && st.index == IndexOf(env, st.rows)
    ensures var st' := AppendedAfter(c, env, st, step.call, step.previous).0;
      DistinctIds(st'.rows) && Hashed(c, st'.rows) && st'.index == IndexOf(env, st'.rows)
  {
    hide Indexed, EventHash;
    var rows' := st.rows + [EventAfter(c, step.previous, step.call)];
    assert rows'[..|st.rows|] == st.rows;
  }

  lemma {:induction false} RowsFromCalls(c: Codec, st: Store, env: VectorIndex.Env, steps: seq<Step>)
    requires steps != [] && FromCalls(st.rows, steps[..|steps| - 1])
    ensures var last := steps[|steps| - 1];
      FromCalls(AppendedAfter(c, env, st, last.call, last.previous).0.rows, steps)
  {
    hide Indexed, EventHash;
    var n := |steps| - 1;
    var st' := AppendedAfter(c, env, st, steps[n].call, steps[n].previous).0;
    forall i | 0 <= i < |st'.rows| ensures exists j :: 0 <= j < |steps| && From(st'.rows[i], steps[j].call) {
      if i < |st.rows| {
        var j := SourceCall(st.rows, steps[..n], i);
        assert From(st'.rows[i], steps[j].call);
      } else {
        assert From(st'.rows[i], steps[n].call);
      }
    }
  }

  /** Every blob is still what its event put there. */
  lemma {:induction false} RunRetained(c: Codec, env: VectorIndex.Env, steps: seq<Step>)
    requires HonestNetwork(c, steps)
    ensures Retained(c, Run(c, env, steps))
  {
    hide Retained, AppendedAfter, FromCalls;
    if steps == [] {
      EmptySound(c, env);
    } else {
      var n := |steps| - 1;
      var st, call := Run(c, env, steps[..n]), steps[n].call;
      RunRetained(c, env, steps[..n]);
      RunSound(c, env, steps[..n]);
      forall i | 0 <= i < |st.rows| && st.rows[i].blobId == Some(call.blobId)
        ensures c.dumps(st.rows[i].payload) == c.dumps(call.payload)
      {
        var j := SourceCall(st.rows, steps[..n], i);
      }
      AppendRetained(c, env, st, steps[n]);
    }
  }

  lemma {:induction false} AppendRetained(c: Codec, env: VectorIndex.Env, st: Store, step: Step)
    requires Retained(c, st)
    requires forall i :: 0 <= i < |st.rows| && st.rows[i].blobId == Some(step.call.blobId) ==>
      c.dumps(st.rows[i].payload) == c.dumps(step.call.payload)
    ensures Retained(c, AppendedAfter(c, env, st, step.call, step.previous).0)
  {
    hide Indexed, EventHash;
  }

  lemma {:induction false} AnsweredFront(c: Codec, env: VectorIndex.Env, steps: seq<Step>)
    requires steps != [] && Answered(c, env, steps)
    ensures var front, last := steps[..|steps| - 1], steps[|steps| - 1];
      Answered(c, env, front) && LatestId(c, Run(c, env, front).rows, last.call.workspaceId, last.previous)
  {
    hide Run, LatestId;
    var front := steps[..|steps| - 1];
    forall i | 0 <= i < |front|
      ensures LatestId(c, Run(c, env, front[..i]).rows, front[i].call.workspaceId, front[i].previous)
    {
      assert front[..i] == steps[..i];
    }
  }

  /** The last clock is later than all rows of its workspace. */
  lemma {:induction false} LastIsLater(c: Codec, rows: seq<Event>, steps: seq<Step>)
    requires steps != [] && Timely(c, steps) && FromCalls(rows, steps[..|steps| - 1])
    ensures var call := steps[|steps| - 1].call; ClockAdvances(c, rows, call.workspaceId, call.now)
  {
    hide FromCalls;
    var n := |steps| - 1;
    forall i | 0 <= i < |rows| && rows[i].workspaceId == steps[n].call.workspaceId
      ensures c.rank(rows[i].timestamp) < c.rank(steps[n].call.now)
    {
      var j := SourceCall(rows, steps[..n], i);
    }
  }

  /** With advancing clocks every workspace is one hash chain. */
  lemma {:induction false} RunLinked(c: Codec, env: VectorIndex.Env, steps: seq<Step>)
    requires Timely(c, steps) && Answered(c, env, steps)
    ensures Linked(c, Run(c, env, steps).rows)
  {
    if steps == [] {
      EmptySound(c, env);
    } else {
      var front, last := steps[..|steps| - 1], steps[|steps| - 1];
      AnsweredFront(c, env, steps);
      RunLinked(c, env, front);
      RunSound(c, env, front);
      hide Linked, AppendedAfter, FromCalls, LatestId, Timely, Answered, ClockAdvances, Hashed, DistinctIds, IndexOf;
      var st := Run(c, env, front);
      LastIsLater(c, st.rows, steps);
      LatestIdIsHead(c, st.rows, last.call.workspaceId, last.previous);
      AppendLinked(c, env, st, last.call);
    }
  }

  lemma {:induction false} AppendLinked(c: Codec, env: VectorIndex.Env, st: Store, call: Call)
    requires Linked(c, st.rows) && ClockAdvances(c, st.rows, call.workspaceId, call.now)
    ensures Linked(c, AppendedAfter(c, env, st, call, Head(st.rows, call.workspaceId)).0.rows)
  {
    hide Linked, Indexed, EventHash, Head, ClockAdvances;
    LinkedExtend(c, st.rows, call);
  }

  // ------------------------------------------------------- what a run has written

  /** The id a step asks for. */
  function StepId(c: Codec, step: Step): string {
    EventHash(c, c.dumps(step.call.payload), step.previous)
  }

  /** No step before asked for the same id. */
  predicate FirstOfItsId(c: Codec, steps: seq<Step>, j: nat) {
    j < |steps| && forall i :: 0 <= i < j ==> StepId(c, steps[i]) != StepId(c, steps[j])
  }

  /** The steps whose id no earlier step asked for, in order. */
  ghost function FirstSteps(c: Codec, steps: seq<Step>): seq<nat> {
    Indices((j: nat) => FirstOfItsId(c, steps, j), |steps|)
  }

  /** e is the whole record of a step. */
  ghost predicate Records(c: Codec, e: Event, step: Step) {
    var text := c.dumps(step.call.payload);
    && From(e, step.call) && e.previousHash == step.previous && e.blobHash == Some(c.sha(text)) && e.parent == None
    && e.id == c.sha(match step.previous
                     case None => text
                     case Some(hash) => if hash == "" then text else hash + ":" + text)
  }

  lemma {:induction false} RecordedId(c: Codec, e: Event, step: Step)
    requires Records(c, e, step)
    ensures e.id == StepId(c, step)
  {
  }

  lemma {:induction false} EventRecords(c: Codec, previous: Option<string>, call: Call)
    ensures Records(c, EventAfter(c, previous, call), Step(call, previous))
  {
  }

  /** The rows record the given steps, one row each, in order. */
  ghost predicate RecordAll(c: Codec, rows: seq<Event>, steps: seq<Step>, at: seq<nat>) {
    && |rows| == |at|
    && forall k :: 0 <= k < |at| ==> at[k] < |steps| && Records(c, rows[k], steps[at[k]])
  }

  lemma {:induction false} RecordsSoFar(c: Codec, env: VectorIndex.Env, steps: seq<Step>, n: nat)
    requires n <= |steps|
    ensures RecordAll(c, Run(c, env, steps[..n]).rows, steps, Indices((j: nat) => FirstOfItsId(c, steps, j), n))
    ensures forall id ::
      HasId(Run(c, env, steps[..n]).rows, id) <==> exists j :: 0 <= j < n && StepId(c, steps[j]) == id
  {
    hide Records, RecordAll, HasId, StepId, AppendedAfter;
    if n == 0 {
      NothingRecorded(c, env, steps);
    } else {
      var m := n - 1;
      assert steps[..n][..m] == steps[..m] && steps[..n][m] == steps[m];
      RecordsSoFar(c, env, steps, m);
      RecordStep(c, env, Run(c, env, steps[..m]), steps, m);
    }
  }

  lemma {:induction false} NothingRecorded(c: Codec, env: VectorIndex.Env, steps: seq<Step>)
    ensures steps[..0] == [] && Run(c, env, []).rows == [] && RecordAll(c, [], steps, [])
    ensures forall id :: !HasId([], id)
  {
  }

  lemma {:induction false} RecordStep(c: Codec, env: VectorIndex.Env, st: Store, steps: seq<Step>, m: nat)
    requires m < |steps|
    requires RecordAll(c, st.rows, steps, Indices((j: nat) => FirstOfItsId(c, steps, j), m))
    requires forall id :: HasId(st.rows, id) <==> exists j :: 0 <= j < m && StepId(c, steps[j]) == id
    ensures var rows := AppendedAfter(c, env, st, steps[m].call, steps[m].previous).0.rows;
      && RecordAll(c, rows, steps, Indices((j: nat) => FirstOfItsId(c, steps, j), m + 1))
      && forall id :: HasId(rows, id) <==> exists j :: 0 <= j < m + 1 && StepId(c, steps[j]) == id
  {
    hide Indexed, EventHash, HasId;
    var e := EventAfter(c, steps[m].previous, steps[m].call);
    assert e.id == StepId(c, steps[m]);
    HasIdAppend(st.rows, e);
    assert HasId(st.rows, e.id) <==> !FirstOfItsId(c, steps, m);
    EventRecords(c, steps[m].previous, steps[m].call);
    hide Records;
  }

  lemma {:induction false} HasIdAppend(rows: seq<Event>, e: Event)
    ensures forall id :: HasId(rows + [e], id) <==> HasId(rows, id) || id == e.id
  {
    var rows' := rows + [e];
    assert rows'[|rows|] == e;
    forall id | HasId(rows, id) ensures HasId(rows', id) {
      var i :| 0 <= i < |rows| && rows[i].id == id;
      assert rows'[i] == rows[i];
    }
  }

  /** Over every run, whatever the clock read and the latest-hash queries
      answered, the table holds exactly the steps whose id no earlier step asked
      for: one row for each of them, in order, and nothing else. */
  lemma {:induction false} RunRecordsFirstSteps(c: Codec, env: VectorIndex.Env, steps: seq<Step>)
    ensures RecordAll(c, Run(c, env, steps).rows, steps, FirstSteps(c, steps))
  {
    RecordsSoFar(c, env, steps, |steps|);
    assert steps[..|steps|] == steps;
  }

  /** Over every run the index holds a document for exactly the rows that have
      tokens, each with its joined string values and its metadata. */
  lemma {:induction false} RunDocuments(c: Codec, env: VectorIndex.Env, steps: seq<Step>)
    ensures var st := Run(c, env, steps);
      && (forall id :: id in st.index.docs <==> HasTokens(env, st.rows, id))
      && forall i :: 0 <= i < |st.rows| && !Tokenless(env, st.rows[i]) ==> Documented(st.index.docs, st.rows[i])
  {
    RunSound(c, env, steps);
    IndexDocuments(env, Run(c, env, steps).rows);
  }

  /** Some row with the id has tokens. */
  ghost predicate HasTokens(env: VectorIndex.Env, rows: seq<Event>, id: string) {
    exists i :: 0 <= i < |rows| && rows[i].id == id && !Tokenless(env, rows[i])
  }

  lemma {:induction false} HasTokensStep(env: VectorIndex.Env, rows: seq<Event>, id: string)
    requires rows != []
    ensures var e := rows[|rows| - 1];
      HasTokens(env, rows, id) <==> HasTokens(env, rows[..|rows| - 1], id) || (e.id == id && !Tokenless(env, e))
  {
    hide Tokenless;
    var front := rows[..|rows| - 1];
    if HasTokens(env, front, id) {
      var i :| 0 <= i < |front| && front[i].id == id && !Tokenless(env, front[i]);
      assert rows[i] == front[i];
    }
    if HasTokens(env, rows, id) {
      var i :| 0 <= i < |rows| && rows[i].id == id && !Tokenless(env, rows[i]);
      assert i < |front| ==> rows[i] == front[i];
    }
  }

  /** The index holds e's string values, joined, under its id. */
  ghost predicate Documented(docs: map<string, VectorIndex.Doc>, e: Event) {
    && e.id in docs
    && AreStringsOf(Strings(e.payload), e.payload) && IsJoin(docs[e.id].text, " ", Strings(e.payload))
    && docs[e.id].metadata == VectorIndex.Metadata(e.workspaceId, e.agentId)
  }

  lemma {:induction false} StepDocuments(env: VectorIndex.Env, ix: VectorIndex.Index, e: Event)
    ensures !Tokenless(env, e) ==> Documented(Indexed(env, ix, e).docs, e)
  {
    IndexStep(env, ix, e);
    StringsAre(e.payload);
    hide Tokenless, Indexed, Strings, Join, AreStringsOf, LaidOut;
    var at := JoinLaysOut(" ", Strings(e.payload));
  }

  /** What indexing e does to the documents. */
  ghost predicate Gained(env: VectorIndex.Env, e: Event, docs: map<string, VectorIndex.Doc>,
                         docs': map<string, VectorIndex.Doc>)
  {
    if Tokenless(env, e) then docs' == docs
    else
      && docs'.Keys == docs.Keys + {e.id} && Documented(docs', e)
      && forall d :: d in docs && d != e.id ==> docs'[d] == docs[d]
  }

  lemma {:induction false} IndexedGains(env: VectorIndex.Env, ix: VectorIndex.Index, e: Event)
    ensures Gained(env, e, ix.docs, Indexed(env, ix, e).docs)
  {
    IndexStep(env, ix, e);
    StepDocuments(env, ix, e);
    hide Tokenless, Documented, Indexed;
  }

  lemma {:induction false} IndexDocuments(env: VectorIndex.Env, rows: seq<Event>)
    requires DistinctIds(rows)
    ensures var docs := IndexOf(env, rows).docs;
      && (forall id :: id in docs <==> HasTokens(env, rows, id))
      && forall i :: 0 <= i < |rows| && !Tokenless(env, rows[i]) ==> Documented(docs, rows[i])
  {
    hide Tokenless, Indexed, Strings, Join, AreStringsOf, IsJoin, HasTokens;
    if rows == [] {
      NoTokens(env);
    } else {
      var n := |rows| - 1;
      var front, e := rows[..n], rows[n];
      IndexDocuments(env, front);
      IndexStep(env, IndexOf(env, front), e);
      StepDocuments(env, IndexOf(env, front), e);
      forall id ensures id in IndexOf(env, rows).docs <==> HasTokens(env, rows, id) {
        HasTokensStep(env, rows, id);
      }
      assert forall i :: 0 <= i < n ==> front[i] == rows[i];
    }
  }

  lemma {:induction false} NoTokens(env: VectorIndex.Env)
    ensures forall id :: !HasTokens(env, [], id)
  {
  }

  // ---------------------------------------------------------------- the engine

  class EventStoreEngine {
    const codec: Codec
    const vector: VectorIndex.InMemoryVector
    var rows: seq<Event>
    var blobs: map<string, string>

    constructor (codec: Codec, env: VectorIndex.Env)
      ensures Valid() && State() == EMPTY
      ensures this.codec == codec && vector.env == env && fresh(vector)
    {
      this.codec := codec;
      vector := new VectorIndex.InMemoryVector(env);
      rows, blobs := [], map[];
    }

    ghost predicate Valid()
      reads this, vector
    {
      vector.Valid()
    }

    ghost function State(): Store
      reads this, vector
    {
      Store(rows, blobs, vector.Contents())
    }

    /** `get_latest_event_hash`: some event with the latest timestamp. */
    method GetLatestEventHash(w: string) returns (id: Option<string>)
      ensures LatestId(codec, rows, w, id)
    {
      hide IsLatest;
      var best := -1;
      for i := 0 to |rows|
        invariant -1 <= best < i
        invariant best < 0 ==> forall j :: 0 <= j < i ==> rows[j].workspaceId != w
        invariant best >= 0 ==> IsLatest(codec, rows[..i], w, best)
      {
        LatestStep(codec, rows, w, best, i);
        if rows[i].workspaceId == w && (best < 0 || codec.rank(rows[i].timestamp) > codec.rank(rows[best].timestamp)) {
          best := i;
        }
      }
      assert rows[..|rows|] == rows;
      return if best >= 0 then Some(rows[best].id) else None;
    }

    /** The `text_vals` loop. */
    method TextValues(p: Payload) returns (vals: seq<string>)
      ensures vals == Strings(p)
    {
      vals := [];
      for i := 0 to |p|
        invariant vals == Strings(p[..i])
      {
        assert p[..i + 1][..i] == p[..i];
        match p[i].1 {
          case Str(s) => vals := vals + [s];
          case Other(_, _) =>
        }
      }
      assert p[..|p|] == p;
    }

    /** An accepted append writes one row, the whole record of the call, and
        indexes its text if it has tokens; a refused one leaves only its blob.
        The new event is linked to whatever event the latest-hash query found;
        on a linked log that is the head, and a later clock keeps it linked. */
    method Append(call: Call) returns (r: Result<Event>)
      requires Valid()
      modifies this, vector
      ensures Valid() && AppendedToLatest(codec, vector.env, old(State()), call, State(), r)
      ensures blobs == old(blobs)[call.blobId := codec.dumps(call.payload)]
      ensures r.Ok? ==>
        && rows == old(rows) + [r.value] && Records(codec, r.value, Step(call, r.value.previousHash))
        && LatestId(codec, old(rows), call.workspaceId, r.value.previousHash) && !HasId(old(rows), r.value.id)
        && Gained(vector.env, r.value, old(vector.docs), vector.docs)
      ensures r.Raised? ==> r.error == IntegrityError && rows == old(rows) && vector.docs == old(vector.docs)
      ensures old(Linked(codec, rows)) ==> (State(), r) == Appended(codec, vector.env, old(State()), call)
      ensures old(Linked(codec, rows) && ClockAdvances(codec, rows, call.workspaceId, call.now)) ==> Linked(codec, rows)
    {
      hide Linked, LinkedAt, LatestId, EventHash, Strings, Join, VectorIndex.Upserted, ClockAdvances, Head, Gained;
      ghost var before := State();
      var text := codec.dumps(call.payload);
      blobs := blobs[call.blobId := text];
      var previous := GetLatestEventHash(call.workspaceId);
      if Linked(codec, rows) { LatestIdIsHead(codec, rows, call.workspaceId, previous); }
      LinkedAfter(codec, rows, call);
      var id := EventHash(codec, text, previous);
      var e := Event(id, call.kind, call.workspaceId, call.agentId, call.wallet, Some(call.blobId),
                     Some(codec.sha(text)), None, previous, call.signature, call.now, call.digest, call.payload);
      if HasId(rows, id) {
        assert (State(), Raised(IntegrityError)) == AppendedAfter(codec, vector.env, before, call, previous);
        return Raised(IntegrityError);
      }
      rows := rows + [e];
      IndexedGains(vector.env, vector.Contents(), e);
      EventRecords(codec, previous, call);
      if e.kind == MemoryAppended {
        var vals := TextValues(e.payload);
        if vals != [] {
          vector.Upsert(e.id, Join(" ", vals), VectorIndex.Metadata(e.workspaceId, e.agentId));
        }
      }
      assert (State(), Ok(e)) == AppendedAfter(codec, vector.env, before, call, previous);
      return Ok(e);
    }
  }

  ghost predicate AppendedToLatest(c: Codec, env: VectorIndex.Env, st: Store, call: Call, st': Store, r: Result<Event>)
  {
    exists previous ::
      LatestId(c, st.rows, call.workspaceId, previous) && (st', r) == AppendedAfter(c, env, st, call, previous)
  }

  lemma {:induction false} LinkedAfter(c: Codec, rows: seq<Event>, call: Call)
    ensures Linked(c, rows) && ClockAdvances(c, rows, call.workspaceId, call.now) ==>
      Linked(c, rows + [NewEvent(c, rows, call)])
  {
    hide Linked, ClockAdvances, NewEvent;
    if Linked(c, rows) && ClockAdvances(c, rows, call.workspaceId, call.now) {
      LinkedExtend(c, rows, call);
    }
  }

  /** Row i is the latest so far if none came before or it is later than the
      best of them; otherwise the best stays. */
  lemma {:induction false} LatestStep(c: Codec, rows: seq<Event>, w: string, best: int, i: nat)
    requires -1 <= best < i < |rows|
    requires best < 0 ==> forall j :: 0 <= j < i ==> rows[j].workspaceId != w
    requires best >= 0 ==> IsLatest(c, rows[..i], w, best)
    ensures rows[i].workspaceId == w && (best < 0 || c.rank(rows[i].timestamp) > c.rank(rows[best].timestamp)) ==>
      IsLatest(c, rows[..i + 1], w, i)
    ensures best >= 0 && !(rows[i].workspaceId == w && c.rank(rows[i].timestamp) > c.rank(rows[best].timestamp)) ==>
      IsLatest(c, rows[..i + 1], w, best)
  {
    assert rows[..i + 1] == rows[..i] + [rows[i]];
  }
}
