/** `DisasterRecoveryEngine.recover` (walrusos/engine/recovery.py:31-157): the
    event table and the vector index rebuilt from headers and stored blobs. */
module Recovery {
  import opened Prelude
  import opened Protocol
  import opened EventLog
  import Replay
  import VectorIndex
  import VectorMath

  /** The `event_type` of a header: absent, a known type or another string. */
  datatype TypeField = Missing | Known(kind: Kind) | Unknown

  /** A header with the defaults of its missing fields filled in. */
  datatype Header = Header(
    id: string, kind: TypeField, workspaceId: string, agentId: Option<string>, wallet: string,
    blobId: Option<string>, blobHash: Option<string>, parent: Option<string>, previousHash: Option<string>,
    signature: string)

  const LOST: Payload := [("_status", Str("PayloadLost"))]

  /** The payload says of itself that it was lost. */
  predicate Lost(p: Payload) {
    Field(p, "_status") == Some(Str("PayloadLost"))
  }

  /** The stored payload, or the marker when there is none to be had. */
  function Hydrated(c: Codec, blobs: map<string, string>, blobId: Option<string>): Payload {
    if blobId.None? || blobId.value == "" || blobId.value == "null" || blobId.value !in blobs
       || blobs[blobId.value] == "" then LOST
    else
      match c.loads(blobs[blobId.value])
      case None => LOST
      case Some(p) => p
  }

  /** Unsigned and migrated events are exempt; a signed one must have a
      canonical form and, if it names a key, be signed with it. */
  predicate Verified(crypto: Replay.Crypto, signature: string, p: Payload) {
    Lost(p) || signature == "" || signature == "v0_migration" || (
      var hash := crypto.canonicalHash(p);
      var key := Given(p, "public_key");
      hash.Some? && (key.Some? ==> crypto.verify(key.value, hash.value, signature)))
  }

  /** The timestamp comes from the payload, if it has one. */
  function PayloadTime(p: Payload): string {
    match Given(p, "timestamp")
    case None => ""
    case Some(Str(s)) => s
    case Some(Other(text, _)) => text
  }

  function Rebuilt(h: Header, kind: Kind, p: Payload): Event {
    Event(h.id, kind, h.workspaceId, h.agentId, h.wallet, h.blobId, h.blobHash, h.parent, h.previousHash,
          h.signature, PayloadTime(p), None, p)
  }

  /** Recovery indexes an event unless its payload says it was lost. */
  function Reindexed(env: VectorIndex.Env, ix: VectorIndex.Index, e: Event): VectorIndex.Index {
    if Lost(e.payload) then ix else Indexed(env, ix, e)
  }

  /** The new table and index, the count, and the error that ended recovery. */
  datatype Outcome = Outcome(rows: seq<Event>, index: VectorIndex.Index, count: nat, error: Option<Error>)

  datatype Engine = Engine(codec: Codec, env: VectorIndex.Env, crypto: Replay.Crypto, blobs: map<string, string>)

  /** One header. */
  function Rebuild(g: Engine, out: Outcome, h: Header): Outcome {
    if out.error.Some? || !AcceptedBlobId(h.blobId) then out
    else if h.kind.Unknown? then out.(error := Some(ValueError))
    else
      var p := Hydrated(g.codec, g.blobs, h.blobId);
      var e := Rebuilt(h, if h.kind.Known? then h.kind.kind else MemoryAppended, p);
      if !Verified(g.crypto, h.signature, p) then out
      else if HasId(out.rows, e.id) then out.(error := Some(IntegrityError))
      else Outcome(out.rows + [e], Reindexed(g.env, out.index, e), out.count + 1, None)
  }

  function Recovered(g: Engine, start: Outcome, headers: seq<Header>): Outcome {
    if headers == [] then start
    else Rebuild(g, Recovered(g, start, headers[..|headers| - 1]), headers[|headers| - 1])
  }

  const WIPED := Outcome([], NOTHING, 0, None)

  // ------------------------------------------------------------- what comes back

  /** The header that lists e faithfully. */
  function HeaderOf(e: Event): Header {
    Header(e.id, Known(e.kind), e.workspaceId, e.agentId, e.wallet, e.blobId, e.blobHash, e.parent, e.previousHash,
           e.signature)
  }

  function HeadersOf(events: seq<Event>): (r: seq<Header>)
    ensures |r| == |events|
    ensures forall i :: 0 <= i < |r| ==> r[i] == HeaderOf(events[i])
  {
    if events == [] then [] else HeadersOf(events[..|events| - 1]) + [HeaderOf(events[|events| - 1])]
  }

  /** e with the payload, timestamp and digest that recovery gives it. */
  function Restored(g: Engine, e: Event): Event {
    var p := Hydrated(g.codec, g.blobs, e.blobId);
    e.(payload := p, timestamp := PayloadTime(p), digest := None)
  }

  predicate Survives(g: Engine, e: Event) {
    AcceptedBlobId(e.blobId) && Verified(g.crypto, e.signature, Hydrated(g.codec, g.blobs, e.blobId))
  }

  /** A header whose type is no event type ends recovery with what was written
      so far; one without a type counts as a memory event. */
  lemma {:induction false} HeaderKinds(g: Engine, out: Outcome, h: Header)
    requires out.error == None && AcceptedBlobId(h.blobId)
    ensures var next := Rebuild(g, out, h);
      && (h.kind == Unknown ==> next == out.(error := Some(ValueError)))
      && (next.rows == out.rows || (|next.rows| == |out.rows| + 1 && next.count == out.count + 1
            && next.rows[..|out.rows|] == out.rows && next.rows[|out.rows|].id == h.id
            && next.rows[|out.rows|].kind == match h.kind case Known(k) => k case _ => MemoryAppended))
  {
    hide Hydrated, Verified, AcceptedBlobId, Reindexed, PayloadTime;
  }

  /** The surviving events, restored, in order. */
  function Survivors(g: Engine, events: seq<Event>): (r: seq<Event>)
    ensures |r| <= |events|
  {
    if events == [] then []
    else
      var e := events[|events| - 1];
      Survivors(g, events[..|events| - 1]) + (if Survives(g, e) then [Restored(g, e)] else [])
  }

  function ReindexOf(env: VectorIndex.Env, rows: seq<Event>): VectorIndex.Index {
    if rows == [] then NOTHING
    else Reindexed(env, ReindexOf(env, rows[..|rows| - 1]), rows[|rows| - 1])
  }

  lemma {:induction false} SurvivorIds(g: Engine, events: seq<Event>)
    ensures forall i :: 0 <= i < |Survivors(g, events)| ==> HasId(events, Survivors(g, events)[i].id)
  {
    hide Survives;
    if events != [] {
      var n := |events| - 1;
      SurvivorIds(g, events[..n]);
      var r, r' := Survivors(g, events[..n]), Survivors(g, events);
      forall i | 0 <= i < |r'| ensures HasId(events, r'[i].id) {
        if i < |r| {
          assert r'[i] == r[i];
          var j :| 0 <= j < n && events[..n][j].id == r[i].id;
          assert events[j].id == r[i].id;
        } else {
          assert events[n].id == r'[i].id;
        }
      }
    }
  }

  lemma {:induction false} StepIs(g: Engine, out: Outcome, e: Event)
    requires out.error == None && !HasId(out.rows, e.id)
    ensures Rebuild(g, out, HeaderOf(e)) == if !Survives(g, e) then out else
      Outcome(out.rows + [Restored(g, e)], Reindexed(g.env, out.index, Restored(g, e)), out.count + 1, None)
  {
    hide Hydrated, Verified, AcceptedBlobId, Reindexed, PayloadTime;
  }

  /** Recovery from headers that list events faithfully, after a wipe: exactly
      the surviving events are written, in order; the count is their number;
      and no error arises. */
  lemma {:induction false} RecoversSurvivors(g: Engine, events: seq<Event>)
    requires DistinctIds(events)
    ensures Recovered(g, WIPED, HeadersOf(events))
      == Outcome(Survivors(g, events), ReindexOf(g.env, Survivors(g, events)), |Survivors(g, events)|, None)
  {
    if events != [] {
      hide Rebuild, Survives, Restored, Reindexed;
      var n := |events| - 1;
      RecoversSurvivors(g, events[..n]);
      var hs := HeadersOf(events);
      assert hs[..n] == HeadersOf(events[..n]) && hs[n] == HeaderOf(events[n]);
      SurvivorIds(g, events[..n]);
      var r := Survivors(g, events[..n]);
      assert !HasId(r, events[n].id);
      StepIs(g, Recovered(g, WIPED, HeadersOf(events[..n])), events[n]);
      assert (r + [Restored(g, events[n])])[..|r|] == r && r + [] == r;
    }
  }

  /** p is what the network holds for e. */
  ghost predicate Holds(g: Engine, e: Event, p: Payload) {
    && e.blobId.Some? && e.blobId.value != "" && e.blobId.value != "null" && e.blobId.value in g.blobs
    && g.blobs[e.blobId.value] != "" && g.codec.loads(g.blobs[e.blobId.value]) == Some(p)
  }

  /** e is signed, and its payload, which is there and does not say that it was
      lost, has no canonical form or names a key that does not verify it. */
  ghost predicate Condemned(g: Engine, e: Event) {
    && e.signature != "" && e.signature != "v0_migration"
    && (exists p ::
          && Holds(g, e, p) && Field(p, "_status") != Some(Str("PayloadLost"))
          && (var hash, key := g.crypto.canonicalHash(p), Given(p, "public_key");
              hash.None? || (key.Some? && !g.crypto.verify(key.value, hash.value, e.signature))))
  }

  lemma {:induction false} SurvivesMeaning(g: Engine, e: Event)
    ensures Survives(g, e) <==> AcceptedBlobId(e.blobId) && !Condemned(g, e)
    ensures forall p :: Holds(g, e, p) ==> Restored(g, e).payload == p
    ensures (forall p :: !Holds(g, e, p)) ==> Restored(g, e).payload == LOST
  {
    hide AcceptedBlobId, Given, PayloadTime;
    assert Field(LOST, "_status") == Some(Str("PayloadLost"));
    var p := Hydrated(g.codec, g.blobs, e.blobId);
    if q :| Holds(g, e, q) {
      assert p == q;
    } else {
      assert p == LOST || Holds(g, e, p);
    }
  }

  lemma {:induction false} SurvivorOf(g: Engine, events: seq<Event>, i: nat)
    requires DistinctIds(events) && i < |events|
    ensures HasId(Survivors(g, events), events[i].id) <==> Survives(g, events[i])
    ensures Survives(g, events[i]) ==> Restored(g, events[i]) in Survivors(g, events)
  {
    hide Survives, Restored;
    var n := |events| - 1;
    SurvivorIds(g, events[..n]);
    var r := Survivors(g, events[..n]);
    if i < n {
      SurvivorOf(g, events[..n], i);
      assert events[..n][i] == events[i];
      RestoredId(g, events[n]);
      if HasId(r, events[i].id) {
        var k :| 0 <= k < |r| && r[k].id == events[i].id;
        assert Survivors(g, events)[k] == r[k];
      }
    } else {
      RestoredId(g, events[n]);
      assert !HasId(r, events[n].id);
      if Survives(g, events[n]) {
        assert Survivors(g, events)[|r|] == Restored(g, events[n]);
      }
    }
  }

  lemma {:induction false} RestoredId(g: Engine, e: Event)
    ensures Restored(g, e).id == e.id
  {
  }

  /** An event is dropped exactly when its blob id is malformed or its signature
      condemns it.  So a signed event whose payload has a canonical form and
      names no key comes back; with it comes the payload the network holds, or
      the marker of a lost one. */
  lemma {:induction false} RecoveredIff(g: Engine, events: seq<Event>, i: nat)
    requires DistinctIds(events) && i < |events|
    ensures var rows, e := Recovered(g, WIPED, HeadersOf(events)).rows, events[i];
      && (HasId(rows, e.id) <==> AcceptedBlobId(e.blobId) && !Condemned(g, e))
      && (HasId(rows, e.id) ==> exists r :: r in rows && r.id == e.id && ComesBackAs(g, e, r))
  {
    RecoversSurvivors(g, events);
    SurvivorOf(g, events, i);
    SurvivesMeaning(g, events[i]);
    RestoredFields(g, events[i]);
    hide Survivors, Survives, Restored, AcceptedBlobId, Condemned, Recovered, ComesBackAs;
  }

  /** All but payload, timestamp and digest is e's own. */
  ghost predicate ComesBackAs(g: Engine, e: Event, r: Event) {
    && r == e.(payload := r.payload, timestamp := r.timestamp, digest := None)
    && (forall p :: Holds(g, e, p) ==> r.payload == p)
    && ((forall p :: !Holds(g, e, p)) ==> r.payload == [("_status", Str("PayloadLost"))])
    && (match Given(r.payload, "timestamp")
        case None => r.timestamp == ""
        case Some(Str(s)) => r.timestamp == s
        case Some(Other(text, _)) => r.timestamp == text)
  }

  lemma {:induction false} RestoredFields(g: Engine, e: Event)
    ensures Restored(g, e).id == e.id && ComesBackAs(g, e, Restored(g, e))
  {
    SurvivesMeaning(g, e);
    hide Hydrated, Given, Holds;
  }

  /** e's payload is JSON-native, its blob is there, and its signature verifies
      or is exempt. */
  ghost predicate Recoverable(g: Engine, e: Event) {
    && AcceptedBlobId(e.blobId) && e.blobId.Some? && e.blobId.value != "" && e.blobId.value != "null"
    && e.blobId.value in g.blobs && g.blobs[e.blobId.value] == g.codec.dumps(e.payload)
    && g.codec.dumps(e.payload) != "" && g.codec.loads(g.codec.dumps(e.payload)) == Some(e.payload)
    && Verified(g.crypto, e.signature, e.payload)
  }

  /** e as it comes back: all but its timestamp and digest. */
  function Returned(e: Event): Event {
    e.(timestamp := PayloadTime(e.payload), digest := None)
  }

  ghost predicate AllRecoverable(g: Engine, events: seq<Event>) {
    forall i :: 0 <= i < |events| ==> Recoverable(g, events[i])
  }

  lemma {:induction false} RecoverableSurvive(g: Engine, events: seq<Event>)
    requires AllRecoverable(g, events)
    ensures |Survivors(g, events)| == |events|
    ensures forall i :: 0 <= i < |events| ==> Survivors(g, events)[i] == Returned(events[i])
  {
    if events != [] {
      RecoverableSurvive(g, events[..|events| - 1]);
      assert Recoverable(g, events[|events| - 1]);
      hide Verified, AcceptedBlobId, PayloadTime, Survivors;
      SurvivorsStep(g, events);
    }
  }

  lemma {:induction false} SurvivorsStep(g: Engine, events: seq<Event>)
    requires events != []
    ensures Survives(g, events[|events| - 1]) ==>
      Survivors(g, events) == Survivors(g, events[..|events| - 1]) + [Restored(g, events[|events| - 1])]
  {
  }

  /** Rebuild after a wipe: the same events in the same order with the same
      payloads come back, and they are all counted. */
  lemma {:induction false} RecoveryRebuilds(g: Engine, events: seq<Event>)
    requires DistinctIds(events) && AllRecoverable(g, events)
    ensures var out := Recovered(g, WIPED, HeadersOf(events));
      && out.error == None && out.count == |events| == |out.rows|
      && (forall i :: 0 <= i < |events| ==> out.rows[i] == Returned(events[i]))
      && out.index == ReindexOf(g.env, out.rows)
  {
    RecoversSurvivors(g, events);
    RecoverableSurvive(g, events);
  }

  /** e's payload carries its timestamp, and it was not anchored. */
  predicate Unchanged(e: Event) {
    e.timestamp == PayloadTime(e.payload) && e.digest == None
  }

  /** The table itself comes back exactly when every payload carries its own
      event's timestamp and nothing had been anchored. */
  lemma {:induction false} TableRestoredIff(g: Engine, events: seq<Event>)
    requires DistinctIds(events) && AllRecoverable(g, events)
    ensures Recovered(g, WIPED, HeadersOf(events)).rows == events
      <==> forall i :: 0 <= i < |events| ==> Unchanged(events[i])
  {
    RecoveryRebuilds(g, events);
    hide PayloadTime, Recovered;
    var rows := Recovered(g, WIPED, HeadersOf(events)).rows;
    forall i | 0 <= i < |events|
      ensures rows[i] == events[i] <==> Unchanged(events[i])
    {
      assert rows[i] == Returned(events[i]);
    }
  }

  // ------------------------------------------------------------------ the index

  /** No event with tokens says that its payload was lost. */
  ghost predicate IndexSafe(env: VectorIndex.Env, events: seq<Event>) {
    forall i :: 0 <= i < |events| && Lost(events[i].payload) ==> Tokenless(env, events[i])
  }

  lemma {:induction false} IndexedDocs(env: VectorIndex.Env, events: seq<Event>, id: string)
    ensures id in IndexOf(env, events).docs ==> HasId(events, id)
    ensures id in ReindexOf(env, events).docs ==> HasId(events, id)
  {
    if events != [] {
      hide Strings, Join, Lost, VectorMath.TermFreq;
      var n := |events| - 1;
      IndexedDocs(env, events[..n], id);
      if HasId(events[..n], id) {
        var i :| 0 <= i < n && events[..n][i].id == id;
        assert events[i].id == id;
      }
      assert events[n].id == id ==> HasId(events, id);
    }
  }

  /** An event with tokens whose payload says it was lost is found by the
      appended index and not by the rebuilt one. */
  lemma {:induction false} LostIsMissing(env: VectorIndex.Env, events: seq<Event>, i: nat)
    requires DistinctIds(events) && i < |events| && Lost(events[i].payload) && !Tokenless(env, events[i])
    ensures events[i].id in IndexOf(env, events).docs && events[i].id !in ReindexOf(env, events).docs
  {
    hide Indexed, Tokenless, Lost;
    var n := |events| - 1;
    var front, e := events[..n], events[n];
    IndexStep(env, IndexOf(env, front), e);
    IndexStep(env, ReindexOf(env, front), e);
    if i == n {
      IndexedDocs(env, front, e.id);
    } else {
      LostIsMissing(env, front, i);
    }
  }

  lemma {:induction false} SafeIndexRebuilt(env: VectorIndex.Env, events: seq<Event>)
    requires IndexSafe(env, events)
    ensures ReindexOf(env, events) == IndexOf(env, events)
  {
    hide Indexed, Tokenless, Lost;
    if events != [] {
      var n := |events| - 1;
      forall i | 0 <= i < n && Lost(events[..n][i].payload) ensures Tokenless(env, events[..n][i]) {
        assert events[..n][i] == events[i];
      }
      SafeIndexRebuilt(env, events[..n]);
      IndexStep(env, IndexOf(env, events[..n]), events[n]);
    }
  }

  /** The rebuilt index is the appended one exactly when no event with tokens
      has a payload that says it was lost. */
  lemma {:induction false} IndexRebuiltIff(env: VectorIndex.Env, events: seq<Event>)
    requires DistinctIds(events)
    ensures ReindexOf(env, events) == IndexOf(env, events) <==> IndexSafe(env, events)
  {
    hide Indexed, Tokenless, Lost;
    if IndexSafe(env, events) {
      SafeIndexRebuilt(env, events);
    } else {
      var i :| 0 <= i < |events| && Lost(events[i].payload) && !Tokenless(env, events[i]);
      LostIsMissing(env, events, i);
    }
  }

  lemma {:induction false} ReindexReturned(env: VectorIndex.Env, events: seq<Event>, rows: seq<Event>)
    requires |rows| == |events| && forall i :: 0 <= i < |events| ==> rows[i] == Returned(events[i])
    ensures ReindexOf(env, rows) == ReindexOf(env, events)
  {
    if events != [] {
      var n := |events| - 1;
      ReindexReturned(env, events[..n], rows[..n]);
      hide Strings, Join, Lost, PayloadTime;
      assert rows[n] == Returned(events[n]);
    }
  }

  // ------------------------------------------------------------- after recovery

  /** Whether recovered event i may be taken for the latest of its workspace:
      no payload of the workspace carries a later timestamp. */
  lemma {:induction false} RecoveredLatestIff(g: Engine, events: seq<Event>, w: string, i: nat)
    requires DistinctIds(events) && AllRecoverable(g, events)
    ensures IsLatest(g.codec, Recovered(g, WIPED, HeadersOf(events)).rows, w, i) <==>
      && i < |events| && events[i].workspaceId == w
      && forall j :: 0 <= j < |events| && events[j].workspaceId == w ==>
           g.codec.rank(PayloadTime(events[j].payload)) <= g.codec.rank(PayloadTime(events[i].payload))
  {
    RecoveryRebuilds(g, events);
    hide PayloadTime, Recovered;
  }

  /** k is the only event that may be taken for the latest of the workspace. */
  ghost predicate OnlyLatest(c: Codec, rows: seq<Event>, w: string, k: nat) {
    IsLatest(c, rows, w, k) && forall i :: IsLatest(c, rows, w, i) ==> i == k
  }

  /** After recovery the latest event by timestamp is the last one of the
      workspace, its head before the wipe, if and only if every other event of
      the workspace has a payload with an earlier timestamp. */
  lemma {:induction false} HeadSurvivesIff(g: Engine, events: seq<Event>, w: string, k: nat)
    requires DistinctIds(events) && AllRecoverable(g, events)
    requires k < |events| && events[k].workspaceId == w && forall j :: k < j < |events| ==> events[j].workspaceId != w
    ensures Head(events, w) == Some(events[k].id)
    ensures OnlyLatest(g.codec, Recovered(g, WIPED, HeadersOf(events)).rows, w, k) <==>
      forall j :: 0 <= j < |events| && j != k && events[j].workspaceId == w ==>
        g.codec.rank(PayloadTime(events[j].payload)) < g.codec.rank(PayloadTime(events[k].payload))
  {
    hide PayloadTime, Recovered, IsLatest, Recoverable, HeadersOf, Head;
    HeadAt(events, w, k);
    var rows := Recovered(g, WIPED, HeadersOf(events)).rows;
    forall i: nat
      ensures IsLatest(g.codec, rows, w, i) <==>
        && i < |events| && events[i].workspaceId == w
        && forall j :: 0 <= j < |events| && events[j].workspaceId == w ==>
             g.codec.rank(PayloadTime(events[j].payload)) <= g.codec.rank(PayloadTime(events[i].payload))
    {
      RecoveredLatestIff(g, events, w, i);
    }
    if OnlyLatest(g.codec, rows, w, k) {
      forall j | 0 <= j < |events| && j != k && events[j].workspaceId == w
        ensures g.codec.rank(PayloadTime(events[j].payload)) < g.codec.rank(PayloadTime(events[k].payload))
      {
        assert !IsLatest(g.codec, rows, w, j);
      }
    }
  }

  lemma {:induction false} HeadAt(events: seq<Event>, w: string, k: nat)
    requires k < |events| && events[k].workspaceId == w && forall j :: k < j < |events| ==> events[j].workspaceId != w
    ensures Head(events, w) == Some(events[k].id)
  {
    var p := HeadPosition(events, w);
  }

  /** When no payload carries a timestamp, recovery leaves all of them empty:
      any event of a workspace may then be taken for its latest. */
  lemma {:induction false} LatestIsLost(g: Engine, events: seq<Event>, w: string, i: nat)
    requires DistinctIds(events) && AllRecoverable(g, events)
    requires forall k :: 0 <= k < |events| ==> PayloadTime(events[k].payload) == ""
    requires i < |events| && events[i].workspaceId == w
    ensures IsLatest(g.codec, Recovered(g, WIPED, HeadersOf(events)).rows, w, i)
  {
    hide PayloadTime, Recovered, Recoverable;
    RecoveredLatestIff(g, events, w, i);
  }

  /** The call's payload survives JSON, its blob id is well formed, and its
      signature verifies or is exempt. */
  ghost predicate Faithful(c: Codec, crypto: Replay.Crypto, call: Call) {
    && AcceptedBlobId(Some(call.blobId)) && call.blobId != "" && call.blobId != "null"
    && c.loads(c.dumps(call.payload)) == Some(call.payload)
    && Verified(crypto, call.signature, call.payload)
  }

  /** Whole runs: append, wipe, recover, whatever the clock read and the
      latest-hash queries answered.  What comes back is every step that was not
      refused, in order, under its id and with its payload. */
  lemma {:induction false} RunThenRecover(c: Codec, env: VectorIndex.Env, crypto: Replay.Crypto, steps: seq<Step>)
    requires Lawful(c) && HonestNetwork(c, steps)
    requires forall j :: 0 <= j < |steps| ==> Faithful(c, crypto, steps[j].call)
    ensures var st := Run(c, env, steps);
      var out := Recovered(Engine(c, env, crypto, st.blobs), WIPED, HeadersOf(st.rows));
      && out.error == None && out.count == |st.rows| == |out.rows|
      && (forall i :: 0 <= i < |st.rows| ==> out.rows[i] == Returned(st.rows[i]))
      && |out.rows| == |FirstSteps(c, steps)|
      && (forall k :: 0 <= k < |out.rows| ==> BringsBack(c, out.rows[k], steps[FirstSteps(c, steps)[k]]))
      && (out.index == st.index <==> IndexSafe(env, st.rows))
  {
    hide Recovered, IndexSafe, Returned, Run, Recoverable, Hashed, Records, BringsBack, FirstSteps;
    RunSound(c, env, steps);
    RunRetained(c, env, steps);
    RunRecordsFirstSteps(c, env, steps);
    var st := Run(c, env, steps);
    var g := Engine(c, env, crypto, st.blobs);
    forall i | 0 <= i < |st.rows| ensures Recoverable(g, st.rows[i]) {
      RunRecoverable(g, st, steps, i);
    }
    RecoveryRebuilds(g, st.rows);
    ReindexReturned(env, st.rows, Recovered(g, WIPED, HeadersOf(st.rows)).rows);
    IndexRebuiltIff(env, st.rows);
    forall k | 0 <= k < |st.rows|
      ensures BringsBack(c, Returned(st.rows[k]), steps[FirstSteps(c, steps)[k]])
    {
      ReturnedBringsBack(c, st.rows[k], steps[FirstSteps(c, steps)[k]]);
    }
  }

  /** e is what a step wrote, but for its timestamp and digest. */
  ghost predicate BringsBack(c: Codec, e: Event, step: Step) {
    && e.id == StepId(c, step) && e.payload == step.call.payload && e.kind == step.call.kind
    && e.workspaceId == step.call.workspaceId && e.agentId == step.call.agentId && e.wallet == step.call.wallet
    && e.signature == step.call.signature && e.previousHash == step.previous && e.blobId == Some(step.call.blobId)
    && e.blobHash == Some(c.sha(c.dumps(step.call.payload))) && e.parent == None
  }

  lemma {:induction false} ReturnedBringsBack(c: Codec, e: Event, step: Step)
    requires Records(c, e, step)
    ensures BringsBack(c, Returned(e), step)
  {
    RecordedId(c, e, step);
    hide PayloadTime, StepId;
  }

  lemma {:induction false} RunRecoverable(g: Engine, st: Store, steps: seq<Step>, i: nat)
    requires Lawful(g.codec) && g.blobs == st.blobs
    requires FromCalls(st.rows, steps) && Retained(g.codec, st) && i < |st.rows|
    requires forall j :: 0 <= j < |steps| ==> Faithful(g.codec, g.crypto, steps[j].call)
    ensures Recoverable(g, st.rows[i])
  {
    hide Verified, AcceptedBlobId;
    var j := SourceCall(st.rows, steps, i);
    assert ObjectText(g.codec.dumps(st.rows[i].payload));
  }

  // ----------------------------------------------------------------- the engine

  class DisasterRecoveryEngine {
    const engine: Engine
    const vector: VectorIndex.InMemoryVector
    var rows: seq<Event>

    constructor (engine: Engine)
      ensures vector.Valid() && vector.env == engine.env && fresh(vector)
      ensures this.engine == engine && rows == [] && vector.Contents() == NOTHING
    {
      this.engine, rows := engine, [];
      vector := new VectorIndex.InMemoryVector(engine.env);
    }

    /** The loop over the headers.  What was written stays written when an
        error ends it. */
    method Recover(headers: seq<Header>) returns (r: Result<nat>)
      requires vector.Valid() && vector.env == engine.env
      modifies this, vector
      ensures vector.Valid()
      ensures var out := Recovered(engine, Outcome(old(rows), old(vector.Contents()), 0, None), headers);
        && rows == out.rows && vector.Contents() == out.index
        && r == if out.error.Some? then Raised(out.error.value) else Ok(out.count)
    {
      hide Hydrated, Verified, AcceptedBlobId, PayloadTime, Strings, Join, VectorIndex.Upserted, Lost;
      var count := 0;
      ghost var start := Outcome(rows, vector.Contents(), 0, None);
      for i := 0 to |headers|
        invariant vector.Valid()
        invariant Recovered(engine, start, headers[..i]) == Outcome(rows, vector.Contents(), count, None)
      {
        var h := headers[i];
        assert headers[..i + 1][..i] == headers[..i];
        ghost var next := Rebuild(engine, Outcome(rows, vector.Contents(), count, None), h);
        assert Recovered(engine, start, headers[..i + 1]) == next;
        if !AcceptedBlobId(h.blobId) {
          continue;
        }
        if h.kind.Unknown? {
          Stuck(engine, start, headers, i + 1);
          return Raised(ValueError);
        }
        var p := Hydrated(engine.codec, engine.blobs, h.blobId);
        var e := Rebuilt(h, if h.kind.Known? then h.kind.kind else MemoryAppended, p);
        if !Verified(engine.crypto, h.signature, p) {
          continue;
        }
        if HasId(rows, e.id) {
          Stuck(engine, start, headers, i + 1);
          return Raised(IntegrityError);
        }
        rows := rows + [e];
        if e.kind == MemoryAppended && !Lost(p) {
          var vals := Strings(p);
          if vals != [] {
            vector.Upsert(e.id, Join(" ", vals), VectorIndex.Metadata(e.workspaceId, e.agentId));
          }
        }
        count := count + 1;
      }
      assert headers[..|headers|] == headers;
      return Ok(count);
    }
  }

  lemma {:induction false} Stuck(g: Engine, start: Outcome, headers: seq<Header>, n: nat)
    requires n <= |headers| && Recovered(g, start, headers[..n]).error.Some?
    ensures Recovered(g, start, headers) == Recovered(g, start, headers[..n])
  {
    if n < |headers| {
      assert headers[..|headers| - 1][..n] == headers[..n];
      Stuck(g, start, headers[..|headers| - 1], n);
    } else {
      assert headers[..n] == headers;
    }
  }
}
