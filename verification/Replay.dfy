/** `ReplayEngine.replay` (walrusos/engine/replay.py:57-197): stop rules, key and
    capability trackers, and the filters that drop events. */
module Replay {
  import opened Prelude
  import opened Protocol

  /** A parsed timestamp.  Comparing a naive with an aware one raises. */
  datatype Time = Unparsable | Naive(t: int) | Aware(t: int)

  /** Canonical hashing (which can fail), Ed25519 and ISO-8601 parsing. */
  datatype Crypto = Crypto(
    canonicalHash: Payload -> Option<string>,
    verify: (Value, string, string) -> bool,
    parseTime: string -> Time)

  datatype Flags = Flags(verifyCrypto: bool, verifyCapabilities: bool)

  datatype Until = Until(event: string, timestamp: string)

  // ---------------------------------------------------------------- stop rules

  datatype Stop = Continue | StopWith | StopBefore

  predicate After(a: Time, b: Time) {
    match (a, b)
    case (Naive(x), Naive(y)) => x > y
    case (Aware(x), Aware(y)) => x > y
    case _ => false
  }

  /** The empty string stands for "not given". */
  function StopRule(c: Crypto, until: Until, e: Event): Stop {
    if until.event != "" && e.id == until.event then StopWith
    else if until.timestamp != "" && After(c.parseTime(e.timestamp), c.parseTime(until.timestamp)) then StopBefore
    else Continue
  }

  /** The position of the first event a stop rule applies to. */
  function Cut(c: Crypto, until: Until, events: seq<Event>): (n: nat)
    ensures n <= |events|
    ensures forall i :: 0 <= i < n ==> StopRule(c, until, events[i]) == Continue
    ensures n < |events| ==> StopRule(c, until, events[n]) != Continue
  {
    if events == [] then 0
    else if StopRule(c, until, events[0]) != Continue then 0
    else 1 + Cut(c, until, events[1..])
  }

  // ------------------------------------------------------------------ trackers

  /** +1, -1 or 0: what an event does to the grants of cap for the target. */
  function Change(e: Event, target: Value, cap: Value): int {
    if Given(e.payload, "target_agent_id") == Some(target) && Given(e.payload, "capability") == Some(cap) then
      if e.kind == CapabilityGranted then 1 else if e.kind == CapabilityRevoked then -1 else 0
    else 0
  }

  /** Grants held after the events: each grant adds one, each revocation takes
      one away if there is one. */
  function Held(events: seq<Event>, target: Value, cap: Value): (n: nat)
    ensures n <= |events|
  {
    if events == [] then 0
    else Max(0, Held(events[..|events| - 1], target, cap) + Change(events[|events| - 1], target, cap))
  }

  /** Grants minus revocations. */
  function Net(events: seq<Event>, target: Value, cap: Value): int {
    if events == [] then 0
    else Net(events[..|events| - 1], target, cap) + Change(events[|events| - 1], target, cap)
  }

  lemma {:induction false} NetSuffix(events: seq<Event>, j: nat, target: Value, cap: Value)
    requires j < |events|
    ensures var n := |events| - 1;
      Net(events[j..], target, cap) == Net(events[..n][j..], target, cap) + Change(events[n], target, cap)
  {
    var s := events[j..];
    assert s[..|s| - 1] == events[..|events| - 1][j..] && s[|s| - 1] == events[|events| - 1];
  }

  /** The number held is the largest net balance over all suffixes. */
  lemma {:induction false} HeldIsBestSuffix(events: seq<Event>, target: Value, cap: Value)
    ensures forall j :: 0 <= j <= |events| ==> Net(events[j..], target, cap) <= Held(events, target, cap)
    ensures exists j :: 0 <= j <= |events| && Net(events[j..], target, cap) == Held(events, target, cap)
  {
    var n := |events|;
    assert Net(events[n..], target, cap) == 0;
    if n > 0 {
      var front, last := events[..n - 1], events[n - 1];
      HeldIsBestSuffix(front, target, cap);
      hide Net, Change;
      forall j | 0 <= j < n
        ensures Net(events[j..], target, cap) == Net(front[j..], target, cap) + Change(last, target, cap)
      {
        NetSuffix(events, j, target, cap);
      }
      var k :| 0 <= k <= |front| && Net(front[k..], target, cap) == Held(front, target, cap);
      assert Held(events, target, cap) == Net(events[k..], target, cap)
        || Held(events, target, cap) == Net(events[n..], target, cap);
    }
  }

  /** The key of the agent's latest registration, if any. */
  function KeyOf(events: seq<Event>, agent: Option<string>): Option<Value> {
    if events == [] then None
    else
      var last := events[|events| - 1];
      if last.kind == AgentRegistered && last.agentId == agent then Field(last.payload, "public_key")
      else KeyOf(events[..|events| - 1], agent)
  }

  // ------------------------------------------------------- what is kept, and why

  /** `event.payload.get("public_key") or agent_keys.get(event.agent_id)` */
  function VerifyingKey(prefix: seq<Event>, e: Event): Option<Value> {
    var own := Given(e.payload, "public_key");
    if own.Some? then own else KeyOf(prefix, e.agentId)
  }

  predicate SignatureAccepted(c: Crypto, e: Event, key: Option<Value>) {
    e.signature == "" || e.signature == "v0_migration" || (
      var hash := c.canonicalHash(e.payload);
      && hash.Some?
      && (e.kind == MemoryAppended && e.blobHash.Some? && e.blobHash.value != "" ==> e.blobHash.value == hash.value)
      && (key.Some? && Truthy(key.value) ==> c.verify(key.value, hash.value, e.signature)))
  }

  function Needed(e: Event): Option<Value> {
    if e.kind == MemoryAppended then Some(Str("write"))
    else if e.kind == MemoryForked then Some(Str("fork"))
    else None
  }

  /** An agent holding nothing is unrestricted; one holding something must hold
      the capability the event needs. */
  ghost predicate CapabilityAccepted(prefix: seq<Event>, e: Event) {
    Needed(e).Some? && e.agentId.Some? ==>
      || (forall cap :: Held(prefix, Str(e.agentId.value), cap) == 0)
      || Held(prefix, Str(e.agentId.value), Needed(e).value) > 0
  }

  /** Whether event i, coming before any stop, is kept: a predicate of the
      event and the events up to it, whatever was dropped among those. */
  ghost predicate Kept(c: Crypto, flags: Flags, events: seq<Event>, i: nat)
    requires i < |events|
  {
    var e, prefix := events[i], events[..i + 1];
    && AcceptedBlobId(e.blobId)
    && (flags.verifyCrypto ==> SignatureAccepted(c, e, VerifyingKey(prefix, e)))
    && (flags.verifyCapabilities ==> CapabilityAccepted(prefix, e))
  }

  /** The kept events among the first n. */
  ghost function Keeps(c: Crypto, flags: Flags, events: seq<Event>, n: nat): seq<Event>
    requires n <= |events|
  {
    if n == 0 then []
    else Keeps(c, flags, events, n - 1) + (if Kept(c, flags, events, n - 1) then [events[n - 1]] else [])
  }

  /** What replay returns: the kept events before the stop, and the stop event
      itself, unchecked, when it was named by id. */
  ghost function Replayed(c: Crypto, flags: Flags, until: Until, events: seq<Event>): seq<Event> {
    var n := Cut(c, until, events);
    Keeps(c, flags, events, n)
      + (if n < |events| && StopRule(c, until, events[n]) == StopWith then [events[n]] else [])
  }

  // ------------------------------------------------- which events are returned

  predicate Named(until: Until, e: Event) {
    until.event != "" && e.id == until.event
  }

  /** A stop time is given, and it and e's time are both naive or both aware,
      and e is later. */
  predicate PastTime(c: Crypto, until: Until, e: Event) {
    && until.timestamp != ""
    && (var now, end := c.parseTime(e.timestamp), c.parseTime(until.timestamp);
        ((now.Naive? && end.Naive?) || (now.Aware? && end.Aware?)) && now.t > end.t)
  }

  /** No event before i is the named stop or past the stop time, and event i is
      the named stop, or is not past the time either and is kept. */
  ghost predicate IsReturned(c: Crypto, flags: Flags, until: Until, events: seq<Event>, i: nat)
    requires i < |events|
  {
    && (forall j :: 0 <= j < i ==> !Named(until, events[j]) && !PastTime(c, until, events[j]))
    && (Named(until, events[i]) || (!PastTime(c, until, events[i]) && Kept(c, flags, events, i)))
  }

  ghost function ReturnedPositions(c: Crypto, flags: Flags, until: Until, events: seq<Event>, n: nat): seq<nat> {
    Indices((i: nat) => i < |events| && IsReturned(c, flags, until, events, i), n)
  }

  /** r holds the events at the given positions, in order. */
  ghost predicate EventsAt(r: seq<Event>, events: seq<Event>, at: seq<nat>) {
    |r| == |at| && forall k :: 0 <= k < |at| ==> at[k] < |events| && r[k] == events[at[k]]
  }

  lemma {:induction false} StopRuleMeaning(c: Crypto, until: Until, e: Event)
    ensures StopRule(c, until, e) == if Named(until, e) then StopWith else if PastTime(c, until, e) then StopBefore
                                     else Continue
  {
  }

  lemma {:induction false} PositionsStep(c: Crypto, flags: Flags, until: Until, events: seq<Event>, n: nat)
    requires n < |events|
    ensures ReturnedPositions(c, flags, until, events, n + 1) == ReturnedPositions(c, flags, until, events, n)
      + (if IsReturned(c, flags, until, events, n) then [n] else [])
  {
  }

  lemma {:induction false} KeepsAt(c: Crypto, flags: Flags, until: Until, events: seq<Event>, n: nat)
    requires n <= |events| && forall j :: 0 <= j < n ==> StopRule(c, until, events[j]) == Continue
    ensures EventsAt(Keeps(c, flags, events, n), events, ReturnedPositions(c, flags, until, events, n))
  {
    hide Kept, StopRule, ReturnedPositions;
    if n == 0 {
      NoPositions(c, flags, until, events);
    } else {
      KeepsAt(c, flags, until, events, n - 1);
      PositionsStep(c, flags, until, events, n - 1);
      forall j | 0 <= j < n ensures !Named(until, events[j]) && !PastTime(c, until, events[j]) {
        StopRuleMeaning(c, until, events[j]);
      }
    }
  }

  lemma {:induction false} NoPositions(c: Crypto, flags: Flags, until: Until, events: seq<Event>)
    ensures ReturnedPositions(c, flags, until, events, 0) == []
  {
  }

  lemma {:induction false} NothingAfterStop(c: Crypto, flags: Flags, until: Until, events: seq<Event>, m: nat, n: nat)
    requires m < n <= |events| && (Named(until, events[m]) || PastTime(c, until, events[m]))
    ensures ReturnedPositions(c, flags, until, events, n) == ReturnedPositions(c, flags, until, events, m + 1)
  {
    hide Kept, Named, PastTime, ReturnedPositions;
    if m + 1 < n {
      NothingAfterStop(c, flags, until, events, m, n - 1);
      PositionsStep(c, flags, until, events, n - 1);
      assert !IsReturned(c, flags, until, events, n - 1);
    }
  }

  /** Replay returns exactly the events before the first that is past the stop
      time or named as the stop, as far as they are kept, and the named one. */
  lemma {:induction false} ReplayedMeaning(c: Crypto, flags: Flags, until: Until, events: seq<Event>)
    ensures EventsAt(Replayed(c, flags, until, events), events,
                     ReturnedPositions(c, flags, until, events, |events|))
  {
    hide Keeps, Kept, StopRule, Cut, ReturnedPositions;
    var n := Cut(c, until, events);
    KeepsAt(c, flags, until, events, n);
    if n < |events| {
      forall j | 0 <= j <= n ensures StopRule(c, until, events[j]) == if Named(until, events[j]) then StopWith
        else if PastTime(c, until, events[j]) then StopBefore else Continue
      {
        StopRuleMeaning(c, until, events[j]);
      }
      NothingAfterStop(c, flags, until, events, n, |events|);
      PositionsStep(c, flags, until, events, n);
    }
  }

  // ----------------------------------------------------------- what verification asks

  /** The key that event i is checked against: its payload's own or else that
      of its agent's latest registration up to it. */
  ghost predicate KeyAtHand(events: seq<Event>, i: nat, key: Value)
    requires i < |events|
  {
    var own := Given(events[i].payload, "public_key");
    own == Some(key) || (own.None? && exists j :: Registers(events, i, j, key))
  }

  ghost predicate Registers(events: seq<Event>, i: nat, j: nat, key: Value)
    requires i < |events|
  {
    && j <= i && events[j].kind == AgentRegistered && events[j].agentId == events[i].agentId
    && Field(events[j].payload, "public_key") == Some(key)
    && forall m :: j < m <= i ==> events[m].kind != AgentRegistered || events[m].agentId != events[i].agentId
  }

  lemma {:induction false} KeyOfLatest(events: seq<Event>, n: nat, agent: Option<string>) returns (j: int)
    requires n <= |events|
    ensures -1 <= j < n
    ensures forall m :: j < m < n ==> events[m].kind != AgentRegistered || events[m].agentId != agent
    ensures j < 0 ==> KeyOf(events[..n], agent) == None
    ensures j >= 0 ==>
      && events[j].kind == AgentRegistered && events[j].agentId == agent
      && KeyOf(events[..n], agent) == Field(events[j].payload, "public_key")
  {
    hide Field;
    if n == 0 {
      j := -1;
    } else {
      assert events[..n][..n - 1] == events[..n - 1];
      if events[n - 1].kind == AgentRegistered && events[n - 1].agentId == agent {
        j := n - 1;
      } else {
        j := KeyOfLatest(events, n - 1, agent);
      }
    }
  }

  lemma {:induction false} VerifyingKeyMeaning(events: seq<Event>, i: nat)
    requires i < |events|
    ensures forall key :: KeyAtHand(events, i, key) <==> VerifyingKey(events[..i + 1], events[i]) == Some(key)
  {
    hide Field, Given;
    var j := KeyOfLatest(events, i + 1, events[i].agentId);
    forall key ensures (exists k :: Registers(events, i, k, key))
      <==> j >= 0 && Field(events[j].payload, "public_key") == Some(key)
    {
      if j >= 0 && Field(events[j].payload, "public_key") == Some(key) {
        assert Registers(events, i, j, key);
      }
    }
  }

  /** With signatures checked and capabilities not, an event with an acceptable
      blob id and a signature that is not exempt is kept exactly when its
      payload has a canonical hash, which is its content hash if it is a memory
      event that has one, and which the key at hand, if any, verifies. */
  lemma {:induction false} SignedKeptIff(c: Crypto, events: seq<Event>, i: nat)
    requires i < |events| && AcceptedBlobId(events[i].blobId)
    ensures var e := events[i];
      Kept(c, Flags(true, false), events, i) <==>
        e.signature == "" || e.signature == "v0_migration" || (
          var hash := c.canonicalHash(e.payload);
          && hash.Some?
          && (e.kind == MemoryAppended && e.blobHash.Some? && e.blobHash.value != "" ==> e.blobHash == hash)
          && forall key :: KeyAtHand(events, i, key) && Truthy(key) ==> c.verify(key, hash.value, e.signature))
  {
    VerifyingKeyMeaning(events, i);
    hide KeyAtHand, VerifyingKey, AcceptedBlobId, Truthy;
    var e := events[i];
    var key := VerifyingKey(events[..i + 1], e);
    assert Kept(c, Flags(true, false), events, i) <==> SignatureAccepted(c, e, key);
    if key.Some? {
      assert KeyAtHand(events, i, key.value);
      assert forall k :: KeyAtHand(events, i, k) <==> k == key.value;
    } else {
      assert forall k :: !KeyAtHand(events, i, k);
    }
  }

  /** With capabilities checked and signatures not, only an agent's memory
      appends and forks can be dropped: when it holds something, but not "write"
      or "fork" respectively. */
  lemma {:induction false} CapableKeptIff(c: Crypto, events: seq<Event>, i: nat)
    requires i < |events| && AcceptedBlobId(events[i].blobId)
    ensures var e, prefix := events[i], events[..i + 1];
      !Kept(c, Flags(false, true), events, i) <==>
        && e.agentId.Some? && (exists cap :: Held(prefix, Str(e.agentId.value), cap) > 0)
        && ((e.kind == MemoryAppended && Held(prefix, Str(e.agentId.value), Str("write")) == 0)
            || (e.kind == MemoryForked && Held(prefix, Str(e.agentId.value), Str("fork")) == 0))
  {
    hide Held, AcceptedBlobId, CapabilityAccepted;
    NotCapable(events[..i + 1], events[i]);
  }

  lemma {:induction false} NotCapable(prefix: seq<Event>, e: Event)
    ensures !CapabilityAccepted(prefix, e) <==>
      && e.agentId.Some? && (exists cap :: Held(prefix, Str(e.agentId.value), cap) > 0)
      && ((e.kind == MemoryAppended && Held(prefix, Str(e.agentId.value), Str("write")) == 0)
          || (e.kind == MemoryForked && Held(prefix, Str(e.agentId.value), Str("fork")) == 0))
  {
    if e.agentId.Some? && Needed(e).Some? {
      var target := Str(e.agentId.value);
      HoldsNothing(prefix, target);
      assert e.kind == MemoryAppended <==> Needed(e).value == Str("write");
      if CapabilityAccepted(prefix, e) {
        assert (forall cap :: Held(prefix, target, cap) == 0) || Held(prefix, target, Needed(e).value) > 0;
      } else {
        assert Held(prefix, target, Needed(e).value) == 0 && exists cap :: Held(prefix, target, cap) > 0;
      }
    }
  }

  lemma {:induction false} HoldsNothing(events: seq<Event>, target: Value)
    ensures (forall cap :: Held(events, target, cap) == 0) <==> !exists cap :: Held(events, target, cap) > 0
  {
    hide Held;
  }

  /** The checks are independent: each flag asks for its own, and both ask for an
      acceptable blob id. */
  lemma {:induction false} ChecksCombine(c: Crypto, flags: Flags, events: seq<Event>, i: nat)
    requires i < |events|
    ensures Kept(c, flags, events, i) <==>
      && AcceptedBlobId(events[i].blobId)
      && (flags.verifyCrypto ==> Kept(c, Flags(true, false), events, i))
      && (flags.verifyCapabilities ==> Kept(c, Flags(false, true), events, i))
  {
    hide AcceptedBlobId, SignatureAccepted, CapabilityAccepted, VerifyingKey;
  }

  /** The first grant to an agent restricts it to what was granted. */
  lemma {:induction false} FirstGrantRestricts(events: seq<Event>, grant: Event, agent: string, cap: string, e: Event)
    requires forall x :: Held(events, Str(agent), x) == 0
    requires grant.kind == CapabilityGranted && agent != "" && cap != ""
    requires Field(grant.payload, "target_agent_id") == Some(Str(agent))
    requires Field(grant.payload, "capability") == Some(Str(cap))
    requires e.agentId == Some(agent)
    ensures CapabilityAccepted(events + [grant], e) <==>
      (e.kind == MemoryAppended ==> cap == "write") && (e.kind == MemoryForked ==> cap == "fork")
  {
    assert (events + [grant])[..|events|] == events;
    assert Held(events + [grant], Str(agent), Str(cap)) == 1;
    assert forall x :: x != Str(cap) ==> Held(events + [grant], Str(agent), x) == 0;
  }

  // --------------------------------------------------------- comparing replays

  lemma {:induction false} KeepsPrefix(c: Crypto, flags: Flags, events: seq<Event>, m: nat, n: nat)
    requires m <= n <= |events|
    ensures Keeps(c, flags, events, m) <= Keeps(c, flags, events, n)
  {
    if m < n {
      KeepsPrefix(c, flags, events, m, n - 1);
    }
  }

  predicate NoLater(a: Time, b: Time) {
    match (a, b)
    case (Naive(x), Naive(y)) => x <= y
    case (Aware(x), Aware(y)) => x <= y
    case _ => false
  }

  lemma {:induction false} LaterStop(c: Crypto, t1: string, t2: string, e: Event)
    requires t1 != "" && NoLater(c.parseTime(t1), c.parseTime(t2))
    ensures StopRule(c, Until("", t2), e) != Continue ==> StopRule(c, Until("", t1), e) == StopBefore
    ensures StopRule(c, Until("", t2), e) != StopWith && StopRule(c, Until("", t1), e) != StopWith
  {
  }

  /** Replay to an earlier time is a prefix of replay to a later one, in
      whatever order the events' own timestamps are. */
  lemma {:induction false} EarlierTimeIsPrefix(c: Crypto, flags: Flags, t1: string, t2: string, events: seq<Event>)
    requires t1 != "" && NoLater(c.parseTime(t1), c.parseTime(t2))
    ensures Replayed(c, flags, Until("", t1), events) <= Replayed(c, flags, Until("", t2), events)
  {
    hide Keeps;
    var n1, n2 := Cut(c, Until("", t1), events), Cut(c, Until("", t2), events);
    if n2 < |events| {
      LaterStop(c, t1, t2, events[n2]);
    }
    KeepsPrefix(c, flags, events, n1, n2);
  }

  lemma {:induction false} NeverStops(c: Crypto, events: seq<Event>)
    ensures Cut(c, Until("", ""), events) == |events|
  {
    var n := Cut(c, Until("", ""), events);
    assert n < |events| ==> StopRule(c, Until("", ""), events[n]) == Continue;
  }

  /** Replay to an event, without that event, is a prefix of the full replay. */
  lemma {:induction false} EventStopIsPrefix(c: Crypto, flags: Flags, id: string, events: seq<Event>)
    requires id != ""
    ensures var r, full := Replayed(c, flags, Until(id, ""), events), Replayed(c, flags, Until("", ""), events);
      if exists i :: 0 <= i < |events| && events[i].id == id then
        r != [] && r[|r| - 1].id == id && r[..|r| - 1] <= full
      else r == full
  {
    hide Keeps;
    var n := Cut(c, Until(id, ""), events);
    NeverStops(c, events);
    KeepsPrefix(c, flags, events, n, |events|);
    if n < |events| {
      assert events[n].id == id;
    } else {
      forall i | 0 <= i < |events| ensures events[i].id != id {
        assert StopRule(c, Until(id, ""), events[i]) == Continue;
      }
    }
  }

  lemma {:induction false} SubsequenceAppend<T>(r: seq<T>, s: seq<T>, x: T)
    requires Subsequence(r, s)
    ensures Subsequence(r + [x], s + [x]) && Subsequence(r, s + [x])
  {
    if r == [] {
      SubsequenceLast(s, x);
    } else {
      assert (s + [x])[1..] == s[1..] + [x];
      if r[0] == s[0] && Subsequence(r[1..], s[1..]) {
        SubsequenceAppend(r[1..], s[1..], x);
        assert (r + [x])[1..] == r[1..] + [x];
      } else {
        SubsequenceAppend(r, s[1..], x);
      }
    }
  }

  lemma {:induction false} SubsequenceLast<T>(s: seq<T>, x: T)
    ensures Subsequence([] + [x], s + [x])
  {
    assert [] + [x] == [x];
    if s == [] {
      assert s + [x] == [x];
      assert [x][1..] == [];
    } else {
      SubsequenceLast(s[1..], x);
      assert (s + [x])[1..] == s[1..] + [x];
    }
  }

  lemma {:induction false} KeepsFewer(c: Crypto, strict: Flags, loose: Flags, events: seq<Event>, n: nat)
    requires n <= |events|
    requires (loose.verifyCrypto ==> strict.verifyCrypto) && (loose.verifyCapabilities ==> strict.verifyCapabilities)
    ensures Subsequence(Keeps(c, strict, events, n), Keeps(c, loose, events, n))
  {
    hide Subsequence, Kept;
    if n == 0 {
      EmptySubsequence<Event>([]);
    } else {
      KeepsFewer(c, strict, loose, events, n - 1);
      var a, b := Keeps(c, strict, events, n - 1), Keeps(c, loose, events, n - 1);
      SubsequenceAppend(a, b, events[n - 1]);
      StricterKeepsLess(c, strict, loose, events, n - 1);
      assert a + [] == a && b + [] == b;
    }
  }

  lemma {:induction false} EmptySubsequence<T>(s: seq<T>)
    ensures Subsequence([], s)
  {
  }

  lemma {:induction false} StricterKeepsLess(c: Crypto, strict: Flags, loose: Flags, events: seq<Event>, i: nat)
    requires i < |events|
    requires (loose.verifyCrypto ==> strict.verifyCrypto) && (loose.verifyCapabilities ==> strict.verifyCapabilities)
    ensures Kept(c, strict, events, i) ==> Kept(c, loose, events, i)
  {
  }

  /** Replay with more verification is a subsequence of replay with less. */
  lemma {:induction false} VerifiedIsSubsequence(c: Crypto, strict: Flags, loose: Flags, until: Until,
                                                 events: seq<Event>)
    requires (loose.verifyCrypto ==> strict.verifyCrypto) && (loose.verifyCapabilities ==> strict.verifyCapabilities)
    ensures Subsequence(Replayed(c, strict, until, events), Replayed(c, loose, until, events))
  {
    hide Subsequence, Keeps;
    var n := Cut(c, until, events);
    KeepsFewer(c, strict, loose, events, n);
    var a, b := Keeps(c, strict, events, n), Keeps(c, loose, events, n);
    if n < |events| {
      SubsequenceAppend(a, b, events[n]);
    }
    assert a + [] == a && b + [] == b;
  }

  // --------------------------------------------------------------- projections

  /** Folding a projection that may raise; the first error ends the fold, as in
      `project_to_time`. */
  function Fold<S>(f: (S, Event) -> Result<S>, s: S, events: seq<Event>): Result<S> {
    if events == [] then Ok(s)
    else
      match Fold(f, s, events[..|events| - 1])
      case Raised(x) => Raised(x)
      case Ok(s') => f(s', events[|events| - 1])
  }

  /** No event leaves the state as it is, and one event is applied once. */
  lemma {:induction false} FoldOne<S>(f: (S, Event) -> Result<S>, s: S, e: Event)
    ensures Fold(f, s, []) == Ok(s) && Fold(f, s, [e]) == f(s, e)
  {
    assert [e][..0] == [];
  }

  /** Folding two runs of events is folding one after the other. */
  lemma {:induction false} FoldAppend<S>(f: (S, Event) -> Result<S>, s: S, a: seq<Event>, b: seq<Event>)
    ensures Fold(f, s, a + b) == match Fold(f, s, a) case Raised(x) => Raised(x) case Ok(s') => Fold(f, s', b)
  {
    if b == [] {
      assert a + b == a;
    } else {
      FoldAppend(f, s, a, b[..|b| - 1]);
      assert (a + b)[..|a + b| - 1] == a + b[..|b| - 1];
    }
  }

  /** Projecting to a later time continues the projection to an earlier one
      over the events replayed in between. */
  lemma {:induction false} ProjectionContinues<S>(c: Crypto, flags: Flags, t1: string, t2: string, events: seq<Event>,
                                                  f: (S, Event) -> Result<S>, s: S)
    requires t1 != "" && NoLater(c.parseTime(t1), c.parseTime(t2))
    ensures var r1, r2 := Replayed(c, flags, Until("", t1), events), Replayed(c, flags, Until("", t2), events);
      && r1 <= r2
      && Fold(f, s, r2) == match Fold(f, s, r1) case Raised(x) => Raised(x) case Ok(s') => Fold(f, s', r2[|r1|..])
  {
    hide Replayed;
    EarlierTimeIsPrefix(c, flags, t1, t2, events);
    var r1, r2 := Replayed(c, flags, Until("", t1), events), Replayed(c, flags, Until("", t2), events);
    FoldAppend(f, s, r1, r2[|r1|..]);
    assert r2 == r1 + r2[|r1|..];
  }

  /** Whether an agent may act once its last capability is revoked: it may do
      everything again, having none. */
  lemma {:induction false} LastRevocationLiftsRestriction(c: Crypto, events: seq<Event>, revoke: Event, e: Event)
    requires Needed(e).Some? && e.agentId.Some?
    requires revoke.kind == CapabilityRevoked
    requires Given(revoke.payload, "target_agent_id") == Some(Str(e.agentId.value))
    requires Given(revoke.payload, "capability").Some?
    requires var only := Given(revoke.payload, "capability").value;
      && Held(events, Str(e.agentId.value), only) == 1
      && forall cap :: cap != only ==> Held(events, Str(e.agentId.value), cap) == 0
    ensures CapabilityAccepted(events, e) <==> Given(revoke.payload, "capability") == Needed(e)
    ensures CapabilityAccepted(events + [revoke], e)
  {
    var target := Str(e.agentId.value);
    assert (events + [revoke])[..|events|] == events;
    forall cap ensures Held(events + [revoke], target, cap) == 0 {
      assert Held(events, target, cap) <= 1;
    }
  }

  // ------------------------------------------------------------------ the loop

  function CountOf(caps: seq<Value>, cap: Value): nat {
    if caps == [] then 0 else (if caps[0] == cap then 1 else 0) + CountOf(caps[1..], cap)
  }

  /** `list.remove`: the first occurrence. */
  function RemoveFirst(caps: seq<Value>, cap: Value): seq<Value> {
    if caps == [] then [] else if caps[0] == cap then caps[1..] else [caps[0]] + RemoveFirst(caps[1..], cap)
  }

  lemma {:induction false} CountAppend(caps: seq<Value>, x: Value, cap: Value)
    ensures CountOf(caps + [x], cap) == CountOf(caps, cap) + (if x == cap then 1 else 0)
  {
    if caps != [] {
      CountAppend(caps[1..], x, cap);
      assert (caps + [x])[1..] == caps[1..] + [x];
    }
  }

  lemma {:induction false} CountRemove(caps: seq<Value>, x: Value, cap: Value)
    requires x in caps
    ensures CountOf(RemoveFirst(caps, x), cap) == CountOf(caps, cap) - (if x == cap then 1 else 0)
  {
    if caps[0] != x {
      CountRemove(caps[1..], x, cap);
    }
  }

  lemma {:induction false} CountMember(caps: seq<Value>, cap: Value)
    ensures CountOf(caps, cap) > 0 <==> cap in caps
  {
    if caps != [] {
      CountMember(caps[1..], cap);
    }
  }

  type Caps = map<Value, seq<Value>>

  function CapsOf(active: Caps, target: Value): seq<Value> {
    if target in active then active[target] else []
  }

  /** The tracker update for one event. */
  function Track(active: Caps, e: Event): Caps {
    var cap, target := Given(e.payload, "capability"), Given(e.payload, "target_agent_id");
    if cap.None? || target.None? then active
    else if e.kind == CapabilityGranted then
      active[target.value := CapsOf(active, target.value) + [cap.value]]
    else if e.kind == CapabilityRevoked && target.value in active && cap.value in active[target.value] then
      active[target.value := RemoveFirst(active[target.value], cap.value)]
    else active
  }

  ghost predicate Tracks(active: Caps, events: seq<Event>) {
    forall target, cap :: CountOf(CapsOf(active, target), cap) == Held(events, target, cap)
  }

  lemma {:induction false} TrackStep(active: Caps, events: seq<Event>, e: Event)
    requires Tracks(active, events)
    ensures Tracks(Track(active, e), events + [e])
  {
    var active' := Track(active, e);
    assert (events + [e])[..|events|] == events;
    forall t, c ensures CountOf(CapsOf(active', t), c) == Held(events + [e], t, c) {
      assert CountOf(CapsOf(active, t), c) == Held(events, t, c);
      var cap, target := Given(e.payload, "capability"), Given(e.payload, "target_agent_id");
      if cap.Some? && target == Some(t) {
        CountMember(CapsOf(active, t), cap.value);
        CountMember(CapsOf(active, t), c);
        if e.kind == CapabilityGranted {
          CountAppend(CapsOf(active, t), cap.value, c);
        } else if e.kind == CapabilityRevoked && t in active && cap.value in active[t] {
          CountRemove(active[t], cap.value, c);
        }
      }
    }
  }

  type Keys = map<Option<string>, Option<Value>>

  ghost predicate TracksKeys(keys: Keys, events: seq<Event>) {
    forall a :: (if a in keys then keys[a] else None) == KeyOf(events, a)
  }

  /** `agent_caps = ...get(agent, [])`; empty means unrestricted. */
  predicate HasCapability(active: Caps, e: Event) {
    Needed(e).Some? && e.agentId.Some? ==>
      var caps := CapsOf(active, Str(e.agentId.value));
      caps == [] || Needed(e).value in caps
  }

  lemma {:induction false} HasCapabilityMeaning(active: Caps, events: seq<Event>, e: Event)
    requires Tracks(active, events)
    ensures HasCapability(active, e) <==> CapabilityAccepted(events, e)
  {
    if Needed(e).Some? && e.agentId.Some? {
      var target := Str(e.agentId.value);
      var caps := CapsOf(active, target);
      CountMember(caps, Needed(e).value);
      if caps != [] {
        CountMember(caps, caps[0]);
        assert Held(events, target, caps[0]) > 0;
      } else {
        forall cap ensures Held(events, target, cap) == 0 {
          assert CountOf(caps, cap) == Held(events, target, cap);
        }
      }
      assert CountOf(caps, Needed(e).value) == Held(events, target, Needed(e).value);
    }
  }

  /** The replay loop computes Replayed. */
  method ReplayEvents(c: Crypto, flags: Flags, until: Until, events: seq<Event>) returns (valid: seq<Event>)
    ensures valid == Replayed(c, flags, until, events)
    ensures EventsAt(valid, events, ReturnedPositions(c, flags, until, events, |events|))
  {
    ReplayedMeaning(c, flags, until, events);
    hide EventsAt, Keeps, Kept, Held, KeyOf, Cut, SignatureAccepted, CapabilityAccepted, Tracks, TracksKeys,
      HasCapability, Track;
    valid := [];
    var active: Caps := map[];
    var keys: Keys := map[];
    NothingTracked(c, flags, events);
    for i := 0 to |events|
      invariant forall j :: 0 <= j < i ==> StopRule(c, until, events[j]) == Continue
      invariant valid == Keeps(c, flags, events, i)
      invariant Tracks(active, events[..i]) && TracksKeys(keys, events[..i])
    {
      var e := events[i];
      if StopRule(c, until, e) != Continue {
        CutIs(c, until, events, i);
        if StopRule(c, until, e) == StopWith {
          valid := valid + [e];
        }
        return;
      }
      assert events[..i + 1] == events[..i] + [e];
      KeysStep(keys, events[..i], e);
      TrackStep(active, events[..i], e);
      if e.kind == AgentRegistered {
        keys := keys[e.agentId := Field(e.payload, "public_key")];
      }
      active := Track(active, e);
      HasCapabilityMeaning(active, events[..i + 1], e);
      KeepsStep(c, flags, events, i, keys, active);
      if !AcceptedBlobId(e.blobId) {
        continue;
      }
      var own := Given(e.payload, "public_key");
      var key := if own.Some? then own else if e.agentId in keys then keys[e.agentId] else None;
      if flags.verifyCrypto && !SignatureAccepted(c, e, key) {
        continue;
      }
      if flags.verifyCapabilities && !HasCapability(active, e) {
        continue;
      }
      valid := valid + [e];
    }
    CutIs(c, until, events, |events|);
  }

  lemma {:induction false} NothingTracked(c: Crypto, flags: Flags, events: seq<Event>)
    ensures Tracks(map[], events[..0]) && TracksKeys(map[], events[..0]) && Keeps(c, flags, events, 0) == []
  {
  }

  lemma {:induction false} KeysStep(keys: Keys, events: seq<Event>, e: Event)
    requires TracksKeys(keys, events)
    ensures TracksKeys(if e.kind == AgentRegistered then keys[e.agentId := Field(e.payload, "public_key")] else keys,
                       events + [e])
  {
    assert (events + [e])[..|events|] == events;
    hide Field;
    forall a ensures KeyOf(events + [e], a) ==
      if e.kind == AgentRegistered && e.agentId == a then Field(e.payload, "public_key") else KeyOf(events, a)
    {
    }
  }

  /** The loop's three tests decide Kept. */
  lemma {:induction false} KeepsStep(c: Crypto, flags: Flags, events: seq<Event>, i: nat, keys: Keys, active: Caps)
    requires i < |events| && TracksKeys(keys, events[..i + 1])
    requires HasCapability(active, events[i]) <==> CapabilityAccepted(events[..i + 1], events[i])
    ensures var e := events[i];
      var own := Given(e.payload, "public_key");
      var key := if own.Some? then own else if e.agentId in keys then keys[e.agentId] else None;
      var keep := AcceptedBlobId(e.blobId) && (flags.verifyCrypto ==> SignatureAccepted(c, e, key))
                  && (flags.verifyCapabilities ==> HasCapability(active, e));
      Keeps(c, flags, events, i + 1) == if keep then Keeps(c, flags, events, i) + [e] else Keeps(c, flags, events, i)
  {
    hide SignatureAccepted, CapabilityAccepted, HasCapability, AcceptedBlobId, KeyOf, Given;
    var e := events[i];
    assert VerifyingKey(events[..i + 1], e) ==
      (if Given(e.payload, "public_key").Some? then Given(e.payload, "public_key")
       else if e.agentId in keys then keys[e.agentId] else None);
  }

  lemma {:induction false} CutIs(c: Crypto, until: Until, events: seq<Event>, n: nat)
    requires n <= |events| && forall j :: 0 <= j < n ==> StopRule(c, until, events[j]) == Continue
    requires n < |events| ==> StopRule(c, until, events[n]) != Continue
    ensures Cut(c, until, events) == n
  {
  }
}
