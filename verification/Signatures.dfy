/** Appending, recovering and replaying signed events check different hashes:
    the append hashes the stored text (walrusos/engine/event_store.py:56-58),
    replay and recovery the canonical text (walrusos/core/crypto.py:14-35,
    walrusos/engine/replay.py:131-151, walrusos/engine/recovery.py:101-126). */
module Signatures {
  import opened Prelude
  import opened Protocol
  import opened EventLog
  import opened Replay
  import R = Recovery
  import VectorIndex

  predicate Signed(e: Event) {
    e.signature != "" && e.signature != "v0_migration"
  }

  /** The canonical hash is the SHA-256 of a canonical text, if there is one. */
  ghost predicate HashesCanonicalText(c: Codec, crypto: Crypto, canonical: Payload -> string) {
    forall p :: crypto.canonicalHash(p).Some? ==> crypto.canonicalHash(p).value == c.sha(canonical(p))
  }

  /** The stored text has a space after every colon and comma, the canonical
      one has none: they agree on the empty object only. */
  ghost predicate TextsDiffer(c: Codec, canonical: Payload -> string) {
    forall p :: c.dumps(p) == canonical(p) <==> p == []
  }

  /** What the replay of a log keeps of a signed memory event: its stored text
      must be the canonical one, and any key at hand must verify it. */
  lemma {:induction false} SignedMemoryAccepted(c: Codec, crypto: Crypto, canonical: Payload -> string,
                                                rows: seq<Event>, i: nat, key: Option<Value>)
    requires Lawful(c) && Hashed(c, rows) && HashesCanonicalText(c, crypto, canonical)
    requires i < |rows| && rows[i].kind == MemoryAppended && Signed(rows[i])
    ensures var p := rows[i].payload;
      SignatureAccepted(crypto, rows[i], key) <==>
        && crypto.canonicalHash(p).Some? && c.dumps(p) == canonical(p)
        && (key.Some? && Truthy(key.value) ==> crypto.verify(key.value, c.sha(canonical(p)), rows[i].signature))
  {
    var e := rows[i];
    assert Hex(c.sha(c.dumps(e.payload)));
  }

  /** Over every run of appends, whatever the clock and the network, replay
      with verification keeps no signed memory event but those with an empty
      payload. */
  lemma {:induction false} SignedMemoryIsDropped(c: Codec, env: VectorIndex.Env, crypto: Crypto,
                                                 canonical: Payload -> string,
                                                 steps: seq<Step>, flags: Flags, i: nat)
    requires Lawful(c) && HashesCanonicalText(c, crypto, canonical) && TextsDiffer(c, canonical)
    requires flags.verifyCrypto && i < |Run(c, env, steps).rows|
    ensures var rows := Run(c, env, steps).rows;
      rows[i].kind == MemoryAppended && Signed(rows[i]) && rows[i].payload != [] ==> !Kept(crypto, flags, rows, i)
  {
    hide Run, SignatureAccepted, Hashed, FromCalls, Lawful, HashesCanonicalText, CapabilityAccepted, VerifyingKey,
      IndexOf;
    var rows := Run(c, env, steps).rows;
    RunSound(c, env, steps);
    if rows[i].kind == MemoryAppended && Signed(rows[i]) {
      SignedMemoryAccepted(c, crypto, canonical, rows, i, VerifyingKey(rows[..i + 1], rows[i]));
    }
  }

  /** A signed event that recovery verified with its own key passes replay's
      signature test exactly when its content hash does, which recovery does
      not look at. */
  lemma {:induction false} RecoveredThenReplayed(crypto: Crypto, prefix: seq<Event>, e: Event)
    requires Signed(e) && !R.Lost(e.payload) && Given(e.payload, "public_key").Some?
    requires R.Verified(crypto, e.signature, e.payload)
    ensures SignatureAccepted(crypto, e, VerifyingKey(prefix, e)) <==>
      (e.kind == MemoryAppended && e.blobHash.Some? && e.blobHash.value != "" ==>
        crypto.canonicalHash(e.payload) == e.blobHash)
  {
    GivenIsTruthy(e.payload, "public_key");
    hide Given, R.Lost;
  }

  lemma {:induction false} GivenIsTruthy(p: Payload, key: string)
    ensures Given(p, key).Some? ==> Truthy(Given(p, key).value)
  {
  }
}
