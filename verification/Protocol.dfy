/** Protocol events (walrusos/core/models/events.py) and the blob-id filter that
    replay and recovery share (walrusos/engine/replay.py:12-25). */
module Protocol {
  import opened Prelude

  /** A JSON value: a string, or anything else by its text and its truth. */
  datatype Value = Str(s: string) | Other(json: string, truth: bool)

  predicate Truthy(v: Value) {
    match v case Str(s) => s != "" case Other(_, t) => t
  }

  /** A JSON object, with the order of its keys. */
  type Payload = seq<(string, Value)>

  /** `payload.get(key)` */
  function Field(p: Payload, key: string): Option<Value> {
    if p == [] then None else if p[0].0 == key then Some(p[0].1) else Field(p[1..], key)
  }

  /** `payload.get(key)`, with a falsy value read as no value. */
  function Given(p: Payload, key: string): Option<Value> {
    var v := Field(p, key);
    if v.Some? && Truthy(v.value) then v else None
  }

  datatype Kind =
    | AgentRegistered
    | CapabilityGranted
    | CapabilityRevoked
    | MemoryAppended
    | MemoryForked
    | MemoryMerged
    | OtherKind(name: string)

  datatype Event = Event(
    id: string,
    kind: Kind,
    workspaceId: string,
    agentId: Option<string>,
    wallet: string,
    blobId: Option<string>,
    blobHash: Option<string>,
    parent: Option<string>,
    previousHash: Option<string>,
    signature: string,
    timestamp: string,
    digest: Option<string>,
    payload: Payload)

  // ------------------------------------------------------------- blob-id filter

  predicate IdChar(c: char) {
    'A' <= c <= 'Z' || 'a' <= c <= 'z' || '0' <= c <= '9' || c == '_' || c == '-'
  }

  predicate PlainId(s: string) {
    1 <= |s| <= 64 && forall i :: 0 <= i < |s| ==> IdChar(s[i])
  }

  const MANIFEST: string := "manifest:"

  predicate MatchesId(s: string) {
    PlainId(s) || (MANIFEST <= s && PlainId(s[|MANIFEST|..]))
  }

  /** `re.match(r'^(?:manifest:)?[A-Za-z0-9_-]{1,64}$', s)`: the dollar sign
      also matches before one final newline. */
  predicate AcceptedBlobId(id: Option<string>) {
    id.None? || MatchesId(id.value)
    || (|id.value| > 0 && id.value[|id.value| - 1] == '\n' && MatchesId(id.value[..|id.value| - 1]))
  }

  /** The id without its optional prefix. */
  function AfterPrefix(id: string): string {
    if MANIFEST <= id then id[|MANIFEST|..] else id
  }

  /** An accepted id is 1 to 64 id characters after the optional prefix if and
      only if it does not end in a newline.  Either way it is short and has no
      character that means something in a path or a URL. */
  lemma {:induction false} AcceptedMeaning(id: string)
    requires AcceptedBlobId(Some(id))
    ensures PlainId(AfterPrefix(id)) <==> id[|id| - 1] != '\n'
    ensures 1 <= |id| <= 74
    ensures '/' !in id && '.' !in id && '\\' !in id && '?' !in id && '%' !in id
  {
    if MatchesId(id) {
      MatchedChars(id);
    } else {
      var front := id[..|id| - 1];
      assert id == front + ['\n'];
      MatchedChars(front);
      NewlineSpoils(id);
    }
  }

  lemma {:induction false} MatchedChars(s: string)
    requires MatchesId(s)
    ensures PlainId(AfterPrefix(s)) && 1 <= |s| <= 73 && s[|s| - 1] != '\n'
    ensures forall c :: c in s ==> IdChar(c) || c == ':'
  {
    if PlainId(s) {
      assert MANIFEST[8] == ':';
      assert !(MANIFEST <= s);
    } else {
      var rest := s[|MANIFEST|..];
      assert s == MANIFEST + rest;
      assert forall i :: 0 <= i < |MANIFEST| ==> IdChar(MANIFEST[i]) || MANIFEST[i] == ':';
      assert s[|s| - 1] == rest[|rest| - 1];
    }
  }

  lemma {:induction false} NewlineSpoils(id: string)
    requires |id| > 0 && id[|id| - 1] == '\n'
    ensures !PlainId(AfterPrefix(id))
  {
    var rest := AfterPrefix(id);
    if |rest| > 0 {
      assert rest[|rest| - 1] == '\n';
    }
  }

  /** Conversely everything of that shape is accepted, with or without one
      final newline, and so is no id at all. */
  lemma {:induction false} ShapeAccepted(id: string)
    ensures AcceptedBlobId(None)
    ensures PlainId(AfterPrefix(id)) ==> AcceptedBlobId(Some(id)) && AcceptedBlobId(Some(id + ['\n']))
  {
    assert (id + ['\n'])[..|id|] == id;
  }
}
