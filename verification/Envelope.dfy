/** The byte envelope of an encrypted blob, and the primitives it rests on
    (walrusos/adapters/walrus.py, walrusos/adapters/key_store.py). */
module Envelope {
  import opened Prelude

  newtype Byte = x: int | 0 <= x < 256
  type Bytes = seq<Byte>

  /** AES-GCM, zstd, PBKDF2, JSON and the network's content addressing, as
      uninterpreted functions. */
  datatype Primitives = Primitives(
    encrypt: (Bytes, Bytes, Bytes) -> Bytes,
    decrypt: (Bytes, Bytes, Bytes) -> Option<Bytes>,
    compress: Bytes -> Bytes,
    decompress: Bytes -> Option<Bytes>,
    deriveKek: (Bytes, Bytes) -> Bytes,
    dumpManifest: (seq<string>, string) -> Bytes,
    loadManifest: Bytes -> Option<seq<string>>,
    blobId: Bytes -> string)

  /** Decryption, decompression and parsing undo their counterparts, the AEAD
      tag is 16 bytes, and blob ids are collision-free plain ids. */
  ghost predicate Lawful(c: Primitives) {
    && (forall k, n, p :: c.decrypt(k, n, c.encrypt(k, n, p)) == Some(p))
    && (forall k, n, p :: |c.encrypt(k, n, p)| == |p| + 16)
    && (forall k, n, x :: c.decrypt(k, n, x).Some? ==> |x| == |c.decrypt(k, n, x).value| + 16)
    && (forall p :: c.decompress(c.compress(p)) == Some(p))
    && (forall ids, mime :: c.loadManifest(c.dumpManifest(ids, mime)) == Some(ids))
    && (forall a, b :: c.blobId(a) == c.blobId(b) ==> a == b)
    && (forall a :: !IsManifestId(c.blobId(a)))
  }

  const MANIFEST_PREFIX: string := "manifest:"

  predicate IsManifestId(id: string) {
    MANIFEST_PREFIX <= id
  }

  const MAGIC: Bytes := [0x57, 0x4B, 0x45, 0x59]
  const VERSION: Bytes := [1]
  const HEADER_SIZE: nat := 33

  /** Python's data[lo:hi], which clips at the end. */
  function Slice(data: Bytes, lo: nat, hi: nat): Bytes
    requires lo <= hi
  {
    if |data| <= lo then [] else if |data| <= hi then data[lo..] else data[lo..hi]
  }

  predicate HasMagic(data: Bytes) {
    |data| >= 5 && data[..4] == MAGIC && data[4..5] == VERSION
  }

  datatype Parsed = V1(kid: Bytes, nonce: Bytes, ct: Bytes) | V0(nonce: Bytes, ct: Bytes) | Malformed

  function MakeV1(kid: Bytes, nonce: Bytes, ct: Bytes): Bytes {
    MAGIC + VERSION + kid + nonce + ct
  }

  /** `KeyStore.parse_v1_header`.  A key id shorter than a UUID is refused. */
  function ParseHeader(data: Bytes): Parsed {
    if HasMagic(data) then
      if |Slice(data, 5, 21)| < 16 then Malformed
      else V1(Slice(data, 5, 21), Slice(data, 21, 33), Slice(data, 33, |data| + 33))
    else V0(Slice(data, 0, 12), Slice(data, 12, |data| + 12))
  }

  /** The slicing at the head of `WalrusAdapter._decrypt`. */
  function Split(payload: Bytes): Parsed {
    if |payload| < 13 then Malformed
    else if |payload| >= HEADER_SIZE && HasMagic(payload) then V1(payload[5..21], payload[21..33], payload[33..])
    else V0(payload[..12], payload[12..])
  }

  lemma {:induction false} MakeV1Parts(kid: Bytes, nonce: Bytes, ct: Bytes)
    requires |kid| == 16 && |nonce| == 12
    ensures var b := MakeV1(kid, nonce, ct);
      |b| == 33 + |ct| && HasMagic(b) && b[5..21] == kid && b[21..33] == nonce && b[33..] == ct
  {
    var b := MakeV1(kid, nonce, ct);
    assert b[..4] == MAGIC;
    assert b[4..5] == VERSION;
  }

  /** The V1 header is a two-way round trip. */
  lemma {:induction false} HeaderRoundTrip(kid: Bytes, nonce: Bytes, ct: Bytes, data: Bytes)
    requires |kid| == 16 && |nonce| == 12
    ensures ParseHeader(MakeV1(kid, nonce, ct)) == Split(MakeV1(kid, nonce, ct)) == V1(kid, nonce, ct)
    ensures |data| >= HEADER_SIZE && ParseHeader(data).V1? ==>
      MakeV1(ParseHeader(data).kid, ParseHeader(data).nonce, ParseHeader(data).ct) == data
  {
    MakeV1Parts(kid, nonce, ct);
    if |data| >= HEADER_SIZE && HasMagic(data) {
      assert data == data[..4] + data[4..5] + data[5..21] + data[21..33] + data[33..];
    }
  }

  /** The key store's parser and the adapter's own slicing read a blob alike
      exactly when it is long enough for the header, or has no magic and is
      long enough for a nonce, or is refused by both. */
  lemma {:induction false} ParsersAgree(data: Bytes)
    ensures ParseHeader(data) == Split(data) <==>
      |data| >= HEADER_SIZE || (HasMagic(data) <==> |data| < 13)
  {
  }

  /** `_encrypt` and `_decrypt` without a key store: nonce and ciphertext only. */
  function SealV0(c: Primitives, key: Bytes, nonce: Bytes, plaintext: Bytes): Bytes {
    nonce + c.encrypt(key, nonce, plaintext)
  }

  function OpenV0(c: Primitives, key: Bytes, payload: Bytes): Option<Bytes> {
    match Split(payload)
    case Malformed => None
    case V1(_, nonce, ct) => c.decrypt(key, nonce, ct)
    case V0(nonce, ct) => c.decrypt(key, nonce, ct)
  }

  /** A headerless blob opens again exactly unless its random nonce happens to
      begin with the V1 magic and the plaintext has at least 5 bytes. */
  lemma {:induction false} V0RoundTrip(c: Primitives, key: Bytes, nonce: Bytes, plaintext: Bytes)
    requires Lawful(c) && |nonce| == 12
    ensures OpenV0(c, key, SealV0(c, key, nonce, plaintext)) == Some(plaintext) <==>
      !(HasMagic(nonce) && |plaintext| >= 5)
  {
    var ct := c.encrypt(key, nonce, plaintext);
    var blob := SealV0(c, key, nonce, plaintext);
    assert |blob| == 28 + |plaintext|;
    assert blob[..12] == nonce && blob[12..] == ct;
    assert blob[..4] == nonce[..4] && blob[4..5] == nonce[4..5];
    if HasMagic(nonce) && |plaintext| >= 5 {
      assert Split(blob) == V1(blob[5..21], blob[21..33], blob[33..]);
      assert |blob[33..]| == |plaintext| - 5;
    }
  }
}
