/** `WalrusAdapter` in key-store mode (walrusos/adapters/walrus.py): compress,
    encrypt, split and upload; download, decrypt and join. */
module BlobStore {
  import opened Prelude
  import opened Envelope
  import KS = KeyStore

  const CHUNK_SIZE: nat := 4 * 1024 * 1024

  /** `[payload[i: i + CHUNK_SIZE] for i in range(0, len(payload), CHUNK_SIZE)]` */
  function Chunks(payload: Bytes): (r: seq<Bytes>)
    ensures forall i :: 0 <= i < |r| ==> 0 < |r[i]| <= CHUNK_SIZE && (i < |r| - 1 ==> |r[i]| == CHUNK_SIZE)
  {
    if payload == [] then []
    else if |payload| <= CHUNK_SIZE then [payload]
    else [payload[..CHUNK_SIZE]] + Chunks(payload[CHUNK_SIZE..])
  }

  lemma {:induction false} JoinChunks(payload: Bytes)
    ensures Flatten(Chunks(payload)) == payload
  {
    if |payload| > CHUNK_SIZE {
      JoinChunks(payload[CHUNK_SIZE..]);
      assert Chunks(payload)[1..] == Chunks(payload[CHUNK_SIZE..]);
      assert payload[..CHUNK_SIZE] + payload[CHUNK_SIZE..] == payload;
    } else if payload != [] {
      assert Chunks(payload)[1..] == [];
      assert payload + [] == payload;
    }
  }

  // --------------------------------------------------- what a download returns

  /** Everything a download depends on: the network's blobs, the persisted
      chunk lists, the data keys the store can produce, and the current key. */
  datatype World = World(
    blobs: map<string, Bytes>,
    manifests: map<string, seq<string>>,
    deks: map<Bytes, Bytes>,
    current: Bytes)

  /** `_decrypt`, then `_decompress`. */
  function Open(c: Primitives, w: World, payload: Bytes): Result<Bytes> {
    match Split(payload)
    case Malformed => Raised(ValueError)
    case V1(kid, nonce, ct) =>
      if kid !in w.deks then Raised(KeyError) else Unseal(c, w.deks[kid], nonce, ct)
    case V0(nonce, ct) => Unseal(c, w.current, nonce, ct)
  }

  function Unseal(c: Primitives, dek: Bytes, nonce: Bytes, ct: Bytes): Result<Bytes> {
    var plain := c.decrypt(dek, nonce, ct);
    if plain.None? then Raised(DecryptionError)
    else
      var data := c.decompress(plain.value);
      if data.None? then Raised(DecodeError) else Ok(data.value)
  }

  function Fetch(c: Primitives, w: World, id: string): Result<Bytes> {
    if id !in w.blobs then Raised(KeyError) else Open(c, w, w.blobs[id])
  }

  function RawId(id: string): string
    requires IsManifestId(id)
  {
    id[|MANIFEST_PREFIX|..]
  }

  /** The chunk list of the manifest blob itself. */
  function Downloaded(c: Primitives, w: World, raw: string): Result<seq<string>> {
    match Fetch(c, w, raw)
    case Raised(e) => Raised(e)
    case Ok(data) =>
      var ids := c.loadManifest(data);
      if ids.None? then Raised(DecodeError) else Ok(ids.value)
  }

  /** `retrieve_blob` with the interpreter's remaining recursion depth.  It also
      returns the chunk-list table, into which a downloaded manifest is saved. */
  function Retrieve(c: Primitives, w: World, id: string, depth: nat): (Result<Bytes>, map<string, seq<string>>)
    decreases depth, 0
  {
    if depth == 0 then (Raised(RecursionError), w.manifests)
    else if !IsManifestId(id) then (Fetch(c, w, id), w.manifests)
    else if id in w.manifests then RetrieveAll(c, w, w.manifests[id], depth - 1)
    else
      match Downloaded(c, w, RawId(id))
      case Raised(e) => (Raised(e), w.manifests)
      case Ok(ids) => RetrieveAll(c, w.(manifests := w.manifests[id := ids]), ids, depth - 1)
  }

  /** `b"".join([await self.retrieve_blob(cid) for cid in ids])` */
  function RetrieveAll(c: Primitives, w: World, ids: seq<string>, depth: nat): (Result<Bytes>, map<string, seq<string>>)
    decreases depth, 1, ids
  {
    if ids == [] then (Ok([]), w.manifests)
    else
      var (first, manifests) := Retrieve(c, w, ids[0], depth);
      match first
      case Raised(e) => (Raised(e), manifests)
      case Ok(part) =>
        var (rest, manifests') := RetrieveAll(c, w.(manifests := manifests), ids[1..], depth);
        match rest
        case Raised(e) => (Raised(e), manifests')
        case Ok(tail) => (Ok(part + tail), manifests')
  }

  // ------------------------------------------------------------ stored content

  /** The blob under id carries a V1 header naming an issued key, and holds p. */
  ghost predicate Sealed(c: Primitives, w: World, id: string, p: Bytes) {
    && !IsManifestId(id)
    && id in w.blobs
    && Split(w.blobs[id]).V1?
    && Open(c, w, w.blobs[id]) == Ok(p)
  }

  ghost predicate SealedAll(c: Primitives, w: World, ids: seq<string>, parts: seq<Bytes>) {
    && |ids| == |parts|
    && forall i :: 0 <= i < |ids| ==> Sealed(c, w, ids[i], parts[i])
  }

  /** What the world holds under an id that `store_blob` returned for p. */
  ghost predicate Stored(c: Primitives, w: World, id: string, p: Bytes) {
    if IsManifestId(id) then
      exists ids, parts, data :: StoredInChunks(c, w, id, p, ids, parts, data)
    else Sealed(c, w, id, p)
  }

  lemma {:induction false} SealedIsStored(c: Primitives, w: World, id: string, p: Bytes)
    requires Sealed(c, w, id, p)
    ensures Stored(c, w, id, p) && !IsManifestId(id)
  {
  }

  ghost predicate StoredInChunks(c: Primitives, w: World, id: string, p: Bytes, ids: seq<string>, parts: seq<Bytes>,
                                 data: Bytes)
    requires IsManifestId(id)
  {
    && SealedAll(c, w, ids, parts) && Flatten(parts) == p
    && Sealed(c, w, RawId(id), data) && c.loadManifest(data) == Some(ids)
  }

  /** Blobs are content-addressed, and a saved chunk list for a manifest that
      carries a V1 header is the list inside that manifest. */
  ghost predicate Consistent(c: Primitives, w: World) {
    && (forall id :: id in w.blobs ==> c.blobId(w.blobs[id]) == id)
    && (forall id :: id in w.manifests ==> ConsistentRow(c, w, id, w.manifests[id]))
  }

  ghost predicate ConsistentRow(c: Primitives, w: World, id: string, ids: seq<string>) {
    && IsManifestId(id)
    && RawId(id) in w.blobs
    && (Split(w.blobs[RawId(id)]).V1? ==> Downloaded(c, w, RawId(id)) == Ok(ids))
  }

  /** w' is a later world: blobs are never changed, keys never forgotten.  The
      current key and the chunk-list table may have changed in any way. */
  ghost predicate Later(w: World, w': World) {
    && (forall id :: id in w.blobs ==> id in w'.blobs && w'.blobs[id] == w.blobs[id])
    && (forall k :: k in w.deks ==> k in w'.deks && w'.deks[k] == w.deks[k])
  }

  lemma {:induction false} LaterTransitive(w: World, w1: World, w2: World)
    requires Later(w, w1) && Later(w1, w2)
    ensures Later(w, w2)
  {
  }

  lemma {:induction false} SealedLater(c: Primitives, w: World, w': World, id: string, p: Bytes)
    requires Later(w, w') && Sealed(c, w, id, p)
    ensures Sealed(c, w', id, p)
  {
  }

  /** Content once stored stays stored. */
  lemma {:induction false} StoredLater(c: Primitives, w: World, w': World, id: string, p: Bytes)
    requires Later(w, w') && Stored(c, w, id, p)
    ensures Stored(c, w', id, p)
  {
    hide Sealed, Later;
    if IsManifestId(id) {
      var ids, parts, data :| StoredInChunks(c, w, id, p, ids, parts, data);
      forall i | 0 <= i < |ids| ensures Sealed(c, w', ids[i], parts[i]) {
        SealedLater(c, w, w', ids[i], parts[i]);
      }
      SealedLater(c, w, w', RawId(id), data);
      assert StoredInChunks(c, w', id, p, ids, parts, data);
    } else {
      SealedLater(c, w, w', id, p);
    }
  }

  lemma {:induction false} RetrieveSealedAll(c: Primitives, w: World, ids: seq<string>, parts: seq<Bytes>, depth: nat)
    requires SealedAll(c, w, ids, parts) && depth >= 1
    ensures RetrieveAll(c, w, ids, depth) == (Ok(Flatten(parts)), w.manifests)
  {
    if ids != [] {
      assert Sealed(c, w, ids[0], parts[0]);
      assert Retrieve(c, w, ids[0], depth) == (Ok(parts[0]), w.manifests);
      assert SealedAll(c, w, ids[1..], parts[1..]) by {
        forall i | 0 <= i < |ids[1..]| ensures Sealed(c, w, ids[1..][i], parts[1..][i]) {
          assert Sealed(c, w, ids[i + 1], parts[i + 1]);
        }
      }
      RetrieveSealedAll(c, w, ids[1..], parts[1..], depth);
      assert w.(manifests := w.manifests) == w;
    }
  }

  /** Stored content is what a download returns, whichever way the chunk list
      is found: in the table or in the manifest blob. */
  lemma {:induction false} RetrieveStored(c: Primitives, w: World, id: string, p: Bytes, depth: nat)
    requires Consistent(c, w) && Stored(c, w, id, p) && depth >= 2
    ensures Retrieve(c, w, id, depth).0 == Ok(p)
  {
    if IsManifestId(id) {
      var ids, parts, data :| StoredInChunks(c, w, id, p, ids, parts, data);
      assert Downloaded(c, w, RawId(id)) == Ok(ids);
      if id in w.manifests {
        assert ConsistentRow(c, w, id, w.manifests[id]);
        RetrieveSealedAll(c, w, ids, parts, depth - 1);
      } else {
        var w' := w.(manifests := w.manifests[id := ids]);
        assert SealedAll(c, w', ids, parts) by {
          forall i | 0 <= i < |ids| ensures Sealed(c, w', ids[i], parts[i]) {
            SealedLater(c, w, w', ids[i], parts[i]);
          }
        }
        RetrieveSealedAll(c, w', ids, parts, depth - 1);
      }
    }
  }

  /** Losing the whole chunk-list table does not change what is read. */
  lemma {:induction false} ManifestPathsAgree(c: Primitives, w: World, id: string, p: Bytes, depth: nat)
    requires Consistent(c, w) && Stored(c, w, id, p) && depth >= 2
    ensures Retrieve(c, w.(manifests := map[]), id, depth).0 == Retrieve(c, w, id, depth).0 == Ok(p)
  {
    RetrieveStored(c, w, id, p, depth);
    StoredLater(c, w, w.(manifests := map[]), id, p);
    RetrieveStored(c, w.(manifests := map[]), id, p, depth);
  }

  /** Any number of later steps, each one taking a world to a later one. */
  ghost predicate Run(c: Primitives, ws: seq<World>) {
    && (forall i :: 0 <= i < |ws| ==> Consistent(c, ws[i]))
    && (forall i :: 0 < i < |ws| ==> Later(ws[i - 1], ws[i]))
  }

  /** Read-after-write over every run of stores, downloads, rotations and
      restarts. */
  lemma {:induction false} StoredForever(c: Primitives, ws: seq<World>, id: string, p: Bytes, depth: nat)
    requires Run(c, ws) && ws != [] && Stored(c, ws[0], id, p) && depth >= 2
    ensures Stored(c, ws[|ws| - 1], id, p)
    ensures Retrieve(c, ws[|ws| - 1], id, depth).0 == Ok(p)
  {
    if |ws| > 1 {
      var before := ws[..|ws| - 1];
      assert Run(c, before) by {
        assert forall i :: 0 <= i < |before| ==> before[i] == ws[i];
      }
      StoredForever(c, before, id, p, depth);
      StoredLater(c, ws[|ws| - 2], ws[|ws| - 1], id, p);
    }
    RetrieveStored(c, ws[|ws| - 1], id, p, depth);
  }

  // -------------------------------------------------------------- the adapter

  /** What `_encrypt(_compress(data))` produces under an issued key. */
  function Seal(c: Primitives, kid: Bytes, dek: Bytes, nonce: Bytes, data: Bytes): Bytes {
    MakeV1(kid, nonce, c.encrypt(dek, nonce, c.compress(data)))
  }

  /** The blob is data, compressed and encrypted under dek with a 12-byte nonce,
      behind a header that names kid. */
  ghost predicate EncryptedUnder(c: Primitives, blob: Bytes, kid: Bytes, dek: Bytes, data: Bytes) {
    exists nonce: Bytes ::
      |nonce| == 12 && blob == MAGIC + VERSION + kid + nonce + c.encrypt(dek, nonce, c.compress(data))
  }

  predicate NamesKey(blob: Bytes, kid: Bytes) {
    |blob| >= 33 && blob[..4] == MAGIC && blob[4..5] == VERSION && blob[5..21] == kid
  }

  /** Every blob that is new names the key. */
  ghost predicate NewUnder(before: map<string, Bytes>, after: map<string, Bytes>, kid: Bytes) {
    forall id :: id in after && id !in before ==> NamesKey(after[id], kid)
  }

  lemma {:induction false} SealEncrypts(c: Primitives, kid: Bytes, dek: Bytes, nonce: Bytes, data: Bytes)
    requires |kid| == 16 && |nonce| == 12
    ensures EncryptedUnder(c, Seal(c, kid, dek, nonce, data), kid, dek, data)
    ensures NamesKey(Seal(c, kid, dek, nonce, data), kid)
  {
    var ct := c.encrypt(dek, nonce, c.compress(data));
    var blob := Seal(c, kid, dek, nonce, data);
    assert blob == MAGIC + VERSION + kid + nonce + ct;
    assert blob[5..21] == kid;
  }

  function Put(c: Primitives, w: World, blob: Bytes): World {
    w.(blobs := w.blobs[c.blobId(blob) := blob])
  }

  lemma {:induction false} PutConsistent(c: Primitives, w: World, blob: Bytes)
    requires Lawful(c) && Consistent(c, w)
    ensures Consistent(c, Put(c, w, blob)) && Later(w, Put(c, w, blob))
  {
    var w' := Put(c, w, blob);
    assert Later(w, w');
    forall id | id in w'.manifests ensures ConsistentRow(c, w', id, w'.manifests[id]) {
      assert ConsistentRow(c, w, id, w.manifests[id]);
    }
  }

  lemma {:induction false} PutSealed(c: Primitives, w: World, kid: Bytes, nonce: Bytes, data: Bytes)
    requires Lawful(c) && |kid| == 16 && |nonce| == 12 && kid in w.deks
    ensures var blob := Seal(c, kid, w.deks[kid], nonce, data);
      Sealed(c, Put(c, w, blob), c.blobId(blob), data)
  {
    MakeV1Parts(kid, nonce, c.encrypt(w.deks[kid], nonce, c.compress(data)));
  }

  /** A manifest that carries a V1 header reads the same under any current key. */
  lemma {:induction false} CurrentKeyIrrelevant(c: Primitives, w: World, w': World)
    requires Consistent(c, w) && Later(w, w') && w'.blobs == w.blobs && w'.manifests == w.manifests
    ensures Consistent(c, w')
  {
    forall id | id in w'.manifests ensures ConsistentRow(c, w', id, w'.manifests[id]) {
      assert ConsistentRow(c, w, id, w.manifests[id]);
    }
  }

  lemma {:induction false} SameBlobs(w: World, w': World)
    requires w'.blobs == w.blobs && forall k :: k in w.deks ==> k in w'.deks && w'.deks[k] == w.deks[k]
    ensures Later(w, w')
  {
  }

  /** The aggregator and publisher: an immutable, content-addressed map. */
  class Network {
    var blobs: map<string, Bytes>

    constructor ()
      ensures blobs == map[]
    {
      blobs := map[];
    }

    method HttpPut(c: Primitives, data: Bytes) returns (id: string)
      modifies this
      ensures id == c.blobId(data) && blobs == old(blobs)[id := data]
    {
      id := c.blobId(data);
      blobs := blobs[id := data];
    }
  }

  datatype Metadata = Metadata(mimeType: string, size: nat, keyId: Bytes)

  class Adapter {
    const c: Primitives
    const net: Network
    const db: KS.Database
    const keyStore: KS.Store
    var activeKid: Bytes
    var aead: Bytes
    var metadata: map<string, Metadata>

    ghost function Now(): World
      reads this, net, db
    {
      World(net.blobs, db.manifests, db.issued, aead)
    }

    ghost predicate Valid()
      reads this, net, db, keyStore, keyStore.db
    {
      && keyStore.Valid() && keyStore.c == c && keyStore.db == db
      && |activeKid| == 16 && activeKid in db.issued && aead == db.issued[activeKid]
      && Consistent(c, Now())
    }

    /** Start, or restart, over an existing network and database. */
    constructor (c: Primitives, net: Network, db: KS.Database, password: Bytes, draw: KS.Draw)
      requires Lawful(c) && KS.SoundTable(c, password, db.keys, db.issued) && KS.FreshDraw(draw, db.keys)
      requires Consistent(c, World(net.blobs, db.manifests, db.issued, []))
      modifies db
      ensures Valid() && this.c == c && this.net == net && this.db == db && keyStore.password == password
      ensures fresh(keyStore)
      ensures Later(World(net.blobs, old(db.manifests), old(db.issued), []), Now())
      ensures db.manifests == old(db.manifests)
    {
      hide KS.Unwrap, KS.IsWrapped, Lawful, Later;
      var store := new KS.Store(c, db, password, draw);
      var active := store.ActiveKey();
      this.c, this.net, this.db, keyStore, metadata := c, net, db, store, map[];
      activeKid, aead := active.value.0, active.value.1;
      new;
      assert KS.SoundRow(c, password, db.issued, db.keys[|db.keys| - 1], |db.keys| - 1, |db.keys|);
      SameBlobs(World(net.blobs, old(db.manifests), old(db.issued), []), Now());
      CurrentKeyIrrelevant(c, World(net.blobs, old(db.manifests), old(db.issued), []), Now());
    }

    /** Compress, encrypt under the active key and upload one piece. */
    method Upload(data: Bytes) returns (id: string)
      requires Valid()
      modifies net
      ensures Valid() && Later(old(Now()), Now())
      ensures Sealed(c, Now(), id, data)
      ensures id in net.blobs && EncryptedUnder(c, net.blobs[id], activeKid, db.issued[activeKid], data)
      ensures NewUnder(old(net.blobs), net.blobs, activeKid)
    {
      hide Sealed, Later, Consistent, KS.SoundTable, Seal;
      assert |seq(12, _ => 0 as Byte)| == 12;
      var nonce: Bytes :| |nonce| == 12;
      var blob := Seal(c, activeKid, aead, nonce, data);
      PutConsistent(c, Now(), blob);
      PutSealed(c, Now(), activeKid, nonce, data);
      SealEncrypts(c, activeKid, aead, nonce, data);
      id := net.HttpPut(c, blob);
    }

    method SaveManifest(id: string, ids: seq<string>)
      modifies db`manifests
      ensures db.manifests == if id in old(db.manifests) then old(db.manifests) else old(db.manifests)[id := ids]
      ensures id in db.manifests && db.manifests - {id} == old(db.manifests) - {id}
    {
      if id !in db.manifests {
        db.manifests := db.manifests[id := ids];
      }
    }

    method ChunkedUpload(payload: Bytes, mimeType: string) returns (id: string)
      requires Valid()
      modifies net, db`manifests
      ensures Valid() && Later(old(Now()), Now())
      ensures IsManifestId(id) && Stored(c, Now(), id, payload)
      ensures id in db.manifests && db.manifests - {id} == old(db.manifests) - {id}
      ensures NewUnder(old(net.blobs), net.blobs, activeKid)
    {
      hide NewUnder, EncryptedUnder, Sealed, SealedAll, Later, Consistent, KS.SoundTable, Chunks;
      var chunks := Chunks(payload);
      var ids: seq<string> := [];
      LaterItself(Now());
      NothingNew(c, Now(), activeKid);
      assert chunks[..0] == [];
      for i := 0 to |chunks|
        invariant Valid() && Later(old(Now()), Now()) && db.manifests == old(db.manifests)
        invariant SealedAll(c, Now(), ids, chunks[..i])
        invariant NewUnder(old(net.blobs), net.blobs, activeKid)
      {
        ghost var before := Now();
        var chunkId := Upload(chunks[i]);
        NewUnderBoth(old(Now()), before, Now(), activeKid);
        LaterTransitive(old(Now()), before, Now());
        SealedAllMore(c, before, Now(), ids, chunks[..i], chunkId, chunks[i]);
        ids := ids + [chunkId];
        assert chunks[..i + 1] == chunks[..i] + [chunks[i]];
      }
      assert chunks[..|chunks|] == chunks;
      JoinChunks(payload);
      ghost var before := Now();
      var manifest := c.dumpManifest(ids, mimeType);
      var raw := Upload(manifest);
      NewUnderBoth(old(Now()), before, Now(), activeKid);
      LaterTransitive(old(Now()), before, Now());
      SealedAllLater(c, before, Now(), ids, chunks);
      id := MANIFEST_PREFIX + raw;
      assert RawId(id) == raw;
      ghost var uploaded := Now();
      SealedManifest(c, uploaded, id, ids, manifest);
      SaveManifest(id, ids);
      SavedConsistent(c, uploaded, Now(), id, ids);
      LaterTransitive(old(Now()), uploaded, Now());
      assert StoredInChunks(c, uploaded, id, payload, ids, chunks, manifest);
      StoredLater(c, uploaded, Now(), id, payload);
    }

    /** Whatever its length, the payload is stored under the returned id, and
        whatever is new on the network names the active key. */
    method StoreBlob(payload: Bytes, mimeType: string) returns (id: string)
      requires Valid()
      modifies this`metadata, net, db`manifests
      ensures Valid() && Later(old(Now()), Now())
      ensures Stored(c, Now(), id, payload)
      ensures IsManifestId(id) <==> |payload| > CHUNK_SIZE
      ensures IsManifestId(id) ==> id in db.manifests
      ensures db.manifests - {id} == old(db.manifests) - {id}
      ensures metadata == old(metadata)[id := Metadata(mimeType, |payload|, activeKid)]
      ensures NewUnder(old(net.blobs), net.blobs, activeKid)
    {
      hide NewUnder, EncryptedUnder, Sealed, Later, Consistent, KS.SoundTable, Stored;
      if |payload| > CHUNK_SIZE {
        id := ChunkedUpload(payload, mimeType);
      } else {
        id := Upload(payload);
        SealedIsStored(c, Now(), id, payload);
      }
      metadata := metadata[id := Metadata(mimeType, |payload|, activeKid)];
    }

    /** Only the local metadata goes; the content stays readable. */
    method DeleteBlob(id: string)
      requires Valid()
      modifies this`metadata
      ensures Valid() && Now() == old(Now()) && metadata == old(metadata) - {id}
    {
      metadata := metadata - {id};
    }

    method ResolveAead(kid: Bytes) returns (r: Result<Bytes>)
      requires Valid()
      modifies keyStore
      ensures Valid()
      ensures r == if kid in db.issued then Ok(db.issued[kid]) else Raised(KeyError)
    {
      if kid == activeKid {
        return Ok(aead);
      }
      var found := keyStore.KeyById(kid);
      match found
      case Raised(e) => return Raised(e);
      case Ok(key) => return Ok(key.1);
    }

    method Decode(payload: Bytes) returns (r: Result<Bytes>)
      requires Valid()
      modifies keyStore
      ensures Valid()
      ensures r == Open(c, Now(), payload)
    {
      match Split(payload)
      case Malformed => return Raised(ValueError);
      case V1(kid, nonce, ct) =>
        var key := ResolveAead(kid);
        match key {
          case Raised(e) => return Raised(e);
          case Ok(dek) => return Unseal(c, dek, nonce, ct);
        }
      case V0(nonce, ct) => return Unseal(c, aead, nonce, ct);
    }

    /** A download computes exactly what the world determines, and may add to
        the chunk-list table.  RetrieveStored says when that is the payload. */
    method RetrieveBlob(id: string, depth: nat) returns (r: Result<Bytes>)
      requires Valid()
      modifies keyStore, db`manifests
      ensures Valid()
      ensures (r, db.manifests) == Retrieve(c, old(Now()), id, depth)
      decreases depth, 0
    {
      hide KS.SoundTable, Consistent;
      if depth == 0 {
        return Raised(RecursionError);
      }
      if IsManifestId(id) {
        r := RetrieveManifest(id, depth);
        return;
      }
      if id !in net.blobs {
        return Raised(KeyError);
      }
      r := Decode(net.blobs[id]);
    }

    method RetrieveManifest(id: string, depth: nat) returns (r: Result<Bytes>)
      requires Valid() && IsManifestId(id) && depth > 0
      modifies keyStore, db`manifests
      ensures Valid()
      ensures (r, db.manifests) == Retrieve(c, old(Now()), id, depth)
      decreases depth - 1, 2
    {
      hide KS.SoundTable, Consistent, Open, Later, IsManifestId;
      if id in db.manifests {
        r := RetrieveParts(db.manifests[id], depth - 1);
        return;
      }
      var raw := RawId(id);
      if raw !in net.blobs {
        return Raised(KeyError);
      }
      var data := Decode(net.blobs[raw]);
      if data.Raised? {
        return Raised(data.error);
      }
      var ids := c.loadManifest(data.value);
      if ids.None? {
        return Raised(DecodeError);
      }
      ghost var before := Now();
      SaveManifest(id, ids.value);
      SavedConsistent(c, before, Now(), id, ids.value);
      r := RetrieveParts(ids.value, depth - 1);
    }

    method RetrieveParts(ids: seq<string>, depth: nat) returns (r: Result<Bytes>)
      requires Valid()
      modifies keyStore, db`manifests
      ensures Valid()
      ensures (r, db.manifests) == RetrieveAll(c, old(Now()), ids, depth)
      decreases depth, 1, |ids|
    {
      hide KS.SoundTable, Consistent;
      if ids == [] {
        return Ok([]);
      }
      var first := RetrieveBlob(ids[0], depth);
      if first.Raised? {
        return first;
      }
      var rest := RetrieveParts(ids[1..], depth);
      if rest.Raised? {
        return rest;
      }
      return Ok(first.value + rest.value);
    }

    /** New blobs get a new key; everything stored so far stays stored. */
    method RotateKey(draw: KS.Draw) returns (kid: Bytes)
      requires Valid() && KS.FreshDraw(draw, db.keys)
      modifies this`activeKid, this`aead, keyStore, db`keys, db`issued
      ensures Valid() && Later(old(Now()), Now())
      ensures kid == draw.kid == activeKid && aead == draw.dek
    {
      hide KS.SoundTable, KS.Retire, Consistent, Lawful;
      var rotated := keyStore.Rotate(draw);
      var active := keyStore.ActiveKey();
      activeKid, aead := rotated.value, active.value.1;
      CurrentKeyIrrelevant(c, old(Now()), Now());
      return rotated.value;
    }
  }

  lemma {:induction false} NothingNew(c: Primitives, w: World, kid: Bytes)
    ensures NewUnder(w.blobs, w.blobs, kid) && SealedAll(c, w, [], [])
  {
  }

  lemma {:induction false} SealedAllMore(c: Primitives, w: World, w': World, ids: seq<string>, parts: seq<Bytes>,
                                         id: string, part: Bytes)
    requires Later(w, w') && SealedAll(c, w, ids, parts) && Sealed(c, w', id, part)
    ensures SealedAll(c, w', ids + [id], parts + [part])
  {
    hide Sealed, Later;
    SealedAllLater(c, w, w', ids, parts);
  }

  lemma {:induction false} NewUnderBoth(w: World, w1: World, w2: World, kid: Bytes)
    requires NewUnder(w.blobs, w1.blobs, kid) && NewUnder(w1.blobs, w2.blobs, kid) && Later(w1, w2)
    ensures NewUnder(w.blobs, w2.blobs, kid)
  {
    hide NamesKey;
  }

  lemma {:induction false} LaterItself(w: World)
    ensures Later(w, w)
  {
  }

  lemma {:induction false} SealedAllLater(c: Primitives, w: World, w': World, ids: seq<string>, parts: seq<Bytes>)
    requires Later(w, w') && SealedAll(c, w, ids, parts)
    ensures SealedAll(c, w', ids, parts)
  {
    hide Sealed, Later;
    forall i | 0 <= i < |ids| ensures Sealed(c, w', ids[i], parts[i]) {
      SealedLater(c, w, w', ids[i], parts[i]);
    }
  }

  lemma {:induction false} SealedManifest(c: Primitives, w: World, id: string, ids: seq<string>, data: Bytes)
    requires IsManifestId(id) && Sealed(c, w, RawId(id), data) && c.loadManifest(data) == Some(ids)
    ensures Downloaded(c, w, RawId(id)) == Ok(ids)
  {
  }

  /** Saving the list of a manifest that downloads as that list. */
  lemma {:induction false} SavedConsistent(c: Primitives, w: World, w': World, id: string, ids: seq<string>)
    requires Consistent(c, w) && IsManifestId(id) && Downloaded(c, w, RawId(id)) == Ok(ids)
    requires w' == w.(manifests := if id in w.manifests then w.manifests else w.manifests[id := ids])
    ensures Consistent(c, w') && Later(w, w')
  {
    forall k | k in w'.manifests ensures ConsistentRow(c, w', k, w'.manifests[k]) {
      if k in w.manifests {
        assert ConsistentRow(c, w, k, w.manifests[k]);
      }
    }
  }
}
