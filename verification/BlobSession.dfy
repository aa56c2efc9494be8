/** A client's whole session with the blob store: stores, downloads, deletions,
    key rotations and process restarts in any order. */
module BlobSession {
  import opened Prelude
  import opened Envelope
  import opened BlobStore
  import KS = KeyStore

  datatype Command =
    | StoreCmd(payload: Bytes, mimeType: string)
    | RetrieveCmd(id: string, depth: nat)
    | DeleteCmd(id: string)
    | RotateCmd(draw: KS.Draw)
    | RestartCmd(draw: KS.Draw)

  /** The commands carried out by one process after another over the same
      network and key database, from adapter a on.  Draws that are not fresh
      stand for no command. */
  method Perform(a: Adapter, cmds: seq<Command>, ghost id: string, ghost p: Bytes) returns (b: Adapter)
    requires a.Valid() && Stored(a.c, a.Now(), id, p)
    modifies a, a.net, a.db, a.keyStore
    ensures b.Valid() && b.c == a.c && Stored(b.c, b.Now(), id, p)
    ensures b.net == a.net && b.db == a.db && (b.keyStore == a.keyStore || fresh(b.keyStore))
  {
    hide KS.SoundTable, Consistent, Later, Stored, Lawful;
    b := a;
    for i := 0 to |cmds|
      invariant b.Valid() && b.c == a.c && b.net == a.net && b.db == a.db
      invariant b == a || fresh(b)
      invariant b.keyStore == a.keyStore || fresh(b.keyStore)
      invariant Stored(b.c, b.Now(), id, p)
    {
      ghost var before := b.Now();
      match cmds[i] {
        case StoreCmd(payload, mimeType) => var _ := b.StoreBlob(payload, mimeType);
        case RetrieveCmd(other, depth) =>
          var _ := b.RetrieveBlob(other, depth);
          SameBlobs(before, b.Now());
        case DeleteCmd(other) =>
          b.DeleteBlob(other);
          LaterItself(before);
        case RotateCmd(draw) =>
          if KS.FreshDraw(draw, b.db.keys) {
            var _ := b.RotateKey(draw);
          } else {
            LaterItself(before);
          }
        case RestartCmd(draw) =>
          if KS.FreshDraw(draw, b.db.keys) {
            b := Restarted(b, draw);
          } else {
            LaterItself(before);
          }
      }
      StoredLater(b.c, before, b.Now(), id, p);
    }
  }

  /** A new process with the same password. */
  method Restarted(a: Adapter, draw: KS.Draw) returns (b: Adapter)
    requires a.Valid() && KS.FreshDraw(draw, a.db.keys)
    modifies a.db
    ensures b.Valid() && b.c == a.c && b.net == a.net && b.db == a.db && fresh(b) && fresh(b.keyStore)
    ensures Later(old(a.Now()), b.Now())
  {
    hide KS.SoundTable, Consistent, Later, Lawful;
    ghost var fromDisk := World(a.net.blobs, a.db.manifests, a.db.issued, []);
    SameBlobs(a.Now(), fromDisk);
    CurrentKeyIrrelevant(a.c, a.Now(), fromDisk);
    b := new Adapter(a.c, a.net, a.db, a.keyStore.password, draw);
    LaterTransitive(old(a.Now()), fromDisk, b.Now());
  }

  /** Whatever happens in between, what was stored is what is retrieved. */
  method StoreThenRetrieve(a: Adapter, payload: Bytes, mimeType: string, cmds: seq<Command>, depth: nat)
    returns (r: Result<Bytes>)
    requires a.Valid() && depth >= 2
    modifies a, a.net, a.db, a.keyStore
    ensures r == Ok(payload)
  {
    hide KS.SoundTable, Later, Stored, Lawful, Retrieve;
    var id := a.StoreBlob(payload, mimeType);
    var b := Perform(a, cmds, id, payload);
    RetrieveStored(b.c, b.Now(), id, payload, depth);
    r := b.RetrieveBlob(id, depth);
  }
}
