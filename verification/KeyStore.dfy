/** `KeyStore` (walrusos/adapters/key_store.py): wrapped data keys in one
    database table, a cache in front of it, rotation and restart. */
module KeyStore {
  import opened Prelude
  import opened Envelope

  /** One row of the key table. */
  datatype KeyRow = KeyRow(kid: Bytes, wrapped: Bytes, salt: Bytes, generation: nat, active: bool)

  /** What the operating system's randomness supplies for one new key. */
  datatype Draw = Draw(kid: Bytes, dek: Bytes, salt: Bytes, nonce: Bytes)

  predicate FreshDraw(d: Draw, rows: seq<KeyRow>) {
    |d.kid| == 16 && |d.nonce| == 12 && forall i :: 0 <= i < |rows| ==> rows[i].kid != d.kid
  }

  function Wrap(c: Primitives, password: Bytes, d: Draw): Bytes {
    d.nonce + c.encrypt(c.deriveKek(password, d.salt), d.nonce, d.dek)
  }

  /** `_unwrap_key`: the first 12 bytes are the nonce. */
  function Unwrap(c: Primitives, password: Bytes, wrapped: Bytes, salt: Bytes): Option<Bytes> {
    c.decrypt(c.deriveKek(password, salt), Slice(wrapped, 0, 12), Slice(wrapped, 12, |wrapped| + 12))
  }

  /** The bytes are a nonce and the data key encrypted under the key derived
      from password and salt. */
  ghost predicate IsWrapped(c: Primitives, wrapped: Bytes, password: Bytes, salt: Bytes, dek: Bytes) {
    exists nonce: Bytes :: |nonce| == 12 && wrapped == nonce + c.encrypt(c.deriveKek(password, salt), nonce, dek)
  }

  lemma {:induction false} UnwrapWrap(c: Primitives, password: Bytes, d: Draw)
    requires Lawful(c) && |d.nonce| == 12
    ensures Unwrap(c, password, Wrap(c, password, d), d.salt) == Some(d.dek)
    ensures IsWrapped(c, Wrap(c, password, d), password, d.salt, d.dek)
  {
    var w := Wrap(c, password, d);
    assert Slice(w, 0, 12) == d.nonce;
    assert Slice(w, 12, |w| + 12) == c.encrypt(c.deriveKek(password, d.salt), d.nonce, d.dek);
  }

  /** `select(...).where(is_active == 1).first()` */
  function FirstActive(rows: seq<KeyRow>): (r: Option<KeyRow>)
    ensures r.Some? ==> r.value in rows && r.value.active
    ensures r.None? <==> forall i :: 0 <= i < |rows| ==> !rows[i].active
  {
    if rows == [] then None
    else if rows[0].active then Some(rows[0])
    else FirstActive(rows[1..])
  }

  /** `session.get(KeyRecord, key_id)` */
  function FindKey(rows: seq<KeyRow>, kid: Bytes): (r: Option<KeyRow>)
    ensures r.Some? ==> r.value in rows && r.value.kid == kid
    ensures r.None? <==> forall i :: 0 <= i < |rows| ==> rows[i].kid != kid
  {
    if rows == [] then None
    else if rows[0].kid == kid then Some(rows[0])
    else FindKey(rows[1..], kid)
  }

  /** The update that retires the row with the given id. */
  function Retire(rows: seq<KeyRow>, kid: Bytes): (r: seq<KeyRow>)
    ensures |r| == |rows|
    ensures forall i :: 0 <= i < |rows| ==> r[i] == if rows[i].kid == kid then rows[i].(active := false) else rows[i]
  {
    if rows == [] then []
    else [if rows[0].kid == kid then rows[0].(active := false) else rows[0]] + Retire(rows[1..], kid)
  }

  function Kids(rows: seq<KeyRow>): set<Bytes> {
    set row | row in rows :: row.kid
  }

  /** Row i of n: generation i + 1, active only if it is the newest, and it
      holds, encrypted, the data key that was generated for it. */
  ghost predicate SoundRow(c: Primitives, password: Bytes, issued: map<Bytes, Bytes>, row: KeyRow, i: nat, n: nat) {
    && row.generation == i + 1
    && (row.active <==> i == n - 1)
    && |row.kid| == 16
    && row.kid in issued && Unwrap(c, password, row.wrapped, row.salt) == Some(issued[row.kid])
    && IsWrapped(c, row.wrapped, password, row.salt, issued[row.kid])
  }

  /** The key table of a reachable store. */
  ghost predicate SoundTable(c: Primitives, password: Bytes, rows: seq<KeyRow>, issued: map<Bytes, Bytes>) {
    && (forall i :: 0 <= i < |rows| ==> SoundRow(c, password, issued, rows[i], i, |rows|))
    && (forall i, j :: 0 <= i < j < |rows| ==> rows[i].kid != rows[j].kid)
    && issued.Keys == Kids(rows)
  }

  /** The table after `rotate`: the old active row retired, a new one added. */
  function Rotated(c: Primitives, password: Bytes, rows: seq<KeyRow>, current: KeyRow, d: Draw): seq<KeyRow> {
    Retire(rows, current.kid) + [KeyRow(d.kid, Wrap(c, password, d), d.salt, current.generation + 1, true)]
  }

  lemma {:induction false} FirstKeySound(c: Primitives, password: Bytes, d: Draw)
    requires Lawful(c) && FreshDraw(d, [])
    ensures SoundTable(c, password, [KeyRow(d.kid, Wrap(c, password, d), d.salt, 1, true)], map[d.kid := d.dek])
  {
    hide Unwrap, IsWrapped, Wrap, Lawful;
    UnwrapWrap(c, password, d);
    var row := KeyRow(d.kid, Wrap(c, password, d), d.salt, 1, true);
    assert row in [row];
    assert Kids([row]) == {d.kid};
  }

  lemma {:induction false} ActiveIsLast(c: Primitives, password: Bytes, rows: seq<KeyRow>, issued: map<Bytes, Bytes>)
    requires SoundTable(c, password, rows, issued) && rows != []
    ensures FirstActive(rows) == Some(rows[|rows| - 1])
  {
    hide FirstActive, Unwrap, IsWrapped;
    var last := rows[|rows| - 1];
    assert SoundRow(c, password, issued, last, |rows| - 1, |rows|);
    var row := FirstActive(rows).value;
    var i :| 0 <= i < |rows| && rows[i] == row;
    assert SoundRow(c, password, issued, row, i, |rows|);
  }

  lemma {:induction false} RetireKeepsIds(rows: seq<KeyRow>, kid: Bytes)
    ensures Kids(Retire(rows, kid)) == Kids(rows)
  {
    var r := Retire(rows, kid);
    forall k | k in Kids(rows) ensures k in Kids(r) {
      var i :| 0 <= i < |rows| && rows[i].kid == k;
      assert r[i] in r && r[i].kid == k;
    }
    forall k | k in Kids(r) ensures k in Kids(rows) {
      var i :| 0 <= i < |r| && r[i].kid == k;
      assert rows[i] in rows && rows[i].kid == k;
    }
  }

  lemma {:induction false} RetiredRowSound(c: Primitives, password: Bytes, rows: seq<KeyRow>, issued: map<Bytes, Bytes>,
                                           kid: Bytes, dek: Bytes, i: nat)
    requires SoundTable(c, password, rows, issued) && i < |rows| && kid !in issued
    ensures SoundRow(c, password, issued[kid := dek], Retire(rows, rows[|rows| - 1].kid)[i], i, |rows| + 1)
  {
    hide Unwrap, IsWrapped, SoundTable, Retire;
    RowFacts(c, password, rows, issued, i);
  }

  lemma {:induction false} RowFacts(c: Primitives, password: Bytes, rows: seq<KeyRow>, issued: map<Bytes, Bytes>,
                                    i: nat)
    requires SoundTable(c, password, rows, issued) && i < |rows|
    ensures SoundRow(c, password, issued, rows[i], i, |rows|)
    ensures i < |rows| - 1 ==> rows[i].kid != rows[|rows| - 1].kid
  {
    hide Unwrap, IsWrapped;
  }

  lemma {:induction false} FreshIsUnknown(c: Primitives, password: Bytes, rows: seq<KeyRow>, issued: map<Bytes,
                                          Bytes>, d: Draw)
    requires SoundTable(c, password, rows, issued) && FreshDraw(d, rows)
    ensures d.kid !in issued && d.kid !in Kids(rows)
  {
  }

  lemma {:induction false} KidsAppend(rows: seq<KeyRow>, row: KeyRow)
    ensures Kids(rows + [row]) == Kids(rows) + {row.kid}
  {
    assert row in rows + [row];
    assert forall r :: r in rows ==> r in rows + [row];
  }

  /** Rotation keeps the table sound and forgets no data key. */
  lemma {:induction false} RotationSound(c: Primitives, password: Bytes, rows: seq<KeyRow>, issued: map<Bytes, Bytes>,
                                         d: Draw)
    requires Lawful(c) && SoundTable(c, password, rows, issued) && rows != [] && FreshDraw(d, rows)
    ensures SoundTable(c, password, Rotated(c, password, rows, rows[|rows| - 1], d), issued[d.kid := d.dek])
    ensures d.kid !in issued
  {
    hide Unwrap, IsWrapped, Wrap, Lawful, Kids;
    var n, current := |rows|, rows[|rows| - 1];
    var rows', issued' := Rotated(c, password, rows, current, d), issued[d.kid := d.dek];
    FreshIsUnknown(c, password, rows, issued, d);
    forall i | 0 <= i < n ensures SoundRow(c, password, issued', rows'[i], i, n + 1) {
      RetiredRowSound(c, password, rows, issued, d.kid, d.dek, i);
    }
    assert SoundRow(c, password, issued, current, n - 1, n);
    UnwrapWrap(c, password, d);
    assert SoundRow(c, password, issued', rows'[n], n, n + 1);
    RetireKeepsIds(rows, current.kid);
    KidsAppend(Retire(rows, current.kid), rows'[n]);
  }

  /** The SQLite file, shared by every process that opens it.  `issued` records
      the data key each key id was generated with. */
  class Database {
    var keys: seq<KeyRow>
    var manifests: map<string, seq<string>>
    ghost var issued: map<Bytes, Bytes>

    constructor ()
      ensures keys == [] && manifests == map[] && issued == map[]
    {
      keys, manifests, issued := [], map[], map[];
    }
  }

  class Store {
    const c: Primitives
    const db: Database
    const password: Bytes
    var cache: map<Bytes, Bytes>

    ghost predicate Valid()
      reads this, db
    {
      && Lawful(c)
      && db.keys != []
      && SoundTable(c, password, db.keys, db.issued)
      && forall k :: k in cache ==> k in db.issued && cache[k] == db.issued[k]
    }

    /** Open the store: the first time it creates generation 1, later it finds
        the table of an earlier run that used the same password. */
    constructor (c: Primitives, db: Database, password: Bytes, draw: Draw)
      requires Lawful(c) && SoundTable(c, password, db.keys, db.issued)
      requires FreshDraw(draw, db.keys)
      modifies db`keys, db`issued
      ensures Valid() && this.c == c && this.db == db && this.password == password
      ensures old(db.keys) != [] ==> db.keys == old(db.keys) && db.issued == old(db.issued)
      ensures old(db.keys) == [] ==> |db.keys| == 1 && db.issued == map[draw.kid := draw.dek]
    {
      this.c, this.db, this.password, this.cache := c, db, password, map[];
      new;
      EnsureActiveKey(draw);
    }

    method EnsureActiveKey(draw: Draw)
      requires Lawful(c) && SoundTable(c, password, db.keys, db.issued) && cache == map[]
      requires FreshDraw(draw, db.keys)
      modifies this`cache, db`keys, db`issued
      ensures Valid()
      ensures old(db.keys) != [] ==> db.keys == old(db.keys) && db.issued == old(db.issued)
      ensures old(db.keys) == [] ==> |db.keys| == 1 && db.issued == map[draw.kid := draw.dek]
    {
      var existing := FirstActive(db.keys);
      if existing.None? {
        assert db.keys == [] by {
          if db.keys != [] { ActiveIsLast(c, password, db.keys, db.issued); }
        }
        assert db.issued == map[];
        CreateKeyRecord(draw, 1);
        FirstKeySound(c, password, draw);
      }
    }

    /** `_create_key_record`: wrap a fresh data key, insert it, cache it. */
    method CreateKeyRecord(draw: Draw, generation: nat)
      modifies this`cache, db`keys, db`issued
      ensures db.keys == old(db.keys) + [KeyRow(draw.kid, Wrap(c, password, draw), draw.salt, generation, true)]
      ensures db.issued == old(db.issued)[draw.kid := draw.dek]
      ensures cache == old(cache)[draw.kid := draw.dek]
    {
      db.keys := db.keys + [KeyRow(draw.kid, Wrap(c, password, draw), draw.salt, generation, true)];
      db.issued := db.issued[draw.kid := draw.dek];
      cache := cache[draw.kid := draw.dek];
    }

    /** The active key is the newest one. */
    method ActiveKey() returns (r: Result<(Bytes, Bytes)>)
      requires Valid()
      modifies this`cache
      ensures Valid() && cache.Keys >= old(cache.Keys)
      ensures var kid := db.keys[|db.keys| - 1].kid; r == Ok((kid, db.issued[kid]))
    {
      var record := FirstActive(db.keys);
      if record.None? {
        return Raised(RuntimeError);
      }
      ActiveIsLast(c, password, db.keys, db.issued);
      r := LoadDek(record.value);
    }

    /** Any key ever issued comes back as it was generated, cached or not. */
    method KeyById(kid: Bytes) returns (r: Result<(Bytes, Bytes)>)
      requires Valid()
      modifies this`cache
      ensures Valid() && cache.Keys >= old(cache.Keys)
      ensures r == if kid in db.issued then Ok((kid, db.issued[kid])) else Raised(KeyError)
    {
      if kid in cache {
        return Ok((kid, cache[kid]));
      }
      var record := FindKey(db.keys, kid);
      if record.None? {
        return Raised(KeyError);
      }
      r := LoadDek(record.value);
    }

    method LoadDek(row: KeyRow) returns (r: Result<(Bytes, Bytes)>)
      requires Valid() && row in db.keys
      modifies this`cache
      ensures Valid() && cache.Keys >= old(cache.Keys)
      ensures r == Ok((row.kid, db.issued[row.kid]))
    {
      if row.kid in cache {
        return Ok((row.kid, cache[row.kid]));
      }
      var dek := Unwrap(c, password, row.wrapped, row.salt);
      if dek.None? {
        return Raised(DecryptionError);
      }
      cache := cache[row.kid := dek.value];
      return Ok((row.kid, dek.value));
    }

    /** Retire the active key and issue its successor. */
    method Rotate(draw: Draw) returns (r: Result<Bytes>)
      requires Valid() && FreshDraw(draw, db.keys)
      modifies this`cache, db`keys, db`issued
      ensures Valid() && r == Ok(draw.kid)
      ensures db.keys == Rotated(c, password, old(db.keys), old(db.keys)[|old(db.keys)| - 1], draw)
      ensures draw.kid !in old(db.issued) && db.issued == old(db.issued)[draw.kid := draw.dek]
    {
      hide SoundTable, FirstActive, Wrap, Lawful, FreshDraw, Retire;
      var current := FirstActive(db.keys);
      ActiveIsLast(c, password, db.keys, db.issued);
      if current.None? {
        return Raised(RuntimeError);
      }
      RotationSound(c, password, db.keys, db.issued, draw);
      db.keys := Retire(db.keys, current.value.kid);
      CreateKeyRecord(draw, current.value.generation + 1);
      return Ok(draw.kid);
    }
  }
}
