/**
 * The key-value database under the DAG (`ptndb.Database`) and the generic
 * storage helpers of `dag/storage/storage.go`: `Store`, `StoreBytes` and
 * the puts of the canonical and head hashes.
 *
 * The database is a map from keys to stored entries. Which reads, puts,
 * deletes and batch writes fail is fixed in advance by a `DbFaults` value,
 * so every error path of the helpers can be reached; puts take their
 * outcomes one by one from a list, so one put of a call can fail while an
 * earlier one succeeded. An entry is either the
 * raw bytes a put wrote or a value with its state version, as the
 * versioned-store helper of the state database writes it.
 */
module KvStore {
  import opened Wrappers
  import opened Uint64
  import opened Common

  /** An entry: bytes put directly, or a value stored with its version. */
  datatype Stored = Raw(bytes: Bytes) | Versioned(value: Bytes, version: Bytes)

  /** The bytes a raw read of an entry yields (the value part of a versioned one). */
  function RawOf(s: Stored): Bytes
  {
    match s
    case Raw(b) => b
    case Versioned(v, _) => v
  }

  /** A failed `Get`: goleveldb's `ErrNotFound`, or any other error with its text. */
  datatype DbError = NotFound | Failure(message: string)

  /** The text of goleveldb's `ErrNotFound`. */
  const NOT_FOUND_TEXT: string := "leveldb: not found"

  function ErrorText(e: DbError): string
  {
    match e
    case NotFound => NOT_FOUND_TEXT
    case Failure(m) => m
  }

  /**
   * The failures the database will produce: reads of the listed keys fail
   * with the given text; the coming puts take the outcomes of `puts` in
   * order, and once the list is used up every put succeeds; every delete
   * fails when `delete` is set; versioned stores of the listed keys fail,
   * and so does every batch write when `batchWrite` is set.
   */
  datatype DbFaults = DbFaults(
    readErrors: map<Bytes, string>,
    puts: seq<Option<string>>,
    delete: Option<string>,
    versionErrors: map<Bytes, string>,
    batchWrite: Option<string>)

  /** A database without faults. */
  const NO_FAULTS := DbFaults(map[], [], None, map[], None)

  /** The outcome of the i-th put from now: its listed outcome, or success past the end of the list. */
  function PutOutcome(fs: DbFaults, i: nat): Option<string>
  {
    if i < |fs.puts| then fs.puts[i] else None
  }

  /** The faults still to come after one put has taken its outcome. */
  function AfterPut(fs: DbFaults): (r: DbFaults)
    ensures forall i: nat :: PutOutcome(r, i) == PutOutcome(fs, i + 1)
    ensures r.readErrors == fs.readErrors && r.delete == fs.delete
    ensures r.versionErrors == fs.versionErrors && r.batchWrite == fs.batchWrite
  {
    fs.(puts := if fs.puts == [] then [] else fs.puts[1..])
  }

  /** The error of a call, the database contents after it and the faults still to come. */
  datatype Write = Write(err: Option<string>, kv: map<Bytes, Stored>, faults: DbFaults)

  // ---------------------------------------------------------------------------
  // The database operations, as functions of the contents
  // ---------------------------------------------------------------------------

  function Get(kv: map<Bytes, Stored>, fs: DbFaults, key: Bytes): (r: Result<Stored, DbError>)
    ensures r.Ok? <==> key !in fs.readErrors && key in kv
    ensures r.Ok? ==> r.value == kv[key]
    ensures r == Err(NotFound) <==> key !in fs.readErrors && key !in kv
  {
    if key in fs.readErrors then Err(Failure(fs.readErrors[key]))
    else if key in kv then Ok(kv[key])
    else Err(NotFound)
  }

  function Put(kv: map<Bytes, Stored>, fs: DbFaults, key: Bytes, v: Stored): (w: Write)
    ensures w.err == PutOutcome(fs, 0)
    ensures w.err.None? ==> w.kv == kv[key := v]
    ensures w.err.Some? ==> w.kv == kv
    ensures w.faults == AfterPut(fs)
  {
    var e := PutOutcome(fs, 0);
    if e.Some? then Write(e, kv, AfterPut(fs)) else Write(None, kv[key := v], AfterPut(fs))
  }

  function Delete(kv: map<Bytes, Stored>, fs: DbFaults, key: Bytes): (w: Write)
    ensures w.err == fs.delete
    ensures w.err.None? ==> w.kv == kv - {key}
    ensures w.err.Some? ==> w.kv == kv
    ensures w.faults == fs
  {
    if fs.delete.Some? then Write(fs.delete, kv, fs) else Write(None, kv - {key}, fs)
  }

  /** The keys of the database that begin with `prefix`, with their entries (`getprefix`). */
  function WithPrefix(kv: map<Bytes, Stored>, prefix: Bytes): (r: map<Bytes, Stored>)
    ensures forall k | k in r :: k in kv && prefix <= k && r[k] == kv[k]
    ensures forall k | k in kv && prefix <= k :: k in r
  {
    map k | k in kv && prefix <= k :: kv[k]
  }

  /** One operation of a write batch. */
  datatype BatchOp = BatchPut(key: Bytes, v: Stored) | BatchDelete(key: Bytes)

  /** The contents after the operations of a batch, applied in order. */
  function Apply(kv: map<Bytes, Stored>, ops: seq<BatchOp>): map<Bytes, Stored>
    decreases |ops|
  {
    if ops == [] then kv
    else
      var last := ops[|ops| - 1];
      var before := Apply(kv, ops[..|ops| - 1]);
      match last
      case BatchPut(k, v) => before[k := v]
      case BatchDelete(k) => before - {k}
  }

  /** The entry under a key, if any. */
  function Lookup(kv: map<Bytes, Stored>, k: Bytes): Option<Stored>
  {
    if k in kv then Some(kv[k]) else None
  }

  /** The last operation of a batch that names the key, if any. */
  function LastOpOn(ops: seq<BatchOp>, k: Bytes): (r: Option<BatchOp>)
    ensures r.Some? ==> r.value in ops && r.value.key == k
    ensures r.None? <==> forall i | 0 <= i < |ops| :: ops[i].key != k
    decreases |ops|
  {
    if ops == [] then None
    else if ops[|ops| - 1].key == k then Some(ops[|ops| - 1])
    else LastOpOn(ops[..|ops| - 1], k)
  }

  /**
   * After a batch, a key holds what the last operation on it left, and a
   * key no operation names keeps its entry.
   */
  lemma {:induction false} ApplyLastWins(kv: map<Bytes, Stored>, ops: seq<BatchOp>, k: Bytes)
    ensures Lookup(Apply(kv, ops), k) ==
      match LastOpOn(ops, k)
      case None => Lookup(kv, k)
      case Some(BatchPut(_, v)) => Some(v)
      case Some(BatchDelete(_)) => None
    decreases |ops|
  {
    if ops != [] {
      ApplyLastWins(kv, ops[..|ops| - 1], k);
    }
  }

  /**
   * The entry the versioned-store helper writes for `value` at `version`, or
   * its error for a key listed in the faults.
   */
  function VersionedEntry(fs: DbFaults, key: Bytes, value: Bytes, version: Bytes): (r: Result<Stored, string>)
    ensures r.Ok? <==> key !in fs.versionErrors
    ensures r.Ok? ==> r.value == Versioned(value, version)
  {
    if key in fs.versionErrors then Err(fs.versionErrors[key]) else Ok(Versioned(value, version))
  }

  // ---------------------------------------------------------------------------
  // Store and StoreBytes
  // ---------------------------------------------------------------------------

  /**
   * `Store(db, key, value)`, with `encoded` the outcome of RLP-encoding the
   * value: an encoding error comes first; a key that is not found is put; a
   * read error other than `ErrNotFound` itself is returned; a present key is
   * deleted and then put again.
   */
  function StoreOutcome(kv: map<Bytes, Stored>, fs: DbFaults, key: Bytes, encoded: Result<Bytes, string>): Write
  {
    match encoded
    case Err(e) => Write(Some(e), kv, fs)
    case Ok(val) =>
      match Get(kv, fs, key)
      case Err(NotFound) => Put(kv, fs, key, Raw(val))
      case Err(Failure(m)) => Write(Some(m), kv, fs)
      case Ok(_) =>
        var d := Delete(kv, fs, key);
        if d.err.Some? then d else Put(d.kv, d.faults, key, Raw(val))
  }

  /**
   * `StoreBytes(db, key, value)`: as `Store`, except that a read error counts
   * as "not found" when its TEXT is that of `ErrNotFound`, and that every
   * successful path ends with one more put of the same value.
   */
  function StoreBytesOutcome(kv: map<Bytes, Stored>, fs: DbFaults, key: Bytes, encoded: Result<Bytes, string>): Write
  {
    match encoded
    case Err(e) => Write(Some(e), kv, fs)
    case Ok(val) =>
      var first :=
        match Get(kv, fs, key)
        case Err(e) =>
          if ErrorText(e) == NOT_FOUND_TEXT then Put(kv, fs, key, Raw(val)) else Write(Some(ErrorText(e)), kv, fs)
        case Ok(_) =>
          var d := Delete(kv, fs, key);
          if d.err.Some? then d else Put(d.kv, d.faults, key, Raw(val));
      if first.err.Some? then first else Put(first.kv, first.faults, key, Raw(val))
  }

  /**
   * What `Store` does: it succeeds exactly when the value encodes, the key
   * reads or is absent, and the put (and for a present key the delete)
   * succeed; on success the key maps to the encoding and nothing else
   * changes; a failed encoding or read leaves the database as it was.
   */
  lemma StoreEffect(kv: map<Bytes, Stored>, fs: DbFaults, key: Bytes, encoded: Result<Bytes, string>)
    ensures var w := StoreOutcome(kv, fs, key, encoded);
      && (w.err.None? <==>
            encoded.Ok? && key !in fs.readErrors && PutOutcome(fs, 0).None? && (key in kv ==> fs.delete.None?))
      && (w.err.None? ==> w.kv == kv[key := Raw(encoded.value)])
      && (encoded.Err? || key in fs.readErrors ==> w.kv == kv)
  {
  }

  /**
   * `Store` is not atomic: when the delete of a present key succeeds and the
   * put after it fails, the call reports the put's error and the old entry
   * is gone.
   */
  lemma StoreLosesEntryOnFailedPut(kv: map<Bytes, Stored>, fs: DbFaults, key: Bytes, val: Bytes)
    requires key in kv && key !in fs.readErrors
    requires fs.delete.None? && PutOutcome(fs, 0).Some?
    ensures var w := StoreOutcome(kv, fs, key, Ok(val));
      w.err == PutOutcome(fs, 0) && key !in w.kv && w.kv == kv - {key}
  {
  }

  /** Storing the same value twice stores it once. */
  lemma StoreIdempotent(kv: map<Bytes, Stored>, key: Bytes, val: Bytes)
    ensures var once := StoreOutcome(kv, NO_FAULTS, key, Ok(val));
      StoreOutcome(once.kv, NO_FAULTS, key, Ok(val)) == once
  {
    var once := StoreOutcome(kv, NO_FAULTS, key, Ok(val));
    StoreEffect(kv, NO_FAULTS, key, Ok(val));
    StoreEffect(once.kv, NO_FAULTS, key, Ok(val));
    assert once.kv[key := Raw(val)] == once.kv;
  }

  /**
   * `StoreBytes` has the error and the effect of `Store` unless a read of the
   * key fails with an error that merely carries the not-found text, or its
   * trailing put fails after the first one succeeded: when that put succeeds
   * it writes what is already there.
   */
  lemma StoreBytesAgreesWithStore(kv: map<Bytes, Stored>, fs: DbFaults, key: Bytes, encoded: Result<Bytes, string>)
    requires key in fs.readErrors ==> fs.readErrors[key] != NOT_FOUND_TEXT
    requires PutOutcome(fs, 0).None? ==> PutOutcome(fs, 1).None?
    ensures var a, b := StoreBytesOutcome(kv, fs, key, encoded), StoreOutcome(kv, fs, key, encoded);
      a.err == b.err && a.kv == b.kv
  {
    if encoded.Ok? && Get(kv, fs, key).Ok? && fs.delete.None? && PutOutcome(fs, 0).None? {
      var k1 := (kv - {key})[key := Raw(encoded.value)];
      assert k1[key := Raw(encoded.value)] == k1;
    } else if encoded.Ok? && Get(kv, fs, key) == Err(NotFound) && PutOutcome(fs, 0).None? {
      var k1 := kv[key := Raw(encoded.value)];
      assert k1[key := Raw(encoded.value)] == k1;
    }
  }

  /**
   * When the first put of `StoreBytes` succeeds and its trailing put fails,
   * the call reports the error although the value is already stored, where
   * `Store` on the same database reports success with the same contents.
   */
  lemma StoreBytesTrailingPutFails(kv: map<Bytes, Stored>, fs: DbFaults, key: Bytes, val: Bytes)
    requires key !in fs.readErrors && (key in kv ==> fs.delete.None?)
    requires PutOutcome(fs, 0).None? && PutOutcome(fs, 1).Some?
    ensures var a := StoreBytesOutcome(kv, fs, key, Ok(val));
      a.err == PutOutcome(fs, 1) && a.kv == kv[key := Raw(val)]
    ensures var b := StoreOutcome(kv, fs, key, Ok(val));
      b.err.None? && b.kv == kv[key := Raw(val)]
  {
    if key in kv {
      assert (kv - {key})[key := Raw(val)] == kv[key := Raw(val)];
    }
  }

  /**
   * The two helpers part ways on a read error whose text is that of
   * `ErrNotFound` but which is another error value: `Store` returns it,
   * `StoreBytes` takes the key for absent and writes.
   */
  lemma NotFoundTextSplitsStores(kv: map<Bytes, Stored>, fs: DbFaults, key: Bytes, val: Bytes)
    requires key in fs.readErrors && fs.readErrors[key] == NOT_FOUND_TEXT
    requires PutOutcome(fs, 0).None? && PutOutcome(fs, 1).None?
    ensures StoreOutcome(kv, fs, key, Ok(val)) == Write(Some(NOT_FOUND_TEXT), kv, fs)
    ensures var a := StoreBytesOutcome(kv, fs, key, Ok(val));
      a.err.None? && a.kv == kv[key := Raw(val)]
  {
    var k1 := kv[key := Raw(val)];
    assert k1[key := Raw(val)] == k1;
  }

  // ---------------------------------------------------------------------------
  // Keys of the DAG database (placeholder values: the constants are defined
  // outside the modelled files; only their being fixed matters here)
  // ---------------------------------------------------------------------------

  const HEADER_CANON_PREFIX: Bytes := Ascii("ch")
  const NUMBER_SUFFIX: Bytes := Ascii("n")
  const HEAD_HEADER_KEY: Bytes := Ascii("LastHeader")
  const HEAD_UNIT_KEY: Bytes := Ascii("LastUnit")
  const HEAD_FAST_KEY: Bytes := Ascii("LastFast")

  /** The key of the canonical hash at a height: prefix, the height in 8 big-endian bytes, suffix. */
  function CanonicalKey(number: U64): (k: Bytes)
    ensures |k| == |HEADER_CANON_PREFIX| + 8 + |NUMBER_SUFFIX|
    ensures k[|HEADER_CANON_PREFIX|..|HEADER_CANON_PREFIX| + 8] == Uint64ToBytes(number)
  {
    var k := HEADER_CANON_PREFIX + Uint64ToBytes(number) + NUMBER_SUFFIX;
    assert k[|HEADER_CANON_PREFIX|..|HEADER_CANON_PREFIX| + 8] == Uint64ToBytes(number);
    k
  }

  /** Distinct heights have distinct canonical-hash keys, so one never overwrites another. */
  lemma CanonicalKeyInjective(n1: U64, n2: U64)
    requires CanonicalKey(n1) == CanonicalKey(n2)
    ensures n1 == n2
  {
    Uint64ToBytesInjective(n1, n2);
  }

  /** The DAG database. */
  class Database {
    var kv: map<Bytes, Stored>
    var faults: DbFaults

    constructor (contents: map<Bytes, Stored>, faults: DbFaults)
      ensures kv == contents && this.faults == faults
    {
      kv := contents;
      this.faults := faults;
    }

    /** `Put`. */
    method PutEntry(key: Bytes, v: Stored) returns (err: Option<string>)
      modifies this
      ensures Write(err, kv, faults) == Put(old(kv), old(faults), key, v)
    {
      var w := Put(kv, faults, key, v);
      err, kv, faults := w.err, w.kv, w.faults;
    }

    /** `Delete`. */
    method DeleteEntry(key: Bytes) returns (err: Option<string>)
      modifies this
      ensures Write(err, kv, faults) == Delete(old(kv), old(faults), key)
    {
      var w := Delete(kv, faults, key);
      err, kv, faults := w.err, w.kv, w.faults;
    }

    /** `batch.Write()`: all operations of the batch, in order, or none of them. */
    method WriteBatch(ops: seq<BatchOp>) returns (err: Option<string>)
      modifies this
      ensures faults == old(faults)
      ensures err == faults.batchWrite
      ensures err.None? ==> kv == Apply(old(kv), ops)
      ensures err.Some? ==> kv == old(kv)
    {
      err := faults.batchWrite;
      if err.None? {
        kv := Apply(kv, ops);
      }
    }
  }

  /** `Store`: the database ends as `StoreOutcome` says. */
  method Store(db: Database, key: Bytes, encoded: Result<Bytes, string>) returns (err: Option<string>)
    modifies db
    ensures Write(err, db.kv, db.faults) == StoreOutcome(old(db.kv), old(db.faults), key, encoded)
  {
    if encoded.Err? {
      return Some(encoded.error);
    }
    var val := encoded.value;
    var got := Get(db.kv, db.faults, key);
    if got.Err? {
      if got.error == NotFound {
        err := db.PutEntry(key, Raw(val));
      } else {
        err := Some(ErrorText(got.error));
      }
      return;
    }
    err := db.DeleteEntry(key);
    if err.Some? {
      return;
    }
    err := db.PutEntry(key, Raw(val));
  }

  /** `StoreBytes`: the database ends as `StoreBytesOutcome` says. */
  method StoreBytes(db: Database, key: Bytes, encoded: Result<Bytes, string>) returns (err: Option<string>)
    modifies db
    ensures Write(err, db.kv, db.faults) == StoreBytesOutcome(old(db.kv), old(db.faults), key, encoded)
  {
    if encoded.Err? {
      return Some(encoded.error);
    }
    var val := encoded.value;
    var got := Get(db.kv, db.faults, key);
    if got.Err? {
      if ErrorText(got.error) == NOT_FOUND_TEXT {
        err := db.PutEntry(key, Raw(val));
        if err.Some? {
          return;
        }
      } else {
        return Some(ErrorText(got.error));
      }
    } else {
      err := db.DeleteEntry(key);
      if err.Some? {
        return;
      }
      err := db.PutEntry(key, Raw(val));
      if err.Some? {
        return;
      }
    }
    err := db.PutEntry(key, Raw(val));
  }

  /** `PutCanonicalHash`: the hash under the key of its height. */
  method PutCanonicalHash(db: Database, hash: Hash, number: U64) returns (err: Option<string>)
    modifies db
    ensures Write(err, db.kv, db.faults) == Put(old(db.kv), old(db.faults), CanonicalKey(number), Raw(hash))
  {
    err := db.PutEntry(CanonicalKey(number), Raw(hash));
  }

  /** `PutHeadHeaderHash`. */
  method PutHeadHeaderHash(db: Database, hash: Hash) returns (err: Option<string>)
    modifies db
    ensures Write(err, db.kv, db.faults) == Put(old(db.kv), old(db.faults), HEAD_HEADER_KEY, Raw(hash))
  {
    err := db.PutEntry(HEAD_HEADER_KEY, Raw(hash));
  }

  /** `PutHeadUnitHash`. */
  method PutHeadUnitHash(db: Database, hash: Hash) returns (err: Option<string>)
    modifies db
    ensures Write(err, db.kv, db.faults) == Put(old(db.kv), old(db.faults), HEAD_UNIT_KEY, Raw(hash))
  {
    err := db.PutEntry(HEAD_UNIT_KEY, Raw(hash));
  }

  /** `PutHeadFastUnitHash`. */
  method PutHeadFastUnitHash(db: Database, hash: Hash) returns (err: Option<string>)
    modifies db
    ensures Write(err, db.kv, db.faults) == Put(old(db.kv), old(db.faults), HEAD_FAST_KEY, Raw(hash))
  {
    err := db.PutEntry(HEAD_FAST_KEY, Raw(hash));
  }

  /** `PutTrieSyncProgress`: the counter in its shortest big-endian form under a fixed key. */
  method PutTrieSyncProgress(db: Database, count: U64) returns (err: Option<string>)
    modifies db
    ensures Write(err, db.kv, db.faults) == Put(old(db.kv), old(db.faults), TRIE_SYNC_KEY, Raw(MinimalBigEndian(count)))
  {
    err := db.PutEntry(TRIE_SYNC_KEY, Raw(MinimalBigEndian(count)));
  }

  const TRIE_SYNC_KEY: Bytes := Ascii("TrieSync")

  /** The bytes of `big.Int.Bytes()`: big-endian with no leading zero byte, empty for zero. */
  function MinimalBigEndian(x: nat): (r: Bytes)
    ensures FromBigEndian(r) == x
    ensures r != [] ==> r[0] != 0
  {
    if x == 0 then []
    else
      var hi := MinimalBigEndian(x / 256);
      assert (hi + [x % 256])[..|hi|] == hi;
      assert hi == [] ==> x / 256 == 0;
      hi + [x % 256]
  }
}
