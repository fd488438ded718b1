/**
 * What the account and contract halves of the state database share: the
 * write set of a contract, the versioned store of one write, and the loop
 * that turns the entries under a key prefix into a map from the rest of
 * each key to its value and version.
 */
module StateDb {
  import opened Wrappers
  import opened Uint64
  import opened KvStore

  /** `modules.ContractWriteSet`: one write of a state key. */
  datatype ContractWriteSet = ContractWriteSet(isDelete: bool, key: Bytes, value: Bytes)

  /** `modules.ContractStateValue`: a value and its version (nil when the entry could not be split). */
  datatype ContractStateValue = ContractStateValue(value: Bytes, version: Option<Bytes>)

  /** The error of splitting an entry that carries no version. */
  const SPLIT_ERROR: string := "the value has no version"

  /** The value and version of an entry, or empty ones for an entry that does not split. */
  function StateValueOf(s: Stored): (r: ContractStateValue)
    ensures s.Versioned? <==> r.version.Some?
  {
    match s
    case Versioned(v, ver) => ContractStateValue(v, Some(ver))
    case Raw(_) => ContractStateValue([], None)
  }

  /** Whether an entry fails to split into value and version. */
  predicate Unsplittable(s: Stored)
  {
    s.Raw?
  }

  /** The part of each key of `ks` after the prefix `p`, for the keys longer than `p`. */
  function Suffixes(ks: set<Bytes>, p: Bytes): set<Bytes>
  {
    set k | k in ks && p <= k && |k| > |p| :: k[|p|..]
  }

  /**
   * The map the scan loop builds from the entries of `data` with keys in
   * `ks`: each key without the first `|p|` bytes, when something is left,
   * to the entry's value and version.
   */
  function StatesOf(data: map<Bytes, Stored>, p: Bytes, ks: set<Bytes>): map<Bytes, ContractStateValue>
  {
    map s | s in Suffixes(ks, p) && p + s in ks && p + s in data :: StateValueOf(data[p + s])
  }

  /** Every key that starts with `p` is `p` followed by its suffix. */
  lemma PrefixSplit(p: Bytes, k: Bytes)
    requires p <= k
    ensures k == p + k[|p|..]
  {
    assert k[..|p|] == p;
  }

  /**
   * The states of one more key: its suffix is added, with its entry's value,
   * unless the key is the prefix itself.
   */
  lemma {:induction false} StatesOfAdd(data: map<Bytes, Stored>, p: Bytes, ks: set<Bytes>, k: Bytes)
    requires ks <= data.Keys && k in data && p <= k
    requires forall x | x in ks :: p <= x
    ensures StatesOf(data, p, ks + {k}) ==
      if |k| > |p| then StatesOf(data, p, ks)[k[|p|..] := StateValueOf(data[k])] else StatesOf(data, p, ks)
  {
    PrefixSplit(p, k);
    var before := StatesOf(data, p, ks);
    var after := StatesOf(data, p, ks + {k});
    forall s | s in after
      ensures s in before || (|k| > |p| && s == k[|p|..])
    {
      if p + s != k {
        assert p + s in ks;
        assert (p + s)[|p|..] == s;
      }
    }
    forall s | s in before
      ensures s in after
    {
      assert p + s in ks + {k};
      assert (p + s)[|p|..] == s;
    }
    if |k| > |p| {
      assert k[|p|..] in Suffixes(ks + {k}, p);
    }
  }

  /**
   * The scan loop of `GetAllAccountStates`, `GetContractStatesById` and
   * `GetContractStatesByPrefix` over entries whose keys all start with `p`:
   * it keeps the non-empty rests of the keys, and reports a split error when
   * any entry, kept or not, fails to split.
   */
  method CollectStates(data: map<Bytes, Stored>, p: Bytes) returns (result: map<Bytes, ContractStateValue>, err: Option<string>)
    requires forall k | k in data :: p <= k
    ensures result == StatesOf(data, p, data.Keys)
    ensures err.Some? <==> exists k | k in data :: Unsplittable(data[k])
    ensures err.Some? ==> err == Some(SPLIT_ERROR)
  {
    result := map[];
    err := None;
    var todo := data.Keys;
    while todo != {}
      invariant todo <= data.Keys
      invariant result == StatesOf(data, p, data.Keys - todo)
      invariant err.Some? <==> exists k | k in data.Keys - todo :: Unsplittable(data[k])
      invariant err.Some? ==> err == Some(SPLIT_ERROR)
      decreases |todo|
    {
      var dbkey :| dbkey in todo;
      if Unsplittable(data[dbkey]) {
        err := Some(SPLIT_ERROR);
      }
      StatesOfAdd(data, p, data.Keys - todo, dbkey);
      var realKey := dbkey[|p|..];
      if realKey != [] {
        result := result[realKey := StateValueOf(data[dbkey])];
      }
      assert data.Keys - (todo - {dbkey}) == (data.Keys - todo) + {dbkey};
      todo := todo - {dbkey};
    }
    assert data.Keys - todo == data.Keys;
  }

  /**
   * Every state the scan returns comes from the entry under the prefix
   * followed by its key, and every entry with a longer key is returned.
   */
  lemma StatesOfComplete(data: map<Bytes, Stored>, p: Bytes)
    requires forall k | k in data :: p <= k
    ensures forall s | s in StatesOf(data, p, data.Keys) ::
      s != [] && p + s in data && StatesOf(data, p, data.Keys)[s] == StateValueOf(data[p + s])
    ensures forall k | k in data && |k| > |p| ::
      k[|p|..] in StatesOf(data, p, data.Keys) && StatesOf(data, p, data.Keys)[k[|p|..]] == StateValueOf(data[k])
  {
    forall k | k in data && |k| > |p|
      ensures k[|p|..] in StatesOf(data, p, data.Keys)
      ensures StatesOf(data, p, data.Keys)[k[|p|..]] == StateValueOf(data[k])
    {
      PrefixSplit(p, k);
    }
  }

  /**
   * One write through the versioned store: a delete removes the key, a
   * value is stored with its version; a failed versioned store changes
   * nothing.
   */
  function SaveWrite(kv: map<Bytes, Stored>, fs: DbFaults, key: Bytes, w: ContractWriteSet, version: Bytes): (r: Write)
    ensures r.err.None? && w.isDelete ==> r.kv == kv - {key}
    ensures r.err.None? && !w.isDelete ==> r.kv == kv[key := Versioned(w.value, version)]
    ensures r.err.Some? ==> r.kv == kv
    ensures r.err.None? <==>
      if w.isDelete then fs.delete.None? else key !in fs.versionErrors && PutOutcome(fs, 0).None?
  {
    if w.isDelete then Delete(kv, fs, key)
    else
      match VersionedEntry(fs, key, w.value, version)
      case Err(e) => Write(Some(e), kv, fs)
      case Ok(s) => Put(kv, fs, key, s)
  }

  /** The same write as a batch operation, or the versioned store's error. */
  function BatchOpOf(fs: DbFaults, key: Bytes, w: ContractWriteSet, version: Bytes): (r: Result<BatchOp, string>)
    ensures r.Ok? <==> w.isDelete || key !in fs.versionErrors
    ensures r.Ok? ==> r.value.key == key
  {
    if w.isDelete then Ok(BatchDelete(key))
    else
      match VersionedEntry(fs, key, w.value, version)
      case Err(e) => Err(e)
      case Ok(s) => Ok(BatchPut(key, s))
  }

  /** The versioned store of one write (`SaveAccountState`, `SaveContractState`). */
  method SaveWriteTo(db: Database, key: Bytes, w: ContractWriteSet, version: Bytes) returns (err: Option<string>)
    modifies db
    ensures Write(err, db.kv, db.faults) == SaveWrite(old(db.kv), old(db.faults), key, w, version)
  {
    if w.isDelete {
      err := db.DeleteEntry(key);
    } else {
      var entry := VersionedEntry(db.faults, key, w.value, version);
      if entry.Err? {
        err := Some(entry.error);
      } else {
        err := db.PutEntry(key, entry.value);
      }
    }
  }
}
