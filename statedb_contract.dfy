/**
 * The contract half of the state database: saving a contract once under
 * its id, the mapping from a template to its contract instances, and the
 * state fields of a contract, saved one by one or as a batch that is
 * written whole or not at all, and read back by prefix scans.
 *
 * Contract ids, template ids and field names are byte strings of any
 * length, and keys are built by plain concatenation, so the boundary
 * between id and field is not recorded in a key.
 */
module ContractState {
  import opened Wrappers
  import opened Uint64
  import opened Common
  import opened KvStore
  import opened StateDb

  /** Placeholder values: the prefixes are defined outside the modelled files. */
  const CONTRACT_PREFIX: Bytes := Ascii("cp")
  const CONTRACT_TPL_INSTANCE_MAP: Bytes := Ascii("tm")
  const CONTRACT_STATE_PREFIX: Bytes := Ascii("cs")

  /**
   * `modules.Contract`, reduced to its two ids and the outcome of
   * RLP-encoding the whole record.
   */
  datatype Contract = Contract(contractId: Bytes, templateId: Bytes, encoded: Result<Bytes, string>)

  /** The key of a contract record. */
  function ContractKey(id: Bytes): (k: Bytes)
    ensures CONTRACT_PREFIX <= k && k[|CONTRACT_PREFIX|..] == id
  {
    CONTRACT_PREFIX + id
  }

  /** The key of the mapping entry of a contract under its template (`saveTplToContractMapping`). */
  function TplMapKey(templateId: Bytes, contractId: Bytes): (k: Bytes)
    ensures CONTRACT_TPL_INSTANCE_MAP + templateId <= k
  {
    CONTRACT_TPL_INSTANCE_MAP + templateId + contractId
  }

  /** `getContractStateKey`: the state prefix, the contract id, then the field. */
  function ContractStateKey(id: Bytes, field: Bytes): (k: Bytes)
    ensures CONTRACT_STATE_PREFIX + id <= k && k[|CONTRACT_STATE_PREFIX + id|..] == field
  {
    CONTRACT_STATE_PREFIX + id + field
  }

  /**
   * The key does not record where the id ends: a longer id with a shorter
   * field gives the same key as the id with the byte moved into the field.
   */
  lemma StateKeysCollide(id: Bytes, b: Byte, field: Bytes)
    ensures ContractStateKey(id + [b], field) == ContractStateKey(id, [b] + field)
  {
    assert CONTRACT_STATE_PREFIX + (id + [b]) + field == CONTRACT_STATE_PREFIX + id + ([b] + field);
  }

  /** Ids of one length do give distinct keys for distinct fields or ids. */
  lemma {:induction false} StateKeyInjectiveForEqualLengths(a: Bytes, f: Bytes, b: Bytes, g: Bytes)
    requires |a| == |b| && ContractStateKey(a, f) == ContractStateKey(b, g)
    ensures a == b && f == g
  {
    var k := ContractStateKey(a, f);
    var n := |CONTRACT_STATE_PREFIX|;
    assert a == k[n..n + |a|];
    assert b == k[n..n + |b|];
  }

  const HEX_DIGITS: string := "0123456789abcdef"

  /** `common.Bytes2Hex`: two lower-case hex digits per byte. */
  function Hex(b: Bytes): (r: string)
    ensures |r| == 2 * |b|
  {
    if b == [] then [] else [HEX_DIGITS[b[0] / 16], HEX_DIGITS[b[0] % 16]] + Hex(b[1..])
  }

  /** The bytes of an id as `%s` prints them. */
  function Text(b: Bytes): string
  {
    seq(|b|, i requires 0 <= i < |b| => b[i] as char)
  }

  function ExistedError(id: Bytes): string
  {
    "Contract[" + Hex(id) + "]'s state existed!"
  }

  function NullStateError(id: Bytes): string
  {
    "the contract " + Text(id) + " state is null."
  }

  /**
   * `SaveContract`: refused when any key starts with the contract key;
   * otherwise the record is stored, then the template mapping.
   */
  function SaveContractOutcome(kv: map<Bytes, Stored>, fs: DbFaults, c: Contract): Write
  {
    if |WithPrefix(kv, ContractKey(c.contractId))| > 0 then Write(Some(ExistedError(c.contractId)), kv, fs)
    else
      match c.encoded
      case Err(e) => Write(Some(e), kv, fs)
      case Ok(record) =>
        var w := Put(kv, fs, ContractKey(c.contractId), Raw(record));
        if w.err.Some? then w else Put(w.kv, w.faults, TplMapKey(c.templateId, c.contractId), Raw(c.contractId))
  }

  /**
   * A successful save adds the record and the mapping entry and nothing
   * else; it succeeds exactly when no key starts with the contract key, the
   * record encodes and the puts succeed.
   */
  lemma SaveContractEffect(kv: map<Bytes, Stored>, fs: DbFaults, c: Contract)
    ensures var w := SaveContractOutcome(kv, fs, c);
      && (w.err.None? <==>
            (forall k | k in kv :: !(ContractKey(c.contractId) <= k)) && c.encoded.Ok?
            && PutOutcome(fs, 0).None? && PutOutcome(fs, 1).None?)
      && (w.err.None? ==>
            w.kv == kv[ContractKey(c.contractId) := Raw(c.encoded.value)][TplMapKey(c.templateId, c.contractId) := Raw(c.contractId)])
  {
    var p := WithPrefix(kv, ContractKey(c.contractId));
    if |p| > 0 {
      var k :| k in p;
    }
  }

  /**
   * The existence test is a prefix count: a stored key that merely starts
   * with the contract key, such as the record of a contract whose id
   * extends this one, refuses the save as well.
   */
  lemma ExtendedIdBlocksSave(kv: map<Bytes, Stored>, fs: DbFaults, c: Contract, ext: Bytes)
    requires ContractKey(c.contractId + ext) in kv
    ensures SaveContractOutcome(kv, fs, c) == Write(Some(ExistedError(c.contractId)), kv, fs)
  {
    assert ContractKey(c.contractId + ext) == ContractKey(c.contractId) + ext;
    assert ContractKey(c.contractId + ext) in WithPrefix(kv, ContractKey(c.contractId));
  }

  /** Once a contract is saved, no contract with its id can be saved again, whatever the faults. */
  lemma SaveContractOnce(kv: map<Bytes, Stored>, fs: DbFaults, c: Contract, d: Contract, gs: DbFaults)
    requires SaveContractOutcome(kv, fs, c).err.None? && d.contractId == c.contractId
    ensures var after := SaveContractOutcome(kv, fs, c).kv;
      SaveContractOutcome(after, gs, d) == Write(Some(ExistedError(d.contractId)), after, gs)
  {
    SaveContractEffect(kv, fs, c);
    var after := SaveContractOutcome(kv, fs, c).kv;
    assert ContractKey(c.contractId) in WithPrefix(after, ContractKey(d.contractId));
  }

  /**
   * The record and the mapping are two puts: when the record is stored and
   * the mapping put fails, the call fails with the contract saved but not
   * listed under its template, and from then on every save of its id is
   * refused.
   */
  lemma SaveContractPartial(kv: map<Bytes, Stored>, fs: DbFaults, c: Contract, d: Contract, gs: DbFaults)
    requires forall k | k in kv :: !(ContractKey(c.contractId) <= k)
    requires c.encoded.Ok? && PutOutcome(fs, 0).None? && PutOutcome(fs, 1).Some?
    requires d.contractId == c.contractId
    ensures var w := SaveContractOutcome(kv, fs, c);
      && w.err == PutOutcome(fs, 1)
      && w.kv == kv[ContractKey(c.contractId) := Raw(c.encoded.value)]
      && (TplMapKey(c.templateId, c.contractId) in w.kv <==> TplMapKey(c.templateId, c.contractId) in kv)
      && SaveContractOutcome(w.kv, gs, d) == Write(Some(ExistedError(d.contractId)), w.kv, gs)
  {
    var p := WithPrefix(kv, ContractKey(c.contractId));
    assert p == map[];
    var w := SaveContractOutcome(kv, fs, c);
    assert ContractKey(c.contractId) in WithPrefix(w.kv, ContractKey(d.contractId));
    assert TplMapKey(c.templateId, c.contractId) != ContractKey(c.contractId) by {
      assert TplMapKey(c.templateId, c.contractId)[0] == 't' as Byte;
    }
  }

  /** `SaveContract`. */
  method SaveContract(db: Database, c: Contract) returns (err: Option<string>)
    modifies db
    ensures Write(err, db.kv, db.faults) == SaveContractOutcome(old(db.kv), old(db.faults), c)
  {
    var key := ContractKey(c.contractId);
    var count := |WithPrefix(db.kv, key)|;
    if count > 0 {
      return Some(ExistedError(c.contractId));
    }
    if c.encoded.Err? {
      return Some(c.encoded.error);
    }
    err := db.PutEntry(key, Raw(c.encoded.value));
    if err.Some? {
      return;
    }
    err := SaveTplToContractMapping(db, c);
  }

  /** `saveTplToContractMapping`: the contract id under its template's key. */
  method SaveTplToContractMapping(db: Database, c: Contract) returns (err: Option<string>)
    modifies db
    ensures Write(err, db.kv, db.faults) == Put(old(db.kv), old(db.faults), TplMapKey(c.templateId, c.contractId), Raw(c.contractId))
  {
    err := db.PutEntry(TplMapKey(c.templateId, c.contractId), Raw(c.contractId));
  }

  /** The ids the template scan reads: the values of the entries under the template's key. */
  function IdsUnder(kv: map<Bytes, Stored>, tplId: Bytes): set<Bytes>
  {
    var rows := WithPrefix(kv, CONTRACT_TPL_INSTANCE_MAP + tplId);
    set k | k in rows :: RawOf(rows[k])
  }

  /**
   * `GetContractIdsByTpl`: one id per entry under the template's key, in
   * the scan's order.
   */
  method GetContractIdsByTpl(db: Database, tplId: Bytes) returns (ids: seq<Bytes>)
    ensures |ids| == |WithPrefix(db.kv, CONTRACT_TPL_INSTANCE_MAP + tplId)|
    ensures (set x | x in ids) == IdsUnder(db.kv, tplId)
  {
    var rows := WithPrefix(db.kv, CONTRACT_TPL_INSTANCE_MAP + tplId);
    ids := [];
    var todo := rows.Keys;
    while todo != {}
      invariant todo <= rows.Keys
      invariant |ids| + |todo| == |rows|
      invariant (set x | x in ids) == set k | k in rows.Keys - todo :: RawOf(rows[k])
      decreases |todo|
    {
      var k :| k in todo;
      ghost var before := set x | x in ids;
      ids := ids + [RawOf(rows[k])];
      assert (set x | x in ids) == before + {RawOf(rows[k])};
      assert rows.Keys - (todo - {k}) == (rows.Keys - todo) + {k};
      todo := todo - {k};
    }
    assert rows.Keys - todo == rows.Keys;
  }

  /** A saved contract is listed under its template. */
  lemma SavedContractListedByTemplate(kv: map<Bytes, Stored>, fs: DbFaults, c: Contract)
    requires SaveContractOutcome(kv, fs, c).err.None?
    ensures c.contractId in IdsUnder(SaveContractOutcome(kv, fs, c).kv, c.templateId)
  {
    SaveContractEffect(kv, fs, c);
    var after := SaveContractOutcome(kv, fs, c).kv;
    var rows := WithPrefix(after, CONTRACT_TPL_INSTANCE_MAP + c.templateId);
    assert TplMapKey(c.templateId, c.contractId) in rows;
  }

  /**
   * The template scan is a prefix scan too: instances of a template whose
   * id extends the asked one are listed with it.
   */
  lemma ExtendedTemplateListed(kv: map<Bytes, Stored>, tplId: Bytes, ext: Bytes, contractId: Bytes)
    requires TplMapKey(tplId + ext, contractId) in kv && kv[TplMapKey(tplId + ext, contractId)] == Raw(contractId)
    ensures contractId in IdsUnder(kv, tplId)
  {
    var k := TplMapKey(tplId + ext, contractId);
    assert k == CONTRACT_TPL_INSTANCE_MAP + tplId + (ext + contractId);
    assert k in WithPrefix(kv, CONTRACT_TPL_INSTANCE_MAP + tplId);
  }

  /** `SaveContractState`: one write under the contract's key for its field. */
  method SaveContractState(db: Database, contractId: Bytes, ws: ContractWriteSet, version: Bytes) returns (err: Option<string>)
    modifies db
    ensures Write(err, db.kv, db.faults) == SaveWrite(old(db.kv), old(db.faults), ContractStateKey(contractId, ws.key), ws, version)
  {
    err := SaveWriteTo(db, ContractStateKey(contractId, ws.key), ws, version);
  }

  /**
   * The batch `SaveContractStates` builds, or the error of the first write
   * whose versioned store fails.
   */
  function ContractBatch(fs: DbFaults, id: Bytes, writes: seq<ContractWriteSet>, version: Bytes): (r: Result<seq<BatchOp>, string>)
    ensures r.Ok? ==> |r.value| == |writes|
    decreases |writes|
  {
    if writes == [] then Ok([])
    else
      var n := |writes| - 1;
      match ContractBatch(fs, id, writes[..n], version)
      case Err(e) => Err(e)
      case Ok(before) =>
        match BatchOpOf(fs, ContractStateKey(id, writes[n].key), writes[n], version)
        case Err(e) => Err(e)
        case Ok(op) => Ok(before + [op])
  }

  /** Whether the versioned store of some write of the set fails. */
  predicate SomeStoreFails(fs: DbFaults, id: Bytes, writes: seq<ContractWriteSet>)
  {
    exists i | 0 <= i < |writes| :: !writes[i].isDelete && ContractStateKey(id, writes[i].key) in fs.versionErrors
  }

  /**
   * The batch is refused exactly when some write's versioned store fails;
   * otherwise the i-th write becomes the i-th operation.
   */
  lemma {:induction false} ContractBatchOutcome(fs: DbFaults, id: Bytes, writes: seq<ContractWriteSet>, version: Bytes)
    ensures ContractBatch(fs, id, writes, version).Err? <==> SomeStoreFails(fs, id, writes)
    ensures var r := ContractBatch(fs, id, writes, version);
      r.Ok? ==> forall i | 0 <= i < |writes| ::
        r.value[i] == (if writes[i].isDelete then BatchDelete(ContractStateKey(id, writes[i].key))
                       else BatchPut(ContractStateKey(id, writes[i].key), Versioned(writes[i].value, version)))
    decreases |writes|
  {
    if writes != [] {
      var n := |writes| - 1;
      ContractBatchOutcome(fs, id, writes[..n], version);
      assert forall i | 0 <= i < n :: writes[..n][i] == writes[i];
      if SomeStoreFails(fs, id, writes[..n]) {
        var i :| 0 <= i < n && !writes[..n][i].isDelete && ContractStateKey(id, writes[..n][i].key) in fs.versionErrors;
        assert !writes[i].isDelete && ContractStateKey(id, writes[i].key) in fs.versionErrors;
      }
      if SomeStoreFails(fs, id, writes) && !SomeStoreFails(fs, id, writes[..n]) {
        var i :| 0 <= i < |writes| && !writes[i].isDelete && ContractStateKey(id, writes[i].key) in fs.versionErrors;
        assert i == n;
      }
    }
  }

  /**
   * `SaveContractStates`: the first failed versioned store returns before
   * the batch is written, so the database is untouched; otherwise the
   * batch write decides.
   */
  method SaveContractStates(db: Database, id: Bytes, wset: seq<ContractWriteSet>, version: Bytes) returns (err: Option<string>)
    modifies db
    ensures db.faults == old(db.faults)
    ensures ContractBatch(db.faults, id, wset, version).Err? ==>
      err == Some(ContractBatch(db.faults, id, wset, version).error) && db.kv == old(db.kv)
    ensures ContractBatch(db.faults, id, wset, version).Ok? ==>
      err == db.faults.batchWrite &&
      db.kv == (if err.None? then Apply(old(db.kv), ContractBatch(db.faults, id, wset, version).value) else old(db.kv))
  {
    var ops: seq<BatchOp> := [];
    var i := 0;
    while i < |wset|
      invariant 0 <= i <= |wset|
      invariant ContractBatch(db.faults, id, wset[..i], version) == Ok(ops)
    {
      var write := wset[i];
      var op := BatchOpOf(db.faults, ContractStateKey(id, write.key), write, version);
      assert wset[..i + 1][..i] == wset[..i];
      if op.Err? {
        ContractBatchPrefixFails(db.faults, id, wset, version, i + 1);
        return Some(op.error);
      }
      ops := ops + [op.value];
      i := i + 1;
    }
    assert wset[..i] == wset;
    err := db.WriteBatch(ops);
  }

  /** A set whose first `n` writes already fail fails with the same error. */
  lemma {:induction false} ContractBatchPrefixFails(fs: DbFaults, id: Bytes, writes: seq<ContractWriteSet>, version: Bytes, n: nat)
    requires n <= |writes| && ContractBatch(fs, id, writes[..n], version).Err?
    ensures ContractBatch(fs, id, writes, version) == ContractBatch(fs, id, writes[..n], version)
    decreases |writes| - n
  {
    if n < |writes| {
      assert writes[..n + 1][..n] == writes[..n];
      ContractBatchPrefixFails(fs, id, writes, version, n + 1);
    } else {
      assert writes[..n] == writes;
    }
  }

  /** `GetContractStatesById`: every state field of the contract, keyed by field. */
  method GetContractStatesById(db: Database, id: Bytes) returns (result: map<Bytes, ContractStateValue>, err: Option<string>)
    ensures var data := WithPrefix(db.kv, CONTRACT_STATE_PREFIX + id);
      && (|data| == 0 ==> result == map[] && err == Some(NullStateError(id)))
      && (|data| > 0 ==> result == StatesOf(data, CONTRACT_STATE_PREFIX + id, data.Keys)
                         && (err.Some? <==> exists k | k in data :: Unsplittable(data[k])))
  {
    var key := CONTRACT_STATE_PREFIX + id;
    var data := WithPrefix(db.kv, key);
    if |data| == 0 {
      return map[], Some(NullStateError(id));
    }
    result, err := CollectStates(data, key);
  }

  /**
   * `GetContractStatesByPrefix`: the fields of the contract that begin with
   * `prefix`, keyed by the whole field, prefix included.
   */
  method GetContractStatesByPrefix(db: Database, id: Bytes, prefix: Bytes) returns (result: map<Bytes, ContractStateValue>, err: Option<string>)
    ensures var data := WithPrefix(db.kv, CONTRACT_STATE_PREFIX + id + prefix);
      && (|data| == 0 ==> result == map[] && err == Some(NullStateError(id)))
      && (|data| > 0 ==> result == StatesOf(data, CONTRACT_STATE_PREFIX + id, data.Keys)
                         && (err.Some? <==> exists k | k in data :: Unsplittable(data[k])))
  {
    var key := CONTRACT_STATE_PREFIX + id;
    var data := WithPrefix(db.kv, key + prefix);
    if |data| == 0 {
      return map[], Some(NullStateError(id));
    }
    forall k | k in data
      ensures key <= k
    {
      assert k[..|key|] == (key + prefix)[..|key|];
    }
    result, err := CollectStates(data, key);
  }

  /** Every field the prefix query returns begins with the prefix. */
  lemma PrefixQueryKeepsPrefix(kv: map<Bytes, Stored>, id: Bytes, prefix: Bytes)
    ensures var data := WithPrefix(kv, CONTRACT_STATE_PREFIX + id + prefix);
      forall s | s in StatesOf(data, CONTRACT_STATE_PREFIX + id, data.Keys) :: prefix <= s
  {
    var key := CONTRACT_STATE_PREFIX + id;
    var data := WithPrefix(kv, key + prefix);
    forall s | s in StatesOf(data, key, data.Keys)
      ensures prefix <= s
    {
      assert key + s in data;
      assert (key + s)[|key|..|key| + |prefix|] == (key + prefix)[|key|..];
    }
  }

  /**
   * A field saved for a contract is returned by the contract's scan under
   * its name; and, since ids are not delimited, the fields of a contract
   * whose id extends it by a byte are returned too, under that byte and
   * their name.
   */
  lemma StatesByIdListSavedAndExtendedIds(kv: map<Bytes, Stored>, id: Bytes, b: Byte, field: Bytes, value: Bytes, version: Bytes)
    requires field != []
    ensures var after := kv[ContractStateKey(id, field) := Versioned(value, version)];
      var data := WithPrefix(after, CONTRACT_STATE_PREFIX + id);
      var states := StatesOf(data, CONTRACT_STATE_PREFIX + id, data.Keys);
      field in states && states[field] == ContractStateValue(value, Some(version))
    ensures var after := kv[ContractStateKey(id + [b], field) := Versioned(value, version)];
      var data := WithPrefix(after, CONTRACT_STATE_PREFIX + id);
      var states := StatesOf(data, CONTRACT_STATE_PREFIX + id, data.Keys);
      [b] + field in states && states[[b] + field] == ContractStateValue(value, Some(version))
  {
    var key := CONTRACT_STATE_PREFIX + id;
    var after1 := kv[ContractStateKey(id, field) := Versioned(value, version)];
    StatesOfComplete(WithPrefix(after1, key), key);
    assert ContractStateKey(id, field) in WithPrefix(after1, key);
    StateKeysCollide(id, b, field);
    var after2 := kv[ContractStateKey(id + [b], field) := Versioned(value, version)];
    StatesOfComplete(WithPrefix(after2, key), key);
    assert ContractStateKey(id, [b] + field) in WithPrefix(after2, key);
  }
}
