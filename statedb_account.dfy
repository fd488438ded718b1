/**
 * The account half of the state database: the PTN balance of an address,
 * kept as eight big-endian bytes and updated by a signed amount with Go's
 * 64-bit wrap-around, and the account's state keys, written one by one or
 * in a batch and read back by a prefix scan.
 */
module AccountState {
  import opened Wrappers
  import opened Uint64
  import opened Common
  import opened KvStore
  import opened StateDb

  /** Placeholder values: the prefixes are defined outside the modelled files. */
  const ACCOUNT_INFO_PREFIX: Bytes := Ascii("ai")
  const ACCOUNT_PTN_BALANCE_PREFIX: Bytes := Ascii("ab")

  /** `accountKey`: the account prefix followed by the address. */
  function AccountKey(address: Address): (k: Bytes)
    ensures ACCOUNT_INFO_PREFIX <= k && k[|ACCOUNT_INFO_PREFIX|..] == address
  {
    ACCOUNT_INFO_PREFIX + address
  }

  /** `ptnBalanceKey`: the balance prefix followed by the address. */
  function PtnBalanceKey(address: Address): (k: Bytes)
    ensures ACCOUNT_PTN_BALANCE_PREFIX <= k && k[|ACCOUNT_PTN_BALANCE_PREFIX|..] == address
  {
    ACCOUNT_PTN_BALANCE_PREFIX + address
  }

  /** The key of one state field of an account: the account key followed by the field. */
  function AccountStateKey(address: Address, field: Bytes): (k: Bytes)
    ensures AccountKey(address) <= k && k[|AccountKey(address)|..] == field
  {
    AccountKey(address) + field
  }

  /** Addresses own distinct balance keys. */
  lemma PtnBalanceKeyInjective(a: Address, b: Address)
    requires PtnBalanceKey(a) == PtnBalanceKey(b)
    ensures a == b
  {
  }

  /**
   * Addresses have one length, so a state key names exactly one account and
   * one field.
   */
  lemma {:induction false} AccountStateKeyInjective(a: Address, f: Bytes, b: Address, g: Bytes)
    requires AccountStateKey(a, f) == AccountStateKey(b, g)
    ensures a == b && f == g
  {
    var k := AccountStateKey(a, f);
    var n := |ACCOUNT_INFO_PREFIX|;
    assert a == k[n..n + ADDRESS_LENGTH];
    assert b == k[n..n + ADDRESS_LENGTH];
  }

  /**
   * The balance a read yields: the number in the stored bytes, or 0 when the
   * read fails for any reason, an absent key included.
   */
  function BalanceIn(kv: map<Bytes, Stored>, fs: DbFaults, address: Address): U64
  {
    match Get(kv, fs, PtnBalanceKey(address))
    case Ok(s) => BytesToUint64(RawOf(s))
    case Err(_) => 0
  }

  /** `UpdateAccountBalance`: the new balance `uint64(int64(old) + addAmount)`, put in eight bytes. */
  function UpdateOutcome(kv: map<Bytes, Stored>, fs: DbFaults, address: Address, addAmount: I64): Write
  {
    var balance := ToUint64(AddInt64(ToInt64(BalanceIn(kv, fs, address)), addAmount));
    Put(kv, fs, PtnBalanceKey(address), Raw(Uint64ToBytes(balance)))
  }

  /**
   * A successful update makes the balance the old one plus the amount,
   * modulo 2^64, and changes no other key; a failed one changes nothing.
   */
  lemma BalanceAfterUpdate(kv: map<Bytes, Stored>, fs: DbFaults, address: Address, addAmount: I64)
    requires PtnBalanceKey(address) !in fs.readErrors
    ensures var w := UpdateOutcome(kv, fs, address, addAmount);
      && (w.err.None? <==> PutOutcome(fs, 0).None?)
      && (w.err.None? ==> BalanceIn(w.kv, fs, address) == Wrap(BalanceIn(kv, fs, address) + addAmount))
      && (forall k | k != PtnBalanceKey(address) :: Lookup(w.kv, k) == Lookup(kv, k))
  {
    SignedAddWraps(BalanceIn(kv, fs, address), addAmount);
    Uint64BytesRoundTrip(Wrap(BalanceIn(kv, fs, address) + addAmount));
  }

  /** An account without a balance entry starts from zero. */
  lemma MissingBalanceIsZero(kv: map<Bytes, Stored>, address: Address, addAmount: I64)
    requires PtnBalanceKey(address) !in kv
    ensures BalanceIn(kv, NO_FAULTS, address) == 0
    ensures BalanceIn(UpdateOutcome(kv, NO_FAULTS, address, addAmount).kv, NO_FAULTS, address) == Wrap(addAmount)
  {
    BalanceAfterUpdate(kv, NO_FAULTS, address, addAmount);
  }

  /**
   * Taking more than the balance holds does not fail: the balance wraps to
   * a number near 2^64.
   */
  lemma OverdraftWraps(kv: map<Bytes, Stored>, address: Address, addAmount: I64)
    requires addAmount < 0 && BalanceIn(kv, NO_FAULTS, address) + addAmount < 0
    ensures BalanceIn(UpdateOutcome(kv, NO_FAULTS, address, addAmount).kv, NO_FAULTS, address)
      == TWO_64 + BalanceIn(kv, NO_FAULTS, address) + addAmount
  {
    BalanceAfterUpdate(kv, NO_FAULTS, address, addAmount);
  }

  /**
   * A read that fails for a stored balance is taken for a missing one: the
   * update overwrites the balance with the amount alone.
   */
  lemma ReadFailureResetsBalance(kv: map<Bytes, Stored>, fs: DbFaults, address: Address, addAmount: I64)
    requires PtnBalanceKey(address) in fs.readErrors && PutOutcome(fs, 0).None?
    ensures var w := UpdateOutcome(kv, fs, address, addAmount);
      w.err.None? && w.kv[PtnBalanceKey(address)] == Raw(Uint64ToBytes(Wrap(addAmount)))
  {
    SignedAddWraps(0, addAmount);
  }

  /** `UpdateAccountBalance`. */
  method UpdateAccountBalance(db: Database, address: Address, addAmount: I64) returns (err: Option<string>)
    modifies db
    ensures Write(err, db.kv, db.faults) == UpdateOutcome(old(db.kv), old(db.faults), address, addAmount)
  {
    var key := PtnBalanceKey(address);
    var balance: U64 := 0;
    var data := Get(db.kv, db.faults, key);
    if data.Ok? {
      balance := BytesToUint64(RawOf(data.value));
    }
    balance := ToUint64(AddInt64(ToInt64(balance), addAmount));
    err := db.PutEntry(key, Raw(Uint64ToBytes(balance)));
  }

  /** `GetAccountBalance`: the stored balance, 0 when there is none or it cannot be read. */
  method GetAccountBalance(db: Database, address: Address) returns (balance: U64)
    ensures balance == BalanceIn(db.kv, db.faults, address)
    ensures PtnBalanceKey(address) !in db.kv ==> balance == 0
  {
    balance := 0;
    var data := Get(db.kv, db.faults, PtnBalanceKey(address));
    if data.Ok? {
      balance := BytesToUint64(RawOf(data.value));
    }
  }

  /** `SaveAccountState`: one write under the account's key for its field. */
  method SaveAccountState(db: Database, address: Address, write: ContractWriteSet, version: Bytes) returns (err: Option<string>)
    modifies db
    ensures Write(err, db.kv, db.faults) == SaveWrite(old(db.kv), old(db.faults), AccountStateKey(address, write.key), write, version)
  {
    err := SaveWriteTo(db, AccountStateKey(address, write.key), write, version);
  }

  /**
   * The batch `SaveAccountStates` builds: one operation per write, in order,
   * except the writes whose versioned store fails, which are left out.
   */
  function AccountBatch(fs: DbFaults, address: Address, writes: seq<ContractWriteSet>, version: Bytes): (ops: seq<BatchOp>)
    ensures |ops| <= |writes|
    decreases |writes|
  {
    if writes == [] then []
    else
      var w := writes[|writes| - 1];
      var before := AccountBatch(fs, address, writes[..|writes| - 1], version);
      match BatchOpOf(fs, AccountStateKey(address, w.key), w, version)
      case Ok(op) => before + [op]
      case Err(_) => before
  }

  /**
   * Without faults on the versioned store the batch has one operation per
   * write: the i-th write becomes the i-th operation.
   */
  lemma {:induction false} AccountBatchComplete(fs: DbFaults, address: Address, writes: seq<ContractWriteSet>, version: Bytes)
    requires fs.versionErrors == map[]
    ensures var ops := AccountBatch(fs, address, writes, version);
      |ops| == |writes| &&
      forall i | 0 <= i < |writes| ::
        ops[i] == (if writes[i].isDelete then BatchDelete(AccountStateKey(address, writes[i].key))
                   else BatchPut(AccountStateKey(address, writes[i].key), Versioned(writes[i].value, version)))
    decreases |writes|
  {
    if writes != [] {
      var n := |writes| - 1;
      AccountBatchComplete(fs, address, writes[..n], version);
      assert forall i | 0 <= i < n :: writes[..n][i] == writes[i];
    }
  }

  /** A write whose versioned store fails contributes no operation at all. */
  lemma {:induction false} FailedWriteSkipped(fs: DbFaults, address: Address, writes: seq<ContractWriteSet>, version: Bytes, key: Bytes)
    requires key in fs.versionErrors
    requires forall i | 0 <= i < |writes| :: AccountStateKey(address, writes[i].key) == key ==> !writes[i].isDelete
    ensures forall op | op in AccountBatch(fs, address, writes, version) :: op.key != key
    decreases |writes|
  {
    if writes != [] {
      var n := |writes| - 1;
      assert forall i | 0 <= i < n :: writes[..n][i] == writes[i];
      FailedWriteSkipped(fs, address, writes[..n], version, key);
    }
  }

  /**
   * `SaveAccountStates`: the writes go into one batch, the failures of
   * single writes are dropped, and only the batch write can fail the call.
   */
  method SaveAccountStates(db: Database, address: Address, writeset: seq<ContractWriteSet>, version: Bytes) returns (err: Option<string>)
    modifies db
    ensures db.faults == old(db.faults)
    ensures err == db.faults.batchWrite
    ensures err.None? ==> db.kv == Apply(old(db.kv), AccountBatch(db.faults, address, writeset, version))
    ensures err.Some? ==> db.kv == old(db.kv)
  {
    var ops: seq<BatchOp> := [];
    var i := 0;
    while i < |writeset|
      invariant 0 <= i <= |writeset|
      invariant ops == AccountBatch(db.faults, address, writeset[..i], version)
    {
      var write := writeset[i];
      var op := BatchOpOf(db.faults, AccountStateKey(address, write.key), write, version);
      if op.Ok? {
        ops := ops + [op.value];
      }
      assert writeset[..i + 1][..i] == writeset[..i];
      i := i + 1;
    }
    assert writeset[..i] == writeset;
    err := db.WriteBatch(ops);
  }

  /** `GetAllAccountStates`: every state field of the account, keyed by field. */
  method GetAllAccountStates(db: Database, address: Address) returns (result: map<Bytes, ContractStateValue>, err: Option<string>)
    ensures result == StatesOf(WithPrefix(db.kv, AccountKey(address)), AccountKey(address), WithPrefix(db.kv, AccountKey(address)).Keys)
    ensures err.Some? <==> exists k | k in db.kv && AccountKey(address) <= k :: Unsplittable(db.kv[k])
  {
    var key := AccountKey(address);
    var data := WithPrefix(db.kv, key);
    result, err := CollectStates(data, key);
  }

  /**
   * A field saved for an account is returned by the account's scan under
   * its name, with the saved value and version.
   */
  lemma SavedStateIsListed(kv: map<Bytes, Stored>, fs: DbFaults, address: Address, write: ContractWriteSet, version: Bytes)
    requires write.key != [] && !write.isDelete
    requires SaveWrite(kv, fs, AccountStateKey(address, write.key), write, version).err.None?
    ensures var after := SaveWrite(kv, fs, AccountStateKey(address, write.key), write, version).kv;
      var data := WithPrefix(after, AccountKey(address));
      var states := StatesOf(data, AccountKey(address), data.Keys);
      write.key in states && states[write.key] == ContractStateValue(write.value, Some(version))
  {
    var key := AccountStateKey(address, write.key);
    var after := SaveWrite(kv, fs, key, write, version).kv;
    var data := WithPrefix(after, AccountKey(address));
    StatesOfComplete(data, AccountKey(address));
    assert key in data;
  }

  /** The scan of one account never returns another account's fields. */
  lemma ScanStaysInAccount(kv: map<Bytes, Stored>, a: Address, b: Address, field: Bytes)
    requires a != b
    ensures AccountStateKey(b, field) !in WithPrefix(kv, AccountKey(a))
  {
    var k := AccountStateKey(b, field);
    var n := |ACCOUNT_INFO_PREFIX|;
    assert k[..n + ADDRESS_LENGTH] == AccountKey(b);
  }
}
