# go-palletone core, modelled in Dafny

This project models six pieces of the PalletOne node and proves properties of them.

- **VSS response quorum** (`VssProtocol`, in `vss_protocol.dfy`). The mediator plugin takes part in the verifiable-secret-sharing exchange that builds the committee's threshold signing key.
  - The deal and response buffers are FIFO queues.
  - The per-(local mediator, dealer) response loop is a counter with a finished state and a certified state.
  - Routing a response to every local mediator other than its sender is the loop in `AddToResponseBuf`.
  - Deals are classified into error, complaint and approval.
  - Goroutines are explicit steps. The DKG handle's answers (`ProcessDeal`, `ProcessResponse`, `Certified`, `Deals`) are inputs to those steps.
- **Pledge list** (`Pledge`, in `pledge.dfy`). This is a total plus an ordered list of (address, amount) members, updated in place by `Add` and `Reduce`.
- **Transaction-hash set** (`TxSet`, in `tx_set.dfy`). The pool's set of hashes is a Go map held by reference. Two sets can share one map, and `exist` answers the opposite of its name.
- **Deposit chaincode forfeiture** (`Deposit`, in `deposit.dfy`; decimal parsing in `strconv.dfy`). The community applies to forfeit part of a node's deposit, and the foundation agrees or disagrees. On agreement, the remaining balance and the node's role decide whether the node loses everything, leaves its candidate list, or only loses part.
  - The chaincode stub is a class over a map of decoded state values.
  - Its failures are fixed per run.
- **Key-value storage** (`KvStore`, `StateDb`, `AccountState` and `ContractState`). This covers the `Store` and `StoreBytes` get/delete/put sequences, the fixed head keys and the canonical-hash key. It also covers the account and contract state databases:
  - keys built by prefix concatenation;
  - versioned writes and deletes;
  - batches;
  - scans that strip the prefix off each key;
  - balances updated with int64/uint64 wrap-around.
  - The database is a class over a map. Which reads, deletes and batch writes fail is fixed per database; puts take their outcomes in turn from a list, so a later put of one call can fail after an earlier one succeeded.
- **Validation errors** (`ValidationErrors`, in `validation_errors.dfy`). The table from validation code to name, with its gaps and its mismatched entries, and `NewValidateError`.

Shared pieces:
- `Uint64` models Go's fixed-width integers and the 8-byte big-endian number form.
- `Common` holds hashes, addresses and ASCII keys.
- `Wrappers` holds `Option` and `Result`.

Where the code behaves differently from what its names or its design suggest, the model follows the code and proves the difference:

- **A foreign dealer in a committee of three.** The response counter finishes only on equality with N-2, where N is the committee size. For a foreign dealer in a committee of three, the counter starts at 1, so it never finishes (`ForeignDealerNeverFinishesInCommitteeOfThree`). In general, finishing is reachable exactly for N >= 3 on a mediator's own deal and for N >= 4 on another dealer's deal (`QuorumReachable`).
- **One response too many.** Each local mediator hears about a dealer from exactly one more responder than it needs (`OneResponseLeftOver`). If the last response arrives after the loop has finished, it meets a deleted buffer and its delivery never completes (`MissingBufferNeverDelivers`).
- **`exist` is inverted.** So `delete` never removes anything (`DeleteChangesNothing`).
- **`StoreBytes` is not quite `Store`.** `StoreBytes` recognises "not found" by its error *text*, while `Store` compares the error value. Their errors and effects are equal except in two cases (`StoreBytesAgreesWithStore`). When another read error carries the text "leveldb: not found", `Store` fails and `StoreBytes` writes (`NotFoundTextSplitsStores`). When the trailing put of `StoreBytes` fails after its first put succeeded, `StoreBytes` reports the error with the value already stored, where `Store` succeeds (`StoreBytesTrailingPutFails`).
- **`Store` can lose the old entry.** When the delete succeeds and the put fails, the key is left with no entry at all (`StoreLosesEntryOnFailedPut`).
- **Read errors reset balances.** `UpdateAccountBalance` treats every read error as a zero balance (`ReadFailureResetsBalance`).
- **`SaveContract` can half-save.** When the record is stored and the mapping put fails, the call fails, the contract is left without its template mapping, and every later save of its id is refused by the count check (`SaveContractPartial`).
- **Contract ids are not delimited.** A stored id that extends a new id blocks `SaveContract` (`ExtendedIdBlocksSave`). The states of an extended id show up in `GetContractStatesById` (`StatesByIdListSavedAndExtendedIds`). The contracts of an extended template show up in `GetContractIdsByTpl` (`ExtendedTemplateListed`).
- **A unit code is misnamed.** Code 109, declared as the invalid-header-number code, is named "CHECK_HEADER_PASSED". Code 110 keeps its constant's full name "UNIT_STATE_INVALID_HEADER_TXROOT", with the "UNIT_STATE_" prefix the other unit names drop. Code 111 and codes 35 to 100 have no name and give an empty message.

## Model

| member | source | states |
|---|---|---|
| VssProtocol.InitialCount | consensus/mediatorplugin/vss_protocol.go:189-193 | the counter starts at 1 exactly when the dealer is another mediator, and at 0 for the mediator's own deal |
| VssProtocol.DrainRunning | consensus/mediatorplugin/vss_protocol.go:210-224 | a running loop fed k responses finishes exactly when the gap to respAmount-1 is between 1 and k, with the counter at respAmount-1; otherwise it is still running with the counter raised by k |
| VssProtocol.QuorumReachable | consensus/mediatorplugin/vss_protocol.go:188-224 | some number of responses finishes a fresh loop if and only if N >= 3 + the starting count |
| VssProtocol.FinishesAfterNeeded | consensus/mediatorplugin/vss_protocol.go:188-224 | when quorum is reachable, the loop runs until its Needed-th response and then finishes with counter N-2, carrying Certified()'s answer |
| VssProtocol.ForeignDealerNeverFinishesInCommitteeOfThree | consensus/mediatorplugin/vss_protocol.go:188-213 | in a committee of three, a loop about another dealer's deal never leaves the running state, however many responses arrive |
| VssProtocol.ReceiveIgnoresProcessResponse | consensus/mediatorplugin/vss_protocol.go:240-242 | every received response raises the counter by one, and finishing depends only on the counter, never on ProcessResponse's result |
| VssProtocol.CertifiedOnlyWhenFinished | consensus/mediatorplugin/vss_protocol.go:210-224 | Certified()'s answer changes nothing unless the response finishes the loop, and then it is the certified flag |
| VssProtocol.OneResponseLeftOver | consensus/mediatorplugin/vss_protocol.go:148-193 | with distinct addresses, the mediators whose responses about a dealer reach a local mediator number one more than the loop needs to finish |
| VssProtocol.DeliverReachesEveryPeer | consensus/mediatorplugin/vss_protocol.go:155-174 | a delivery that completes appends the response once to the (mediator, dealer) queue of every local mediator other than the sender, and leaves every other queue as it was |
| VssProtocol.MissingBufferNeverDelivers | consensus/mediatorplugin/vss_protocol.go:169-173 | if any local mediator other than the sender lacks a buffer for the dealer, delivery never completes |
| VssProtocol.ClassifyDeal | consensus/mediatorplugin/vss_protocol.go:63-93 | a deal gives a broadcast response iff there is a handle and ProcessDeal approved it; a complaint iff there is a handle and the response is not an approval; dropped iff there is a handle and ProcessDeal failed |
| VssProtocol.RemoveBuffer | consensus/mediatorplugin/vss_protocol.go:243-244 | the finish deletes exactly the (local, dealer) registry entry, and every other entry keeps its channel |
| VssProtocol.MediatorPlugin.constructor | consensus/mediatorplugin/vss_protocol.go:140-143 | models the starting state the handlers assume (a mediator has no deal buffer until its first deal creates one): the plugin starts with empty deal buffers, no loops, quit open and nothing published, over the given response buffers |
| VssProtocol.MediatorPlugin.AddToDealBuf | consensus/mediatorplugin/vss_protocol.go:127-146 | nothing happens when group signing is disabled; otherwise a missing buffer is created with capacity N-1 and the deal goes to its back, or the sender blocks on a full buffer |
| VssProtocol.MediatorPlugin.AddToResponseBuf | consensus/mediatorplugin/vss_protocol.go:148-175 | nothing happens when group signing is disabled; otherwise the loop over local mediators has the effect of Deliver, for the sender given by the response's source index and the dealer given by its index |
| VssProtocol.MediatorPlugin.StartResponseLoop | consensus/mediatorplugin/vss_protocol.go:181-233 | a mediator without a DKG handle starts nothing; otherwise one running loop is added, with its starting count, respAmount N-1 and the channel read at start |
| VssProtocol.MediatorPlugin.ProcessVSSDeal | consensus/mediatorplugin/vss_protocol.go:59-98 | the decision is ClassifyDeal's; a loop starts exactly on a complaint or an approval, and the response is published exactly on approval |
| VssProtocol.MediatorPlugin.PublishDeals | consensus/mediatorplugin/vss_protocol.go:112-119 | every deal is published once, tagged with its map key as destination index, after what was published before |
| VssProtocol.MediatorPlugin.StartAndPublish | consensus/mediatorplugin/vss_protocol.go:109-119 | one mediator's round starts one loop about its own deal and publishes each of its deals once |
| VssProtocol.MediatorPlugin.BroadcastVSSDeals | consensus/mediatorplugin/vss_protocol.go:100-121 | exactly the handles whose Deals() succeeded start a loop about their own deal, one loop each (as many new loops as such mediators); the new deal events are exactly those mediators' deals, and as many as their deals in total |
| VssProtocol.DealEventsCount | consensus/mediatorplugin/vss_protocol.go:112-119 | distinct keys give distinct events, so a mediator publishes as many events as it has deals |
| VssProtocol.MediatorPlugin.ReceiveResponse | consensus/mediatorplugin/vss_protocol.go:240-254 | a ready loop takes the oldest response and counts it; on finish the pair's registry entry is deleted, and signing starts for the local mediator only if certified; a loop that is not ready changes nothing |
| VssProtocol.MediatorPlugin.TakeQuit | consensus/mediatorplugin/vss_protocol.go:236-238 | a running loop exits exactly when quit is closed, and nothing else changes |
| VssProtocol.MediatorPlugin.Shutdown | consensus/mediatorplugin/vss_protocol.go:237 | after shutdown, quit is closed |
| Pledge.IndexOf | dag/modules/pledge.go:43-47 | the index found is the first member with the address, and None means no member has it |
| Pledge.AddCredits | dag/modules/pledge.go:41-50 | Add raises the address's amount by the uint64 sum and no other amount; an existing member is updated in place, and a new address is appended once at the end |
| Pledge.AddKeepsLedger | dag/modules/pledge.go:41-50 | without overflow, Add keeps "total equals the sum of member amounts" and "addresses are unique", and raises the total by the amount |
| Pledge.ReduceOutcomes | dag/modules/pledge.go:53-72 | an unknown address gives "Address not found" and changes nothing; asking for more than is held gives "Not enough amount" and changes nothing; otherwise the reduction succeeds, withdraws the whole amount when asked for 0 (else the amount asked), and lowers the total by it |
| Pledge.ReduceDebits | dag/modules/pledge.go:56-68 | a successful Reduce lowers only that address's amount by what was withdrawn, and the member disappears exactly when everything was withdrawn |
| Pledge.FullReduceKeepsOrder | dag/modules/pledge.go:63-66 | withdrawing everything removes that one member and keeps the others in order |
| Pledge.ReduceKeepsLedger | dag/modules/pledge.go:53-72 | Reduce keeps "total equals the sum of member amounts" and "addresses are unique", and the total falls by exactly what was withdrawn |
| Pledge.PledgeList.constructor | dag/modules/pledge.go:26-30 | a new list has total 0, no members and its date, and is valid |
| Pledge.PledgeList.Add | dag/modules/pledge.go:41-50 | the in-place update is AddTo with the total raised by the amount in uint64 arithmetic, and it keeps the ledger invariant when there is no overflow |
| Pledge.PledgeList.Reduce | dag/modules/pledge.go:53-72 | the in-place update and the returned values are ReduceFrom's, and the ledger invariant is kept |
| TxSet.InsertKeysIsUnion | dag/_txspool/txSet.go:33-41 | inserting gives the union of the old keys and the new ones, each new one mapped to true and each other old one unchanged |
| TxSet.InsertKeysIdempotent | dag/_txspool/txSet.go:37-57 | inserting the same hashes twice is inserting them once |
| TxSet.ReinsertKeepsSize | dag/_txspool/txSet.go:33-45 | re-inserting a present hash leaves the size unchanged |
| TxSet.DeleteChangesNothing | dag/_txspool/txSet.go:47-51 | delete leaves every map unchanged, because exist is true only for absent hashes |
| TxSet.TxHashSet.constructor | dag/_txspool/txSet.go:17-21 | a new set has a fresh, empty map of its own |
| TxSet.TxHashSet.Loop | dag/_txspool/txSet.go:24-26 | loop returns the set's own map, not a copy |
| TxSet.TxHashSet.Exist | dag/_txspool/txSet.go:28-31 | exist is true exactly when the hash is not in the map |
| TxSet.TxHashSet.Insert | dag/_txspool/txSet.go:33-35 | the map gains the hash mapped to true |
| TxSet.TxHashSet.InsertList | dag/_txspool/txSet.go:37-41 | the map becomes the union with the list's hashes |
| TxSet.TxHashSet.Size | dag/_txspool/txSet.go:43-45 | the size is the number of keys |
| TxSet.TxHashSet.Delete | dag/_txspool/txSet.go:47-51 | the map is unchanged |
| TxSet.TxHashSet.Merge | dag/_txspool/txSet.go:53-57 | the map becomes the union with the other set's keys |
| TxSet.TxHashSet.ReplaceBy | dag/_txspool/txSet.go:59-61 | the set now holds the other set's map itself |
| TxSet.ReplaceByShares | dag/_txspool/txSet.go:24-61 | after replaceBy, a hash inserted through the other set is seen through this set's loop |
| Deposit.ApplyOncePerTarget | contracts/example/go/deposit/deposit.go:1021-1033 | an application is rejected iff its target is already listed; otherwise it goes last, the old list is kept before it, the target becomes listed, and targets stay distinct |
| Deposit.VerdictOf | contracts/example/go/deposit/deposit.go:1053-1062 | "ok" and only "ok" agrees; "no" and only "no" disagrees |
| Deposit.DisposalByRemaining | contracts/example/go/deposit/deposit.go:1166-1276 | only an unknown role is an error; zero remaining forfeits everything from the role's list; a jury or developer below its minimum leaves its list; otherwise the node keeps its place; mediators have no minimum |
| Deposit.PartialForfeitConserves | contracts/example/go/deposit/deposit.go:1198-1206 | without overflow, the new balance is old + awards - amount, the history gains the application at its end, and balance plus total forfeited grows by exactly the award |
| Deposit.PartialForfeitWraps | contracts/example/go/deposit/deposit.go:1220-1226 | when the award overflows uint64, the balance wraps around instead of growing |
| Deposit.ForfeitAllOutcome | contracts/example/go/deposit/deposit.go:1144-1163 | a full forfeiture succeeds iff payout, list removal and delete all succeed; it then pays the foundation, removes the node from its list and deletes only its record; a failure keeps the state, and an earlier payout stays made |
| Deposit.Stub.constructor | contracts/example/go/deposit/deposit.go:130-131 | models the stub `Invoke` is handed: it starts with the given state, no payouts and no removals |
| Deposit.Stub.PutState | contracts/example/go/deposit/deposit.go:1038 | the value is stored unless writes fail, and then nothing changes |
| Deposit.Stub.DelState | contracts/example/go/deposit/deposit.go:1158 | the key is removed unless writes fail |
| Deposit.Stub.PayOutToken | contracts/example/go/deposit/deposit.go:1147 | the payout is recorded unless it fails |
| Deposit.Stub.MoveCandidate | contracts/example/go/deposit/deposit.go:1153 | the removal from the list is recorded unless it fails |
| Deposit.DepositBalance.constructor | contracts/example/go/deposit/deposit.go:669 | the record holds the decoded balance |
| Deposit.DepositBalance.Forfeit | contracts/example/go/deposit/deposit.go:1198-1206 | the in-place update of the balance is PartialForfeit of the old record |
| Deposit.IsInForfeitureList | contracts/example/go/deposit/deposit.go:1043-1050 | true iff some application in the list targets the address |
| Deposit.DepositChaincode.constructor | contracts/example/go/deposit/deposit.go:35-41 | the chaincode holds the foundation address and the jury and developer minimum deposits |
| Deposit.DepositChaincode.ApplyForForfeitureDeposit | contracts/example/go/deposit/deposit.go:970-1040 | AppliedForForfeiture: a wrong argument count is an error; an unparsable amount answers Success with an error text; a read error is returned; otherwise the list written is Applied's, or the duplicate is an error with nothing written |
| Deposit.DepositChaincode.HandleForForfeitureApplication | contracts/example/go/deposit/deposit.go:641-708 | HandledApplication: the argument count, the foundation caller, the target's deposit record and the time are checked in that order, each failure answering its error and changing nothing; then an unconfirmed check is refused, "no" answers the disagreement, and "ok" settles as Agreed says from the record read |
| Deposit.DepositChaincode.HandleForfeitureDepositApplication | contracts/example/go/deposit/deposit.go:1053-1062 | anything but "ok" or "no" is refused with nothing changed; "no" answers the disagreement's response with nothing changed; "ok" settles as Agreed says |
| Deposit.DepositChaincode.DisagreeForApplyForfeiture | contracts/example/go/deposit/deposit.go:1087-1105 | a read error, a missing list, an unlisted target or a failed removal is answered with its error; otherwise the removal succeeds |
| Deposit.DepositChaincode.AgreeForApplyForfeiture | contracts/example/go/deposit/deposit.go:1108-1141 | the list checks, the removal, an amount above the balance and an unknown role each give their error with nothing changed; otherwise the role and the remaining balance settle the deposit as Dispose says |
| Deposit.DepositChaincode.HandleRoleForfeitureDeposit | contracts/example/go/deposit/deposit.go:1166-1276 | the three role handlers settle the deposit as Dispose decides from the uint64 remainder: full forfeiture answers Success even on error; partial forfeiture leaves the list when asked |
| Deposit.DepositChaincode.ForfeitureAllDeposit | contracts/example/go/deposit/deposit.go:1144-1163 | payout, list removal and delete run in order and stop at the first error, as ForfeitAllSteps says |
| Deposit.DepositChaincode.ForfeitPart | contracts/example/go/deposit/deposit.go:1185-1232 | a failed payout or list removal answers its error and leaves the record; otherwise the record becomes PartialForfeit and is written back |
| Deposit.DepositChaincode.MarshalForBalance | contracts/example/go/deposit/deposit.go:537-547 | the record is written under the node's address, and a failed write is the response's error |
| Deposit.DepositChaincode.Invoke | contracts/example/go/deposit/deposit.go:130-281 | the balance query panics iff it has no argument; the two forfeiture functions respond and leave the state as AppliedForForfeiture and HandledApplication say; list and balance queries answer their read and change nothing; the package's other functions are handed on; an unknown name answers Success("Invoke error") |
| Strconv.ParseUintFormat | contracts/example/go/deposit/deposit.go:1002-1005 | the amount parser reads every uint64 back from its decimal form |
| Strconv.ParseIntFormat | contracts/example/go/deposit/deposit.go:691-694 | the time parser reads every int64 back from its decimal form |
| Strconv.ScanOverflows | contracts/example/go/deposit/deposit.go:1002-1005 | once the digits read so far pass the uint64 range, the parser stops with a range error |
| Strconv.ParseUintOverflow | contracts/example/go/deposit/deposit.go:1002-1005 | every number from 2^64 up, in decimal, is a range error, never a wrapped amount |
| Strconv.ParseRejectsNonDigits | contracts/example/go/deposit/deposit.go:1002-1005 | a non-digit anywhere but as a leading sign makes both parsers fail |
| Strconv.SignAloneIsSyntaxError | contracts/example/go/deposit/deposit.go:691-694 | a sign with no digits is a syntax error for both parsers |
| Strconv.EscapeChar | contracts/example/go/deposit/deposit.go:691-694 | an escape starts with a backslash exactly for the quote, the backslash and characters that are not printable |
| Strconv.QuoteRoundTrip | contracts/example/go/deposit/deposit.go:691-694 | the input quoted in a parse error's text can be read back: unescaping the quoted part gives the input |
| Strconv.QuotePlainText | contracts/example/go/deposit/deposit.go:691-694 | printable text without quotes or backslashes appears in the error text as it is |
| Strconv.QuoteEscapesQuoteMark | contracts/example/go/deposit/deposit.go:691-694 | the input `1"2` appears as `"1\"2"` |
| KvStore.Get | dag/storage/storage.go:78-80 | a read succeeds iff the key is present and its read does not fail, and returns the stored entry; not-found is reported iff the key is absent and its read does not fail |
| KvStore.Put | dag/storage/storage.go:84 | a put stores the entry unless puts fail, and then changes nothing |
| KvStore.Delete | dag/storage/storage.go:90 | a delete removes the key unless deletes fail, and then changes nothing |
| KvStore.WithPrefix | dag/storage/statedb_contract.go:79 | `getprefix` (called here and at lines 61, 209 and 235): the scan holds exactly the entries whose keys start with the prefix |
| KvStore.LastOpOn | dag/storage/statedb_contract.go:148-165 | the last batch operation on a key names that key, and none exists iff no operation names it |
| KvStore.ApplyLastWins | dag/storage/statedb_contract.go:160-165 | after a batch, a key holds what the last operation on it wrote, nothing if that was a delete, and its old entry if no operation named it |
| KvStore.VersionedEntry | dag/storage/statedb_contract.go:131-140 | the versioned form of a value succeeds iff the key is not one whose versioned store fails, and carries the value and the version |
| KvStore.StoreEffect | dag/storage/storage.go:71-100 | Store succeeds iff encoding works, the read does not fail, the put succeeds and, for a present key, the delete succeeds; success leaves exactly the new value under the key; an encoding or read error changes nothing |
| KvStore.StoreLosesEntryOnFailedPut | dag/storage/storage.go:90-96 | when the delete succeeds and the put fails, the key is left with no entry |
| KvStore.StoreIdempotent | dag/storage/storage.go:71-100 | storing the same value twice is storing it once |
| KvStore.StoreBytesAgreesWithStore | dag/storage/storage.go:102-129 | unless a read error carries the not-found text, or the trailing put fails after the first succeeded, StoreBytes has Store's error and effect, its extra put included |
| KvStore.StoreBytesTrailingPutFails | dag/storage/storage.go:102-129 | when the first put succeeds and the trailing put fails, StoreBytes reports that put's error with the value stored, while Store succeeds with the same contents |
| KvStore.NotFoundTextSplitsStores | dag/storage/storage.go:102-129 | a read error with the not-found text makes Store fail with it and StoreBytes write the value |
| KvStore.CanonicalKey | dag/storage/storage.go:31-37 | the canonical key is the prefix, the number's 8-byte form and the suffix |
| KvStore.CanonicalKeyInjective | dag/storage/storage.go:31-37 | distinct unit numbers have distinct canonical keys |
| KvStore.MinimalBigEndian | dag/storage/storage.go:63-68 | the progress counter is written as its shortest big-endian form, which reads back as the counter |
| KvStore.Database.constructor | dag/storage/storage.go:71 | models the database `Store` and the other helpers are handed: it holds the given entries and fails in the given ways |
| KvStore.Database.PutEntry | dag/storage/storage.go:84 | the in-place put is Put |
| KvStore.Database.DeleteEntry | dag/storage/storage.go:90 | the in-place delete is Delete |
| KvStore.Database.WriteBatch | dag/storage/statedb_contract.go:160-165 | a batch write applies every operation in order or, when it fails, none |
| KvStore.Store | dag/storage/storage.go:71-100 | the get/delete/put sequence has StoreOutcome's effect and error |
| KvStore.StoreBytes | dag/storage/storage.go:102-129 | the get/delete/put/put sequence has StoreBytesOutcome's effect and error, each put taking its own outcome |
| KvStore.PutCanonicalHash | dag/storage/storage.go:31-37 | the hash is put under the canonical key of the number and nothing else changes |
| KvStore.PutHeadHeaderHash | dag/storage/storage.go:38-43 | the hash is put under the head-header key only |
| KvStore.PutHeadUnitHash | dag/storage/storage.go:46-51 | the hash is put under the head-unit key only |
| KvStore.PutHeadFastUnitHash | dag/storage/storage.go:54-59 | the hash is put under the head-fast-unit key only |
| KvStore.PutTrieSyncProgress | dag/storage/storage.go:63-68 | the counter's shortest big-endian form is put under the trie-sync key only |
| Uint64.SignedAddWraps | dag/storage/statedb_account.go:58 | uint64(int64(balance) + add) is balance + add modulo 2^64 |
| Uint64.Uint64BytesRoundTrip | dag/storage/statedb_account.go:62-71 | a balance written in its 8-byte form reads back unchanged |
| Uint64.Uint64ToBytesInjective | dag/storage/storage.go:31-37 | distinct numbers have distinct 8-byte forms |
| StateDb.CollectStates | dag/storage/statedb_account.go:150-167 | the scan returns every non-empty key suffix with its entry's value and version, and reports a split error iff some entry does not split, without stopping |
| StateDb.StatesOfComplete | dag/storage/statedb_account.go:155-166 | every returned suffix is non-empty and comes from the entry under prefix + suffix, and every longer key is returned |
| StateDb.SaveWrite | dag/storage/statedb_account.go:113-117 | a delete write removes the key; any other write stores the versioned value; it succeeds iff the step it needs succeeds, and a failure changes nothing |
| StateDb.BatchOpOf | dag/storage/statedb_account.go:129-141 | a write becomes a batch operation on its key unless its versioned form fails |
| StateDb.SaveWriteTo | dag/storage/statedb_contract.go:87-95 | the in-place write is SaveWrite |
| AccountState.AccountKey | dag/storage/statedb_account.go:33-37 | the account key is the account prefix followed by the address |
| AccountState.PtnBalanceKey | dag/storage/statedb_account.go:39-43 | the balance key is the balance prefix followed by the address |
| AccountState.AccountStateKey | dag/storage/statedb_account.go:108-112 | a state key is the account key followed by the field |
| AccountState.PtnBalanceKeyInjective | dag/storage/statedb_account.go:39-43 | distinct addresses have distinct balance keys |
| AccountState.AccountStateKeyInjective | dag/storage/statedb_account.go:108-112 | a state key determines its address and field |
| AccountState.BalanceAfterUpdate | dag/storage/statedb_account.go:45-60 | when the read does not fail, the update succeeds iff the put does, the new balance is old + add modulo 2^64, and no other key changes |
| AccountState.MissingBalanceIsZero | dag/storage/statedb_account.go:47-58 | a missing balance reads as 0, and updating it stores the wrapped amount |
| AccountState.OverdraftWraps | dag/storage/statedb_account.go:58 | taking more than the balance wraps to 2^64 + balance + add |
| AccountState.ReadFailureResetsBalance | dag/storage/statedb_account.go:50-59 | a failing read counts as balance 0, so the update overwrites the balance with the wrapped amount |
| AccountState.UpdateAccountBalance | dag/storage/statedb_account.go:45-60 | the read-then-put has UpdateOutcome's effect and error |
| AccountState.GetAccountBalance | dag/storage/statedb_account.go:62-71 | the balance read is BalanceIn, and an absent key gives 0 |
| AccountState.SaveAccountState | dag/storage/statedb_account.go:108-123 | the write goes to the account's state key as a delete or a versioned store |
| AccountState.AccountBatchComplete | dag/storage/statedb_account.go:129-141 | when no versioned store fails, the batch holds one operation per write, in order, on the write's state key |
| AccountState.FailedWriteSkipped | dag/storage/statedb_account.go:133-137 | a write whose versioned store fails is left out of the batch, and the others go on |
| AccountState.SaveAccountStates | dag/storage/statedb_account.go:125-148 | only the batch write's error is returned; on success the batch of all writes is applied in order, and on failure nothing changes |
| AccountState.GetAllAccountStates | dag/storage/statedb_account.go:150-167 | the result is the account's states with the account prefix stripped, and the error is reported iff some entry under the account does not split |
| AccountState.SavedStateIsListed | dag/storage/statedb_account.go:108-167 | a saved state is listed under its field with its value and version |
| AccountState.ScanStaysInAccount | dag/storage/statedb_account.go:150-155 | another account's state key is never in the account's scan |
| ContractState.ContractKey | dag/storage/statedb_contract.go:45-48 | the contract key is the contract prefix followed by the id |
| ContractState.TplMapKey | dag/storage/statedb_contract.go:71-75 | the mapping key starts with the mapping prefix and the template id |
| ContractState.ContractStateKey | dag/storage/statedb_contract.go:97-101 | the state key is the state prefix, the id and the field |
| ContractState.StateKeysCollide | dag/storage/statedb_contract.go:97-101 | the id extended by one byte with a field is the same key as the id with that byte in front of the field |
| ContractState.StateKeyInjectiveForEqualLengths | dag/storage/statedb_contract.go:97-101 | among ids of one length, a state key determines the id and the field |
| ContractState.SaveContractEffect | dag/storage/statedb_contract.go:37-50 | SaveContract succeeds iff no key starts with the contract key, encoding works and both puts succeed; it then writes the contract and its template mapping |
| ContractState.ExtendedIdBlocksSave | dag/storage/statedb_contract.go:40-44 | a stored contract whose id extends the new id blocks the save with the "existed" error |
| ContractState.SaveContractOnce | dag/storage/statedb_contract.go:40-44 | a contract once saved cannot be saved again under its id, whatever the database's faults then |
| ContractState.SaveContractPartial | dag/storage/statedb_contract.go:37-50 | when the record put succeeds and the mapping put fails, the call fails with the record stored and no mapping added, and every later save of the id is refused |
| ContractState.SaveContract | dag/storage/statedb_contract.go:37-50 | the count check, store and mapping have SaveContractOutcome's effect and error, each put taking its own outcome |
| ContractState.SaveTplToContractMapping | dag/storage/statedb_contract.go:71-75 | the contract id is put under its template mapping key |
| ContractState.GetContractIdsByTpl | dag/storage/statedb_contract.go:77-85 | one id per entry under the template's prefix, and the ids are exactly the values stored there |
| ContractState.SavedContractListedByTemplate | dag/storage/statedb_contract.go:45-85 | a saved contract is listed under its template |
| ContractState.ExtendedTemplateListed | dag/storage/statedb_contract.go:77-85 | in any database, a contract mapped under a template whose id extends the queried one is listed too |
| ContractState.SaveContractState | dag/storage/statedb_contract.go:87-95 | the write goes to the contract's state key as a delete or a versioned store |
| ContractState.ContractBatchOutcome | dag/storage/statedb_contract.go:148-159 | building the batch fails iff some versioned store fails; otherwise operation i is write i on its state key |
| ContractState.ContractBatchPrefixFails | dag/storage/statedb_contract.go:155-157 | the first failing store decides the error, whatever follows it |
| ContractState.SaveContractStates | dag/storage/statedb_contract.go:142-168 | a store error is returned before the batch is written and nothing changes; otherwise the batch write's error is returned, and on success every write is applied in order |
| ContractState.GetContractStatesById | dag/storage/statedb_contract.go:207-227 | an empty scan is an error with no states; otherwise the states are the scan's, id prefix stripped, with a split error iff some entry does not split |
| ContractState.GetContractStatesByPrefix | dag/storage/statedb_contract.go:233-253 | as GetContractStatesById over id + prefix, stripping only the id part |
| ContractState.PrefixQueryKeepsPrefix | dag/storage/statedb_contract.go:233-253 | every key the prefix query returns still starts with the prefix |
| ContractState.StatesByIdListSavedAndExtendedIds | dag/storage/statedb_contract.go:207-227 | a saved state is listed under its field, and a state of the id extended by one byte is listed too, under the byte and the field |
| ValidationErrors.NewValidateError | validator/errors.go:134-139 | no error iff the code is VALID; otherwise the message is the table's name for the code |
| ValidationErrors.UnnamedCodesGiveEmptyMessage | validator/errors.go:81-139 | codes 35 to 100 and 111 give an error with an empty message |
| ValidationErrors.OnlyHeaderTimeUnnamed | validator/errors.go:27-132 | of the declared codes only UNIT_STATE_INVALID_HEADER_TIME has no name, and every named code is declared |
| ValidationErrors.MisnamedUnitCodes | validator/errors.go:125-126 | code 109 gives "CHECK_HEADER_PASSED" and code 110 "UNIT_STATE_INVALID_HEADER_TXROOT" |
| ValidationErrors.TxCodesNamed | validator/errors.go:81-132 | every transaction code 0-34 and 254-256 has a non-empty name |

## Left out

- The DKG handle's cryptography (`ProcessDeal`, `ProcessResponse`, `Certified`, `Deals`) and `signUnitsTBLS`/`recoverUnitsTBLS` are not modelled: their answers are step inputs, and starting signing is a recorded event.
- Goroutines, `event.Feed` subscriptions and `select` are not modelled: each goroutine's step is a method, and a publish is an append to a feed sequence.
- `startVSSProtocol` and `launchProcessDealLoops` only start goroutines, and `processDealLoop` is empty, so none of them is modelled.
- The code that creates response buffers is not part of this model: the plugin's constructor takes the buffers that exist at the start of a term.
- `getLocalActiveDKG`'s error is modelled as the local mediator lacking a handle; its message is logging.
- The values of the key prefixes and fixed keys (`HeaderCanon_Prefix`, `ACCOUNT_INFO_PREFIX`, `CONTRACT_STATE_PREFIX` and the others) are not part of this model: short placeholder strings stand in for them. An address is 21 bytes here for the same reason.
- RLP and JSON encoding are not modelled: an encoding is given as a result that may be an error, and the stub holds decoded values.
- The versioned helpers `storeBytesWithVersion`, `retrieveWithVersion` and `splitValueAndVersion` are not part of this model. An entry is either raw bytes or a value with its version, so the database is not a plain bytes-to-bytes map, and the split error's text is a placeholder.
- Errors of `batch.Put`/`batch.Delete` before `Write` are not modelled; only the versioned helper's error and the final write can fail.
- `getCountByPrefix` is modelled as the size of the prefix scan.
- `BytesToUint64` on fewer than eight bytes reads the bytes it has; the helper's own code is not part of this model.
- `moveInApplyForForfeitureList` is not part of this model: its error or the application it returns is an input, and its effect on the stored list is not modelled.
- `award.GetAwardsWithCoins`, `time.Now`, `PayOutToken`, `moveCandidate` and `GetInvokeAddress` are inputs or recorded effects.
- `Init` and its configuration parsing are not modelled: the chaincode's constructor takes the foundation address and the jury and developer minimum deposits.
- The fields of `DepositBalance` other than the total, the last modification time and the forfeiture history are not modelled.
- The asset of `InvokeTokens` is not modelled: an amount is a PTN amount.
- The package's other handlers (becoming a mediator, quitting, paying in, cashback) are outside the forfeiture core: `Invoke` hands them on.
- The commented-out code of deposit.go is not modelled.
- Strconv.IsPrint: Go's Unicode printability tables are not modelled above U+00FF. Every character there counts as printable, so `Quote` writes it as it is and never produces a `\u` or `\U` escape for one.
- Pledge members are values, not shared references: no other holder of a member sees its amount change.
- `LookupAccount`, `GetAccountState`, `GetContract`, `GetAllContracts`, `GetContractJury`, `SaveContractJury`, `GetContractState`, `StoreString` and the deploy, invoke, stop and signature records are outside the storage core and are not modelled.
- `GetContractKeyValue` works by reflection and is not modelled.
- Logging and the `fmt.Println` calls are not modelled.
- `size` returns an int64 in Go; the model returns the count unbounded, since a map never holds 2^63 hashes.
