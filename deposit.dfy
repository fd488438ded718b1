/**
 * The forfeiture part of the deposit chaincode. The community applies to have
 * part of a node's deposit forfeited, and the foundation agrees or disagrees.
 * On agreement the deposit is cut according to the node's role and to what
 * remains.
 *
 * The chaincode stub is a key-value map of typed state values. Every call out
 * of the chaincode whose code is not part of this model is an oracle: the
 * stub's failures, the token payout, removing a candidate from its list,
 * taking an application out of the forfeiture list, the coin-age award and
 * the clock.
 */
module Deposit {
  import opened Wrappers
  import opened Uint64
  import opened Strconv

  /** `modules.Forfeiture`: one application, with its amount in PTN. */
  datatype Forfeiture = Forfeiture(applyAddress: string, forfeitureAddress: string, applyTokens: U64,
                                   forfeitureRole: string, applyTime: int)

  /** The parts of `modules.DepositBalance` that forfeiture reads and writes. */
  datatype BalanceRecord = BalanceRecord(totalAmount: U64, lastModifyTime: int, forfeitureValues: seq<Forfeiture>)

  /** What the stub holds under a key, already decoded. */
  datatype StateValue =
    | ForfeitureList(list: seq<Forfeiture>)
    | Balance(record: BalanceRecord)
    | Opaque(bytes: Bytes)

  datatype Payload = Text(text: string) | Stored(value: StateValue)

  /** `pb.Response`: `shim.Success(payload)` or `shim.Error(message)`. */
  datatype Response = Success(payload: Payload) | Error(message: string)

  /** A token transfer out of the contract (`PayOutToken`). */
  datatype Payout = Payout(to: string, amount: U64)

  /** A candidate taken off one of the candidate lists (`moveCandidate`). */
  datatype CandidateRemoval = CandidateRemoval(listKey: string, addr: string)

  /**
   * How the calls out of the chaincode fail in one run: reads of the listed
   * keys fail with the given text, and each kind of write fails when set.
   */
  datatype Faults = Faults(readErrors: map<string, string>, write: Option<string>,
                           payOut: Option<string>, move: Option<string>)

  /** Everything the forfeiture code can change. */
  datatype World = World(state: map<string, StateValue>, payouts: seq<Payout>, removals: seq<CandidateRemoval>)

  /** A sequence of calls out: the first error, if any, and the world it leaves. */
  datatype Step = Step(err: Option<string>, world: World)

  const LIST_FOR_FORFEITURE: string := "ListForForfeiture"

  /** Reading a key that holds a value of another kind fails as JSON decoding does; its text is not modelled. */
  const UNREADABLE: string := "unreadable state value"

  // ---------------------------------------------------------------------------
  // The forfeiture list
  // ---------------------------------------------------------------------------

  /** Some application in the list targets the address. */
  predicate Listed(addr: string, list: seq<Forfeiture>)
  {
    exists i | 0 <= i < |list| :: list[i].forfeitureAddress == addr
  }

  /** No two applications in the list target the same address. */
  predicate DistinctTargets(list: seq<Forfeiture>)
  {
    forall i, j | 0 <= i < j < |list| :: list[i].forfeitureAddress != list[j].forfeitureAddress
  }

  /**
   * The list `applyForForfeitureDeposit` writes back: a one-element list when
   * there was none, a rejection when the target is already listed, and
   * otherwise the old list with the application at the end.
   */
  function Applied(list: Option<seq<Forfeiture>>, f: Forfeiture): Result<seq<Forfeiture>, string>
  {
    match list
    case None => Ok([f])
    case Some(l) => if Listed(f.forfeitureAddress, l) then Err("node is exist in the list.") else Ok(l + [f])
  }

  /**
   * An application is accepted exactly when its target is not listed yet. It
   * then goes last, keeps targets distinct, and leaves its target listed.
   */
  lemma ApplyOncePerTarget(list: Option<seq<Forfeiture>>, f: Forfeiture)
    ensures list.None? ==> Applied(list, f) == Ok([f])
    ensures list.Some? ==> (Applied(list, f).Err? <==> Listed(f.forfeitureAddress, list.value))
    ensures list.Some? && Applied(list, f).Ok? ==> Applied(list, f).value[..|list.value|] == list.value
    ensures Applied(list, f).Ok? ==> Listed(f.forfeitureAddress, Applied(list, f).value)
    ensures Applied(list, f).Ok? && (list.None? || DistinctTargets(list.value)) ==> DistinctTargets(Applied(list, f).value)
  {
    match Applied(list, f)
    case Ok(nl) =>
      assert nl[|nl| - 1] == f;
    case Err(_) =>
  }

  // ---------------------------------------------------------------------------
  // The foundation's decision and the role rules
  // ---------------------------------------------------------------------------

  datatype Verdict = Agree | Disagree | Unconfirmed

  /** The check argument: "ok" agrees, "no" disagrees, anything else is unconfirmed. */
  function VerdictOf(check: string): (v: Verdict)
    ensures v == Agree <==> check == "ok"
    ensures v == Disagree <==> check == "no"
  {
    if check == "ok" then Agree else if check == "no" then Disagree else Unconfirmed
  }

  /** What an agreed forfeiture does to the node. */
  datatype Disposal =
    | ForfeitAll(listKey: string)        // pay everything out and drop the node and its record
    | ForfeitAndRemove(listKey: string)  // pay part out and take the node off its list
    | ForfeitSome(role: string)          // pay part out, the node stays listed
    | RoleError

  predicate KnownRole(role: string)
  {
    role == "Mediator" || role == "Jury" || role == "Developer"
  }

  /**
   * The three role handlers, by what would remain of the deposit. Nothing
   * left forfeits everything. A jury or developer left below its role's
   * minimum deposit leaves its list. Mediators have no such threshold.
   */
  function Dispose(role: string, remaining: U64, juryMin: U64, developerMin: U64): Disposal
  {
    if role == "Mediator" then
      if remaining == 0 then ForfeitAll("MediatorList") else ForfeitSome("Mediator")
    else if role == "Jury" then
      if remaining == 0 then ForfeitAll("JuryList")
      else if remaining < juryMin then ForfeitAndRemove("JuryList")
      else ForfeitSome("Jury")
    else if role == "Developer" then
      if remaining == 0 then ForfeitAll("DeveloperList")
      else if remaining < developerMin then ForfeitAndRemove("DeveloperList")
      else ForfeitSome("Developer")
    else RoleError
  }

  /** The minimum deposit the role's list demands; mediators are never measured against one. */
  function Threshold(role: string, juryMin: U64, developerMin: U64): U64
  {
    if role == "Jury" then juryMin else if role == "Developer" then developerMin else 0
  }

  /**
   * The node keeps its place exactly when something remains and, for a jury
   * or developer, at least the role's minimum remains. Only an unknown role
   * is an error, and the list touched is always the role's own.
   */
  lemma DisposalByRemaining(role: string, remaining: U64, juryMin: U64, developerMin: U64)
    ensures var d := Dispose(role, remaining, juryMin, developerMin);
            && (d == RoleError <==> !KnownRole(role))
            && (KnownRole(role) && remaining == 0 ==> d == ForfeitAll(role + "List"))
            && (d.ForfeitSome? <==> KnownRole(role) && remaining != 0 && remaining >= Threshold(role, juryMin, developerMin))
            && (d.ForfeitAndRemove? <==> (role == "Jury" || role == "Developer") && 0 < remaining < Threshold(role, juryMin, developerMin))
            && (d.ForfeitAndRemove? ==> d.listKey == role + "List")
            && (d.ForfeitSome? ==> d.role == role)
  {
  }

  // ---------------------------------------------------------------------------
  // The balance after a partial forfeiture
  // ---------------------------------------------------------------------------

  /**
   * The deposit after a partial forfeiture: the award for its coin age is
   * added, the forfeited amount taken off (both in uint64 arithmetic), the
   * clock recorded and the application appended to the history.
   */
  function PartialForfeit(b: BalanceRecord, f: Forfeiture, awards: U64, now: int): BalanceRecord
  {
    BalanceRecord(SubUint64(AddUint64(b.totalAmount, awards), f.applyTokens), now, b.forfeitureValues + [f])
  }

  /** The amounts of a forfeiture history. */
  function Forfeited(fs: seq<Forfeiture>): nat
  {
    if fs == [] then 0 else Forfeited(fs[..|fs| - 1]) + fs[|fs| - 1].applyTokens
  }

  /**
   * Nothing is lost in a partial forfeiture: when the award does not overflow
   * and the amount is covered, the balance plus everything ever forfeited
   * grows by exactly the award, and the new balance is old + award - amount.
   */
  lemma PartialForfeitConserves(b: BalanceRecord, f: Forfeiture, awards: U64, now: int)
    requires b.totalAmount + awards < TWO_64
    requires f.applyTokens <= b.totalAmount + awards
    ensures var b' := PartialForfeit(b, f, awards, now);
            && b'.totalAmount == b.totalAmount + awards - f.applyTokens
            && b'.totalAmount + Forfeited(b'.forfeitureValues) == b.totalAmount + Forfeited(b.forfeitureValues) + awards
            && b'.forfeitureValues[..|b.forfeitureValues|] == b.forfeitureValues
            && b'.lastModifyTime == now
  {
    var fs := b.forfeitureValues + [f];
    assert fs[..|fs| - 1] == b.forfeitureValues;
  }

  /**
   * The uint64 arithmetic is visible when the award is large: the balance
   * then wraps around instead of growing.
   */
  lemma PartialForfeitWraps(b: BalanceRecord, f: Forfeiture, awards: U64, now: int)
    requires b.totalAmount + awards >= TWO_64
    requires f.applyTokens <= b.totalAmount + awards - TWO_64
    ensures PartialForfeit(b, f, awards, now).totalAmount == b.totalAmount + awards - TWO_64 - f.applyTokens
  {
  }

  // ---------------------------------------------------------------------------
  // Sequences of calls out of the chaincode
  // ---------------------------------------------------------------------------

  /** `PutState`: store the value, unless writes fail. */
  function PutStep(w: World, fs: Faults, key: string, v: StateValue): Step
  {
    if fs.write.Some? then Step(fs.write, w) else Step(None, w.(state := w.state[key := v]))
  }

  /** `PayOutToken`: record the transfer, unless it fails. */
  function PayOutStep(w: World, fs: Faults, to: string, amount: U64): Step
  {
    if fs.payOut.Some? then Step(fs.payOut, w) else Step(None, w.(payouts := w.payouts + [Payout(to, amount)]))
  }

  /** `moveCandidate`: take the node off the list, unless it fails. */
  function MoveStep(w: World, fs: Faults, listKey: string, addr: string): Step
  {
    if fs.move.Some? then Step(fs.move, w) else Step(None, w.(removals := w.removals + [CandidateRemoval(listKey, addr)]))
  }

  /** `forfeitureAllDeposit`: pay out, take the node off its list, delete its record; stop at the first error. */
  function ForfeitAllSteps(w: World, fs: Faults, listKey: string, foundation: string, addr: string, amount: U64): Step
  {
    var s1 := PayOutStep(w, fs, foundation, amount);
    if s1.err.Some? then s1
    else
      var s2 := MoveStep(s1.world, fs, listKey, addr);
      if s2.err.Some? then s2
      else if fs.write.Some? then Step(fs.write, s2.world)
      else Step(None, s2.world.(state := s2.world.state - {addr}))
  }

  /**
   * A full forfeiture that succeeds pays the foundation the amount, takes the
   * node off its list and leaves no record under its address, and nothing
   * else. One that fails keeps what earlier steps did: a payout already made
   * stays made.
   */
  lemma ForfeitAllOutcome(w: World, fs: Faults, listKey: string, foundation: string, addr: string, amount: U64)
    ensures var s := ForfeitAllSteps(w, fs, listKey, foundation, addr, amount);
            && (s.err.None? <==> fs.payOut.None? && fs.move.None? && fs.write.None?)
            && (s.err.None? ==> addr !in s.world.state
                                && (forall k | k != addr && k in w.state :: k in s.world.state && s.world.state[k] == w.state[k])
                                && s.world.payouts == w.payouts + [Payout(foundation, amount)]
                                && s.world.removals == w.removals + [CandidateRemoval(listKey, addr)])
            && (s.err.Some? ==> s.world.state == w.state)
            && (fs.payOut.None? ==> s.world.payouts == w.payouts + [Payout(foundation, amount)])
  {
  }

  // ---------------------------------------------------------------------------
  // The stub and the deposit record
  // ---------------------------------------------------------------------------

  /** The chaincode stub: the world, the caller's address and how calls fail. */
  class Stub {
    var state: map<string, StateValue>
    var payouts: seq<Payout>
    var removals: seq<CandidateRemoval>
    const invokeAddress: string
    const faults: Faults

    constructor (state: map<string, StateValue>, invokeAddress: string, faults: Faults)
      ensures View() == World(state, [], []) && this.invokeAddress == invokeAddress && this.faults == faults
    {
      this.state := state;
      payouts := [];
      removals := [];
      this.invokeAddress := invokeAddress;
      this.faults := faults;
    }

    function View(): World
      reads this
    {
      World(state, payouts, removals)
    }

    /** `GetState`: the value under the key, `None` for an absent key, or the read's error. */
    function GetState(key: string): Result<Option<StateValue>, string>
      reads this`state
    {
      if key in faults.readErrors then Err(faults.readErrors[key])
      else if key in state then Ok(Some(state[key])) else Ok(None)
    }

    /** `GetListForForfeiture`: the decoded forfeiture list, `None` when there is none. */
    function GetListForForfeiture(): Result<Option<seq<Forfeiture>>, string>
      reads this`state
    {
      match GetState(LIST_FOR_FORFEITURE)
      case Err(e) => Err(e)
      case Ok(None) => Ok(None)
      case Ok(Some(ForfeitureList(l))) => Ok(Some(l))
      case Ok(Some(_)) => Err(UNREADABLE)
    }

    /** `GetDepositBalance`: the decoded deposit record of an address, `None` when there is none. */
    function GetDepositBalance(addr: string): Result<Option<BalanceRecord>, string>
      reads this`state
    {
      match GetState(addr)
      case Err(e) => Err(e)
      case Ok(None) => Ok(None)
      case Ok(Some(Balance(b))) => Ok(Some(b))
      case Ok(Some(_)) => Err(UNREADABLE)
    }

    method PutState(key: string, v: StateValue) returns (err: Option<string>)
      modifies this`state
      ensures var s := PutStep(old(View()), faults, key, v); err == s.err && View() == s.world
    {
      if faults.write.Some? {
        return faults.write;
      }
      state := state[key := v];
      return None;
    }

    method DelState(key: string) returns (err: Option<string>)
      modifies this`state
      ensures err == faults.write
      ensures state == if err.None? then old(state) - {key} else old(state)
    {
      if faults.write.Some? {
        return faults.write;
      }
      state := state - {key};
      return None;
    }

    method PayOutToken(to: string, amount: U64) returns (err: Option<string>)
      modifies this`payouts
      ensures var s := PayOutStep(old(View()), faults, to, amount); err == s.err && View() == s.world
    {
      if faults.payOut.Some? {
        return faults.payOut;
      }
      payouts := payouts + [Payout(to, amount)];
      return None;
    }

    method MoveCandidate(listKey: string, addr: string) returns (err: Option<string>)
      modifies this`removals
      ensures var s := MoveStep(old(View()), faults, listKey, addr); err == s.err && View() == s.world
    {
      if faults.move.Some? {
        return faults.move;
      }
      removals := removals + [CandidateRemoval(listKey, addr)];
      return None;
    }
  }

  /** `*modules.DepositBalance`: the record the handlers change in place before writing it back. */
  class DepositBalance {
    var totalAmount: U64
    var lastModifyTime: int
    var forfeitureValues: seq<Forfeiture>

    constructor (r: BalanceRecord)
      ensures Record() == r
    {
      totalAmount := r.totalAmount;
      lastModifyTime := r.lastModifyTime;
      forfeitureValues := r.forfeitureValues;
    }

    function Record(): BalanceRecord
      reads this
    {
      BalanceRecord(totalAmount, lastModifyTime, forfeitureValues)
    }

    /** The balance update shared by `forfertureAndMoveList` and `forfeitureSomeDeposit`. */
    method Forfeit(f: Forfeiture, awards: U64, now: int)
      modifies this
      ensures Record() == PartialForfeit(old(Record()), f, awards, now)
    {
      lastModifyTime := now;
      totalAmount := AddUint64(totalAmount, awards);
      totalAmount := SubUint64(totalAmount, f.applyTokens);
      forfeitureValues := forfeitureValues + [f];
    }
  }

  /** `isInForfeiturelist`: scan the list for an application against the address. */
  method IsInForfeitureList(addr: string, list: seq<Forfeiture>) returns (found: bool)
    ensures found <==> Listed(addr, list)
  {
    var i := 0;
    while i < |list|
      invariant 0 <= i <= |list|
      invariant forall j | 0 <= j < i :: list[j].forfeitureAddress != addr
    {
      if addr == list[i].forfeitureAddress {
        return true;
      }
      i := i + 1;
    }
    return false;
  }

  // ---------------------------------------------------------------------------
  // The chaincode
  // ---------------------------------------------------------------------------

  /** What `Invoke` does with a function name. */
  datatype InvokeOutcome =
    | Responded(response: Response)
    | Delegated(name: string)  // handled by code of the package that is not part of this model
    | Panicked                     // an index out of range

  /** The query functions of `Invoke` and the key each one reads. */
  const LIST_QUERIES: map<string, string> := map[
    "GetListForCashbackApplication" := "ListForCashback",
    "GetListForForfeitureApplication" := "ListForForfeiture",
    "GetListForMediatorCandidate" := "MediatorList",
    "GetListForJuryCandidater" := "JuryList",
    "GetListForDeveloperCandidate" := "DeveloperList",
    "GetBecomeMediatorApplyList" := "ListForApplyBecomeMediator",
    "GetAgreeForBecomeMediatorList" := "ListForAgreeBecomeMediator",
    "GetQuitMediatorApplyList" := "ListForApplyQuitMediator"]

  /** The functions `Invoke` hands to the package's other handlers. */
  const DELEGATED: set<string> := {
    "ApplyBecomeMediator", "HandleForApplyBecomeMediator", "MediatorApplyQuitMediator",
    "HandleForApplyQuitMediator", "MediatorPayToDepositContract", "JuryPayToDepositContract",
    "DeveloperPayToDepositContract", "MediatorApplyCashback", "HandleForMediatorApplyCashback",
    "JuryApplyCashback", "HandleForJuryApplyCashback", "DeveloperApplyCashback",
    "HandleForDeveloperApplyCashback"}

  /** The names `Invoke` tests one by one are neither queries nor delegated. */
  lemma NamedRoutesDistinct()
    ensures "ApplyForForfeitureDeposit" !in LIST_QUERIES && "ApplyForForfeitureDeposit" !in DELEGATED
    ensures "HandleForForfeitureApplication" !in LIST_QUERIES && "HandleForForfeitureApplication" !in DELEGATED
    ensures "GetCandidateBalanceWithAddr" !in LIST_QUERIES && "GetCandidateBalanceWithAddr" !in DELEGATED
  {
  }

  /** No query is delegated. */
  lemma QueriesNotDelegated()
    ensures forall n | n in LIST_QUERIES :: n !in DELEGATED
  {
  }

  /** The answer of a query: the read's error, "[]" for an absent key, or the stored value. */
  function QueryResponse(r: Result<Option<StateValue>, string>): Response
  {
    match r
    case Err(e) => Error(e)
    case Ok(None) => Success(Text("[]"))
    case Ok(Some(v)) => Success(Stored(v))
  }

  /** `DepositChaincode`, with the configuration `Init` reads. */
  class DepositChaincode {
    const foundationAddress: string
    const depositAmountsForJury: U64
    const depositAmountsForDeveloper: U64

    constructor (foundationAddress: string, juryMin: U64, developerMin: U64)
      ensures this.foundationAddress == foundationAddress
      ensures depositAmountsForJury == juryMin && depositAmountsForDeveloper == developerMin
    {
      this.foundationAddress := foundationAddress;
      depositAmountsForJury := juryMin;
      depositAmountsForDeveloper := developerMin;
    }

    /**
     * `applyForForfeitureDeposit`: target, amount and role. The caller is the
     * applicant and `now` the application time. An amount that does not parse
     * is answered with Success, not Error. A failing write of the list is
     * ignored.
     */
    method ApplyForForfeitureDeposit(stub: Stub, args: seq<string>, now: int) returns (resp: Response)
      modifies stub
      ensures AppliedForForfeiture(old(stub.GetListForForfeiture()), old(stub.View()), stub.faults, stub.invokeAddress,
                                   args, now, resp, stub.View())
    {
      if |args| != 3 {
        return Error("need three parameters.");
      }
      var parsed := ParseUint(args[1]);
      if parsed.Err? {
        return Success(Text("String transform to uint64 error:"));
      }
      var f := Forfeiture(stub.invokeAddress, args[0], parsed.value, args[2], now);
      var read := stub.GetListForForfeiture();
      if read.Err? {
        return Error(read.error);
      }
      var list: seq<Forfeiture>;
      if read.value.None? {
        list := [f];
      } else {
        var isExist := IsInForfeitureList(f.forfeitureAddress, read.value.value);
        if isExist {
          return Error("node is exist in the list.");
        }
        list := read.value.value + [f];
      }
      var _ := stub.PutState(LIST_FOR_FORFEITURE, ForfeitureList(list));
      return Success(Text("申请成功"));
    }

    /**
     * `handleForForfeitureApplication`: target, application time and check.
     * The argument count, the caller, the target's deposit record and the
     * time are checked in that order, and each failure changes nothing.
     */
    method HandleForForfeitureApplication(stub: Stub, args: seq<string>, removal: Result<Forfeiture, string>,
                                          awards: U64, now: int) returns (resp: Response)
      modifies stub
      ensures HandledApplication(old(stub.GetDepositBalance(if |args| == 3 then args[0] else "")),
                                 old(stub.GetListForForfeiture()), old(stub.View()), stub.faults, stub.invokeAddress,
                                 foundationAddress, depositAmountsForJury, depositAmountsForDeveloper,
                                 args, removal, awards, now, resp, stub.View())
    {
      if |args| != 3 {
        return Error("Input parameter error,need three parameters.");
      }
      var invokeAddr := stub.invokeAddress;
      if invokeAddr != foundationAddress {
        return Error("请求地址不正确，请使用基金会的地址");
      }
      var addr := args[0];
      var read := stub.GetDepositBalance(addr);
      if read.Err? {
        return Error(read.error);
      }
      if read.value.None? {
        return Error("you have not depositWitnessPay for deposit.");
      }
      var applyTime := ParseInt(args[1]);
      if applyTime.Err? {
        return Error("string to int64 error " + ErrorText("strconv.ParseInt", args[1], applyTime.error));
      }
      var balance := new DepositBalance(read.value.value);
      resp := HandleForfeitureDepositApplication(stub, invokeAddr, addr, applyTime.value, balance, args[2],
                                                 removal, awards, now);
    }

    /** `handleForfeitureDepositApplication`: "ok" agrees, "no" disagrees, anything else is refused. */
    method HandleForfeitureDepositApplication(stub: Stub, foundationAddr: string, forfeitureAddr: string,
                                              applyTime: I64, balance: DepositBalance, check: string,
                                              removal: Result<Forfeiture, string>, awards: U64, now: int)
      returns (resp: Response)
      modifies stub, balance
      ensures VerdictOf(check) == Unconfirmed ==>
                resp == Error("请确认是否同意") && stub.View() == old(stub.View()) && balance.Record() == old(balance.Record())
      ensures VerdictOf(check) == Disagree ==>
                resp == DisagreeResponse(old(stub.GetListForForfeiture()), forfeitureAddr, removal)
                && stub.View() == old(stub.View())
      ensures VerdictOf(check) == Agree ==>
                Agreed(old(stub.GetListForForfeiture()), forfeitureAddr, removal, old(stub.View()), stub.faults,
                       foundationAddr, old(balance.Record()), depositAmountsForJury, depositAmountsForDeveloper,
                       awards, now, resp, stub.View(), balance.Record())
    {
      if check == "ok" {
        resp := AgreeForApplyForfeiture(stub, foundationAddr, forfeitureAddr, applyTime, balance, removal, awards, now);
      } else if check == "no" {
        resp := DisagreeForApplyForfeiture(stub, forfeitureAddr, applyTime, removal);
      } else {
        resp := Error("请确认是否同意");
      }
    }

    /**
     * `disagreeForApplyForfeiture`: the list must exist and hold the target;
     * the application is then taken out of it (`removal` is what that call
     * returned).
     */
    method DisagreeForApplyForfeiture(stub: Stub, forfeitureAddr: string, applyTime: I64,
                                      removal: Result<Forfeiture, string>) returns (resp: Response)
      ensures resp == DisagreeResponse(stub.GetListForForfeiture(), forfeitureAddr, removal)
    {
      var read := stub.GetListForForfeiture();
      if read.Err? {
        return Error(read.error);
      }
      if read.value.None? {
        return Error("listForForfeiture is nil.");
      }
      var isExist := IsInForfeitureList(forfeitureAddr, read.value.value);
      if !isExist {
        return Error("node is not exist in the list.");
      }
      if removal.Err? {
        return Error(removal.error);
      }
      return Success(Text("移除列表成功"));
    }

    /**
     * `agreeForApplyForfeiture`: after the list checks, the application taken
     * out of the list must not ask for more than the balance, and its role
     * decides what happens to the node.
     */
    method AgreeForApplyForfeiture(stub: Stub, foundationAddr: string, forfeitureAddr: string, applyTime: I64,
                                   balance: DepositBalance, removal: Result<Forfeiture, string>,
                                   awards: U64, now: int) returns (resp: Response)
      modifies stub, balance
      ensures Agreed(old(stub.GetListForForfeiture()), forfeitureAddr, removal, old(stub.View()), stub.faults,
                     foundationAddr, old(balance.Record()), depositAmountsForJury, depositAmountsForDeveloper,
                     awards, now, resp, stub.View(), balance.Record())
    {
      var read := stub.GetListForForfeiture();
      if read.Err? {
        return Error(read.error);
      }
      if read.value.None? {
        return Error("listForForfeiture is nil.");
      }
      var isExist := IsInForfeitureList(forfeitureAddr, read.value.value);
      if !isExist {
        return Error("node is not exist in the list.");
      }
      if removal.Err? {
        return Error(removal.error);
      }
      var f := removal.value;
      if f.applyTokens > balance.totalAmount {
        return Error("没收数量超过余额");
      }
      if !KnownRole(f.forfeitureRole) {
        return Error("role error");
      }
      resp := HandleRoleForfeitureDeposit(stub, foundationAddr, f, balance, awards, now);
    }

    /**
     * `handleMediatorForfeitureDeposit`, `handleJuryForfeitureDeposit` and
     * `handleDeveloperForfeitureDeposit`: what remains after the forfeiture
     * and the role decide between the three ways of settling it.
     */
    method HandleRoleForfeitureDeposit(stub: Stub, foundationAddr: string, f: Forfeiture, balance: DepositBalance,
                                       awards: U64, now: int) returns (resp: Response)
      requires KnownRole(f.forfeitureRole)
      modifies stub, balance
      ensures Settled(Dispose(f.forfeitureRole, SubUint64(old(balance.totalAmount), f.applyTokens),
                              depositAmountsForJury, depositAmountsForDeveloper),
                      old(stub.View()), stub.faults, foundationAddr, f, old(balance.Record()), awards, now,
                      resp, stub.View(), balance.Record())
    {
      var result := SubUint64(balance.totalAmount, f.applyTokens);
      var d := Dispose(f.forfeitureRole, result, depositAmountsForJury, depositAmountsForDeveloper);
      match d {
        case ForfeitAll(listKey) =>
          var err := ForfeitureAllDeposit(stub, listKey, foundationAddr, f.forfeitureAddress, f.applyTokens);
          if err.Some? {
            return Success(Text(err.value));
          }
          return Success(Text("成功退出"));
        case ForfeitAndRemove(listKey) =>
          resp := ForfeitPart(stub, Some(listKey), foundationAddr, f, balance, awards, now);
        case ForfeitSome(_) =>
          resp := ForfeitPart(stub, None, foundationAddr, f, balance, awards, now);
      }
    }

    /** `forfeitureAllDeposit`: its error, if any, is returned to the caller. */
    method ForfeitureAllDeposit(stub: Stub, listKey: string, foundationAddr: string, forfeitureAddr: string,
                                amount: U64) returns (err: Option<string>)
      modifies stub
      ensures var s := ForfeitAllSteps(old(stub.View()), stub.faults, listKey, foundationAddr, forfeitureAddr, amount);
              err == s.err && stub.View() == s.world
    {
      err := stub.PayOutToken(foundationAddr, amount);
      if err.Some? {
        return;
      }
      err := stub.MoveCandidate(listKey, forfeitureAddr);
      if err.Some? {
        return;
      }
      err := stub.DelState(forfeitureAddr);
    }

    /**
     * `forfertureAndMoveList` (with the list to leave) and
     * `forfeitureSomeDeposit` (without): pay out, take the node off its list
     * if asked, then update the balance and write it back.
     */
    method ForfeitPart(stub: Stub, leave: Option<string>, foundationAddr: string, f: Forfeiture,
                       balance: DepositBalance, awards: U64, now: int) returns (resp: Response)
      modifies stub, balance
      ensures PartSettled(leave, old(stub.View()), stub.faults, foundationAddr, f, old(balance.Record()), awards, now,
                          resp, stub.View(), balance.Record())
    {
      var err := stub.PayOutToken(foundationAddr, f.applyTokens);
      if err.Some? {
        return Error(err.value);
      }
      if leave.Some? {
        err := stub.MoveCandidate(leave.value, f.forfeitureAddress);
        if err.Some? {
          return Error(err.value);
        }
      }
      balance.Forfeit(f, awards, now);
      resp := MarshalForBalance(stub, f.forfeitureAddress, balance);
    }

    /** `marshalForBalance`: write the record back under the node's address. */
    method MarshalForBalance(stub: Stub, nodeAddr: string, balance: DepositBalance) returns (resp: Response)
      modifies stub
      ensures var s := PutStep(old(stub.View()), stub.faults, nodeAddr, Balance(balance.Record()));
              stub.View() == s.world && resp == (if s.err.Some? then Error(s.err.value) else Success(Text("ok")))
    {
      var err := stub.PutState(nodeAddr, Balance(balance.Record()));
      if err.Some? {
        return Error(err.value);
      }
      return Success(Text("ok"));
    }

    /**
     * `Invoke`: the two forfeiture functions run here, the list queries read
     * their key, a balance query reads the key given as its first argument
     * and panics without one, the other known names go to the package's other
     * handlers, and an unknown name is answered with Success("Invoke error").
     */
    method Invoke(stub: Stub, funcName: string, args: seq<string>, removal: Result<Forfeiture, string>,
                  awards: U64, now: int) returns (out: InvokeOutcome)
      modifies stub
      ensures out == Panicked <==> funcName == "GetCandidateBalanceWithAddr" && |args| == 0
      ensures funcName in LIST_QUERIES ==>
                out == Responded(QueryResponse(old(stub.GetState(LIST_QUERIES[funcName])))) && stub.View() == old(stub.View())
      ensures funcName == "GetCandidateBalanceWithAddr" && |args| > 0 ==>
                out == Responded(QueryResponse(old(stub.GetState(args[0])))) && stub.View() == old(stub.View())
      ensures funcName in DELEGATED ==> out == Delegated(funcName) && stub.View() == old(stub.View())
      ensures funcName == "ApplyForForfeitureDeposit" ==>
                out.Responded? && AppliedForForfeiture(old(stub.GetListForForfeiture()), old(stub.View()), stub.faults,
                                                       stub.invokeAddress, args, now, out.response, stub.View())
      ensures funcName == "HandleForForfeitureApplication" ==>
                out.Responded?
                && HandledApplication(old(stub.GetDepositBalance(if |args| == 3 then args[0] else "")),
                                      old(stub.GetListForForfeiture()), old(stub.View()), stub.faults, stub.invokeAddress,
                                      foundationAddress, depositAmountsForJury, depositAmountsForDeveloper,
                                      args, removal, awards, now, out.response, stub.View())
      ensures funcName !in DELEGATED && funcName !in LIST_QUERIES && funcName != "GetCandidateBalanceWithAddr"
              && funcName != "ApplyForForfeitureDeposit" && funcName != "HandleForForfeitureApplication" ==>
                out == Responded(Success(Text("Invoke error"))) && stub.View() == old(stub.View())
    {
      NamedRoutesDistinct();
      QueriesNotDelegated();
      if funcName == "ApplyForForfeitureDeposit" {
        var r := ApplyForForfeitureDeposit(stub, args, now);
        return Responded(r);
      } else if funcName == "HandleForForfeitureApplication" {
        var r := HandleForForfeitureApplication(stub, args, removal, awards, now);
        return Responded(r);
      } else if funcName in LIST_QUERIES {
        return Responded(QueryResponse(stub.GetState(LIST_QUERIES[funcName])));
      } else if funcName == "GetCandidateBalanceWithAddr" {
        if |args| == 0 {
          return Panicked;
        }
        return Responded(QueryResponse(stub.GetState(args[0])));
      } else if funcName in DELEGATED {
        return Delegated(funcName);
      }
      return Responded(Success(Text("Invoke error")));
    }
  }

  /** The list checks shared by agreeing and disagreeing: the error they raise, if any. */
  function ListCheck(read: Result<Option<seq<Forfeiture>>, string>, addr: string): Option<string>
  {
    match read
    case Err(e) => Some(e)
    case Ok(None) => Some("listForForfeiture is nil.")
    case Ok(Some(l)) => if Listed(addr, l) then None else Some("node is not exist in the list.")
  }

  /** The answer to a disagreement. */
  function DisagreeResponse(read: Result<Option<seq<Forfeiture>>, string>, addr: string,
                            removal: Result<Forfeiture, string>): Response
  {
    if ListCheck(read, addr).Some? then Error(ListCheck(read, addr).value)
    else if removal.Err? then Error(removal.error)
    else Success(Text("移除列表成功"))
  }

  /**
   * A partial forfeiture from world `w` and record `b` ends with response
   * `resp`, world `w'` and record `b'`: a failed payout or list removal
   * answers with its error and leaves the record alone; otherwise the record
   * is `PartialForfeit` of the old one and is written back.
   */
  ghost predicate PartSettled(leave: Option<string>, w: World, fs: Faults, foundation: string, f: Forfeiture,
                              b: BalanceRecord, awards: U64, now: int, resp: Response, w': World, b': BalanceRecord)
  {
    var s1 := PayOutStep(w, fs, foundation, f.applyTokens);
    var s2 := if s1.err.None? && leave.Some? then MoveStep(s1.world, fs, leave.value, f.forfeitureAddress) else s1;
    if s2.err.Some? then resp == Error(s2.err.value) && w' == s2.world && b' == b
    else
      var s3 := PutStep(s2.world, fs, f.forfeitureAddress, Balance(PartialForfeit(b, f, awards, now)));
      && b' == PartialForfeit(b, f, awards, now)
      && w' == s3.world
      && resp == (if s3.err.Some? then Error(s3.err.value) else Success(Text("ok")))
  }

  /** How each disposal settles: full forfeiture, or a partial one that may leave the list. */
  ghost predicate Settled(d: Disposal, w: World, fs: Faults, foundation: string, f: Forfeiture, b: BalanceRecord,
                          awards: U64, now: int, resp: Response, w': World, b': BalanceRecord)
  {
    match d
    case ForfeitAll(listKey) =>
      var s := ForfeitAllSteps(w, fs, listKey, foundation, f.forfeitureAddress, f.applyTokens);
      && w' == s.world && b' == b
      && resp == Success(Text(if s.err.Some? then s.err.value else "成功退出"))
    case ForfeitAndRemove(listKey) => PartSettled(Some(listKey), w, fs, foundation, f, b, awards, now, resp, w', b')
    case ForfeitSome(_) => PartSettled(None, w, fs, foundation, f, b, awards, now, resp, w', b')
    case RoleError => resp == Error("role error") && w' == w && b' == b
  }

  /**
   * `applyForForfeitureDeposit` from the list read `list` and world `w` ends
   * with response `resp` and world `w'`: a wrong argument count is an error,
   * an amount that does not parse is answered with Success, a read error is
   * returned, and otherwise the list is extended as `Applied` says and
   * written back (a failing write is ignored).
   */
  ghost predicate AppliedForForfeiture(list: Result<Option<seq<Forfeiture>>, string>, w: World, fs: Faults,
                                       applicant: string, args: seq<string>, now: int, resp: Response, w': World)
  {
    if |args| != 3 then resp == Error("need three parameters.") && w' == w
    else if ParseUint(args[1]).Err? then resp == Success(Text("String transform to uint64 error:")) && w' == w
    else
      var f := Forfeiture(applicant, args[0], ParseUint(args[1]).value, args[2], now);
      match list
      case Err(e) => resp == Error(e) && w' == w
      case Ok(l) =>
        match Applied(l, f)
        case Err(e) => resp == Error(e) && w' == w
        case Ok(nl) => resp == Success(Text("申请成功")) && w' == PutStep(w, fs, LIST_FOR_FORFEITURE, ForfeitureList(nl)).world
  }

  /**
   * An agreement from the list read `list`, world `w` and the target's record
   * `b`: the list checks, the removal, an amount above the balance and an
   * unknown role each answer their error with nothing changed; otherwise the
   * deposit is settled as `Dispose` decides from what remains.
   */
  ghost predicate Agreed(list: Result<Option<seq<Forfeiture>>, string>, addr: string, removal: Result<Forfeiture, string>,
                         w: World, fs: Faults, foundation: string, b: BalanceRecord, juryMin: U64, developerMin: U64,
                         awards: U64, now: int, resp: Response, w': World, b': BalanceRecord)
  {
    if ListCheck(list, addr).Some? then resp == Error(ListCheck(list, addr).value) && w' == w && b' == b
    else if removal.Err? then resp == Error(removal.error) && w' == w && b' == b
    else
      var f := removal.value;
      if f.applyTokens > b.totalAmount then resp == Error("没收数量超过余额") && w' == w && b' == b
      else if !KnownRole(f.forfeitureRole) then resp == Error("role error") && w' == w && b' == b
      else Settled(Dispose(f.forfeitureRole, b.totalAmount - f.applyTokens, juryMin, developerMin),
                   w, fs, foundation, f, b, awards, now, resp, w', b')
  }

  /**
   * `handleForForfeitureApplication` from the target's record read `read`,
   * the list read `list` and world `w`: the argument count, the foundation
   * caller, the record and the time are checked in that order, each failure
   * answering its error with nothing changed; then the check decides between
   * refusing, disagreeing and agreeing. The record written by an agreement
   * lives only in the world, so it is the one some settling leaves.
   */
  ghost predicate HandledApplication(read: Result<Option<BalanceRecord>, string>,
                                     list: Result<Option<seq<Forfeiture>>, string>, w: World, fs: Faults,
                                     invoker: string, foundation: string, juryMin: U64, developerMin: U64,
                                     args: seq<string>, removal: Result<Forfeiture, string>, awards: U64, now: int,
                                     resp: Response, w': World)
  {
    if |args| != 3 then resp == Error("Input parameter error,need three parameters.") && w' == w
    else if invoker != foundation then resp == Error("请求地址不正确，请使用基金会的地址") && w' == w
    else
      match read
      case Err(e) => resp == Error(e) && w' == w
      case Ok(None) => resp == Error("you have not depositWitnessPay for deposit.") && w' == w
      case Ok(Some(b)) =>
        if ParseInt(args[1]).Err? then
          resp == Error("string to int64 error " + ErrorText("strconv.ParseInt", args[1], ParseInt(args[1]).error))
          && w' == w
        else
          match VerdictOf(args[2])
          case Unconfirmed => resp == Error("请确认是否同意") && w' == w
          case Disagree => resp == DisagreeResponse(list, args[0], removal) && w' == w
          case Agree =>
            exists b' :: Agreed(list, args[0], removal, w, fs, foundation, b, juryMin, developerMin,
                                awards, now, resp, w', b')
  }
}
