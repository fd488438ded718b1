/**
 * The pledge ledger of one day: a running total and a list of members, each
 * an address with the amount it has pledged. `Add` credits an address and
 * `Reduce` withdraws from one; both walk the member list in order and change
 * the ledger in place.
 */
module Pledge {
  import opened Wrappers
  import opened Uint64

  /** One member of the ledger (`AddressAmount`, built by `NewAddressAmount`). */
  datatype AddressAmount = AddressAmount(address: string, amount: U64)

  /** The position of the first member with the given address. */
  function IndexOf(ms: seq<AddressAmount>, addr: string): (r: Option<nat>)
    ensures r.Some? ==> r.value < |ms| && ms[r.value].address == addr
    ensures r.Some? ==> forall j | 0 <= j < r.value :: ms[j].address != addr
    ensures r.None? <==> forall j | 0 <= j < |ms| :: ms[j].address != addr
  {
    if ms == [] then None
    else if ms[0].address == addr then Some(0)
    else match IndexOf(ms[1..], addr)
      case None => None
      case Some(k) => assert ms[1..][k] == ms[k + 1]; Some(k + 1)
  }

  /** What the ledger holds for an address: the first matching member's amount, or 0. */
  function AmountOf(ms: seq<AddressAmount>, addr: string): U64
  {
    match IndexOf(ms, addr)
    case None => 0
    case Some(i) => ms[i].amount
  }

  /** The sum of the members' amounts, as an unbounded integer. */
  function Sum(ms: seq<AddressAmount>): nat
  {
    if ms == [] then 0 else ms[0].amount + Sum(ms[1..])
  }

  /** No two members share an address. */
  predicate Unique(ms: seq<AddressAmount>)
  {
    forall i, j | 0 <= i < j < |ms| :: ms[i].address != ms[j].address
  }

  /** The members after `Add`: the first match is credited, or a new member goes last. */
  function AddTo(ms: seq<AddressAmount>, addr: string, amount: U64): seq<AddressAmount>
  {
    match IndexOf(ms, addr)
    case Some(i) => ms[i := ms[i].(amount := AddUint64(ms[i].amount, amount))]
    case None => ms + [AddressAmount(addr, amount)]
  }

  /** The outcome of `Reduce`: its two results and the ledger it leaves. */
  datatype Withdrawal = Withdrawal(withdrawn: U64, err: Option<string>, total: U64, members: seq<AddressAmount>)

  /**
   * `Reduce` on a ledger with total `total` and members `ms`. A request of 0
   * means the member's whole amount.
   */
  function ReduceFrom(total: U64, ms: seq<AddressAmount>, addr: string, amount: U64): Withdrawal
  {
    match IndexOf(ms, addr)
    case None => Withdrawal(0, Some("Address not found"), total, ms)
    case Some(i) =>
      var want := if amount == 0 then ms[i].amount else amount;
      if ms[i].amount < want then Withdrawal(0, Some("Not enough amount"), total, ms)
      else if ms[i].amount == want then Withdrawal(want, None, SubUint64(total, want), ms[..i] + ms[i + 1..])
      else Withdrawal(want, None, SubUint64(total, want), ms[i := ms[i].(amount := ms[i].amount - want)])
  }

  // ---------------------------------------------------------------------------
  // Facts about sums and lookups
  // ---------------------------------------------------------------------------

  lemma {:induction false} SumAppend(ms: seq<AddressAmount>, x: AddressAmount)
    ensures Sum(ms + [x]) == Sum(ms) + x.amount
  {
    if ms != [] {
      assert (ms + [x])[1..] == ms[1..] + [x];
      SumAppend(ms[1..], x);
    }
  }

  lemma {:induction false} SumUpdate(ms: seq<AddressAmount>, i: nat, x: AddressAmount)
    requires i < |ms|
    ensures Sum(ms[i := x]) == Sum(ms) - ms[i].amount + x.amount
  {
    if i > 0 {
      assert ms[i := x][1..] == ms[1..][i - 1 := x];
      SumUpdate(ms[1..], i - 1, x);
    }
  }

  lemma {:induction false} SumRemove(ms: seq<AddressAmount>, i: nat)
    requires i < |ms|
    ensures Sum(ms[..i] + ms[i + 1..]) == Sum(ms) - ms[i].amount
  {
    if i > 0 {
      assert (ms[..i] + ms[i + 1..])[1..] == ms[1..][..i - 1] + ms[1..][i..];
      SumRemove(ms[1..], i - 1);
    } else {
      assert ms[..0] + ms[1..] == ms[1..];
    }
  }

  lemma {:induction false} MemberWithinSum(ms: seq<AddressAmount>, i: nat)
    requires i < |ms|
    ensures ms[i].amount <= Sum(ms)
  {
    if i > 0 {
      MemberWithinSum(ms[1..], i - 1);
    }
  }

  /** Renaming nothing: two lists with the same addresses in the same places agree on every lookup. */
  lemma SameAddressesSameIndex(ms: seq<AddressAmount>, ns: seq<AddressAmount>, b: string)
    requires |ms| == |ns| && forall k | 0 <= k < |ms| :: ms[k].address == ns[k].address
    ensures IndexOf(ms, b) == IndexOf(ns, b)
  {
    var r, s := IndexOf(ms, b), IndexOf(ns, b);
    if r.Some? && s.Some? {
      assert r.value == s.value;
    }
  }

  /** A member with the address and none before it is the first match. */
  lemma FirstMatchAt(ms: seq<AddressAmount>, b: string, t: nat)
    requires t < |ms| && ms[t].address == b
    requires forall j | 0 <= j < t :: ms[j].address != b
    ensures IndexOf(ms, b) == Some(t)
  {
    var r := IndexOf(ms, b);
    assert r.Some?;
    assert !(r.value < t);
  }

  /** Under unique addresses, the member with the address is the first match. */
  lemma UniqueMatch(ms: seq<AddressAmount>, i: nat)
    requires i < |ms| && Unique(ms)
    ensures IndexOf(ms, ms[i].address) == Some(i)
  {
    FirstMatchAt(ms, ms[i].address, i);
  }

  /** The members after cutting out member i, place by place. */
  lemma RemoveShifts(ms: seq<AddressAmount>, i: nat)
    requires i < |ms|
    ensures |ms[..i] + ms[i + 1..]| == |ms| - 1
    ensures forall j | 0 <= j < |ms| - 1 :: (ms[..i] + ms[i + 1..])[j] == if j < i then ms[j] else ms[j + 1]
  {
  }

  /** Cutting out member i moves every later first match one place forward. */
  lemma IndexAfterRemove(ms: seq<AddressAmount>, i: nat, b: string)
    requires i < |ms|
    requires Unique(ms)
    ensures var r := ms[..i] + ms[i + 1..];
            IndexOf(r, b) == match IndexOf(ms, b)
                             case None => None
                             case Some(k) => if k < i then Some(k) else if k == i then None else Some(k - 1)
  {
    var r := ms[..i] + ms[i + 1..];
    RemoveShifts(ms, i);
    var s := IndexOf(ms, b);
    if s.None? || s.value == i {
      NoMatch(r, b);
    } else if s.value < i {
      FirstMatchAt(r, b, s.value);
    } else {
      FirstMatchAt(r, b, s.value - 1);
    }
  }

  /** A list with no member of the address has no first match. */
  lemma NoMatch(ms: seq<AddressAmount>, b: string)
    requires forall j | 0 <= j < |ms| :: ms[j].address != b
    ensures IndexOf(ms, b).None?
  {
  }

  /** Cutting out member i leaves every other address its amount, and its own none. */
  lemma AmountAfterRemove(ms: seq<AddressAmount>, i: nat, b: string)
    requires i < |ms| && Unique(ms)
    ensures AmountOf(ms[..i] + ms[i + 1..], b) == if b == ms[i].address then 0 else AmountOf(ms, b)
  {
    var r := ms[..i] + ms[i + 1..];
    IndexAfterRemove(ms, i, b);
    var s := IndexOf(ms, b);
    if b == ms[i].address {
      UniqueMatch(ms, i);
    } else if s.Some? {
      var k := s.value;
      var k' := if k < i then k else k - 1;
      assert r[k'] == ms[k];
      SameMemberSameAmount(r, ms, b, k', k);
    }
  }

  /** Two lists whose first matches hold the same member agree on the amount. */
  lemma SameMemberSameAmount(r: seq<AddressAmount>, ms: seq<AddressAmount>, b: string, k': nat, k: nat)
    requires IndexOf(r, b) == Some(k') && IndexOf(ms, b) == Some(k) && r[k'] == ms[k]
    ensures AmountOf(r, b) == AmountOf(ms, b)
  {
  }

  /** Cutting out a member keeps the addresses unique. */
  lemma RemoveKeepsUnique(ms: seq<AddressAmount>, i: nat)
    requires i < |ms| && Unique(ms)
    ensures Unique(ms[..i] + ms[i + 1..])
  {
    RemoveShifts(ms, i);
  }

  /**
   * Changing the amount of the first member with an address changes the
   * amount held under that address and nothing else.
   */
  lemma AmountAfterUpdate(ms: seq<AddressAmount>, i: nat, x: AddressAmount, b: string)
    requires i < |ms| && x.address == ms[i].address && IndexOf(ms, x.address) == Some(i)
    ensures IndexOf(ms[i := x], b) == IndexOf(ms, b)
    ensures AmountOf(ms[i := x], b) == if b == x.address then x.amount else AmountOf(ms, b)
  {
    SameAddressesSameIndex(ms, ms[i := x], b);
  }

  /** Appending a member of another address keeps the first match. */
  lemma AmountAfterAppend(ms: seq<AddressAmount>, x: AddressAmount, b: string)
    requires x.address != b
    ensures AmountOf(ms + [x], b) == AmountOf(ms, b)
  {
    var s := IndexOf(ms, b);
    if s.Some? {
      FirstMatchAt(ms + [x], b, s.value);
    } else {
      NoMatch(ms + [x], b);
    }
  }

  // ---------------------------------------------------------------------------
  // Add
  // ---------------------------------------------------------------------------

  /**
   * `Add` credits exactly the given address: its amount grows by `amount`
   * (from 0 if it was absent, modulo 2^64 as uint64 does), every other
   * address keeps its amount, and a new address becomes the last member.
   */
  lemma AddCredits(ms: seq<AddressAmount>, addr: string, amount: U64)
    ensures AmountOf(AddTo(ms, addr, amount), addr) == AddUint64(AmountOf(ms, addr), amount)
    ensures forall b | b != addr :: AmountOf(AddTo(ms, addr, amount), b) == AmountOf(ms, b)
    ensures IndexOf(ms, addr).Some? ==> |AddTo(ms, addr, amount)| == |ms|
    ensures IndexOf(ms, addr).None? ==>
              AddTo(ms, addr, amount)[..|ms|] == ms && AddTo(ms, addr, amount)[|ms|..] == [AddressAmount(addr, amount)]
  {
    match IndexOf(ms, addr)
    case Some(i) =>
      var x := ms[i].(amount := AddUint64(ms[i].amount, amount));
      forall b
        ensures AmountOf(ms[i := x], b) == if b == addr then x.amount else AmountOf(ms, b)
      {
        AmountAfterUpdate(ms, i, x, b);
      }
    case None =>
      var x := AddressAmount(addr, amount);
      forall b | b != addr
        ensures AmountOf(ms + [x], b) == AmountOf(ms, b)
      {
        AmountAfterAppend(ms, x, b);
      }
      FirstMatchAt(ms + [x], addr, |ms|);
  }

  /**
   * `Add` keeps the ledger consistent: when the total was the members' sum,
   * addresses were unique and the new total does not overflow, the total is
   * still the sum and addresses are still unique.
   */
  lemma AddKeepsLedger(total: U64, ms: seq<AddressAmount>, addr: string, amount: U64)
    requires total == Sum(ms) && Unique(ms)
    requires total + amount < TWO_64
    ensures AddUint64(total, amount) == Sum(AddTo(ms, addr, amount)) == total + amount
    ensures Unique(AddTo(ms, addr, amount))
  {
    match IndexOf(ms, addr)
    case Some(i) =>
      MemberWithinSum(ms, i);
      SumUpdate(ms, i, ms[i].(amount := AddUint64(ms[i].amount, amount)));
    case None =>
      SumAppend(ms, AddressAmount(addr, amount));
  }

  // ---------------------------------------------------------------------------
  // Reduce
  // ---------------------------------------------------------------------------

  /**
   * When `Reduce` fails and when it succeeds: an unknown address and a request
   * above the held amount are errors that change nothing; otherwise it
   * withdraws the request, or the whole amount for a request of 0.
   */
  lemma ReduceOutcomes(total: U64, ms: seq<AddressAmount>, addr: string, amount: U64)
    ensures var w := ReduceFrom(total, ms, addr, amount);
            && (IndexOf(ms, addr).None? ==> w == Withdrawal(0, Some("Address not found"), total, ms))
            && (IndexOf(ms, addr).Some? && AmountOf(ms, addr) < amount ==>
                  w == Withdrawal(0, Some("Not enough amount"), total, ms))
            && (w.err.None? <==> IndexOf(ms, addr).Some? && amount <= AmountOf(ms, addr))
            && (w.err.None? ==> w.withdrawn == (if amount == 0 then AmountOf(ms, addr) else amount))
            && (w.err.None? ==> w.total == SubUint64(total, w.withdrawn))
  {
  }

  /**
   * A successful `Reduce` debits exactly the given address by what it returns,
   * every other address keeps its amount, and a member left with nothing is
   * gone: withdrawing everything removes it and keeps the others in order.
   */
  lemma ReduceDebits(total: U64, ms: seq<AddressAmount>, addr: string, amount: U64)
    requires Unique(ms)
    requires ReduceFrom(total, ms, addr, amount).err.None?
    ensures var w := ReduceFrom(total, ms, addr, amount);
            && AmountOf(w.members, addr) == AmountOf(ms, addr) - w.withdrawn
            && (forall b | b != addr :: AmountOf(w.members, b) == AmountOf(ms, b))
            && (w.withdrawn == AmountOf(ms, addr) <==> IndexOf(w.members, addr).None?)
  {
    var w := ReduceFrom(total, ms, addr, amount);
    var i := IndexOf(ms, addr).value;
    var held := ms[i].amount;
    if w.withdrawn == held {
      assert w.members == ms[..i] + ms[i + 1..];
      RemoveDebits(ms, i);
    } else {
      var x := ms[i].(amount := held - w.withdrawn);
      assert w.members == ms[i := x];
      UpdateDebits(ms, i, x);
    }
  }

  /** Cutting out member i takes its address's amount to none and keeps the rest. */
  lemma RemoveDebits(ms: seq<AddressAmount>, i: nat)
    requires i < |ms| && Unique(ms)
    ensures var r := ms[..i] + ms[i + 1..];
            && IndexOf(r, ms[i].address).None?
            && forall b | b != ms[i].address :: AmountOf(r, b) == AmountOf(ms, b)
  {
    forall b | b != ms[i].address
      ensures AmountOf(ms[..i] + ms[i + 1..], b) == AmountOf(ms, b)
    {
      AmountAfterRemove(ms, i, b);
    }
    IndexAfterRemove(ms, i, ms[i].address);
    UniqueMatch(ms, i);
  }

  /** Changing the amount of member i keeps every lookup and every other amount. */
  lemma UpdateDebits(ms: seq<AddressAmount>, i: nat, x: AddressAmount)
    requires i < |ms| && Unique(ms) && x.address == ms[i].address
    ensures IndexOf(ms[i := x], x.address) == Some(i)
    ensures AmountOf(ms[i := x], x.address) == x.amount
    ensures forall b | b != x.address :: AmountOf(ms[i := x], b) == AmountOf(ms, b)
  {
    forall b | b != x.address
      ensures AmountOf(ms[i := x], b) == AmountOf(ms, b)
    {
      AmountAfterUpdate(ms, i, x, b);
    }
    AmountAfterUpdate(ms, i, x, x.address);
    UniqueMatch(ms, i);
  }

  /**
   * A full withdrawal keeps the other members in their order: the new list is
   * the old one with the matching member cut out.
   */
  lemma FullReduceKeepsOrder(total: U64, ms: seq<AddressAmount>, addr: string, amount: U64)
    requires IndexOf(ms, addr).Some?
    requires amount == 0 || amount == AmountOf(ms, addr)
    ensures var i := IndexOf(ms, addr).value;
            var w := ReduceFrom(total, ms, addr, amount);
            && |w.members| == |ms| - 1
            && (forall j | 0 <= j < i :: w.members[j] == ms[j])
            && (forall j | i <= j < |w.members| :: w.members[j] == ms[j + 1])
  {
  }

  /**
   * `Reduce` keeps the ledger consistent: when the total was the members' sum
   * and addresses were unique, both still hold afterwards, and the total has
   * gone down by exactly what was returned.
   */
  lemma ReduceKeepsLedger(total: U64, ms: seq<AddressAmount>, addr: string, amount: U64)
    requires total == Sum(ms) && Unique(ms)
    ensures var w := ReduceFrom(total, ms, addr, amount);
            && w.total == Sum(w.members) == total - w.withdrawn
            && Unique(w.members)
  {
    var w := ReduceFrom(total, ms, addr, amount);
    if w.err.None? {
      var i := IndexOf(ms, addr).value;
      MemberWithinSum(ms, i);
      if w.withdrawn == ms[i].amount {
        SumRemove(ms, i);
        RemoveKeepsUnique(ms, i);
      } else {
        SumUpdate(ms, i, ms[i].(amount := ms[i].amount - w.withdrawn));
      }
    }
  }

  // ---------------------------------------------------------------------------
  // The ledger object
  // ---------------------------------------------------------------------------

  /** `PledgeList`: the total, the date it belongs to (yyyyMMdd) and the members. */
  class PledgeList {
    var totalAmount: U64
    var date: string
    var members: seq<AddressAmount>

    /** The ledger is consistent: the total is the sum and addresses are unique. */
    predicate Valid()
      reads this
    {
      totalAmount == Sum(members) && Unique(members)
    }

    constructor (date: string)
      ensures totalAmount == 0 && this.date == date && members == []
      ensures Valid()
    {
      totalAmount := 0;
      this.date := date;
      members := [];
    }

    /**
     * `Add`: raise the total, then credit the first member with the address,
     * or append a new member when there is none.
     */
    method Add(addr: string, amount: U64)
      modifies this
      ensures totalAmount == AddUint64(old(totalAmount), amount)
      ensures members == AddTo(old(members), addr, amount)
      ensures date == old(date)
      ensures old(Valid()) && old(totalAmount) + amount < TWO_64 ==> Valid()
    {
      ghost var ms := members;
      ghost var okBefore := Valid();
      totalAmount := AddUint64(totalAmount, amount);
      var i := 0;
      while i < |members|
        invariant 0 <= i <= |members|
        invariant members == ms
        invariant forall j | 0 <= j < i :: members[j].address != addr
      {
        if members[i].address == addr {
          members := members[i := members[i].(amount := AddUint64(members[i].amount, amount))];
          if okBefore && old(totalAmount) + amount < TWO_64 {
            AddKeepsLedger(old(totalAmount), ms, addr, amount);
          }
          return;
        }
        i := i + 1;
      }
      members := members + [AddressAmount(addr, amount)];
      if okBefore && old(totalAmount) + amount < TWO_64 {
        AddKeepsLedger(old(totalAmount), ms, addr, amount);
      }
    }

    /**
     * `Reduce`: find the first member with the address, and withdraw the
     * request (all of it for 0) if it holds enough. A member left with
     * nothing is cut out of the list.
     */
    method Reduce(addr: string, amount: U64) returns (withdrawn: U64, err: Option<string>)
      modifies this
      ensures var w := ReduceFrom(old(totalAmount), old(members), addr, amount);
              && withdrawn == w.withdrawn && err == w.err
              && totalAmount == w.total && members == w.members
      ensures date == old(date)
      ensures old(Valid()) ==> Valid()
    {
      ghost var ms := members;
      ghost var okBefore := Valid();
      if okBefore {
        ReduceKeepsLedger(totalAmount, ms, addr, amount);
      }
      var i := 0;
      while i < |members|
        invariant 0 <= i <= |members|
        invariant members == ms && totalAmount == old(totalAmount)
        invariant forall j | 0 <= j < i :: members[j].address != addr
      {
        var p := members[i];
        if p.address == addr {
          var want := amount;
          if want == 0 {
            want := p.amount;
          }
          if p.amount < want {
            return 0, Some("Not enough amount");
          }
          totalAmount := SubUint64(totalAmount, want);
          if p.amount == want {
            members := members[..i] + members[i + 1..];
            return want, None;
          }
          members := members[i := p.(amount := p.amount - want)];
          return want, None;
        }
        i := i + 1;
      }
      return 0, Some("Address not found");
    }
  }
}
