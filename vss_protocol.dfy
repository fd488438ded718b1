/**
 * The mediator plugin's side of the VSS (verifiable secret sharing) exchange
 * that the committee runs to build its threshold signing key.
 *
 * Deals are routed into one buffer per local mediator and responses into one
 * buffer per (local mediator, dealer) pair. For each pair a response loop counts
 * the responses it receives. When the count reaches the committee size minus two,
 * the loop asks the DKG handle whether it is certified. If it is, the loop
 * starts threshold signing for that mediator. Goroutines are explicit steps
 * here, and the results of the DKG handle (`ProcessDeal`, `ProcessResponse`,
 * `Certified`, `Deals`) are inputs to those steps.
 */
module VssProtocol {
  import opened Wrappers

  /** A mediator's account address. */
  type Addr = nat

  /** `dkg.Deal`: the dealer's committee index and its opaque encrypted share. */
  datatype Deal = Deal(index: nat, share: nat)

  /** `VSSDealEvent`: a deal addressed to the mediator at committee index `dstIndex`. */
  datatype DealEvent = DealEvent(dstIndex: nat, deal: Deal)

  datatype Status = Approval | Complaint

  /**
   * `dkg.Response`: `index` is the dealer the response is about, `srcIndex`
   * (`Response.Index`) the mediator that responded.
   */
  datatype Response = Response(index: nat, srcIndex: nat, status: Status, proof: nat)

  /** What `ProcessDeal` returned. */
  datatype DealOutcome = DealRejected | DealAccepted(resp: Response)

  /** What `ProcessResponse` returned: an error, a justification, or neither. */
  datatype ResponseOutcome = ResponseRejected | Justified | ResponseAccepted

  /** A buffered Go channel: its capacity and its contents, oldest first. */
  datatype Fifo<T> = Fifo(cap: nat, items: seq<T>) {
    predicate Full() { |items| >= cap }
    function Push(x: T): Fifo<T> { Fifo(cap, items + [x]) }
  }

  /** How a send into a buffer ended. */
  datatype SendResult =
    | Ignored          // group signing is disabled: nothing is routed
    | Delivered        // every send went into a buffer
    | Blocked(at: Addr) // the buffer of this mediator is full: the sender waits
    | Stuck(at: Addr)   // this mediator has no buffer: a send on a nil channel never returns

  /** The three outcomes of `processVSSDeal`, and the case of a mediator without a DKG handle. */
  datatype DealDecision = NoDkg | DealDropped | ComplaintKept | ResponseBroadcast

  datatype LoopState = Running | Finished(certified: bool) | Quit

  /**
   * One `processResponseLoop` goroutine for (local, dealer): the channel it
   * read from the registry when it started (None is Go's nil channel), its
   * response counter `respCount` and `respAmount`.
   */
  datatype ResponseLoop = ResponseLoop(local: Addr, dealer: Addr, chan: Option<nat>,
                                       count: int, amount: int, state: LoopState)

  // ---------------------------------------------------------------------------
  // The response counter

  /**
   * The counter's starting value. When the dealer is another mediator,
   * `ProcessDeal` already accounted for the local mediator's own response.
   */
  function InitialCount(local: Addr, dealer: Addr): (c: nat)
    ensures c <= 1
    ensures c == 1 <==> dealer != local
  {
    if dealer != local then 1 else 0
  }

  /** The loop as `processResponseLoop` sets it up for a committee of `n` mediators. */
  function StartLoop(local: Addr, dealer: Addr, chan: Option<nat>, n: int): ResponseLoop
  {
    ResponseLoop(local, dealer, chan, InitialCount(local, dealer), n - 1, Running)
  }

  /**
   * One received response. The counter goes up whatever `ProcessResponse` said.
   * The loop finishes when the new count equals `respAmount - 1`, and only then is
   * `certified` (the handle's `Certified()`) looked at.
   */
  function Receive(l: ResponseLoop, certified: bool): ResponseLoop
    requires l.state == Running
  {
    var c := l.count + 1;
    if c == l.amount - 1 then l.(count := c, state := Finished(certified))
    else l.(count := c)
  }

  /** The loop after it has been offered `k` more responses; it stops taking them once it leaves `Running`. */
  function Drain(l: ResponseLoop, k: nat, certified: bool): ResponseLoop
    decreases k
  {
    if k == 0 || l.state != Running then l
    else Drain(Receive(l, certified), k - 1, certified)
  }

  /** How many responses a freshly started loop must receive before it finishes, when that is possible. */
  function Needed(local: Addr, dealer: Addr, n: int): int
  {
    n - 2 - InitialCount(local, dealer)
  }

  /**
   * A running loop finishes on the response that brings its counter to exactly
   * `amount - 1`. If the counter is already at or past that value, no later
   * response can finish it.
   */
  lemma {:induction false} DrainRunning(l: ResponseLoop, k: nat, certified: bool)
    requires l.state == Running
    ensures var gap := l.amount - 1 - l.count;
            Drain(l, k, certified) ==
              if 1 <= gap <= k then l.(count := l.amount - 1, state := Finished(certified))
              else l.(count := l.count + k)
    decreases k
  {
    if k > 0 {
      var l' := Receive(l, certified);
      if l'.state == Running {
        DrainRunning(l', k - 1, certified);
      }
    }
  }

  /**
   * Quorum is reachable exactly when the committee has at least three mediators
   * for the mediator's own deal and at least four for another dealer's deal.
   */
  lemma QuorumReachable(local: Addr, dealer: Addr, chan: Option<nat>, n: int, certified: bool)
    ensures (exists k: nat :: Drain(StartLoop(local, dealer, chan, n), k, certified).state.Finished?)
            <==> n >= 3 + InitialCount(local, dealer)
  {
    var l := StartLoop(local, dealer, chan, n);
    if n >= 3 + InitialCount(local, dealer) {
      var k: nat := Needed(local, dealer, n);
      DrainRunning(l, k, certified);
    } else {
      forall k: nat ensures !Drain(l, k, certified).state.Finished? {
        DrainRunning(l, k, certified);
      }
    }
  }

  /**
   * When quorum is reachable, the loop finishes on its `Needed`-th response
   * and not before. Its counter then reads n - 2, and its state carries the
   * handle's certification answer.
   */
  lemma FinishesAfterNeeded(local: Addr, dealer: Addr, chan: Option<nat>, n: int, certified: bool, k: nat)
    requires n >= 3 + InitialCount(local, dealer)
    ensures var l := Drain(StartLoop(local, dealer, chan, n), k, certified);
            if k < Needed(local, dealer, n) then l.state == Running && l.count == InitialCount(local, dealer) + k
            else l.state == Finished(certified) && l.count == n - 2
  {
    DrainRunning(StartLoop(local, dealer, chan, n), k, certified);
  }

  /**
   * In a committee of three, a loop about another mediator's deal starts at 1
   * and, after incrementing, never equals 1 again: it never finishes.
   */
  lemma ForeignDealerNeverFinishesInCommitteeOfThree(local: Addr, dealer: Addr, chan: Option<nat>, k: nat, certified: bool)
    requires local != dealer
    ensures Drain(StartLoop(local, dealer, chan, 3), k, certified).state == Running
  {
    DrainRunning(StartLoop(local, dealer, chan, 3), k, certified);
  }

  /** The result of `ProcessResponse` has no effect on the loop. */
  lemma ReceiveIgnoresProcessResponse(l: ResponseLoop, certified: bool)
    requires l.state == Running
    ensures Receive(l, certified).count == l.count + 1
    ensures Receive(l, certified).state.Finished? <==> l.count + 1 == l.amount - 1
  {
  }

  /** `Certified()` matters only on the response that finishes the loop. */
  lemma CertifiedOnlyWhenFinished(l: ResponseLoop)
    requires l.state == Running
    ensures !Receive(l, true).state.Finished? ==> Receive(l, true) == Receive(l, false)
    ensures Receive(l, true).state.Finished? ==>
              Receive(l, true).state == Finished(true) && Receive(l, false).state == Finished(false)
  {
  }

  // ---------------------------------------------------------------------------
  // Who answers about a dealer

  /** The committee positions 0 .. n-1. */
  function Positions(n: nat): (s: set<nat>)
    ensures forall i: nat :: i in s <==> i < n
    ensures |s| == n
  {
    if n == 0 then {} else Positions(n - 1) + {n - 1}
  }

  /**
   * The committee positions whose response about `dealer` reaches `local`.
   * That is every position except the dealer's, which does not answer its
   * own deal, and `local`'s, because `AddToResponseBuf` drops a local
   * mediator's own response.
   */
  function Responders(active: seq<Addr>, dealer: Addr, local: Addr): set<nat>
  {
    set s | 0 <= s < |active| && active[s] != dealer && active[s] != local
  }

  /**
   * In a committee without repeated addresses, `local` hears about `dealer`
   * from exactly one more mediator than it needs. After it finishes, the
   * last response still arrives, but its buffer entry has been deleted.
   */
  lemma {:induction false} OneResponseLeftOver(active: seq<Addr>, dealerIx: nat, localIx: nat)
    requires forall i, j | 0 <= i < j < |active| :: active[i] != active[j]
    requires dealerIx < |active| && localIx < |active|
    requires |active| >= 3 + InitialCount(active[localIx], active[dealerIx])
    ensures |Responders(active, active[dealerIx], active[localIx])|
            == Needed(active[localIx], active[dealerIx], |active|) + 1
  {
    var r := Responders(active, active[dealerIx], active[localIx]);
    assert r == Positions(|active|) - {dealerIx, localIx};
    if dealerIx == localIx {
      assert {dealerIx, localIx} == {dealerIx};
    }
  }

  // ---------------------------------------------------------------------------
  // Response routing

  /** Every channel the registry names exists. */
  ghost predicate ChannelsIn(buf: map<Addr, map<Addr, nat>>, count: nat)
  {
    forall l, d | l in buf && d in buf[l] :: buf[l][d] < count
  }

  /** The registry has a buffer for (local, dealer). */
  predicate HasBuffer(buf: map<Addr, map<Addr, nat>>, local: Addr, dealer: Addr)
  {
    local in buf && dealer in buf[local]
  }

  /**
   * `AddToResponseBuf`'s loop over the local mediators, from `locals[0]` on.
   * It skips the responder, enqueues into the (mediator, dealer) buffer and
   * stops at the first mediator whose buffer is missing or full.
   */
  function Deliver(qs: seq<Fifo<Response>>, buf: map<Addr, map<Addr, nat>>, locals: seq<Addr>,
                   src: Addr, dealer: Addr, r: Response): (res: (seq<Fifo<Response>>, SendResult))
    requires ChannelsIn(buf, |qs|)
    ensures |res.0| == |qs|
    decreases |locals|
  {
    if locals == [] then (qs, Delivered)
    else if locals[0] == src then Deliver(qs, buf, locals[1..], src, dealer, r)
    else if !HasBuffer(buf, locals[0], dealer) then (qs, Stuck(locals[0]))
    else
      var id := buf[locals[0]][dealer];
      if qs[id].Full() then (qs, Blocked(locals[0]))
      else Deliver(qs[id := qs[id].Push(r)], buf, locals[1..], src, dealer, r)
  }

  /**
   * When every local mediator has its own buffer for the dealer, a delivery
   * that completes appends the response once to the buffer of every local
   * mediator other than the responder. Every other buffer is untouched,
   * including the responder's own.
   */
  lemma {:induction false} DeliverReachesEveryPeer(qs: seq<Fifo<Response>>, buf: map<Addr, map<Addr, nat>>,
                                                   locals: seq<Addr>, src: Addr, dealer: Addr, r: Response, id: nat)
    requires ChannelsIn(buf, |qs|)
    requires forall i, j | 0 <= i < j < |locals| :: locals[i] != locals[j]
    requires forall i, j | 0 <= i < |locals| && 0 <= j < |locals| && i != j
               && HasBuffer(buf, locals[i], dealer) && HasBuffer(buf, locals[j], dealer)
               :: buf[locals[i]][dealer] != buf[locals[j]][dealer]
    requires Deliver(qs, buf, locals, src, dealer, r).1 == Delivered
    requires id < |qs|
    ensures var qs' := Deliver(qs, buf, locals, src, dealer, r).0;
            qs'[id] == if exists l :: l in locals && l != src && HasBuffer(buf, l, dealer) && buf[l][dealer] == id
                       then qs[id].Push(r) else qs[id]
    decreases |locals|
  {
    if locals != [] {
      var rest := locals[1..];
      assert forall l :: l in locals <==> l == locals[0] || l in rest;
      if locals[0] == src {
        DeliverReachesEveryPeer(qs, buf, rest, src, dealer, r, id);
      } else {
        var c := buf[locals[0]][dealer];
        var qs1 := qs[c := qs[c].Push(r)];
        DeliverReachesEveryPeer(qs1, buf, rest, src, dealer, r, id);
        if id == c {
          assert !exists l :: l in rest && l != src && HasBuffer(buf, l, dealer) && buf[l][dealer] == id by {
            forall l | l in rest && HasBuffer(buf, l, dealer) ensures buf[l][dealer] != id {
              var j :| 0 <= j < |rest| && rest[j] == l;
              assert locals[j + 1] == l;
            }
          }
        }
      }
    }
  }

  /**
   * If some local mediator other than the responder has no buffer for the
   * dealer, delivery never completes: it blocks or gets stuck on the nil
   * channel. This is the fate of the response that arrives after a loop
   * finished and deleted its buffer.
   */
  lemma {:induction false} MissingBufferNeverDelivers(qs: seq<Fifo<Response>>, buf: map<Addr, map<Addr, nat>>,
                                                      locals: seq<Addr>, src: Addr, dealer: Addr, r: Response, missing: Addr)
    requires ChannelsIn(buf, |qs|)
    requires missing in locals && missing != src && !HasBuffer(buf, missing, dealer)
    ensures Deliver(qs, buf, locals, src, dealer, r).1 != Delivered
    decreases |locals|
  {
    if locals[0] != missing {
      assert missing in locals[1..];
      if locals[0] == src || (HasBuffer(buf, locals[0], dealer) && !qs[buf[locals[0]][dealer]].Full()) {
        var qs1 := if locals[0] == src then qs
                   else qs[buf[locals[0]][dealer] := qs[buf[locals[0]][dealer]].Push(r)];
        MissingBufferNeverDelivers(qs1, buf, locals[1..], src, dealer, r, missing);
      }
    }
  }

  /** `processVSSDeal`'s decision, given whether the mediator has a DKG handle and what `ProcessDeal` returned. */
  function ClassifyDeal(hasDkg: bool, outcome: DealOutcome): (d: DealDecision)
    ensures d == ResponseBroadcast <==> hasDkg && outcome.DealAccepted? && outcome.resp.status == Approval
    ensures d == ComplaintKept <==> hasDkg && outcome.DealAccepted? && outcome.resp.status != Approval
    ensures d == DealDropped <==> hasDkg && outcome.DealRejected?
  {
    if !hasDkg then NoDkg
    else if outcome.DealRejected? then DealDropped
    else if outcome.resp.status != Approval then ComplaintKept
    else ResponseBroadcast
  }

  /** The deal events `broadcastVSSDeals` publishes for one mediator's `Deals()` map. */
  function DealEventsOf(deals: map<nat, Deal>): set<DealEvent>
  {
    set k | k in deals :: DealEvent(k, deals[k])
  }

  /** Every deal gives its own event: a mediator publishes as many events as it has deals. */
  lemma {:induction false} DealEventsCount(deals: map<nat, Deal>)
    ensures |DealEventsOf(deals)| == |deals|
    decreases |deals|
  {
    if deals != map[] {
      var k :| k in deals;
      var rest := deals - {k};
      DealEventsCount(rest);
      forall e | e in DealEventsOf(deals)
        ensures e in DealEventsOf(rest) + {DealEvent(k, deals[k])}
      {
        var j :| j in deals && e == DealEvent(j, deals[j]);
        if j != k {
          assert j in rest;
        }
      }
      assert DealEventsOf(deals) == DealEventsOf(rest) + {DealEvent(k, deals[k])};
      assert DealEvent(k, deals[k]) !in DealEventsOf(rest);
    }
  }

  /** Publishing the deal under one more key adds exactly its event. */
  lemma DealEventsOfOneMore(deals: map<nat, Deal>, todo: set<nat>, k: nat)
    requires k in todo && k in deals
    ensures DealEventsOf(deals - (todo - {k})) == DealEventsOf(deals - todo) + {DealEvent(k, deals[k])}
  {
    var after, before := deals - (todo - {k}), deals - todo;
    assert k in after;
    forall j | j in before
      ensures j in after && after[j] == before[j]
    {
    }
  }

  /** The mediators among `ms` whose `Deals()` succeeded. */
  function Dealers(ms: set<Addr>, deals: map<Addr, Option<map<nat, Deal>>>): set<Addr>
    requires ms <= deals.Keys
  {
    set m | m in ms && deals[m].Some?
  }

  /** The number of deals the mediators among `ms` hold, counting nothing for a failed `Deals()`. */
  ghost function DealCount(ms: set<Addr>, deals: map<Addr, Option<map<nat, Deal>>>): nat
    requires ms <= deals.Keys
  {
    if ms == {} then 0
    else
      var m :| m in ms;
      (if deals[m].Some? then |deals[m].value| else 0) + DealCount(ms - {m}, deals)
  }

  /** Any one mediator can be counted first. */
  lemma {:induction false} DealCountSplit(ms: set<Addr>, deals: map<Addr, Option<map<nat, Deal>>>, m: Addr)
    requires ms <= deals.Keys && m in ms
    ensures DealCount(ms, deals) == (if deals[m].Some? then |deals[m].value| else 0) + DealCount(ms - {m}, deals)
    decreases |ms|
  {
    var m' :| m' in ms && DealCount(ms, deals) ==
      (if deals[m'].Some? then |deals[m'].value| else 0) + DealCount(ms - {m'}, deals);
    if m' != m {
      DealCountSplit(ms - {m'}, deals, m);
      DealCountSplit(ms - {m}, deals, m');
      assert ms - {m'} - {m} == ms - {m} - {m'};
    }
  }

  /** Taking one mediator out of `ms` takes it out of the dealers and its deals out of the count. */
  lemma DealersStep(ms: set<Addr>, deals: map<Addr, Option<map<nat, Deal>>>, m: Addr)
    requires ms <= deals.Keys && m in ms
    ensures |Dealers(ms - {m}, deals)| == |Dealers(ms, deals)| - (if deals[m].Some? then 1 else 0)
    ensures DealCount(ms - {m}, deals) == DealCount(ms, deals) - (if deals[m].Some? then |deals[m].value| else 0)
  {
    DealCountSplit(ms, deals, m);
    assert Dealers(ms - {m}, deals) == Dealers(ms, deals) - {m};
  }

  /** The events published for the mediators in `done`, one of whose deal maps may be missing. */
  ghost predicate EventsOf(feed: seq<DealEvent>, done: set<Addr>, deals: map<Addr, Option<map<nat, Deal>>>)
    requires done <= deals.Keys
  {
    forall e :: e in feed <==> exists m :: m in done && deals[m].Some? && e in DealEventsOf(deals[m].value)
  }

  /** Publishing one more mediator's deals, or nothing when its `Deals()` failed, keeps `EventsOf`. */
  lemma EventsOfOneMore(feed: seq<DealEvent>, added: seq<DealEvent>, done: set<Addr>,
                        deals: map<Addr, Option<map<nat, Deal>>>, m: Addr)
    requires done <= deals.Keys && m in deals
    requires EventsOf(feed, done, deals)
    requires deals[m].None? ==> added == []
    requires deals[m].Some? ==> forall e :: e in added <==> e in DealEventsOf(deals[m].value)
    ensures EventsOf(feed + added, done + {m}, deals)
  {
    forall e
      ensures e in feed + added <==>
              exists m' :: m' in done + {m} && deals[m'].Some? && e in DealEventsOf(deals[m'].value)
    {
      if e in added {
        assert deals[m].Some? && e in DealEventsOf(deals[m].value);
      }
    }
  }

  /** The registry without the (local, dealer) entry: Go's `delete(respBuf[local], dealer)`. */
  function RemoveBuffer(buf: map<Addr, map<Addr, nat>>, local: Addr, dealer: Addr): (b: map<Addr, map<Addr, nat>>)
    ensures !HasBuffer(b, local, dealer)
    ensures forall l: Addr, d: Addr :: HasBuffer(b, l, d) <==> HasBuffer(buf, l, d) && (l, d) != (local, dealer)
    ensures forall l: Addr, d: Addr | HasBuffer(b, l, d) :: HasBuffer(buf, l, d) && b[l][d] == buf[l][d]
  {
    if local in buf then buf[local := buf[local] - {dealer}] else buf
  }

  // ---------------------------------------------------------------------------
  // The plugin

  class MediatorPlugin {
    const groupSigningEnabled: bool
    /** The committee, by index (`GetActiveMediatorAddr`); its length is `ActiveMediatorsCount`. */
    const activeMediators: seq<Addr>
    /** `GetLocalActiveMediators`. */
    const localMediators: seq<Addr>
    /** The keys of `activeDKGs`: local mediators that hold a DKG handle. */
    const activeDKGs: set<Addr>

    var dealBuf: map<Addr, Fifo<Deal>>
    /** Every response channel; a channel is its position here. */
    var respQueues: seq<Fifo<Response>>
    /** `respBuf[local][dealer]`: the channel of that pair. */
    var respBuf: map<Addr, map<Addr, nat>>
    /** The response loops started so far. */
    var loops: seq<ResponseLoop>
    /** The `quit` channel has been closed. */
    var quit: bool
    /** Deal events handed to `vssDealFeed.Send`. */
    var dealFeed: seq<DealEvent>
    /** Responses handed to `vssResponseFeed.Send`. */
    var responseFeed: seq<Response>
    /** Local mediators for which `signUnitsTBLS` and `recoverUnitsTBLS` were started. */
    var tblsStarted: seq<Addr>

    ghost predicate Valid()
      reads this
    {
      && ChannelsIn(respBuf, |respQueues|)
      && forall i | 0 <= i < |loops| && loops[i].chan.Some? :: loops[i].chan.value < |respQueues|
    }

    /**
     * The plugin at the start of a term. The response buffers that exist then
     * are given: the code that creates them is not part of this model.
     */
    constructor (enabled: bool, active: seq<Addr>, locals: seq<Addr>, dkgs: set<Addr>,
                 queues: seq<Fifo<Response>>, buf: map<Addr, map<Addr, nat>>)
      requires ChannelsIn(buf, |queues|)
      ensures Valid()
      ensures groupSigningEnabled == enabled && activeMediators == active
      ensures localMediators == locals && activeDKGs == dkgs
      ensures dealBuf == map[] && respQueues == queues && respBuf == buf && loops == []
      ensures !quit && dealFeed == [] && responseFeed == [] && tblsStarted == []
    {
      groupSigningEnabled, activeMediators, localMediators, activeDKGs := enabled, active, locals, dkgs;
      dealBuf, respQueues, respBuf, loops := map[], queues, buf, [];
      quit, dealFeed, responseFeed, tblsStarted := false, [], [], [];
    }

    /** The channel a loop for (local, dealer) reads: `respBuf[local][dealer]`, nil if absent. */
    function ChannelOf(local: Addr, dealer: Addr): Option<nat>
      reads this`respBuf
    {
      if HasBuffer(respBuf, local, dealer) then Some(respBuf[local][dealer]) else None
    }

    /**
     * `AddToDealBuf`: the first deal for a mediator creates its buffer with
     * capacity `ActiveMediatorsCount() - 1`; the deal then goes to the back.
     */
    method AddToDealBuf(ev: DealEvent) returns (r: SendResult)
      requires ev.dstIndex < |activeMediators| && ev.deal.index < |activeMediators|
      modifies this`dealBuf
      ensures !groupSigningEnabled ==> r == Ignored && dealBuf == old(dealBuf)
      ensures groupSigningEnabled ==>
                var local := activeMediators[ev.dstIndex];
                var q := if local in old(dealBuf) then old(dealBuf)[local]
                         else Fifo(|activeMediators| - 1, []);
                && r == (if q.Full() then Blocked(local) else Delivered)
                && dealBuf == old(dealBuf)[local := if q.Full() then q else q.Push(ev.deal)]
    {
      if !groupSigningEnabled {
        return Ignored;
      }
      var local := activeMediators[ev.dstIndex];
      if local !in dealBuf {
        dealBuf := dealBuf[local := Fifo(|activeMediators| - 1, [])];
      }
      if dealBuf[local].Full() {
        return Blocked(local);
      }
      dealBuf := dealBuf[local := dealBuf[local].Push(ev.deal)];
      r := Delivered;
    }

    /**
     * `AddToResponseBuf`: hand the response to every local mediator except the
     * one that sent it, into that mediator's buffer for the dealer.
     */
    method AddToResponseBuf(resp: Response) returns (r: SendResult)
      requires Valid()
      requires resp.srcIndex < |activeMediators| && resp.index < |activeMediators|
      modifies this`respQueues
      ensures Valid()
      ensures !groupSigningEnabled ==> r == Ignored && respQueues == old(respQueues)
      ensures groupSigningEnabled ==>
                (respQueues, r) == Deliver(old(respQueues), respBuf, localMediators,
                                           activeMediators[resp.srcIndex], activeMediators[resp.index], resp)
    {
      if !groupSigningEnabled {
        return Ignored;
      }
      var src := activeMediators[resp.srcIndex];
      var dealer := activeMediators[resp.index];
      var i := 0;
      while i < |localMediators|
        invariant 0 <= i <= |localMediators|
        invariant |respQueues| == |old(respQueues)|
        invariant Deliver(old(respQueues), respBuf, localMediators, src, dealer, resp)
                  == Deliver(respQueues, respBuf, localMediators[i..], src, dealer, resp)
      {
        var local := localMediators[i];
        assert localMediators[i..][1..] == localMediators[i + 1..];
        if local != src {
          if !HasBuffer(respBuf, local, dealer) {
            return Stuck(local);
          }
          var id := respBuf[local][dealer];
          if respQueues[id].Full() {
            return Blocked(local);
          }
          respQueues := respQueues[id := respQueues[id].Push(resp)];
        }
        i := i + 1;
      }
      r := Delivered;
    }

    /**
     * The start of `processResponseLoop`: nothing without a DKG handle,
     * otherwise a running loop with its counter set and its channel read.
     */
    method StartResponseLoop(local: Addr, dealer: Addr)
      requires Valid()
      modifies this`loops
      ensures Valid()
      ensures loops == old(loops) + (if local in activeDKGs
                                     then [StartLoop(local, dealer, ChannelOf(local, dealer), |activeMediators|)]
                                     else [])
    {
      if local !in activeDKGs {
        return;
      }
      loops := loops + [StartLoop(local, dealer, ChannelOf(local, dealer), |activeMediators|)];
    }

    /**
     * `processVSSDeal`. A mediator without a handle, or a deal the handle
     * rejects, changes nothing. Otherwise the response loop for the dealer
     * starts. The response is broadcast only if it approves the deal.
     */
    method ProcessVSSDeal(ev: DealEvent, outcome: DealOutcome) returns (d: DealDecision)
      requires Valid()
      requires ev.dstIndex < |activeMediators| && ev.deal.index < |activeMediators|
      modifies this`loops, this`responseFeed
      ensures Valid()
      ensures var local := activeMediators[ev.dstIndex];
              var dealer := activeMediators[ev.deal.index];
              && d == ClassifyDeal(local in activeDKGs, outcome)
              && loops == old(loops) + (if d == ComplaintKept || d == ResponseBroadcast
                                        then [StartLoop(local, dealer, ChannelOf(local, dealer), |activeMediators|)]
                                        else [])
              && responseFeed == old(responseFeed) + (if d == ResponseBroadcast then [outcome.resp] else [])
    {
      var local := activeMediators[ev.dstIndex];
      if local !in activeDKGs {
        return NoDkg;
      }
      if outcome.DealRejected? {
        return DealDropped;
      }
      var dealer := activeMediators[ev.deal.index];
      StartResponseLoop(local, dealer);
      if outcome.resp.status != Approval {
        return ComplaintKept;
      }
      responseFeed := responseFeed + [outcome.resp];
      d := ResponseBroadcast;
    }

    /** The inner loop of `broadcastVSSDeals`: publish each deal tagged with its map key. */
    method PublishDeals(deals: map<nat, Deal>)
      modifies this`dealFeed
      ensures |dealFeed| == |old(dealFeed)| + |deals|
      ensures dealFeed[..|old(dealFeed)|] == old(dealFeed)
      ensures forall e :: e in dealFeed[|old(dealFeed)|..] <==> e in DealEventsOf(deals)
    {
      var todo := deals.Keys;
      ghost var start := |dealFeed|;
      while todo != {}
        invariant todo <= deals.Keys
        invariant start <= |dealFeed| == start + |deals| - |todo|
        invariant dealFeed[..start] == old(dealFeed)
        invariant forall e :: e in dealFeed[start..] <==> e in DealEventsOf(deals - todo)
      {
        var k :| k in todo;
        ghost var before, todoBefore := dealFeed, todo;
        dealFeed := dealFeed + [DealEvent(k, deals[k])];
        todo := todo - {k};
        assert dealFeed[start..] == before[start..] + [DealEvent(k, deals[k])];
        DealEventsOfOneMore(deals, todoBefore, k);
      }
      assert deals - todo == deals;
    }

  /** One round of `broadcastVSSDeals` for a mediator whose `Deals()` succeeded. */
    method StartAndPublish(m: Addr, ds: map<nat, Deal>)
      requires Valid() && m in activeDKGs
      modifies this`loops, this`dealFeed
      ensures Valid()
      ensures loops == old(loops) + [StartLoop(m, m, ChannelOf(m, m), |activeMediators|)]
      ensures |dealFeed| == |old(dealFeed)| + |ds| && dealFeed[..|old(dealFeed)|] == old(dealFeed)
      ensures forall e :: e in dealFeed[|old(dealFeed)|..] <==> e in DealEventsOf(ds)
    {
      StartResponseLoop(m, m);
      PublishDeals(ds);
    }

  /**
     * `broadcastVSSDeals`: for every mediator with a DKG handle, in any order,
     * skip it if `Deals()` failed. Otherwise start its loop about its own
     * deal and publish each of its deals with `DstIndex` set to the deal's key.
     */
    method BroadcastVSSDeals(deals: map<Addr, Option<map<nat, Deal>>>)
      requires Valid()
      requires activeDKGs <= deals.Keys
      modifies this`loops, this`dealFeed
      ensures Valid()
      ensures |loops| == |old(loops)| + |Dealers(activeDKGs, deals)| && loops[..|old(loops)|] == old(loops)
      ensures forall l | l in loops[|old(loops)|..] ::
                l.local in activeDKGs && deals[l.local].Some?
                && l == StartLoop(l.local, l.local, ChannelOf(l.local, l.local), |activeMediators|)
      ensures forall m | m in activeDKGs && deals[m].Some? ::
                StartLoop(m, m, ChannelOf(m, m), |activeMediators|) in loops[|old(loops)|..]
      ensures |dealFeed| == |old(dealFeed)| + DealCount(activeDKGs, deals) && dealFeed[..|old(dealFeed)|] == old(dealFeed)
      ensures forall e :: e in dealFeed[|old(dealFeed)|..] <==>
                exists m :: m in activeDKGs && deals[m].Some? && e in DealEventsOf(deals[m].value)
    {
      var todo := activeDKGs;
      ghost var loops0, feed0 := |loops|, |dealFeed|;
      ghost var owners: seq<Addr> := [];
      while todo != {}
        invariant Valid()
        invariant todo <= activeDKGs
        invariant |loops| == loops0 + |owners| && loops[..loops0] == old(loops)
        invariant forall j | 0 <= j < |owners| ::
                    owners[j] in activeDKGs - todo && deals[owners[j]].Some?
                    && loops[loops0 + j] == StartLoop(owners[j], owners[j], ChannelOf(owners[j], owners[j]), |activeMediators|)
        invariant forall m | m in activeDKGs - todo && deals[m].Some? :: m in owners
        invariant |owners| + |Dealers(todo, deals)| == |Dealers(activeDKGs, deals)|
        invariant |dealFeed| + DealCount(todo, deals) == feed0 + DealCount(activeDKGs, deals)
        invariant |dealFeed| >= feed0 && dealFeed[..feed0] == old(dealFeed)
        invariant EventsOf(dealFeed[feed0..], activeDKGs - todo, deals)
      {
        var m :| m in todo;
        DealersStep(todo, deals, m);
        ghost var feedBefore := dealFeed;
        if deals[m].Some? {
          StartAndPublish(m, deals[m].value);
          owners := owners + [m];
        }
        assert dealFeed[feed0..] == feedBefore[feed0..] + dealFeed[|feedBefore|..];
        EventsOfOneMore(feedBefore[feed0..], dealFeed[|feedBefore|..], activeDKGs - todo, deals, m);
        assert activeDKGs - (todo - {m}) == (activeDKGs - todo) + {m};
        todo := todo - {m};
      }
      assert activeDKGs - todo == activeDKGs;
      assert |Dealers(todo, deals)| == 0;
      OwnersStartedLoops(loops0, owners, deals);
    }

    /** The loops after `start` are those of `owners`, one each: so they are exactly the dealers' loops. */
    lemma OwnersStartedLoops(start: nat, owners: seq<Addr>, deals: map<Addr, Option<map<nat, Deal>>>)
      requires activeDKGs <= deals.Keys
      requires |loops| == start + |owners|
      requires forall j | 0 <= j < |owners| ::
                 owners[j] in activeDKGs && deals[owners[j]].Some?
                 && loops[start + j] == StartLoop(owners[j], owners[j], ChannelOf(owners[j], owners[j]), |activeMediators|)
      requires forall m | m in activeDKGs && deals[m].Some? :: m in owners
      ensures forall l | l in loops[start..] ::
                l.local in activeDKGs && deals[l.local].Some?
                && l == StartLoop(l.local, l.local, ChannelOf(l.local, l.local), |activeMediators|)
      ensures forall m | m in activeDKGs && deals[m].Some? ::
                StartLoop(m, m, ChannelOf(m, m), |activeMediators|) in loops[start..]
    {
      forall l | l in loops[start..]
        ensures l.local in activeDKGs && deals[l.local].Some?
                && l == StartLoop(l.local, l.local, ChannelOf(l.local, l.local), |activeMediators|)
      {
        var j :| 0 <= j < |owners| && loops[start..][j] == l;
        var m := owners[j];
        assert loops[start + j] == l == StartLoop(m, m, ChannelOf(m, m), |activeMediators|);
        assert l.local == m;
      }
      forall m | m in activeDKGs && deals[m].Some?
        ensures StartLoop(m, m, ChannelOf(m, m), |activeMediators|) in loops[start..]
      {
        var j :| 0 <= j < |owners| && owners[j] == m;
        assert loops[start..][j] == loops[start + j];
      }
    }

    /** A loop can take a response: it runs, has a channel, and the channel holds something. */
    predicate Ready(i: nat)
      reads this
      requires Valid() && i < |loops|
    {
      && loops[i].state == Running
      && loops[i].chan.Some?
      && |respQueues[loops[i].chan.value].items| > 0
    }

    /**
     * The `resp := <-respCh` branch of the loop's `select`. It takes the oldest
     * buffered response and passes it to `ProcessResponse` (its result is
     * ignored), then counts it. When the loop finishes it deletes the pair's
     * registry entry, and if certified it starts the signing and recovery
     * routines for the local mediator.
     */
    method ReceiveResponse(i: nat, outcome: ResponseOutcome, certified: bool) returns (got: Option<Response>)
      requires Valid() && i < |loops|
      modifies this`loops, this`respQueues, this`respBuf, this`tblsStarted
      ensures Valid()
      ensures got.Some? <==> old(Ready(i))
      ensures got.None? ==> loops == old(loops) && respQueues == old(respQueues)
                            && respBuf == old(respBuf) && tblsStarted == old(tblsStarted)
      ensures got.Some? ==>
                var l := old(loops[i]);
                var id := l.chan.value;
                var l' := Receive(l, certified);
                && got.value == old(respQueues[id].items[0])
                && loops == old(loops)[i := l']
                && respQueues == old(respQueues)[id := old(respQueues[id]).(items := old(respQueues[id].items[1..]))]
                && respBuf == (if l'.state.Finished? then RemoveBuffer(old(respBuf), l.local, l.dealer) else old(respBuf))
                && tblsStarted == old(tblsStarted) + (if l'.state == Finished(true) then [l.local] else [])
    {
      if !Ready(i) {
        return None;
      }
      var l := loops[i];
      var id := l.chan.value;
      var resp := respQueues[id].items[0];
      respQueues := respQueues[id := respQueues[id].(items := respQueues[id].items[1..])];
      // processResp(resp): the DKG handle's verdict `outcome` is only logged.
      var l' := Receive(l, certified);
      loops := loops[i := l'];
      if l'.state.Finished? {
        respBuf := RemoveBuffer(respBuf, l.local, l.dealer);
        if certified {
          tblsStarted := tblsStarted + [l.local];
        }
      }
      got := Some(resp);
    }

    /** The `<-mp.quit` branch of the loop's `select`: once quit is closed, a running loop may return. */
    method TakeQuit(i: nat) returns (exited: bool)
      requires Valid() && i < |loops|
      modifies this`loops
      ensures Valid()
      ensures exited <==> quit && old(loops[i].state) == Running
      ensures loops == if exited then old(loops)[i := old(loops[i]).(state := Quit)] else old(loops)
    {
      exited := quit && loops[i].state == Running;
      if exited {
        loops := loops[i := loops[i].(state := Quit)];
      }
    }

    /** The host closes the `quit` channel; it stays closed. */
    method Shutdown()
      modifies this`quit
      ensures quit
    {
      quit := true;
    }
  }
}
