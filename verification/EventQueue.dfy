/**
 The wallet's event queue with its buffering of multi-path payment events, and the driver
 that sets such a payment up.

 Whole calls are the steps here: `add_event` tests the metadata before it takes the
 buffer lock, and `AddEvent` treats the two as one; module MppSplitAdd takes them apart.
 Writes succeed. The queue starts empty
 in every process; `pushed` is the history of everything ever appended to it.
 */
module EventQueue {
  import opened Common
  import opened Metadata

  datatype Event =
    | PaymentSuccessful(id: PaymentId, hash: Bytes32, preimage: Bytes32, fee: Option<nat>)
    | PaymentFailed(id: PaymentId, failedHash: Option<Bytes32>, reason: Option<nat>)
    | OtherEvent(tag: nat)

  datatype Queue = Queue(
    pushed: seq<Event>, handled: nat, pending: map<Bytes32, seq<Event>>, meta: MetaMap)

  function TerminalPaymentHash(e: Event): Option<Bytes32> {
    match e
    case PaymentSuccessful(_, h, _, _) => Some(h)
    case PaymentFailed(_, h, _) => h
    case OtherEvent(_) => None
  }

  /** The event is the end of a payment and carries the hash. */
  predicate Carries(e: Event, h: Bytes32) {
    (e.PaymentSuccessful? && e.hash == h) || (e.PaymentFailed? && e.failedHash == Some(h))
  }

  function ResultOf(e: Event): LegResult
    requires !e.OtherEvent?
  {
    match e
    case PaymentSuccessful(_, _, p, fee) => Success(if fee.Some? then fee.value else 0, p)
    case PaymentFailed(_, _, _) => Failure
  }

  function Combined(surface: PaymentId, o: MppOutcome): Event {
    match o
    case Succeeded(h, p, fee) => PaymentSuccessful(surface, h, p, Some(fee))
    case Failed(h) => PaymentFailed(surface, Some(h), None)
  }

  function Push(q: Queue, e: Event): Queue { q.(pushed := q.pushed + [e]) }

  /** The test `add_event` makes on the metadata. */
  predicate TestsLeg(q: Queue, e: Event) { !e.OtherEvent? && IsMpp(q.meta, e.id) }

  /** What it does next, for either answer: record a leg, or buffer or queue the event. */
  function Landed(q: Queue, e: Event, leg: bool): Queue
    requires leg ==> !e.OtherEvent?
  {
    if leg then
      var r := RecordLeg(q.meta, e.id, ResultOf(e));
      var recorded := q.(meta := AfterRecord(q.meta, r));
      if r.Recorded? && r.outcome.Some? then Push(recorded, Combined(r.surface, r.outcome.value)) else recorded
    else
      var h := TerminalPaymentHash(e);
      if h.Some? && h.value in q.pending then
        q.(pending := q.pending[h.value := q.pending[h.value] + [e]])
      else Push(q, e)
  }

  function AddEvent(q: Queue, e: Event): Queue { Landed(q, e, TestsLeg(q, e)) }

  function AddAll(q: Queue, es: seq<Event>): Queue
    decreases |es|
  {
    if es == [] then q else AddAll(AddEvent(q, es[0]), es[1..])
  }

  function Begin(q: Queue, h: Bytes32): Queue {
    if h in q.pending then q else q.(pending := q.pending[h := []])
  }

  function Finish(q: Queue, h: Bytes32): Queue {
    if h in q.pending then AddAll(q.(pending := q.pending - {h}), q.pending[h]) else q
  }

  function SetMeta(q: Queue, k: PaymentId, v: TxMetadata): Queue { q.(meta := q.meta[k := v]) }

  function Handle(q: Queue): Queue {
    if q.handled < |q.pushed| then q.(handled := q.handled + 1) else q
  }

  class WalletEventQueue {
    var queue: seq<Event>
    var pending: map<Bytes32, seq<Event>>
    const store: TxMetadataStore
    ghost var pushed: seq<Event>
    ghost var handled: nat

    ghost predicate Valid()
      reads this, store
    {
      handled <= |pushed| && queue == pushed[handled..] && AllWellFormed(store.mem)
    }

    ghost function View(): Queue
      reads this, store
    {
      Queue(pushed, handled, pending, store.mem)
    }

    constructor (store: TxMetadataStore)
      requires AllWellFormed(store.mem)
      ensures Valid() && View() == Queue([], 0, map[], store.mem) && this.store == store
    {
      this.store, queue, pending, pushed, handled := store, [], map[], [], 0;
    }

    method BeginMppSetup(h: Bytes32)
      requires Valid()
      modifies this`pending
      ensures Valid() && View() == Begin(old(View()), h)
      ensures h in old(pending) ==> pending == old(pending)
      ensures h !in old(pending) ==> pending == old(pending)[h := []]
    {
      if h !in pending { pending := pending[h := []]; }
    }

    method FinishMppSetup(h: Bytes32)
      requires Valid()
      modifies this, store
      ensures Valid() && View() == Finish(old(View()), h)
    {
      if h !in pending { return; }
      var events := pending[h];
      pending := pending - {h};
      ghost var target := AddAll(View(), events);
      for i := 0 to |events|
        invariant Valid() && AddAll(View(), events[i..]) == target
      {
        assert events[i..][0] == events[i] && events[i..][1..] == events[i + 1..];
        Add(events[i]);
      }
    }

    method Add(e: Event)
      requires Valid()
      modifies this, store
      ensures Valid() && View() == AddEvent(old(View()), e)
      // an event that is no leg: buffered under its hash, or queued
      ensures e.OtherEvent? || !old(IsMppLeg(e.id)) ==>
        if exists h :: h in old(pending) && Carries(e, h) then
          && queue == old(queue)
          && forall h :: h in old(pending) ==>
            h in pending && pending[h] == old(pending)[h] + if Carries(e, h) then [e] else []
        else queue == old(queue) + [e] && pending == old(pending)
    {
      match e {
        case PaymentSuccessful(id, _, preimage, fee) =>
          if IsMppLeg(id) {
            var combined := store.RecordMppLeg(id, Success(if fee.Some? then fee.value else 0, preimage));
            PushCombinedMpp(combined);
            return;
          }
        case PaymentFailed(id, _, _) =>
          if IsMppLeg(id) {
            var combined := store.RecordMppLeg(id, Failure);
            PushCombinedMpp(combined);
            return;
          }
        case OtherEvent(_) =>
      }
      var h := TerminalPaymentHash(e);
      if h.Some? && h.value in pending {
        pending := pending[h.value := pending[h.value] + [e]];
        return;
      }
      PushEvent(e);
    }

    predicate IsMppLeg(id: PaymentId)
      reads this, store
    {
      id in store.mem && store.mem[id].ty.MppPayment?
    }

    method PushCombinedMpp(combined: Option<(PaymentId, MppOutcome)>)
      requires Valid()
      modifies this`queue, this`pushed
      ensures Valid()
      ensures View() == if combined.Some? then Push(old(View()), Combined(combined.value.0, combined.value.1)) else old(View())
    {
      match combined
      case Some((surface, Succeeded(h, p, fee))) => PushEvent(PaymentSuccessful(surface, h, p, Some(fee)));
      case Some((surface, Failed(h))) => PushEvent(PaymentFailed(surface, Some(h), None));
      case None =>
    }

    method PushEvent(e: Event)
      requires Valid()
      modifies this`queue, this`pushed
      ensures Valid() && View() == Push(old(View()), e)
    {
      queue := queue + [e];
      pushed := pushed + [e];
    }

    method NextEvent() returns (e: Option<Event>)
      requires Valid()
      ensures e == if handled < |pushed| then Some(pushed[handled]) else None
    {
      return if queue == [] then None else Some(queue[0]);
    }

    method EventHandled()
      requires Valid()
      modifies this`queue, this`handled
      ensures Valid() && View() == Handle(old(View()))
      ensures pushed == old(pushed) && queue == if old(queue) == [] then [] else old(queue)[1..]
    {
      if queue != [] {
        queue := queue[1..];
        handled := handled + 1;
      }
    }
  }

  // ----- the driver

  datatype DriverError = InvalidInvoice | InvalidAmount | InsufficientFunds | TrustedFailed | LightningFailed

  function LegEntry(surface: PaymentId, lightningLeg: Bytes32, totalMsat: nat): Mpp {
    Mpp(surface, lightningLeg, totalMsat, OutgoingLightningBolt11(None), None, None, None, false, false)
  }

  /** The shared entry of the two legs: nothing reported, the whole amount, the lightning leg's id. */
  predicate EntersLegs(v: TxMetadata, surface: PaymentId, lightningLeg: Bytes32, totalMsat: nat, now: nat) {
    && v.time == now && v.ty.MppPayment?
    && var e := v.ty.mpp;
    && e.surface == surface && e.lightningLeg == lightningLeg && e.totalMsat == totalMsat
    && e.ty == OutgoingLightningBolt11(None) && e.trustedFee == None && e.lightningFee == None && e.preimage == None
    && !e.failed && !e.finalized
  }

  /**
   `try_mpp_bolt11` with the answers of the two wallets as parameters: the trusted
   payment id and the lightning payment id, if the respective payment could be started.
   */
  method TryMppBolt11(
    q: WalletEventQueue, hash: Bytes32, invoiceAmount: Option<Amount>, amount: Amount, trustedBalance: Amount,
    lnBalance: Amount, lnFee: Amount, payPartial: Option<Bytes32>, payLightning: Option<Bytes32>, now: nat)
    returns (r: Result<PaymentId, DriverError>, trustedPortion: Amount, lnPortion: Amount)
    requires q.Valid()
    modifies q, q.store
    ensures q.Valid()
    // the two portions make up the invoice, and the lightning wallet can afford its own
    ensures r.Ok? || r == Err(TrustedFailed) || r == Err(LightningFailed) ==>
      && invoiceAmount == Some(amount) && trustedPortion == trustedBalance
      && 0 < trustedPortion && 0 < lnPortion && trustedPortion + lnPortion == amount
      && (lnFee + lnPortion <= lnBalance || lnBalance == MAX_AMOUNT)
      && hash !in q.pending   // buffering ends on every path
    // which answer it gives
    ensures r == Err(InvalidInvoice) <==> invoiceAmount == None
    ensures r == Err(InvalidAmount) <==> invoiceAmount.Some? && invoiceAmount.value != amount
    ensures r == Err(InsufficientFunds) <==>
      && invoiceAmount == Some(amount)
      && (trustedBalance == 0 || trustedBalance >= amount
          || (lnFee + (amount - trustedBalance) > lnBalance && lnBalance < MAX_AMOUNT))
    ensures r == Err(TrustedFailed) ==> payPartial.None?
    ensures r == Err(LightningFailed) ==> payPartial.Some? && payLightning.None?
    ensures r.Ok? ==> payPartial.Some? && payLightning.Some? && r.value == Trusted(payPartial.value)
    // and what it leaves behind
    ensures r.Ok? ==>
      exists entry ::
        && EntersLegs(entry, r.value, payLightning.value, amount, now)
        && q.View() == Finish(SetMeta(SetMeta(Begin(old(q.View()), hash), r.value, entry),
                                      SelfCustodial(payLightning.value), entry), hash)
    ensures r == Err(LightningFailed) ==>
      q.View() == Finish(SetMeta(Begin(old(q.View()), hash), Trusted(payPartial.value),
          TxMetadata(Payment(OutgoingLightningBolt11(None)), now)), hash)
    ensures r == Err(TrustedFailed) ==> q.View() == Finish(Begin(old(q.View()), hash), hash)
    ensures r.Err? && !r.error.TrustedFailed? && !r.error.LightningFailed? ==> q.View() == old(q.View())
  {
    trustedPortion, lnPortion := 0, 0;
    if invoiceAmount.None? { return Err(InvalidInvoice), 0, 0; }
    if invoiceAmount.value != amount { return Err(InvalidAmount), 0, 0; }
    trustedPortion := trustedBalance;
    if trustedPortion == 0 || trustedPortion >= amount { return Err(InsufficientFunds), trustedPortion, 0; }
    lnPortion := AmountSub(amount, trustedPortion);
    if AmountAdd(lnFee, lnPortion) > lnBalance { return Err(InsufficientFunds), trustedPortion, lnPortion; }
    q.BeginMppSetup(hash);
    if payPartial.None? {
      FinishEndsBuffering(q.View(), hash);
      q.FinishMppSetup(hash);
      return Err(TrustedFailed), trustedPortion, lnPortion;
    }
    var surface := Trusted(payPartial.value);
    if payLightning.None? {
      var plain := TxMetadata(Payment(OutgoingLightningBolt11(None)), now);
      SetKeepsWellFormed(q.store.mem, surface, plain);
      var _ := q.store.DoSet(surface, plain);
      FinishEndsBuffering(q.View(), hash);
      q.FinishMppSetup(hash);
      return Err(LightningFailed), trustedPortion, lnPortion;
    }
    var entry := TxMetadata(MppPayment(LegEntry(surface, payLightning.value, amount)), now);
    SetKeepsWellFormed(q.store.mem, surface, entry);
    var _ := q.store.DoSet(surface, entry);
    SetKeepsWellFormed(q.store.mem, SelfCustodial(payLightning.value), entry);
    var _ := q.store.DoSet(SelfCustodial(payLightning.value), entry);
    FinishEndsBuffering(q.View(), hash);
    q.FinishMppSetup(hash);
    assert EntersLegs(entry, surface, payLightning.value, amount, now);
    return Ok(surface), trustedPortion, lnPortion;
  }

  lemma {:induction false} AddAllKeepsBuffers(q: Queue, es: seq<Event>)
    ensures AddAll(q, es).pending.Keys == q.pending.Keys
    decreases |es|
  {
    if es != [] { AddAllKeepsBuffers(AddEvent(q, es[0]), es[1..]); }
  }

  /** Replaying never reopens the buffer it came from. */
  lemma FinishEndsBuffering(q: Queue, h: Bytes32)
    ensures Finish(q, h).pending.Keys == q.pending.Keys - {h}
  {
    if h in q.pending { AddAllKeepsBuffers(q.(pending := q.pending - {h}), q.pending[h]); }
  }
}
