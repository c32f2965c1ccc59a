/**
 Graduated rebalancing: which payment triggers a transfer, how much is transferred, and
 the promotion of the triggering payment, each as one uninterrupted call.

 Balances, payment lists and the wallets' answers are parameters. What crashes and other
 tasks do between the writes of a call is the subject of module RebalanceRuns.
 */
module Rebalance {
  import opened Common
  import opened Metadata

  datatype Tunables = Tunables(rebalanceMin: Amount, trustedBalanceLimit: Amount)

  datatype TriggerParams = TriggerParams(id: Bytes32, amount: Amount)

  // ----- amounts

  /** The trusted transfer to request, if it is worth one. */
  function TransferAmount(receivable: Amount, balance: Amount, tunables: Tunables): (r: Option<Amount>)
    ensures r.Some? ==>
      && tunables.rebalanceMin < r.value <= balance
      && balance - r.value <= tunables.trustedBalanceLimit
      // less than the balance only for what the lightning wallet can take, minus the margin
      && (r.value < balance ==> r.value + tunables.rebalanceMin == receivable)
      // more than it can take only if the rest would exceed the limit
      && (r.value + tunables.rebalanceMin > receivable ==>
        && balance + tunables.rebalanceMin > receivable + tunables.trustedBalanceLimit
        && balance > tunables.trustedBalanceLimit)
    ensures r.None? ==>
      && balance <= tunables.trustedBalanceLimit + tunables.rebalanceMin
      && (balance <= tunables.rebalanceMin
          || (receivable <= 2 * tunables.rebalanceMin
              && (balance <= tunables.trustedBalanceLimit
                  || balance + tunables.rebalanceMin <= receivable + tunables.trustedBalanceLimit)))
  {
    var usable := AmountSub(receivable, tunables.rebalanceMin);
    var fitting := if usable < balance then usable else balance;
    var transfer := if AmountSub(balance, fitting) > tunables.trustedBalanceLimit then balance else fitting;
    if transfer > tunables.rebalanceMin then Some(transfer) else None
  }

  /**
   The amount actually paid out of the trusted wallet for a request. `fee` is the estimate,
   if there is one, and `reducedInvoice` whether a smaller invoice could be made.
   */
  method AmountPaid(requested: Amount, fee: Option<Amount>, reducedInvoice: bool) returns (paid: Option<Amount>)
    ensures fee.None? ==> paid == Some(requested)
    ensures fee.Some? && fee.value >= requested ==> paid == None
    ensures fee.Some? && fee.value < requested && paid.None? ==> fee.value > 0 && !reducedInvoice
    // payment and fee together spend exactly the request, unless the sum saturates
    ensures fee.Some? && paid.Some? ==>
      && paid.value > 0
      && (paid.value + fee.value == requested <==> requested < MAX_AMOUNT || fee.value == 0)
      && (requested == MAX_AMOUNT ==> paid.value == requested)
  {
    var transfer := requested;
    if fee.Some? {
      if fee.value >= transfer { return None; }
      if AmountAdd(transfer, fee.value) > requested {
        transfer := AmountSub(requested, fee.value);
        if !reducedInvoice { return None; }
      }
    }
    return Some(transfer);
  }

  // ----- the trusted decision

  datatype TrustedPayment = TrustedPayment(id: Bytes32, outbound: bool, completed: bool, amount: Amount, time: nat)

  /** Only fresh payments were added, each for a settled receipt of the list. */
  ghost predicate AddsReceipts(a: MetaMap, payments: seq<TrustedPayment>, b: MetaMap) {
    && (forall k :: k in a ==> k in b && b[k] == a[k])
    && (forall k :: k in b && k !in a ==>
          && b[k].ty.Payment? && k.Trusted?
          && exists p :: p in payments && !p.outbound && p.completed && p.id == k.id
               && b[k] == TxMetadata(Payment(IncomingLightning), p.time))
  }

  ghost predicate IsNew(a: MetaMap, payments: seq<TrustedPayment>, id: Bytes32) {
    Trusted(id) !in a && exists p :: p in payments && !p.outbound && p.completed && p.id == id
  }

  ghost predicate IsKnown(a: MetaMap, payments: seq<TrustedPayment>, id: Bytes32) {
    IsPayment(a, Trusted(id)) && exists p :: p in payments && !p.outbound && p.completed && p.id == id
  }

  // ----- what a decision may do to the metadata

  ghost predicate SameAt(a: MetaMap, b: MetaMap, k: PaymentId) {
    (k in a <==> k in b) && (k in a ==> a[k] == b[k])
  }

  /** Memory gains payments for receipts only; the disk gains some of them. */
  ghost predicate Registers(receipts: iset<PaymentId>, m0: MetaMap, d0: MetaMap, m1: MetaMap, d1: MetaMap) {
    && (forall k :: k in m0 ==> k in m1 && m1[k] == m0[k])
    && (forall k :: k in m1 && k !in m0 ==> k in receipts && m1[k].ty.Payment?)
    && (forall k :: k in d0 || k in d1 ==>
      SameAt(d0, d1, k) || (k in m1 && k !in m0 && k in d1 && d1[k] == m1[k]))
  }

  /** A finished decision has written all of them, and its trigger is a receipt with a payment entry. */
  ghost predicate Decides(
    receipts: iset<PaymentId>, m0: MetaMap, d0: MetaMap, trigger: Option<PaymentId>, m1: MetaMap, d1: MetaMap)
  {
    && Registers(receipts, m0, d0, m1, d1)
    && (forall k :: k in m1 && k !in m0 ==> k in d1 && d1[k] == m1[k])
    && (trigger.Some? ==> trigger.value in receipts && IsPayment(m1, trigger.value))
  }

  lemma DecidesAmongMore(
    receipts: iset<PaymentId>, more: iset<PaymentId>, m0: MetaMap, d0: MetaMap, trigger: Option<PaymentId>,
    m1: MetaMap, d1: MetaMap)
    requires Decides(receipts, m0, d0, trigger, m1, d1) && receipts <= more
    ensures Decides(more, m0, d0, trigger, m1, d1)
  {
  }

  /** One more registration, in memory and on disk. */
  lemma RegistersOne(
    receipts: iset<PaymentId>, m0: MetaMap, d0: MetaMap, m1: MetaMap, d1: MetaMap, k: PaymentId, v: TxMetadata)
    requires Decides(receipts, m0, d0, None, m1, d1) && k !in m1 && k in receipts && v.ty.Payment?
    ensures Decides(receipts, m0, d0, None, m1[k := v], d1[k := v])
  {
  }

  function TrustedReceipts(payments: seq<TrustedPayment>): iset<PaymentId> {
    iset p | p in payments && !p.outbound && p.completed :: Trusted(p.id)
  }

  function OnchainReceipts(payments: seq<OnchainPayment>): iset<PaymentId> {
    iset p | p in payments && p.succeeded && p.inbound :: SelfCustodial(p.txid)
  }

  datatype Candidate = Candidate(amount: Amount, id: Bytes32)

  predicate SortsBefore(a: Candidate, b: Candidate) { a.amount < b.amount || (a.amount == b.amount && a.id <= b.id) }

  ghost predicate Lists(payments: seq<TrustedPayment>, c: Candidate) {
    exists p :: p in payments && !p.outbound && p.completed && p.id == c.id && p.amount == c.amount
  }

  ghost predicate UniqueIds(payments: seq<TrustedPayment>) {
    forall p, q :: p in payments && q in payments && p.id == q.id ==> p == q
  }

  /** A new receipt no other new receipt is smaller than; equal amounts go by id. */
  ghost predicate SmallestNew(a: MetaMap, payments: seq<TrustedPayment>, id: Bytes32) {
    exists p :: p in payments && p.id == id
      && forall q :: q in payments && IsNew(a, payments, q.id) ==> p.amount < q.amount || (p.amount == q.amount && p.id <= q.id)
  }

  /**
   The trusted decision: the amount is worth a transfer and the trigger is the smallest new
   receipt or, when nothing is new, the latest known one; no request only for want of either.
   */
  ghost predicate ChoosesTrusted(
    tunables: Tunables, m0: MetaMap, payments: seq<TrustedPayment>, receivable: Amount, balance: Amount,
    r: Option<TriggerParams>, m1: MetaMap)
  {
    && (r.Some? ==>
      && TransferAmount(receivable, balance, tunables) == Some(r.value.amount)
      && tunables.rebalanceMin < r.value.amount <= balance
      && balance - r.value.amount <= tunables.trustedBalanceLimit
      && (r.value.amount < balance ==> r.value.amount + tunables.rebalanceMin == receivable)
      && (r.value.amount + tunables.rebalanceMin > receivable ==>
        && balance + tunables.rebalanceMin > receivable + tunables.trustedBalanceLimit
        && balance > tunables.trustedBalanceLimit)
      && IsPayment(m1, Trusted(r.value.id))
      && (IsNew(m0, payments, r.value.id) || IsKnown(m0, payments, r.value.id))
      && (IsNew(m0, payments, r.value.id) && UniqueIds(payments) ==> SmallestNew(m0, payments, r.value.id))
      && (!IsNew(m0, payments, r.value.id) ==>
        && (forall id :: !IsNew(m0, payments, id))
        && (forall id :: IsKnown(m0, payments, id) ==>
          m0[Trusted(id)].time <= m1[Trusted(r.value.id)].time)))
    && (r.None? && (exists id :: IsNew(m0, payments, id) || IsKnown(m0, payments, id)) ==>
      && TransferAmount(receivable, balance, tunables) == None
      && balance <= tunables.trustedBalanceLimit + tunables.rebalanceMin
      && (balance <= tunables.rebalanceMin
          || (receivable <= 2 * tunables.rebalanceMin
              && (balance <= tunables.trustedBalanceLimit
                  || balance + tunables.rebalanceMin <= receivable + tunables.trustedBalanceLimit))))
  }

  /** Nothing is new, and `id` is the latest of the known receipts. */
  ghost predicate LatestKnown(m: MetaMap, payments: seq<TrustedPayment>, id: Bytes32) {
    && (forall other :: !IsNew(m, payments, other))
    && IsKnown(m, payments, id)
    && forall other :: IsKnown(m, payments, other) && other != id ==> m[Trusted(other)].time < m[Trusted(id)].time
  }

  /** Then the decision registers nothing and can choose nothing else. */
  lemma LatestKnownIsChosen(
    tunables: Tunables, m0: MetaMap, payments: seq<TrustedPayment>, receivable: Amount, balance: Amount,
    r: Option<TriggerParams>, m1: MetaMap, id: Bytes32)
    requires LatestKnown(m0, payments, id) && TransferAmount(receivable, balance, tunables).Some?
    requires AddsReceipts(m0, payments, m1) && ChoosesTrusted(tunables, m0, payments, receivable, balance, r, m1)
    ensures m1 == m0
    ensures r == Some(TriggerParams(id, TransferAmount(receivable, balance, tunables).value))
  {
    forall k | k in m1 ensures k in m0 {
      if k !in m0 { assert IsNew(m0, payments, k.id); }
    }
    assert m1 == m0;
    if r.Some? { assert IsKnown(m0, payments, r.value.id); }
  }

  /** Where the loop stands after the payments of `seen`. */
  ghost predicate Collected(
    m0: MetaMap, payments: seq<TrustedPayment>, seen: seq<TrustedPayment>, m: MetaMap,
    newTxn: seq<Candidate>, latest: Option<Bytes32>, latestTime: nat)
  {
    && AddsReceipts(m0, payments, m)
    && (forall p :: p in seen && !p.outbound && p.completed ==> Trusted(p.id) in m)
    && (forall c :: c in newTxn ==>
      IsNew(m0, payments, c.id) && IsPayment(m, Trusted(c.id)) && Lists(payments, c))
    && (forall k :: k in m && k !in m0 && k.Trusted? ==> exists c :: c in newTxn && c.id == k.id)
    && (newTxn == [] ==>
      && m == m0
      && (latest.Some? ==> IsKnown(m0, payments, latest.value) && m0[Trusted(latest.value)].time == latestTime)
      && (forall p :: p in seen && !p.outbound && p.completed && IsPayment(m0, Trusted(p.id)) ==>
        latest.Some? && m0[Trusted(p.id)].time <= latestTime))
  }

  lemma CollectsNew(
    m0: MetaMap, payments: seq<TrustedPayment>, seen: seq<TrustedPayment>, m: MetaMap,
    newTxn: seq<Candidate>, latest: Option<Bytes32>, latestTime: nat, p: TrustedPayment)
    requires Collected(m0, payments, seen, m, newTxn, latest, latestTime)
    requires p in payments && !p.outbound && p.completed && Trusted(p.id) !in m
    ensures Collected(
      m0, payments, seen + [p], m[Trusted(p.id) := TxMetadata(Payment(IncomingLightning), p.time)],
      newTxn + [Candidate(p.amount, p.id)], latest, latestTime)
  {
    var candidate := Candidate(p.amount, p.id);
    var all, t := newTxn + [candidate], m[Trusted(p.id) := TxMetadata(Payment(IncomingLightning), p.time)];
    assert candidate in all && Lists(payments, candidate) && IsNew(m0, payments, p.id);
    forall c | c in all ensures IsNew(m0, payments, c.id) && IsPayment(t, Trusted(c.id)) && Lists(payments, c) {
      assert c in newTxn || c == candidate;
    }
    forall k | k in t && k !in m0 && k.Trusted? ensures exists c :: c in all && c.id == k.id {
      if k != Trusted(p.id) {
        var c :| c in newTxn && c.id == k.id;
        assert c in all;
      }
    }
  }

  lemma SmallestIsSmallestNew(a: MetaMap, payments: seq<TrustedPayment>, cs: seq<Candidate>, first: Candidate)
    requires UniqueIds(payments) && first in cs
    requires forall c :: c in cs ==> SortsBefore(first, c) && Lists(payments, c)
    requires forall id :: IsNew(a, payments, id) ==> exists c :: c in cs && c.id == id
    ensures SmallestNew(a, payments, first.id)
  {
    var p :| p in payments && !p.outbound && p.completed && p.id == first.id && p.amount == first.amount;
    forall q | q in payments && IsNew(a, payments, q.id) ensures p.amount < q.amount || (p.amount == q.amount && p.id <= q.id) {
      var c :| c in cs && c.id == q.id;
      var q' :| q' in payments && !q'.outbound && q'.completed && q'.id == c.id && q'.amount == c.amount;
    }
  }

  /** `sort_unstable` followed by `first`. */
  method Smallest(cs: seq<Candidate>) returns (first: Candidate)
    requires cs != []
    ensures first in cs && forall c :: c in cs ==> SortsBefore(first, c)
  {
    first := cs[0];
    for i := 1 to |cs|
      invariant first in cs && forall k :: 0 <= k < i ==> SortsBefore(first, cs[k])
    {
      if SortsBefore(cs[i], first) { first := cs[i]; }
    }
  }

  class OrangeTrigger {
    const store: TxMetadataStore
    const tunables: Tunables
    var onchainSyncTime: nat

    constructor (store: TxMetadataStore, tunables: Tunables, start: nat)
      ensures this.store == store && this.tunables == tunables && onchainSyncTime == start
    {
      this.store, this.tunables, onchainSyncTime := store, tunables, start;
    }

    /**
     Registers the settled receipts and picks the trigger: the smallest new receipt, or
     else the known one with the latest time.
     */
    method NeedsTrustedRebalance(
      enabled: bool, listed: Option<seq<TrustedPayment>>, receivable: Amount, balance: Option<Amount>)
      returns (r: Option<TriggerParams>)
      modifies store
      ensures !enabled || listed.None? ==> r == None && store.mem == old(store.mem)
      ensures Decides(
        if listed.Some? then TrustedReceipts(listed.value) else iset{}, old(store.mem), old(store.disk),
        if r.Some? then Some(Trusted(r.value.id)) else None, store.mem, store.disk)
      ensures listed.Some? ==> AddsReceipts(old(store.mem), listed.value, store.mem)
      ensures enabled && listed.Some? ==>
        forall p :: p in listed.value && !p.outbound && p.completed ==> Trusted(p.id) in store.mem
      ensures r.Some? ==> enabled && listed.Some? && balance.Some?
      ensures enabled && listed.Some? && balance.Some? ==>
        ChoosesTrusted(tunables, old(store.mem), listed.value, receivable, balance.value, r, store.mem)
    {
      if !enabled || listed.None? { return None; }
      var payments := listed.value;
      ghost var m0 := store.mem;
      var recent, latest := CollectReceipts(payments);
      if balance.None? { return None; }
      var transfer := TransferAmount(receivable, balance.value, tunables);
      if transfer.None? { return None; }
      if recent != [] {
        var victim := Smallest(recent);
        assert IsNew(m0, payments, victim.id) && Trusted(victim.id) in TrustedReceipts(payments);
        if UniqueIds(payments) { SmallestIsSmallestNew(m0, payments, recent, victim); }
        return Some(TriggerParams(victim.id, transfer.value));
      }
      if latest.None? { return None; }
      assert Trusted(latest.value) in TrustedReceipts(payments);
      return Some(TriggerParams(latest.value, transfer.value));
    }

    /** The loop over the trusted payments. */
    method CollectReceipts(payments: seq<TrustedPayment>) returns (newTxn: seq<Candidate>, latest: Option<Bytes32>)
      modifies store
      ensures AddsReceipts(old(store.mem), payments, store.mem)
      ensures Decides(TrustedReceipts(payments), old(store.mem), old(store.disk), None, store.mem, store.disk)
      ensures forall p :: p in payments && !p.outbound && p.completed ==> Trusted(p.id) in store.mem
      ensures forall c :: c in newTxn ==>
        IsNew(old(store.mem), payments, c.id) && IsPayment(store.mem, Trusted(c.id)) && Lists(payments, c)
      ensures forall id :: IsNew(old(store.mem), payments, id) ==> exists c :: c in newTxn && c.id == id
      ensures newTxn == [] ==>
        && store.mem == old(store.mem)
        && (latest.Some? ==>
              && IsKnown(store.mem, payments, latest.value)
              && forall id :: IsKnown(store.mem, payments, id) ==>
                store.mem[Trusted(id)].time <= store.mem[Trusted(latest.value)].time)
        && (latest.None? ==> forall id :: !IsKnown(store.mem, payments, id))
    {
      newTxn, latest := [], None;
      var latestTime: nat := 0;
      ghost var m0, d0 := store.mem, store.disk;
      for i := 0 to |payments|
        invariant Decides(TrustedReceipts(payments), m0, d0, None, store.mem, store.disk)
        invariant Collected(m0, payments, payments[..i], store.mem, newTxn, latest, latestTime)
      {
        var payment := payments[i];
        assert payments[..i + 1] == payments[..i] + [payment] && payment in payments;
        if payment.outbound { continue; }
        if !payment.completed { continue; }
        var id := Trusted(payment.id);
        if id in store.mem {
          if store.mem[id].ty.Payment? {
            if latest.None? || latestTime < store.mem[id].time {
              latest, latestTime := Some(payment.id), store.mem[id].time;
            }
          }
        } else {
          var entry := TxMetadata(Payment(IncomingLightning), payment.time);
          CollectsNew(m0, payments, payments[..i], store.mem, newTxn, latest, latestTime, payment);
          RegistersOne(TrustedReceipts(payments), m0, d0, store.mem, store.disk, id, entry);
          newTxn := newTxn + [Candidate(payment.amount, payment.id)];
          var _ := store.DoSet(id, entry);
        }
      }
      assert payments[..|payments|] == payments;
      assert forall id :: IsNew(m0, payments, id) ==> Trusted(id) in store.mem;
    }

    /**
     The on-chain decision; `sync` is the time of the latest on-chain sync. `ok` false
     stands for the `expect` on a spendable amount that is no valid amount.
     */
    method NeedsOnchainRebalance(
      enabled: bool, sync: Option<nat>, spendableSats: nat, payments: seq<OnchainPayment>)
      returns (r: Option<TriggerParams>, ok: bool)
      modifies this, store
      ensures Decides(
        OnchainReceipts(payments), old(store.mem), old(store.disk),
        if r.Some? then Some(SelfCustodial(r.value.id)) else None, store.mem, store.disk)
      ensures (forall k :: k in old(store.mem) ==> k in store.mem && store.mem[k] == old(store.mem)[k])
      ensures forall k :: k in store.mem && k !in old(store.mem) ==>
        && k.SelfCustodial? && (r.Some? ==> k.id == r.value.id)
        && exists p :: p in payments && p.txid == k.id
             && store.mem[k] == TxMetadata(Payment(IncomingOnChain(Some(k.id))), p.updated)
      ensures r.None? && ok ==> store.mem == old(store.mem)
      ensures !ok <==>
        && enabled && sync.Some? && sync.value != old(onchainSyncTime) && spendableSats * 1000 > MAX_AMOUNT
        && exists p :: p in payments && Receivable(p, old(onchainSyncTime), old(store.mem))
      ensures !ok ==> r == None
      ensures onchainSyncTime == if enabled && sync.Some? then sync.value else old(onchainSyncTime)
      ensures r.Some? ==>
        && enabled && sync.Some? && sync.value != old(onchainSyncTime)
        && r.value.amount == spendableSats * 1000 && r.value.amount >= tunables.rebalanceMin + 1000
        && IsPayment(store.mem, SelfCustodial(r.value.id))
        && (exists p :: p in payments && p.txid == r.value.id && Receivable(p, old(onchainSyncTime), old(store.mem))
              && p.succeeded && p.inbound && p.updated > old(onchainSyncTime)
              && (SelfCustodial(p.txid) in old(store.mem) ==> old(store.mem)[SelfCustodial(p.txid)].ty.Payment?)
              && forall q :: q in payments && Receivable(q, old(onchainSyncTime), old(store.mem)) ==> q.amountMsat <= p.amountMsat)
      ensures
        && r.None? && ok && enabled && sync.Some? && sync.value != old(onchainSyncTime)
        && spendableSats * 1000 >= tunables.rebalanceMin + 1000 ==>
        forall p :: p in payments && p.succeeded && p.inbound && p.updated > old(onchainSyncTime) ==>
          SelfCustodial(p.txid) in old(store.mem) && !old(store.mem)[SelfCustodial(p.txid)].ty.Payment?
    {
      if !enabled { return None, true; }
      var since := onchainSyncTime;
      if sync.None? || since == sync.value { return None, true; }
      onchainSyncTime := sync.value;
      if !(spendableSats > (tunables.rebalanceMin + 999) / 1000) { return None, true; }
      var best: Option<OnchainPayment> := None;
      for i := 0 to |payments|
        modifies {}
        invariant best.Some? ==> best.value in payments && Receivable(best.value, since, store.mem)
        invariant forall k :: 0 <= k < i && Receivable(payments[k], since, store.mem) ==>
          best.Some? && payments[k].amountMsat <= best.value.amountMsat
      {
        if Receivable(payments[i], since, store.mem) {
          if best.None? || payments[i].amountMsat >= best.value.amountMsat { best := Some(payments[i]); }
        }
      }
      if best.None? { return None, true; }
      var trigger := SelfCustodial(best.value.txid);
      assert trigger in OnchainReceipts(payments);
      if trigger !in store.mem {
        var _ := store.DoSet(trigger, TxMetadata(Payment(IncomingOnChain(Some(best.value.txid))), best.value.updated));
      }
      if spendableSats * 1000 > MAX_AMOUNT { return None, false; }
      return Some(TriggerParams(best.value.txid, spendableSats * 1000)), true;
    }
  }

  datatype OnchainPayment = OnchainPayment(txid: Bytes32, succeeded: bool, inbound: bool, updated: nat, amountMsat: nat)

  /** A new confirmed receipt that has not been promoted yet. */
  predicate Receivable(p: OnchainPayment, since: nat, m: MetaMap) {
    && p.succeeded && p.inbound && p.updated > since
    && (SelfCustodial(p.txid) in m ==> IsPayment(m, SelfCustodial(p.txid)))
  }

  // ----- the event handler

  /** The payment is now a trigger, of the same payment type and with its own time. */
  ghost predicate KeepsAsTrigger(a: MetaMap, k: PaymentId, b: MetaMap) {
    && IsPayment(a, k) && k in b
    && b[k] == TxMetadata(PaymentTriggeringTransferLightning(a[k].ty.ty), a[k].time)
  }

  class RebalanceEventHandler {
    const store: TxMetadataStore

    constructor (store: TxMetadataStore)
      ensures this.store == store
    {
      this.store := store;
    }

    method RebalanceInitiated(rebalance: Bytes32, now: nat)
      modifies store
      ensures store.mem == old(store.mem)[Trusted(rebalance) := TxMetadata(PendingRebalance, now)]
      ensures store.disk == old(store.disk)[Trusted(rebalance) := TxMetadata(PendingRebalance, now)]
    {
      var _ := store.DoSet(Trusted(rebalance), TxMetadata(PendingRebalance, now));
    }

    /** `ok` false stands for the `expect` on the promotion. */
    method RebalanceSuccessful(trigger: Bytes32, rebalance: Bytes32, lightning: Bytes32, now: nat) returns (ok: bool)
      modifies store
      ensures ok <==> IsPayment(old(store.mem), Trusted(trigger))
      ensures ok ==>
        && Trusted(rebalance) in store.mem && SelfCustodial(lightning) in store.mem
        && store.mem[Trusted(rebalance)] == TxMetadata(TrustedToLightning(rebalance, lightning, Trusted(trigger)), now)
        && store.mem[SelfCustodial(lightning)] == store.mem[Trusted(rebalance)]
        && (rebalance != trigger ==> KeepsAsTrigger(old(store.mem), Trusted(trigger), store.mem))
        && forall k :: k != Trusted(rebalance) && k != SelfCustodial(lightning) && k != Trusted(trigger) ==>
          SameAt(old(store.mem), store.mem, k)
      ensures ok ==>
        && store.mem == TransferDone(old(store.mem), Trusted(trigger), rebalance, lightning, now)
        && store.disk == TransferWritten(
             old(store.disk), old(store.mem), Trusted(trigger), rebalance, lightning, now)
      ensures !ok ==> store.mem == old(store.mem) && store.disk == old(store.disk)
    {
      ok := store.SetTxCausedRebalance(Trusted(trigger));
      if !ok { return; }
      var metadata := TxMetadata(TrustedToLightning(rebalance, lightning, Trusted(trigger)), now);
      var _ := store.DoSet(Trusted(rebalance), metadata);
      var _ := store.DoSet(SelfCustodial(lightning), metadata);
    }

    method OnChainRebalanceInitiated(trigger: Bytes32, channelTxid: Bytes32, now: nat) returns (ok: bool)
      modifies store
      ensures ok <==> IsPayment(old(store.mem), SelfCustodial(trigger))
      ensures ok ==> store.mem == SpliceDone(old(store.mem), trigger, channelTxid, now)
      ensures ok ==>
        && store.mem[SelfCustodial(channelTxid)] == TxMetadata(OnchainToLightning(channelTxid, trigger), now)
        && (channelTxid != trigger ==>
          KeepsAsTrigger(old(store.mem), SelfCustodial(trigger), store.mem))
        && forall k :: k != SelfCustodial(channelTxid) && k != SelfCustodial(trigger) ==> SameAt(old(store.mem), store.mem, k)
      ensures ok && channelTxid != trigger ==>
        store.disk == SpliceWritten(old(store.disk), old(store.mem), trigger, channelTxid, now)
      ensures !ok ==> store.mem == old(store.mem) && store.disk == old(store.disk)
    {
      var metadata := TxMetadata(OnchainToLightning(channelTxid, trigger), now);
      ok := store.SetTxCausedRebalanceWithSplice(SelfCustodial(trigger), SelfCustodial(channelTxid), metadata);
    }
  }

  /** The entry a promotion leaves behind. */
  function PromotedEntry(m: MetaMap, k: PaymentId): TxMetadata
    requires IsPayment(m, k)
  {
    Promoted(m, k)[k]
  }

  function TransferDone(m: MetaMap, trigger: PaymentId, rebalance: Bytes32, lightning: Bytes32, now: nat): MetaMap
    requires IsPayment(m, trigger)
  {
    TransferWritten(m, m, trigger, rebalance, lightning, now)
  }

  function TransferEntry(trigger: PaymentId, rebalance: Bytes32, lightning: Bytes32, now: nat): TxMetadata {
    TxMetadata(TrustedToLightning(rebalance, lightning, trigger), now)
  }

  /** The three writes of a finished transfer, on top of `d`, for a trigger promoted in `m`. */
  function TransferWritten(
    d: MetaMap, m: MetaMap, trigger: PaymentId, rebalance: Bytes32, lightning: Bytes32, now: nat): MetaMap
    requires IsPayment(m, trigger)
  {
    var entry := TransferEntry(trigger, rebalance, lightning, now);
    d[trigger := PromotedEntry(m, trigger)][Trusted(rebalance) := entry][SelfCustodial(lightning) := entry]
  }

  function SpliceEntry(trigger: Bytes32, channelTxid: Bytes32, now: nat): TxMetadata {
    TxMetadata(OnchainToLightning(channelTxid, trigger), now)
  }

  function SpliceDone(m: MetaMap, trigger: Bytes32, channelTxid: Bytes32, now: nat): MetaMap
    requires IsPayment(m, SelfCustodial(trigger))
  {
    SpliceWritten(m, m, trigger, channelTxid, now)
  }

  function SpliceWritten(d: MetaMap, m: MetaMap, trigger: Bytes32, channelTxid: Bytes32, now: nat): MetaMap
    requires IsPayment(m, SelfCustodial(trigger))
  {
    d[SelfCustodial(trigger) := PromotedEntry(m, SelfCustodial(trigger))][
      SelfCustodial(channelTxid) := SpliceEntry(trigger, channelTxid, now)]
  }
}
