/**
 Rebalances under crashes and concurrent writers.

 The balance mutex admits one rebalance at a time, from the decision to the end. Every
 metadata call changes memory first and writes to disk afterwards, and a crash between
 the two loses the change; so does a task that stops there, once a crash follows. Other
 tasks write any entry of any kind, to memory and to disk in any order, except those of
 the `receipts`: the settled inbound payments the two decisions choose from. A write
 that has not landed when its task stops never lands.
 */
module RebalanceRuns {
  import opened Common
  import opened Metadata
  import opened Rebalance

  datatype Phase =
    | Idle
    | Decided(trigger: PaymentId)
    | Initiated(trigger: PaymentId, rebalance: Bytes32)
    | Promoting(trigger: PaymentId, rebalance: Bytes32, lightning: Bytes32, now: nat)
    | Recording(lightning: Bytes32, entry: TxMetadata)
    | Writing(todo: MetaMap, after: Phase)   // disk writes in progress, in any order
    | Tripped                                // the `expect` on a promotion

  /** `promoted` lists the promotions made so far. */
  datatype Sys = Sys(mem: MetaMap, disk: MetaMap, phase: Phase, promoted: seq<PaymentId>)

  datatype Step =
    | Decide(trigger: Option<PaymentId>)
    | CutShort                                // a decision stops half-way
    | Pay(rebalance: Bytes32, paidAt: nat)
    | Complete(lightning: Bytes32, doneAt: nat)
    | RecordTransfer
    | RecordReceipt
    | StartSplice(channelTxid: Bytes32, startedAt: nat)
    | Write(key: PaymentId)
    | Stop
    | Crash
    | OtherMem(key: PaymentId, value: TxMetadata)
    | OtherDisk(key: PaymentId, value: TxMetadata)

  /** One entry changed in memory, its write to follow. */
  function Put(s: Sys, k: PaymentId, v: TxMetadata, after: Phase): Sys {
    s.(mem := s.mem[k := v], phase := Writing(map[k := v], after))
  }

  /** The promotion in memory, together with the `extra` entries of the same update. */
  function Promote(s: Sys, trigger: PaymentId, extra: MetaMap, after: Phase): Sys
    requires IsPayment(s.mem, trigger)
  {
    var entries := map[trigger := PromotedEntry(s.mem, trigger)] + extra;
    Sys(s.mem + entries, s.disk, Writing(entries, after), s.promoted + [trigger])
  }

  ghost predicate Next(receipts: iset<PaymentId>, s: Sys, step: Step, t: Sys) {
    match step
    case Decide(trigger) =>
      && s.phase.Idle? && Decides(receipts, s.mem, s.disk, trigger, t.mem, t.disk)
      && t.promoted == s.promoted
      && t.phase == if trigger.Some? then Decided(trigger.value) else Idle
    case CutShort =>
      && s.phase.Idle? && Registers(receipts, s.mem, s.disk, t.mem, t.disk)
      && t.promoted == s.promoted && t.phase == Idle
    case Pay(rebalance, now) =>
      && s.phase.Decided? && s.phase.trigger.Trusted?
      && t == Put(s, Trusted(rebalance), TxMetadata(PendingRebalance, now), Initiated(s.phase.trigger, rebalance))
    case Complete(lightning, now) =>
      && s.phase.Initiated?
      && t == if IsPayment(s.mem, s.phase.trigger)
         then Promote(s, s.phase.trigger, map[], Promoting(s.phase.trigger, s.phase.rebalance, lightning, now))
         else s.(phase := Tripped)
    case RecordTransfer =>
      && s.phase.Promoting?
      && var entry := TransferEntry(s.phase.trigger, s.phase.rebalance, s.phase.lightning, s.phase.now);
      t == Put(s, Trusted(s.phase.rebalance), entry, Recording(s.phase.lightning, entry))
    case RecordReceipt =>
      s.phase.Recording? && t == Put(s, SelfCustodial(s.phase.lightning), s.phase.entry, Idle)
    case StartSplice(channelTxid, now) =>
      && s.phase.Decided? && s.phase.trigger.SelfCustodial?
      && var splice := map[SelfCustodial(channelTxid) := SpliceEntry(s.phase.trigger.id, channelTxid, now)];
      t == if IsPayment(s.mem, s.phase.trigger) then Promote(s, s.phase.trigger, splice, Idle)
           else s.(phase := Tripped)
    case Write(k) =>
      && s.phase.Writing? && k in s.phase.todo
      && var rest := s.phase.todo - {k};
      t == s.(disk := s.disk[k := s.phase.todo[k]],
              phase := if rest == map[] then s.phase.after else Writing(rest, s.phase.after))
    case Stop => !s.phase.Tripped? && t == s.(phase := Idle)
    case Crash => t == s.(mem := s.disk, phase := Idle)
    case OtherMem(k, v) => k !in receipts && t == s.(mem := s.mem[k := v])
    case OtherDisk(k, v) => k !in receipts && t == s.(disk := s.disk[k := v])
  }

  ghost predicate Run(receipts: iset<PaymentId>, states: seq<Sys>, steps: seq<Step>) {
    && |states| == |steps| + 1
    && forall i :: 0 <= i < |steps| ==> Next(receipts, states[i], steps[i], states[i + 1])
  }

  /** A process that has just read its store. */
  ghost predicate Init(s: Sys) { s.phase.Idle? && s.mem == s.disk && s.promoted == [] }

  // ----- the decisions and the handler take these steps

  /** A finished decision of either kind is a step, whatever other receipts there are. */
  lemma DecisionIsStep(
    among: iset<PaymentId>, receipts: iset<PaymentId>, s: Sys, trigger: Option<PaymentId>, mem: MetaMap, disk: MetaMap)
    requires s.phase.Idle? && among <= receipts && Decides(among, s.mem, s.disk, trigger, mem, disk)
    ensures Next(receipts, s, Decide(trigger),
                 Sys(mem, disk, if trigger.Some? then Decided(trigger.value) else Idle, s.promoted))
  {
    DecidesAmongMore(among, receipts, s.mem, s.disk, trigger, mem, disk);
  }

  /** An uninterrupted transfer leaves what the handler's method leaves. */
  lemma TransferIsSteps(receipts: iset<PaymentId>, s: Sys, lightning: Bytes32, now: nat)
    returns (states: seq<Sys>, steps: seq<Step>)
    requires s.phase.Initiated? && IsPayment(s.mem, s.phase.trigger)
    ensures Run(receipts, states, steps) && states[0] == s
    ensures states[|steps|] == Sys(
      TransferDone(s.mem, s.phase.trigger, s.phase.rebalance, lightning, now),
      TransferWritten(s.disk, s.mem, s.phase.trigger, s.phase.rebalance, lightning, now),
      Idle, s.promoted + [s.phase.trigger])
  {
    var trigger, rebalance := s.phase.trigger, s.phase.rebalance;
    var entry := TransferEntry(trigger, rebalance, lightning, now);
    var s1 := Promote(s, trigger, map[], Promoting(trigger, rebalance, lightning, now));
    var s2 := Written(receipts, s1, trigger, PromotedEntry(s.mem, trigger));
    var s3 := Put(s2, Trusted(rebalance), entry, Recording(lightning, entry));
    var s4 := Written(receipts, s3, Trusted(rebalance), entry);
    var s5 := Put(s4, SelfCustodial(lightning), entry, Idle);
    var s6 := Written(receipts, s5, SelfCustodial(lightning), entry);
    assert Next(receipts, s, Complete(lightning, now), s1);
    assert Next(receipts, s2, RecordTransfer, s3) && Next(receipts, s4, RecordReceipt, s5);
    states := [s, s1, s2, s3, s4, s5, s6];
    steps := [
      Complete(lightning, now), Write(trigger), RecordTransfer, Write(Trusted(rebalance)),
      RecordReceipt, Write(SelfCustodial(lightning))];
  }

  /** The only write in progress lands. */
  lemma Written(receipts: iset<PaymentId>, s: Sys, k: PaymentId, v: TxMetadata) returns (t: Sys)
    requires s.phase.Writing? && s.phase.todo == map[k := v]
    ensures t == s.(disk := s.disk[k := v], phase := s.phase.after) && Next(receipts, s, Write(k), t)
  {
    assert map[k := v] - {k} == map[];
    t := s.(disk := s.disk[k := v], phase := s.phase.after);
  }

  /** So does an uninterrupted splice, in either order of its two writes. */
  lemma SpliceIsSteps(receipts: iset<PaymentId>, s: Sys, channelTxid: Bytes32, now: nat, triggerFirst: bool)
    returns (states: seq<Sys>, steps: seq<Step>)
    requires s.phase.Decided? && s.phase.trigger.SelfCustodial? && IsPayment(s.mem, s.phase.trigger)
    requires channelTxid != s.phase.trigger.id
    ensures Run(receipts, states, steps) && states[0] == s
    ensures steps == [StartSplice(channelTxid, now)] +
      if triggerFirst then [Write(s.phase.trigger), Write(SelfCustodial(channelTxid))]
      else [Write(SelfCustodial(channelTxid)), Write(s.phase.trigger)]
    ensures states[|steps|] == Sys(
      SpliceDone(s.mem, s.phase.trigger.id, channelTxid, now),
      SpliceWritten(s.disk, s.mem, s.phase.trigger.id, channelTxid, now),
      Idle, s.promoted + [s.phase.trigger])
  {
    var trigger, splice := s.phase.trigger, SelfCustodial(channelTxid);
    var p, e := PromotedEntry(s.mem, trigger), SpliceEntry(trigger.id, channelTxid, now);
    var s1 := Promote(s, trigger, map[splice := e], Idle);
    var first, last := if triggerFirst then trigger else splice, if triggerFirst then splice else trigger;
    var rest := map[last := s1.phase.todo[last]];
    assert s1.phase.todo - {first} == rest;
    var s2 := s1.(disk := s1.disk[first := s1.phase.todo[first]], phase := Writing(rest, Idle));
    assert Next(receipts, s1, Write(first), s2);
    var s3 := Written(receipts, s2, last, rest[last]);
    states, steps := [s, s1, s2, s3], [StartSplice(channelTxid, now), Write(first), Write(last)];
    assert s3.disk == s.disk[trigger := p][splice := e];
    assert s3.mem == s.mem[trigger := p][splice := e];
  }

  // ----- the `expect` on a promotion

  /** The transfer is paid under the trigger's own id. */
  predicate PaysOwnId(s: Sys, step: Step) {
    step.Pay? && s.phase.Decided? && s.phase.trigger == Trusted(step.rebalance)
  }

  /** The trigger a promotion is still to come for. */
  function Awaited(p: Phase): Option<PaymentId> {
    match p
    case Decided(trigger) => Some(trigger)
    case Initiated(trigger, _) => Some(trigger)
    case Writing(_, after) => Awaited(after)
    case _ => None
  }

  /** The transfer under way was paid under the id of its own trigger. */
  predicate Own(p: Phase) {
    match p
    case Initiated(trigger, rebalance) => trigger == Trusted(rebalance)
    case Writing(_, after) => Own(after)
    case _ => false
  }

  /** An awaited trigger is a receipt, and a payment unless its own transfer has overwritten it. */
  ghost predicate Ready(receipts: iset<PaymentId>, s: Sys) {
    && (s.phase.Writing? ==> !s.phase.after.Tripped? && !s.phase.after.Writing?)
    && (Awaited(s.phase).Some? ==>
      && Awaited(s.phase).value in receipts
      && (IsPayment(s.mem, Awaited(s.phase).value) <==> !Own(s.phase)))
  }

  lemma NextKeepsReady(receipts: iset<PaymentId>, s: Sys, step: Step, t: Sys)
    requires Ready(receipts, s) && Next(receipts, s, step, t)
    ensures Ready(receipts, t)
    ensures Own(t.phase) ==> Own(s.phase) || PaysOwnId(s, step)
    ensures !s.phase.Tripped? ==> (t.phase.Tripped? <==> step.Complete? && Own(s.phase))
  {
    if t.phase.Writing? { assert Own(t.phase) == Own(t.phase.after); }
  }

  lemma {:induction false} RunKeepsReady(receipts: iset<PaymentId>, states: seq<Sys>, steps: seq<Step>, n: nat)
    requires Run(receipts, states, steps) && Init(states[0]) && n <= |steps|
    ensures Ready(receipts, states[n])
  {
    if n > 0 {
      RunKeepsReady(receipts, states, steps, n - 1);
      NextKeepsReady(receipts, states[n - 1], steps[n - 1], states[n]);
    }
  }

  /**
   In every run, with crashes, stopped tasks and concurrent writers anywhere, the `expect`
   fires at a step if and only if that step completes a transfer paid under the id of its
   own trigger.
   */
  lemma TripsIffOwnId(receipts: iset<PaymentId>, states: seq<Sys>, steps: seq<Step>, n: nat)
    requires Run(receipts, states, steps) && Init(states[0]) && n < |steps| && !states[n].phase.Tripped?
    ensures states[n + 1].phase.Tripped? <==> steps[n].Complete? && Own(states[n].phase)
  {
    RunKeepsReady(receipts, states, steps, n);
    NextKeepsReady(receipts, states[n], steps[n], states[n + 1]);
  }

  /**
   As long as no transfer is paid under its trigger's own id, the `expect` never fires, and
   a chosen trigger stays a payment until it is promoted.
   */
  lemma {:induction false} PromotionsNeverPanic(
    receipts: iset<PaymentId>, states: seq<Sys>, steps: seq<Step>, n: nat)
    requires Run(receipts, states, steps) && Init(states[0]) && n <= |steps|
    requires forall i :: 0 <= i < n ==> !PaysOwnId(states[i], steps[i])
    ensures !states[n].phase.Tripped? && !Own(states[n].phase)
    ensures Awaited(states[n].phase).Some? ==> IsPayment(states[n].mem, Awaited(states[n].phase).value)
  {
    RunKeepsReady(receipts, states, steps, n);
    if n > 0 {
      PromotionsNeverPanic(receipts, states, steps, n - 1);
      RunKeepsReady(receipts, states, steps, n - 1);
      NextKeepsReady(receipts, states[n - 1], steps[n - 1], states[n]);
    }
  }

  // ----- how often an entry is promoted

  predicate IsPromoted(m: MetaMap, k: PaymentId) { k in m && m[k].ty.PaymentTriggeringTransferLightning? }

  /** A crash between the promotion of `id` in memory and its write. */
  predicate LosesPromotion(s: Sys, step: Step, id: PaymentId) {
    step.Crash? && IsPromoted(s.mem, id) && !IsPromoted(s.disk, id)
  }

  ghost function Losses(states: seq<Sys>, steps: seq<Step>, n: nat, id: PaymentId): nat
    requires n <= |steps| < |states|
  {
    if n == 0 then 0
    else Losses(states, steps, n - 1, id) + if LosesPromotion(states[n - 1], steps[n - 1], id) then 1 else 0
  }

  ghost function Count(ids: seq<PaymentId>, id: PaymentId): nat {
    if ids == [] then 0 else Count(ids[..|ids| - 1], id) + if ids[|ids| - 1] == id then 1 else 0
  }

  lemma CountSnoc(ids: seq<PaymentId>, k: PaymentId, id: PaymentId)
    ensures Count(ids + [k], id) == Count(ids, id) + if k == id then 1 else 0
  {
    assert (ids + [k])[..|ids|] == ids;
  }

  /** No transfer or splice is entered under `id` itself. */
  predicate Spares(step: Step, id: PaymentId) {
    match step
    case Pay(rebalance, _) => Trusted(rebalance) != id
    case Complete(lightning, _) => SelfCustodial(lightning) != id
    case StartSplice(channelTxid, _) => SelfCustodial(channelTxid) != id
    case _ => true
  }

  predicate Clear(p: Phase, id: PaymentId) {
    match p
    case Initiated(_, rebalance) => Trusted(rebalance) != id
    case Promoting(_, rebalance, lightning, _) => Trusted(rebalance) != id && SelfCustodial(lightning) != id
    case Recording(lightning, _) => SelfCustodial(lightning) != id
    case Writing(todo, after) => (id in todo ==> IsPromoted(todo, id)) && Clear(after, id)
    case _ => true
  }

  ghost predicate PaymentOrPromoted(m: MetaMap, id: PaymentId) {
    id in m ==> IsPayment(m, id) || IsPromoted(m, id)
  }

  /** The entry of a receipt is only ever a payment or promoted, and the disk never runs ahead. */
  ghost predicate Tracked(s: Sys, id: PaymentId) {
    && Clear(s.phase, id)
    && PaymentOrPromoted(s.mem, id) && PaymentOrPromoted(s.disk, id)
    && (id in s.disk ==> id in s.mem)
    && (IsPromoted(s.disk, id) ==> IsPromoted(s.mem, id))
    && (s.phase.Writing? ==> !s.phase.after.Writing? && (id in s.phase.todo ==> IsPromoted(s.mem, id)))
  }

  /** One step changes the count and the entry together, unless a crash undoes the entry. */
  ghost predicate Counts(s: Sys, step: Step, t: Sys, id: PaymentId) {
    Count(t.promoted, id) + (if IsPromoted(s.mem, id) then 1 else 0)
      == Count(s.promoted, id) + (if IsPromoted(t.mem, id) then 1 else 0)
         + if LosesPromotion(s, step, id) then 1 else 0
  }

  /** What a promotion does to the entry of `id`, which is not among the extra ones. */
  lemma PromoteAt(s: Sys, trigger: PaymentId, extra: MetaMap, after: Phase, id: PaymentId)
    requires IsPayment(s.mem, trigger) && id !in extra
    ensures
      var t := Promote(s, trigger, extra, after);
      && (id in t.phase.todo <==> id == trigger)
      && (if id == trigger then IsPromoted(t.mem, id) && IsPromoted(t.phase.todo, id) && !IsPromoted(s.mem, id)
          else SameAt(s.mem, t.mem, id))
  {
  }

  lemma PromoteCounts(s: Sys, trigger: PaymentId, extra: MetaMap, after: Phase, id: PaymentId)
    requires Tracked(s, id) && IsPayment(s.mem, trigger) && id !in extra && Clear(after, id) && !after.Writing?
    ensures
      var t := Promote(s, trigger, extra, after);
      && Tracked(t, id)
      && Count(t.promoted, id) == Count(s.promoted, id) + (if trigger == id then 1 else 0)
      && (IsPromoted(t.mem, id) <==> IsPromoted(s.mem, id) || trigger == id)
      && !IsPromoted(s.mem, trigger)
  {
    CountSnoc(s.promoted, trigger, id);
    PromoteAt(s, trigger, extra, after, id);
    var t := Promote(s, trigger, extra, after);
    assert t.disk == s.disk && t.phase.after == after && t.promoted == s.promoted + [trigger];
  }

  lemma NextCounts(receipts: iset<PaymentId>, s: Sys, step: Step, t: Sys, id: PaymentId)
    requires id in receipts && Tracked(s, id) && Next(receipts, s, step, t) && Spares(step, id)
    ensures Tracked(t, id) && Counts(s, step, t, id)
  {
    match step
    case Complete(lightning, now) =>
      if IsPayment(s.mem, s.phase.trigger) {
        PromoteCounts(s, s.phase.trigger, map[], Promoting(s.phase.trigger, s.phase.rebalance, lightning, now), id);
      }
    case StartSplice(channelTxid, now) =>
      if IsPayment(s.mem, s.phase.trigger) {
        var entry := SpliceEntry(s.phase.trigger.id, channelTxid, now);
        PromoteCounts(s, s.phase.trigger, map[SelfCustodial(channelTxid) := entry], Idle, id);
      }
    case Write(k) => WriteKeepsTracked(s, k, t, id);
    case _ =>
  }

  lemma WriteKeepsTracked(s: Sys, k: PaymentId, t: Sys, id: PaymentId)
    requires Tracked(s, id) && Next(iset{}, s, Write(k), t)
    ensures Tracked(t, id) && t.mem == s.mem && t.promoted == s.promoted
  {
  }

  /** Nothing is known of the receipt yet, or it is recorded as a payment. */
  ghost predicate Unpromoted(m: MetaMap, id: PaymentId) { id in m ==> IsPayment(m, id) }

  lemma {:induction false} PromotionsCounted(
    receipts: iset<PaymentId>, states: seq<Sys>, steps: seq<Step>, n: nat, id: PaymentId)
    requires Run(receipts, states, steps) && Init(states[0]) && n <= |steps|
    requires id in receipts && Unpromoted(states[0].mem, id)
    requires forall i :: 0 <= i < |steps| ==> Spares(steps[i], id)
    ensures Tracked(states[n], id)
    ensures Count(states[n].promoted, id)
         == Losses(states, steps, n, id) + if IsPromoted(states[n].mem, id) then 1 else 0
  {
    if n > 0 {
      PromotionsCounted(receipts, states, steps, n - 1, id);
      NextCounts(receipts, states[n - 1], steps[n - 1], states[n], id);
    }
  }

  ghost predicate LostBefore(states: seq<Sys>, steps: seq<Step>, n: nat, id: PaymentId)
    requires n <= |steps| < |states|
  {
    exists i :: 0 <= i < n && LosesPromotion(states[i], steps[i], id)
  }

  lemma {:induction false} LossesIffLost(states: seq<Sys>, steps: seq<Step>, n: nat, id: PaymentId)
    requires n <= |steps| < |states|
    ensures Losses(states, steps, n, id) > 0 <==> LostBefore(states, steps, n, id)
  {
    if n > 0 {
      LossesIffLost(states, steps, n - 1, id);
      assert LostBefore(states, steps, n, id) <==>
        LostBefore(states, steps, n - 1, id) || LosesPromotion(states[n - 1], steps[n - 1], id);
    }
  }

  /**
   In every run: a receipt that stands promoted has been promoted more than once if and
   only if a crash fell between an earlier promotion in memory and its write. Without such
   a crash no entry is promoted twice.
   */
  lemma PromotedTwiceIffLost(
    receipts: iset<PaymentId>, states: seq<Sys>, steps: seq<Step>, n: nat, id: PaymentId)
    requires Run(receipts, states, steps) && Init(states[0]) && n <= |steps|
    requires id in receipts && Unpromoted(states[0].mem, id)
    requires forall i :: 0 <= i < |steps| ==> Spares(steps[i], id)
    ensures IsPromoted(states[n].mem, id) ==>
      (Count(states[n].promoted, id) >= 2 <==> LostBefore(states, steps, n, id))
    ensures Count(states[n].promoted, id) >= 2 ==> LostBefore(states, steps, n, id)
    ensures !LostBefore(states, steps, n, id) ==> Count(states[n].promoted, id) <= 1
  {
    PromotionsCounted(receipts, states, steps, n, id);
    LossesIffLost(states, steps, n, id);
  }

  // ----- runs that reach these cases

  /** A trusted receipt that is not promoted can be decided on, paid for and promoted in memory. */
  lemma CanPromote(receipts: iset<PaymentId>, s: Sys, id: Bytes32, rebalance: Bytes32, lightning: Bytes32, now: nat)
    returns (states: seq<Sys>, steps: seq<Step>)
    requires s.phase.Idle? && IsPayment(s.mem, Trusted(id)) && Trusted(id) in receipts && rebalance != id
    ensures Run(receipts, states, steps) && states[0] == s
    ensures steps == [Decide(Some(Trusted(id))), Pay(rebalance, now), Write(Trusted(rebalance)), Complete(lightning, now)]
    ensures
      var last := states[4];
      && last.promoted == s.promoted + [Trusted(id)] && IsPromoted(last.mem, Trusted(id))
      && last.disk == s.disk[Trusted(rebalance) := TxMetadata(PendingRebalance, now)]
  {
    var trigger, entry := Trusted(id), TxMetadata(PendingRebalance, now);
    var s1 := s.(phase := Decided(trigger));
    var s2 := Put(s1, Trusted(rebalance), entry, Initiated(trigger, rebalance));
    var s3 := Written(receipts, s2, Trusted(rebalance), entry);
    var s4 := Promote(s3, trigger, map[], Promoting(trigger, rebalance, lightning, now));
    states := [s, s1, s2, s3, s4];
    steps := [Decide(Some(trigger)), Pay(rebalance, now), Write(Trusted(rebalance)), Complete(lightning, now)];
    assert Next(receipts, s, Decide(Some(trigger)), s1);
  }

  /** A trusted payment list, balances and limits on which the decision picks `id` from `m`. */
  datatype Market = Market(
    tunables: Tunables, payments: seq<TrustedPayment>, receivable: Amount, balance: Amount)

  ghost predicate Picks(market: Market, m: MetaMap, id: Bytes32) {
    && LatestKnown(m, market.payments, id)
    && TransferAmount(market.receivable, market.balance, market.tunables).Some?
  }

  /** The decision method can only leave the memory as it is and return this trigger. */
  ghost predicate MustPick(market: Market, m: MetaMap, id: Bytes32) {
    forall r, m1 ::
      AddsReceipts(m, market.payments, m1)
      && ChoosesTrusted(market.tunables, m, market.payments, market.receivable, market.balance, r, m1) ==>
      m1 == m && r.Some? && r.value.id == id
  }

  lemma PickIsForced(market: Market, m: MetaMap, id: Bytes32)
    requires Picks(market, m, id)
    ensures MustPick(market, m, id)
  {
    forall r, m1
      | AddsReceipts(m, market.payments, m1)
        && ChoosesTrusted(market.tunables, m, market.payments, market.receivable, market.balance, r, m1)
      ensures m1 == m && r.Some? && r.value.id == id
    {
      LatestKnownIsChosen(
        market.tunables, m, market.payments, market.receivable, market.balance, r, m1, id);
    }
  }

  /** An outgoing transfer's entry does not change what the decision sees. */
  lemma PicksIgnoresTransfer(market: Market, m: MetaMap, id: Bytes32, rebalance: Bytes32, v: TxMetadata)
    requires Picks(market, m, id) && Trusted(rebalance) !in TrustedReceipts(market.payments)
    ensures Picks(market, m[Trusted(rebalance) := v], id)
  {
    var t := m[Trusted(rebalance) := v];
    forall other ensures IsNew(t, market.payments, other) <==> IsNew(m, market.payments, other) { }
    forall other ensures IsKnown(t, market.payments, other) <==> IsKnown(m, market.payments, other) { }
    assert Trusted(id) in TrustedReceipts(market.payments);
    forall other | IsKnown(t, market.payments, other) ensures t[Trusted(other)] == m[Trusted(other)] {
      assert Trusted(other) in TrustedReceipts(market.payments);
    }
  }

  /**
   The losing crash leads to a second promotion: the reload brings the payment back, the
   next decision has to choose it again as the latest known receipt, and another transfer
   is paid and recorded for it.
   */
  lemma LostPromotionRepeats(
    receipts: iset<PaymentId>, s: Sys, market: Market, id: Bytes32, first: Bytes32, second: Bytes32,
    lightning: Bytes32, now: nat)
    returns (states: seq<Sys>, steps: seq<Step>)
    requires Init(s) && TrustedReceipts(market.payments) <= receipts && Picks(market, s.mem, id)
    requires Trusted(first) !in TrustedReceipts(market.payments) && Trusted(second) !in TrustedReceipts(market.payments)
    ensures Run(receipts, states, steps) && states[0] == s
    ensures steps == [
      Decide(Some(Trusted(id))), Pay(first, now), Write(Trusted(first)), Complete(lightning, now), Crash,
      Decide(Some(Trusted(id))), Pay(second, now), Write(Trusted(second)), Complete(lightning, now)]
    ensures MustPick(market, states[0].mem, id) && MustPick(market, states[5].mem, id)
    ensures forall i :: 0 <= i < |steps| ==> Spares(steps[i], Trusted(id))
    ensures states[|steps|].promoted == [Trusted(id), Trusted(id)]
    ensures LostBefore(states, steps, |steps|, Trusted(id))
  {
    assert Trusted(id) in TrustedReceipts(market.payments);
    var a, p := CanPromote(receipts, s, id, first, lightning, now);
    var crashed := a[4].(mem := a[4].disk, phase := Idle);
    PickIsForced(market, s.mem, id);
    PicksIgnoresTransfer(market, s.mem, id, first, TxMetadata(PendingRebalance, now));
    PickIsForced(market, crashed.mem, id);
    var b, q := CanPromote(receipts, crashed, id, second, lightning, now);
    states, steps := a + b, p + [Crash] + q;
    JoinedByCrash(receipts, a, p, b, q);
    assert states[4] == a[4] && states[5] == b[0] && steps[4] == Crash && states[|steps|] == b[4];
    assert LosesPromotion(states[4], steps[4], Trusted(id));
  }

  lemma JoinedByCrash(receipts: iset<PaymentId>, a: seq<Sys>, s: seq<Step>, b: seq<Sys>, t: seq<Step>)
    requires Run(receipts, a, s) && Run(receipts, b, t) && Next(receipts, a[|s|], Crash, b[0])
    ensures Run(receipts, a + b, s + [Crash] + t)
  {
    var states, steps := a + b, s + [Crash] + t;
    forall i | 0 <= i < |steps| ensures Next(receipts, states[i], steps[i], states[i + 1]) {
      if i < |s| {
        assert Next(receipts, a[i], s[i], a[i + 1]);
      } else if i > |s| {
        assert Next(receipts, b[i - |s| - 1], t[i - |s| - 1], b[i - |s|]);
      }
    }
  }

  /** Fresh transfer ids matter: this run pays under the trigger's own id and panics. */
  lemma OwnIdPanics(receipts: iset<PaymentId>, s: Sys, id: Bytes32, lightning: Bytes32, now: nat)
    returns (states: seq<Sys>, steps: seq<Step>)
    requires s.phase.Idle? && IsPayment(s.mem, Trusted(id)) && Trusted(id) in receipts
    ensures Run(receipts, states, steps) && states[0] == s && states[|steps|].phase.Tripped?
  {
    var trigger, entry := Trusted(id), TxMetadata(PendingRebalance, now);
    var s1 := s.(phase := Decided(trigger));
    var s2 := Put(s1, trigger, entry, Initiated(trigger, id));
    var s3 := Written(receipts, s2, trigger, entry);
    var s4 := s3.(phase := Tripped);
    states := [s, s1, s2, s3, s4];
    steps := [Decide(Some(trigger)), Pay(id, now), Write(trigger), Complete(lightning, now)];
    assert Next(receipts, s, Decide(Some(trigger)), s1);
  }
}
