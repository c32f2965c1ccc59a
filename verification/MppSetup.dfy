/**
 One multi-path payment being set up and resolved, interleaved with everything else.

 The driver begins buffering, starts the two payments, writes the two leg entries (or
 gives up), and finishes. The terminal events of the two legs, duplicates included, may
 arrive anywhere after the beginning. Other tasks add events, write metadata, set up and
 finish other payments, and consume the queue. Every step is a whole call.
 */
module MppSetup {
  import opened Common
  import opened Metadata
  import opened EventQueue

  /** The tracked payment; `lightning` is the id of the lightning leg. */
  datatype Pay = Pay(hash: Bytes32, surface: PaymentId, lightning: PaymentId, mpp: Mpp, time: nat)

  predicate ValidPay(p: Pay) {
    && p.surface != p.lightning && p.mpp.surface == p.surface
    && p.mpp.trustedFee == None && p.mpp.lightningFee == None && p.mpp.preimage == None
    && !p.mpp.failed && !p.mpp.finalized
  }

  function LegMeta(p: Pay): TxMetadata { TxMetadata(MppPayment(p.mpp), p.time) }

  predicate IsLeg(p: Pay, id: PaymentId) { id == p.surface || id == p.lightning }

  /** A terminal event of one of the legs, carrying the payment hash. */
  predicate LegEvent(p: Pay, e: Event) {
    !e.OtherEvent? && IsLeg(p, e.id) && Carries(e, p.hash)
  }

  predicate FromLeg(p: Pay, e: Event) { !e.OtherEvent? && IsLeg(p, e.id) }

  /** An event that has nothing to do with the payment. */
  predicate ForeignEvent(p: Pay, e: Event) {
    !e.OtherEvent? ==> !IsLeg(p, e.id) && !Carries(e, p.hash)
  }

  predicate ForeignMeta(p: Pay, v: TxMetadata) {
    v.ty.MppPayment? ==> !IsLeg(p, v.ty.mpp.surface) && WellFormed(v.ty.mpp)
  }

  datatype Phase = NotStarted | Begun | PlainWritten | SurfaceWritten | BothWritten | Finished | Aborted

  /** `reports` lists the leg events that have arrived, in order. */
  datatype Sys = Sys(q: Queue, phase: Phase, reports: seq<Event>)

  datatype Step =
    | DriverBegin
    | DriverGiveUp                      // the trusted leg could not be started
    | DriverWritePlain(plain: TxMetadata)  // the lightning leg could not be started
    | DriverWriteSurface
    | DriverWriteLightning
    | DriverFinish
    | LegReports(e: Event)
    | OtherAdds(e: Event)
    | OtherBegins(h: Bytes32)
    | OtherFinishes(h: Bytes32)
    | OtherSets(k: PaymentId, v: TxMetadata)
    | QueueHandled

  ghost predicate Next(p: Pay, s: Sys, step: Step, t: Sys) {
    match step
    case DriverBegin =>
      s.phase.NotStarted? && t == s.(q := Begin(s.q, p.hash), phase := Begun)
    case DriverGiveUp =>
      s.phase.Begun? && t == s.(q := Finish(s.q, p.hash), phase := Aborted)
    case DriverWritePlain(v) =>
      s.phase.Begun? && v.ty.Payment? && t == s.(q := SetMeta(s.q, p.surface, v), phase := PlainWritten)
    case DriverWriteSurface =>
      s.phase.Begun? && t == s.(q := SetMeta(s.q, p.surface, LegMeta(p)), phase := SurfaceWritten)
    case DriverWriteLightning =>
      s.phase.SurfaceWritten? && t == s.(q := SetMeta(s.q, p.lightning, LegMeta(p)), phase := BothWritten)
    case DriverFinish =>
      || (s.phase.BothWritten? && t == s.(q := Finish(s.q, p.hash), phase := Finished))
      || (s.phase.PlainWritten? && t == s.(q := Finish(s.q, p.hash), phase := Aborted))
    case LegReports(e) =>
      !s.phase.NotStarted? && LegEvent(p, e) && t == s.(q := AddEvent(s.q, e), reports := s.reports + [e])
    case OtherAdds(e) => ForeignEvent(p, e) && t == s.(q := AddEvent(s.q, e))
    case OtherBegins(h) => h != p.hash && t == s.(q := Begin(s.q, h))
    case OtherFinishes(h) => h != p.hash && t == s.(q := Finish(s.q, h))
    case OtherSets(k, v) => !IsLeg(p, k) && ForeignMeta(p, v) && t == s.(q := SetMeta(s.q, k, v))
    case QueueHandled => t == s.(q := Handle(s.q))
  }

  ghost predicate Run(p: Pay, states: seq<Sys>, steps: seq<Step>) {
    && |states| == |steps| + 1
    && forall i :: 0 <= i < |steps| ==> Next(p, states[i], steps[i], states[i + 1])
  }

  // ----- what has been queued for the payment

  ghost function Surfaced(p: Pay, es: seq<Event>): seq<Event> {
    if es == [] then []
    else Surfaced(p, es[..|es| - 1]) + if FromLeg(p, es[|es| - 1]) then [es[|es| - 1]] else []
  }

  lemma SurfacedSnoc(p: Pay, es: seq<Event>, e: Event)
    ensures Surfaced(p, es + [e]) == Surfaced(p, es) + if FromLeg(p, e) then [e] else []
  {
    assert (es + [e])[..|es|] == es;
  }

  // ----- foreign steps leave the payment alone

  /** The rest of the wallet does not refer to the payment. */
  ghost predicate Separate(p: Pay, q: Queue) {
    && AllWellFormed(q.meta)
    && (forall k :: !IsLeg(p, k) && IsMpp(q.meta, k) ==> !IsLeg(p, MppAt(q.meta, k).surface))
    && (forall h, e :: h in q.pending && h != p.hash && e in q.pending[h] ==> ForeignEvent(p, e))
  }

  /** `b` looks the same as `a` to the payment. */
  ghost predicate Untouched(p: Pay, a: Queue, b: Queue) {
    && Separate(p, b)
    && Surfaced(p, b.pushed) == Surfaced(p, a.pushed)
    && (p.surface in b.meta <==> p.surface in a.meta)
    && (p.surface in a.meta ==> b.meta[p.surface] == a.meta[p.surface])
    && (p.lightning in b.meta <==> p.lightning in a.meta)
    && (p.lightning in a.meta ==> b.meta[p.lightning] == a.meta[p.lightning])
    && (p.hash in b.pending <==> p.hash in a.pending)
    && (p.hash in a.pending ==> b.pending[p.hash] == a.pending[p.hash])
  }

  lemma ForeignRecord(p: Pay, m: MetaMap, id: PaymentId, result: LegResult)
    requires AllWellFormed(m) && !IsLeg(p, id)
    requires forall k :: !IsLeg(p, k) && IsMpp(m, k) ==> !IsLeg(p, MppAt(m, k).surface)
    ensures
      var r := RecordLeg(m, id, result);
      var t := AfterRecord(m, r);
      && (forall k :: !IsLeg(p, k) && IsMpp(t, k) ==> !IsLeg(p, MppAt(t, k).surface))
      && (r.Recorded? ==> !IsLeg(p, r.surface))
  {
    var r := RecordLeg(m, id, result);
    if r.Recorded? {
      var t := AfterRecord(m, r);
      assert forall k :: IsMpp(t, k) ==> IsMpp(m, k) && MppAt(t, k).surface == MppAt(m, k).surface;
    }
  }

  lemma ForeignAdd(p: Pay, q: Queue, e: Event)
    requires Separate(p, q) && ForeignEvent(p, e)
    ensures Untouched(p, q, AddEvent(q, e))
  {
    ForeignLand(p, q, e, TestsLeg(q, e));
  }

  /** Whatever the metadata said when it was tested. */
  lemma ForeignLand(p: Pay, q: Queue, e: Event, leg: bool)
    requires Separate(p, q) && ForeignEvent(p, e) && (leg ==> !e.OtherEvent?)
    ensures Untouched(p, q, Landed(q, e, leg))
  {
    if leg {
      RecordKeepsWellFormed(q.meta, e.id, ResultOf(e));
      ForeignRecord(p, q.meta, e.id, ResultOf(e));
      var r := RecordLeg(q.meta, e.id, ResultOf(e));
      if r.Recorded? && r.outcome.Some? { SurfacedSnoc(p, q.pushed, Combined(r.surface, r.outcome.value)); }
    } else {
      SurfacedSnoc(p, q.pushed, e);
    }
  }

  lemma {:induction false} ForeignAddAll(p: Pay, q: Queue, es: seq<Event>)
    requires Separate(p, q) && forall e :: e in es ==> ForeignEvent(p, e)
    ensures Untouched(p, q, AddAll(q, es))
    decreases |es|
  {
    if es != [] {
      ForeignAdd(p, q, es[0]);
      ForeignAddAll(p, AddEvent(q, es[0]), es[1..]);
    }
  }

  lemma ForeignStep(p: Pay, s: Sys, step: Step, t: Sys)
    requires Separate(p, s.q) && Next(p, s, step, t)
    requires step.OtherAdds? || step.OtherBegins? || step.OtherFinishes? || step.OtherSets? || step.QueueHandled?
    ensures Untouched(p, s.q, t.q) && t.phase == s.phase && t.reports == s.reports
  {
    match step
    case OtherAdds(e) => ForeignAdd(p, s.q, e);
    case OtherBegins(h) =>
    case OtherFinishes(h) =>
      if h in s.q.pending {
        ForeignAddAll(p, s.q.(pending := s.q.pending - {h}), s.q.pending[h]);
      }
    case OtherSets(k, v) =>
      SetKeepsWellFormed(s.q.meta, k, v);
      assert forall j :: IsMpp(t.q.meta, j) && j != k ==> IsMpp(s.q.meta, j) && t.q.meta[j] == s.q.meta[j];
    case QueueHandled =>
  }

  // ----- the surface entry and the queue tell the same story

  ghost predicate LegDone(p: Pay, m: MetaMap, id: PaymentId)
    requires IsMpp(m, p.surface)
  {
    var e := MppAt(m, p.surface);
    e.failed || if id == p.surface then e.trustedFee.Some? else e.lightningFee.Some?
  }

  ghost predicate EntryOk(p: Pay, q: Queue) {
    && IsMpp(q.meta, p.surface)
    && var e := MppAt(q.meta, p.surface);
    WellFormed(e) && e.surface == p.surface && e.lightningLeg == p.mpp.lightningLeg
  }

  /** The one event a final entry is announced with. */
  ghost function Announcement(p: Pay, q: Queue): seq<Event>
    requires EntryOk(p, q)
  {
    var e := MppAt(q.meta, p.surface);
    if e.finalized then [Combined(p.surface, OutcomeOf(e))] else []
  }

  /** Nothing is queued for the payment until its entry is final; then one combined event. */
  ghost predicate Coalesced(p: Pay, q: Queue) {
    EntryOk(p, q) && Surfaced(p, q.pushed) == Announcement(p, q)
  }

  predicate Succeeds(e: Event, id: PaymentId, fee: nat) {
    e.PaymentSuccessful? && e.id == id && fee == if e.fee.Some? then e.fee.value else 0
  }

  ghost predicate SomeSuccess(reports: seq<Event>, id: PaymentId, fee: nat) {
    exists e :: e in reports && Succeeds(e, id, fee)
  }

  /** The accumulated state comes from events that did arrive. */
  ghost predicate Sourced(p: Pay, e: Mpp, reports: seq<Event>) {
    && (e.failed ==> exists r :: r in reports && r.PaymentFailed?)
    && (e.trustedFee.Some? ==> SomeSuccess(reports, p.surface, e.trustedFee.value))
    && (e.lightningFee.Some? ==> SomeSuccess(reports, p.lightning, e.lightningFee.value))
    && (e.preimage.Some? ==> exists r :: r in reports && r.PaymentSuccessful? && r.preimage == e.preimage.value)
  }

  lemma SourcedGrows(p: Pay, e: Mpp, reports: seq<Event>, r: Event)
    requires Sourced(p, e, reports)
    ensures Sourced(p, e, reports + [r])
  {
    if e.trustedFee.Some? {
      var x :| x in reports && Succeeds(x, p.surface, e.trustedFee.value);
      assert x in reports + [r];
    }
    if e.lightningFee.Some? {
      var x :| x in reports && Succeeds(x, p.lightning, e.lightningFee.value);
      assert x in reports + [r];
    }
  }

  lemma SourcedByReport(p: Pay, e: Mpp, reports: seq<Event>, r: Event)
    requires Sourced(p, e, reports) && r in reports && LegEvent(p, r)
    ensures Sourced(p, Accumulate(e, r.id == p.surface, ResultOf(r)), reports)
  {
    if r.PaymentSuccessful? { assert Succeeds(r, r.id, if r.fee.Some? then r.fee.value else 0); }
  }

  ghost predicate RegisteredLeg(p: Pay, q: Queue, e: Event) {
    && LegEvent(p, e) && IsMpp(q.meta, e.id) && MppAt(q.meta, e.id).surface == p.surface
    && Separate(p, q) && EntryOk(p, q)
  }

  /** Before it is final, the entry folds the report in and is announced when that resolves it. */
  lemma RegisteredLegFolds(p: Pay, q: Queue, e: Event)
    requires RegisteredLeg(p, q, e) && !MppAt(q.meta, p.surface).finalized
    ensures
      var after := AfterReport(MppAt(q.meta, p.surface), e.id == p.surface, ResultOf(e));
      && WellFormed(after)
      && AddEvent(q, e) == q.(
           meta := PutMpp(q.meta, p.surface, after),
           pushed := q.pushed + if after.finalized then [Combined(p.surface, OutcomeOf(after))] else [])
  {
    RecordKeepsWellFormed(q.meta, e.id, ResultOf(e));
  }

  /** Once it is final, nothing changes any more. */
  lemma FinalLegIgnores(p: Pay, q: Queue, e: Event)
    requires RegisteredLeg(p, q, e) && MppAt(q.meta, p.surface).finalized
    ensures AddEvent(q, e) == q
  {
  }

  lemma PutKeepsSeparate(p: Pay, q: Queue, after: Mpp, pushed: seq<Event>)
    requires Separate(p, q) && IsMpp(q.meta, p.surface) && WellFormed(after)
    ensures Separate(p, q.(meta := PutMpp(q.meta, p.surface, after), pushed := pushed))
  {
    var m := PutMpp(q.meta, p.surface, after);
    assert forall k :: IsMpp(m, k) ==> IsMpp(q.meta, k) && MppAt(m, k) == if k == p.surface then after else MppAt(q.meta, k);
  }

  /** A leg event whose id is already registered is recorded, and never queued by itself. */
  lemma RegisteredLegAnnounces(p: Pay, q: Queue, e: Event)
    requires RegisteredLeg(p, q, e)
    ensures
      var t := AddEvent(q, e);
      && Separate(p, t) && EntryOk(p, t) && t.pending == q.pending
      && if MppAt(q.meta, p.surface).finalized then t == q
         else Surfaced(p, t.pushed) == Surfaced(p, q.pushed) + Announcement(p, t)
  {
    var before := MppAt(q.meta, p.surface);
    if before.finalized {
      FinalLegIgnores(p, q, e);
    } else {
      RegisteredLegFolds(p, q, e);
      var after := AfterReport(before, e.id == p.surface, ResultOf(e));
      PutKeepsSeparate(p, q, after, AddEvent(q, e).pushed);
      if after.finalized {
        SurfacedSnoc(p, q.pushed, Combined(p.surface, OutcomeOf(after)));
      } else {
        assert q.pushed + [] == q.pushed;
      }
    }
  }

  lemma RegisteredLegCoalesces(p: Pay, q: Queue, e: Event)
    requires RegisteredLeg(p, q, e) && Coalesced(p, q)
    ensures
      var t := AddEvent(q, e);
      Separate(p, t) && Coalesced(p, t) && t.pending == q.pending
  {
    RegisteredLegAnnounces(p, q, e);
  }

  lemma RegisteredLegKeepsEntries(p: Pay, q: Queue, e: Event)
    requires RegisteredLeg(p, q, e)
    ensures
      var t := AddEvent(q, e);
      && (forall k :: IsMpp(t.meta, k) <==> IsMpp(q.meta, k))
      && (forall k :: k != p.surface && IsMpp(q.meta, k) ==> MppAt(t.meta, k) == MppAt(q.meta, k))
  {
    if MppAt(q.meta, p.surface).finalized { FinalLegIgnores(p, q, e); } else { RegisteredLegFolds(p, q, e); }
  }

  lemma RegisteredLegIsHeard(p: Pay, q: Queue, e: Event)
    requires RegisteredLeg(p, q, e)
    ensures
      var t := AddEvent(q, e);
      && IsMpp(t.meta, p.surface) && LegDone(p, t.meta, e.id)
      && (forall id :: LegDone(p, q.meta, id) ==> LegDone(p, t.meta, id))
  {
    if MppAt(q.meta, p.surface).finalized { FinalLegIgnores(p, q, e); } else { RegisteredLegFolds(p, q, e); }
  }

  lemma RegisteredLegIsSourced(p: Pay, q: Queue, e: Event, reports: seq<Event>)
    requires RegisteredLeg(p, q, e) && e in reports && Sourced(p, MppAt(q.meta, p.surface), reports)
    ensures
      var t := AddEvent(q, e);
      IsMpp(t.meta, p.surface) && Sourced(p, MppAt(t.meta, p.surface), reports)
  {
    var before := MppAt(q.meta, p.surface);
    if before.finalized {
      FinalLegIgnores(p, q, e);
    } else {
      RegisteredLegFolds(p, q, e);
      SourcedByReport(p, before, reports, e);
    }
  }

  /** Both entries are in place. */
  ghost predicate Registered(p: Pay, q: Queue) {
    && Separate(p, q) && Coalesced(p, q)
    && IsMpp(q.meta, p.lightning) && MppAt(q.meta, p.lightning).surface == p.surface
  }

  /** `t` has taken in reports on top of `q`: nothing heard before is forgotten. */
  ghost predicate Absorbs(p: Pay, q: Queue, t: Queue, reports: seq<Event>) {
    && Registered(p, q) && Registered(p, t)
    && Sourced(p, MppAt(t.meta, p.surface), reports)
    && t.pending == q.pending
    && forall id :: LegDone(p, q.meta, id) ==> LegDone(p, t.meta, id)
  }

  lemma RegisteredLegAdd(p: Pay, q: Queue, e: Event, reports: seq<Event>)
    requires Registered(p, q) && Sourced(p, MppAt(q.meta, p.surface), reports)
    requires LegEvent(p, e) && e in reports
    ensures Absorbs(p, q, AddEvent(q, e), reports) && LegDone(p, AddEvent(q, e).meta, e.id)
  {
    assert RegisteredLeg(p, q, e);
    RegisteredLegCoalesces(p, q, e);
    RegisteredLegKeepsEntries(p, q, e);
    RegisteredLegIsHeard(p, q, e);
    RegisteredLegIsSourced(p, q, e, reports);
  }

  lemma AbsorbsIsTransitive(p: Pay, a: Queue, b: Queue, c: Queue, reports: seq<Event>)
    requires Absorbs(p, a, b, reports) && Absorbs(p, b, c, reports)
    ensures Absorbs(p, a, c, reports)
  {
  }

  lemma {:induction false} ReplayLegs(p: Pay, q: Queue, es: seq<Event>, reports: seq<Event>)
    requires Registered(p, q) && Sourced(p, MppAt(q.meta, p.surface), reports)
    requires forall i :: 0 <= i < |es| ==> LegEvent(p, es[i]) && es[i] in reports
    ensures Absorbs(p, q, AddAll(q, es), reports)
    ensures forall i :: 0 <= i < |es| && FromLeg(p, es[i]) ==> LegDone(p, AddAll(q, es).meta, es[i].id)
    decreases |es|
  {
    if es != [] {
      var next := AddEvent(q, es[0]);
      RegisteredLegAdd(p, q, es[0], reports);
      ReplayLegs(p, next, es[1..], reports);
      AbsorbsIsTransitive(p, q, next, AddAll(q, es), reports);
      forall i | 0 <= i < |es| && FromLeg(p, es[i]) ensures LegDone(p, AddAll(q, es).meta, es[i].id) {
        if i > 0 { assert es[1..][i - 1] == es[i]; }
      }
    }
  }

  /** Without leg entries a replay queues the buffered events one by one, in order. */
  lemma {:induction false} ReplayPlain(p: Pay, q: Queue, es: seq<Event>)
    requires p.hash !in q.pending && NoEntries(p, q)
    requires forall e :: e in es ==> LegEvent(p, e)
    ensures AddAll(q, es) == q.(pushed := q.pushed + es)
    decreases |es|
  {
    if es == [] {
      assert q.pushed + es == q.pushed;
    } else {
      var next := Push(q, es[0]);
      assert LegEvent(p, es[0]);
      assert AddEvent(q, es[0]) == next;
      ReplayPlain(p, next, es[1..]);
      assert next.pushed + es[1..] == q.pushed + es;
    }
  }

  lemma {:induction false} SurfacedAppend(p: Pay, es: seq<Event>, more: seq<Event>)
    requires forall e :: e in more ==> FromLeg(p, e)
    ensures Surfaced(p, es + more) == Surfaced(p, es) + more
    decreases |more|
  {
    if more == [] {
      assert es + more == es;
    } else {
      var e, rest := more[0], more[1..];
      SurfacedSnoc(p, es, e);
      SurfacedAppend(p, es + [e], rest);
      AppendFirst(es, more);
      AppendFirst(Surfaced(p, es), more);
    }
  }

  lemma AppendFirst(a: seq<Event>, b: seq<Event>)
    requires b != []
    ensures a + [b[0]] + b[1..] == a + b
  {
  }

  // ----- the invariant, phase by phase

  ghost predicate NoEntries(p: Pay, q: Queue) {
    !IsMpp(q.meta, p.surface) && !IsMpp(q.meta, p.lightning)
  }

  ghost predicate Buffering(p: Pay, s: Sys) {
    p.hash in s.q.pending && forall e :: e in s.q.pending[p.hash] ==> e in s.reports
  }

  /** Every reported leg has been recorded or waits in the buffer. */
  ghost predicate Heard(p: Pay, s: Sys)
    requires IsMpp(s.q.meta, p.surface)
  {
    forall e :: e in s.reports && FromLeg(p, e) ==>
      LegDone(p, s.q.meta, e.id) || (p.hash in s.q.pending && e in s.q.pending[p.hash])
  }

  ghost predicate Tracked(p: Pay, s: Sys) {
    Coalesced(p, s.q) && Sourced(p, MppAt(s.q.meta, p.surface), s.reports) && Heard(p, s)
  }

  ghost predicate Inv(p: Pay, s: Sys) {
    && Separate(p, s.q)
    && (forall e :: e in s.reports ==> LegEvent(p, e))
    && match s.phase
       case NotStarted =>
         NoEntries(p, s.q) && p.hash !in s.q.pending && s.reports == [] && Surfaced(p, s.q.pushed) == []
       case Begun =>
         NoEntries(p, s.q) && p.hash in s.q.pending && s.q.pending[p.hash] == s.reports && Surfaced(p, s.q.pushed) == []
       case PlainWritten =>
         NoEntries(p, s.q) && p.hash in s.q.pending && s.q.pending[p.hash] == s.reports && Surfaced(p, s.q.pushed) == []
       case Aborted =>
         NoEntries(p, s.q) && p.hash !in s.q.pending && Surfaced(p, s.q.pushed) == s.reports
       case SurfaceWritten =>
         Tracked(p, s) && Buffering(p, s) && !IsMpp(s.q.meta, p.lightning)
       case BothWritten =>
         Tracked(p, s) && Buffering(p, s) && Registered(p, s.q)
       case Finished =>
         Tracked(p, s) && p.hash !in s.q.pending && Registered(p, s.q)
  }

  /**
   Setup starts clean: nothing buffered under the hash, no entry under the surface id, and
   the lightning id not registered as a leg of some other payment.
   */
  ghost predicate Init(p: Pay, s: Sys) {
    && ValidPay(p) && Separate(p, s.q)
    && s.phase.NotStarted? && s.reports == [] && Surfaced(p, s.q.pushed) == []
    && p.hash !in s.q.pending && !IsMpp(s.q.meta, p.surface) && !IsMpp(s.q.meta, p.lightning)
  }

  lemma UntouchedKeepsInv(p: Pay, s: Sys, t: Sys)
    requires Inv(p, s) && Untouched(p, s.q, t.q) && t.phase == s.phase && t.reports == s.reports
    ensures Inv(p, t)
  {
  }

  lemma RegisteredReportIsTracked(p: Pay, s: Sys, e: Event, t: Sys)
    requires Tracked(p, s) && RegisteredLeg(p, s.q, e) && Coalesced(p, s.q)
    requires t == s.(q := AddEvent(s.q, e), reports := s.reports + [e])
    ensures Tracked(p, t) && Separate(p, t.q) && t.q.pending == s.q.pending
  {
    SourcedGrows(p, MppAt(s.q.meta, p.surface), s.reports, e);
    RegisteredLegCoalesces(p, s.q, e);
    RegisteredLegIsHeard(p, s.q, e);
    RegisteredLegIsSourced(p, s.q, e, t.reports);
  }

  lemma RegisteredReportKeepsInv(p: Pay, s: Sys, e: Event, t: Sys)
    requires ValidPay(p) && Inv(p, s) && Next(p, s, LegReports(e), t) && IsMpp(s.q.meta, e.id)
    ensures Inv(p, t)
  {
    assert Tracked(p, s) && RegisteredLeg(p, s.q, e);
    RegisteredReportIsTracked(p, s, e, t);
    RegisteredLegKeepsEntries(p, s.q, e);
  }

  lemma BufferedReportKeepsInv(p: Pay, s: Sys, e: Event, t: Sys)
    requires ValidPay(p) && Inv(p, s) && Next(p, s, LegReports(e), t)
    requires !IsMpp(s.q.meta, e.id) && p.hash in s.q.pending
    ensures Inv(p, t)
  {
    assert t.q == s.q.(pending := s.q.pending[p.hash := s.q.pending[p.hash] + [e]]);
    assert Separate(p, t.q);
    if IsMpp(s.q.meta, p.surface) { SourcedGrows(p, MppAt(s.q.meta, p.surface), s.reports, e); }
  }

  lemma ReportKeepsInv(p: Pay, s: Sys, e: Event, t: Sys)
    requires ValidPay(p) && Inv(p, s) && Next(p, s, LegReports(e), t)
    ensures Inv(p, t)
  {
    if IsMpp(s.q.meta, e.id) {
      RegisteredReportKeepsInv(p, s, e, t);
    } else if p.hash in s.q.pending {
      BufferedReportKeepsInv(p, s, e, t);
    } else {
      SurfacedSnoc(p, s.q.pushed, e);
    }
  }

  /** Writing the payment's own entries leaves the others apart from it. */
  lemma PutKeepsApart(p: Pay, q: Queue, k: PaymentId, v: TxMetadata)
    requires ValidPay(p) && Separate(p, q) && IsLeg(p, k) && (v == LegMeta(p) || v.ty.Payment?)
    ensures Separate(p, SetMeta(q, k, v))
  {
    if v.ty.MppPayment? { assert WellFormed(v.ty.mpp); }
    SetKeepsWellFormed(q.meta, k, v);
    assert forall j :: j != k && IsMpp(q.meta[k := v], j) ==> IsMpp(q.meta, j) && q.meta[k := v][j] == q.meta[j];
  }

  lemma WriteKeepsInv(p: Pay, s: Sys, step: Step, t: Sys)
    requires ValidPay(p) && Inv(p, s) && Next(p, s, step, t)
    requires step.DriverBegin? || step.DriverWritePlain? || step.DriverWriteSurface? || step.DriverWriteLightning?
    ensures Inv(p, t)
  {
    match step
    case DriverBegin =>
    case DriverWritePlain(v) => PutKeepsApart(p, s.q, p.surface, v);
    case DriverWriteSurface => PutKeepsApart(p, s.q, p.surface, LegMeta(p));
    case DriverWriteLightning => PutKeepsApart(p, s.q, p.lightning, LegMeta(p));
  }

  lemma FinishKeepsInv(p: Pay, s: Sys, step: Step, t: Sys)
    requires ValidPay(p) && Inv(p, s) && Next(p, s, step, t) && (step.DriverFinish? || step.DriverGiveUp?)
    ensures Inv(p, t)
  {
    var open := s.q.(pending := s.q.pending - {p.hash});
    if s.phase.BothWritten? {
      ReplayLegs(p, open, s.q.pending[p.hash], s.reports);
    } else {
      ReplayPlain(p, open, s.q.pending[p.hash]);
      SurfacedAppend(p, s.q.pushed, s.q.pending[p.hash]);
    }
  }

  lemma NextKeepsInv(p: Pay, s: Sys, step: Step, t: Sys)
    requires ValidPay(p) && Inv(p, s) && Next(p, s, step, t)
    ensures Inv(p, t)
  {
    if step.LegReports? {
      ReportKeepsInv(p, s, step.e, t);
    } else if step.DriverFinish? || step.DriverGiveUp? {
      FinishKeepsInv(p, s, step, t);
    } else if step.DriverBegin? || step.DriverWritePlain? || step.DriverWriteSurface? || step.DriverWriteLightning? {
      WriteKeepsInv(p, s, step, t);
    } else {
      ForeignStep(p, s, step, t);
      UntouchedKeepsInv(p, s, t);
    }
  }

  lemma {:induction false} RunKeepsInv(p: Pay, states: seq<Sys>, steps: seq<Step>, n: nat)
    requires Run(p, states, steps) && Init(p, states[0]) && n <= |steps|
    ensures Inv(p, states[n])
  {
    if n > 0 {
      RunKeepsInv(p, states, steps, n - 1);
      NextKeepsInv(p, states[n - 1], steps[n - 1], states[n]);
    }
  }

  // ----- the theorems

  /** The one event a finished payment is announced with, made of what its legs reported. */
  ghost predicate CombinesReports(p: Pay, c: Event, reports: seq<Event>) {
    match c
    case PaymentSuccessful(id, h, preimage, fee) =>
      && id == p.surface && h == p.mpp.lightningLeg
      && (exists a: nat, b: nat ::
            && fee == Some(if a + b <= U64_MAX then a + b else U64_MAX)
            && SomeSuccess(reports, p.surface, a) && SomeSuccess(reports, p.lightning, b))
      && (exists r :: r in reports && r.PaymentSuccessful? && r.preimage == preimage)
    case PaymentFailed(id, h, reason) =>
      && id == p.surface && h == Some(p.mpp.lightningLeg) && reason == None
      && exists r :: r in reports && r.PaymentFailed?
    case OtherEvent(_) => false
  }

  ghost predicate ReportedBy(reports: seq<Event>, id: PaymentId) {
    exists e :: e in reports && !e.OtherEvent? && e.id == id
  }

  lemma CombinedIsSourced(p: Pay, e: Mpp, reports: seq<Event>)
    requires WellFormed(e) && Resolved(e) && e.lightningLeg == p.mpp.lightningLeg
    requires Sourced(p, e, reports)
    ensures CombinesReports(p, Combined(p.surface, OutcomeOf(e)), reports)
  {
    if !e.failed {
      var a, b := e.trustedFee.value, e.lightningFee.value;
      assert Combined(p.surface, OutcomeOf(e)).fee == Some(if a + b <= U64_MAX then a + b else U64_MAX);
      assert SomeSuccess(reports, p.surface, a) && SomeSuccess(reports, p.lightning, b);
    }
  }

  /** No single-leg event is queued, and one combined event once both legs have reported. */
  ghost predicate Announces(p: Pay, s: Sys) {
    var events := Surfaced(p, s.q.pushed);
    && |events| <= 1
    && (forall c :: c in events ==> CombinesReports(p, c, s.reports))
    && (s.phase.Finished? && ReportedBy(s.reports, p.surface) && ReportedBy(s.reports, p.lightning)
        ==> |events| == 1)
  }

  /**
   Once both legs are being paid, and for every order of arrivals: no single-leg event is
   ever queued, at most one combined event is, and it is exactly one as soon as both legs
   have reported and setup has finished.
   */
  lemma OneCombinedEvent(p: Pay, states: seq<Sys>, steps: seq<Step>, n: nat)
    requires Run(p, states, steps) && Init(p, states[0]) && n <= |steps|
    requires !states[n].phase.Aborted?
    ensures Announces(p, states[n])
  {
    RunKeepsInv(p, states, steps, n);
    var s := states[n];
    if IsMpp(s.q.meta, p.surface) {
      var e := MppAt(s.q.meta, p.surface);
      if e.finalized { CombinedIsSourced(p, e, s.reports); }
    }
  }

  /** If a leg could not be started, its sibling's events surface one by one, in order. */
  lemma AbortedLegSurfacesAlone(p: Pay, states: seq<Sys>, steps: seq<Step>, n: nat)
    requires Run(p, states, steps) && Init(p, states[0]) && n <= |steps|
    requires states[n].phase.Aborted?
    ensures Surfaced(p, states[n].q.pushed) == states[n].reports
    ensures p.hash !in states[n].q.pending
  {
    RunKeepsInv(p, states, steps, n);
  }

  // ----- the fresh lightning id is needed

  ghost predicate AlwaysAnnounces(p: Pay, q: Queue) {
    forall states: seq<Sys>, steps: seq<Step>, n: nat ::
      Run(p, states, steps) && n <= |steps| && states[0] == Sys(q, NotStarted, []) ==>
      states[n].phase.Aborted? || Announces(p, states[n])
  }

  /** Nothing is known of the payment, except perhaps of its lightning id. */
  ghost predicate NewPayment(p: Pay, q: Queue) {
    && ValidPay(p) && Separate(p, q) && Surfaced(p, q.pushed) == []
    && p.hash !in q.pending && !IsMpp(q.meta, p.surface)
  }

  /**
   Coalescing holds on every run exactly when the lightning id is not still registered as
   a leg of an earlier payment, which a retry of the same invoice can leave behind.
   */
  lemma AnnouncesIffLightningIdIsFree(p: Pay, q: Queue)
    requires NewPayment(p, q)
    ensures AlwaysAnnounces(p, q) <==> !IsMpp(q.meta, p.lightning)
  {
    if IsMpp(q.meta, p.lightning) {
      var states, steps := StaleLegLosesTheEvent(p, q, 0, 0, 0);
      var last := states[|steps|];
      NotAnnouncedFails(p, last);
    } else {
      forall states: seq<Sys>, steps: seq<Step>, n: nat
        | Run(p, states, steps) && n <= |steps| && states[0] == Sys(q, NotStarted, [])
        ensures states[n].phase.Aborted? || Announces(p, states[n])
      {
        if !states[n].phase.Aborted? { OneCombinedEvent(p, states, steps, n); }
      }
    }
  }

  /**
   A lightning event that arrives before the stale entry is rewritten is recorded there and
   lost: both legs succeed, setup finishes, and the payment is never announced.
   */
  lemma StaleLegLosesTheEvent(p: Pay, q: Queue, feeT: nat, feeL: nat, preimage: Bytes32)
    returns (states: seq<Sys>, steps: seq<Step>)
    requires NewPayment(p, q) && IsMpp(q.meta, p.lightning)
    ensures Run(p, states, steps) && states[0] == Sys(q, NotStarted, [])
    ensures
      var last := states[|steps|];
      && last.phase.Finished?
      && last.reports == [
        PaymentSuccessful(p.lightning, p.hash, preimage, Some(feeL)),
        PaymentSuccessful(p.surface, p.hash, preimage, Some(feeT))]
      && NotAnnounced(p, last.q)
  {
    var l := PaymentSuccessful(p.lightning, p.hash, preimage, Some(feeL));
    var t := PaymentSuccessful(p.surface, p.hash, preimage, Some(feeT));
    var q1 := Begin(q, p.hash);
    var q2 := AddEvent(q1, l);
    var q3 := SetMeta(q2, p.surface, LegMeta(p));
    var q4 := SetMeta(q3, p.lightning, LegMeta(p));
    var q5 := Finish(q4, p.hash);
    var q6 := AddEvent(q5, t);
    StaleRecord(p, q1, l);
    FinishesEmpty(q4, p.hash);
    FirstSuccessQueuesNothing(p, q5, t);
    steps := [DriverBegin, LegReports(l), DriverWriteSurface, DriverWriteLightning, DriverFinish, LegReports(t)];
    states := [
      Sys(q, NotStarted, []), Sys(q1, Begun, []), Sys(q2, Begun, [l]), Sys(q3, SurfaceWritten, [l]),
      Sys(q4, BothWritten, [l]), Sys(q5, Finished, [l]), Sys(q6, Finished, [l, t])];
    StaleRun(p, states, steps, l, t);
  }

  ghost predicate NotAnnounced(p: Pay, q: Queue) {
    forall c :: c in Surfaced(p, q.pushed) ==> !c.OtherEvent? && c.id != p.surface
  }

  lemma NotAnnouncedFails(p: Pay, s: Sys)
    requires s.phase.Finished? && |s.reports| == 2 && NotAnnounced(p, s.q)
    requires s.reports[0].PaymentSuccessful? && s.reports[0].id == p.lightning
    requires s.reports[1].PaymentSuccessful? && s.reports[1].id == p.surface
    ensures !Announces(p, s)
  {
    assert s.reports[0] in s.reports && s.reports[1] in s.reports;
    var events := Surfaced(p, s.q.pushed);
    if |events| == 1 { assert events[0] in events && !CombinesReports(p, events[0], s.reports); }
  }

  lemma StaleRun(p: Pay, states: seq<Sys>, steps: seq<Step>, l: Event, t: Event)
    requires LegEvent(p, l) && LegEvent(p, t) && |states| == 7
    requires steps == [DriverBegin, LegReports(l), DriverWriteSurface, DriverWriteLightning, DriverFinish, LegReports(t)]
    requires states[0].phase.NotStarted? && states[0].reports == []
    requires states[1] == Sys(Begin(states[0].q, p.hash), Begun, [])
    requires states[2] == Sys(AddEvent(states[1].q, l), Begun, [l])
    requires states[3] == Sys(SetMeta(states[2].q, p.surface, LegMeta(p)), SurfaceWritten, [l])
    requires states[4] == Sys(SetMeta(states[3].q, p.lightning, LegMeta(p)), BothWritten, [l])
    requires states[5] == Sys(Finish(states[4].q, p.hash), Finished, [l])
    requires states[6] == Sys(AddEvent(states[5].q, t), Finished, [l, t])
    ensures Run(p, states, steps)
  {
    assert [] + [l] == [l] && [l] + [t] == [l, t];
    assert Next(p, states[1], LegReports(l), states[2]);
    assert Next(p, states[5], LegReports(t), states[6]);
  }

  lemma FinishesEmpty(q: Queue, h: Bytes32)
    requires h in q.pending && q.pending[h] == []
    ensures Finish(q, h) == q.(pending := q.pending - {h})
  {
  }

  lemma FirstSuccessQueuesNothing(p: Pay, q: Queue, t: Event)
    requires ValidPay(p) && t.PaymentSuccessful? && t.id == p.surface
    requires p.surface in q.meta && q.meta[p.surface] == LegMeta(p)
    ensures AddEvent(q, t).pushed == q.pushed
    ensures IsMpp(AddEvent(q, t).meta, p.surface) && !MppAt(AddEvent(q, t).meta, p.surface).finalized
  {
  }

  lemma StaleRecord(p: Pay, q: Queue, l: Event)
    requires ValidPay(p) && Surfaced(p, q.pushed) == [] && !IsMpp(q.meta, p.surface)
    requires LegEvent(p, l) && l.id == p.lightning && IsMpp(q.meta, p.lightning)
    ensures AddEvent(q, l).pending == q.pending && NotAnnounced(p, AddEvent(q, l))
  {
    var more := StaleRecordPushes(p, q, l);
    if more == [] {
      assert q.pushed + more == q.pushed;
    } else {
      SurfacedSnoc(p, q.pushed, more[0]);
      assert more == [more[0]];
    }
  }

  lemma StaleRecordPushes(p: Pay, q: Queue, l: Event) returns (more: seq<Event>)
    requires ValidPay(p) && !IsMpp(q.meta, p.surface)
    requires LegEvent(p, l) && l.id == p.lightning && IsMpp(q.meta, p.lightning)
    ensures AddEvent(q, l).pending == q.pending && AddEvent(q, l).pushed == q.pushed + more
    ensures |more| <= 1 && forall c :: c in more ==> !c.OtherEvent? && c.id != p.surface
  {
    var r := RecordLeg(q.meta, l.id, ResultOf(l));
    more := if r.Recorded? && r.outcome.Some? then [Combined(r.surface, r.outcome.value)] else [];
    assert q.pushed + [] == q.pushed;
  }
}
