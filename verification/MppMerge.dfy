/**
 The listing side of a multi-path payment: folding the two legs back into one
 transaction, and its agreement with the outcome that the recording side surfaces.
 */
module MppMerge {
  import opened Common
  import opened Metadata

  datatype TxStatus = Pending | Completed | FailedTx

  datatype MppLeg = MppLeg(status: TxStatus, feeMsat: nat)

  /** One folded-in leg: which wallet paid it and what its transaction list says. */
  datatype Fold = Fold(trustedLeg: bool, totalMsat: nat, leg: MppLeg, ty: PaymentType, time: nat)

  datatype Merge = Merge(
    totalMsat: nat, trusted: Option<MppLeg>, lightning: Option<MppLeg>,
    ty: Option<PaymentType>, time: Option<nat>)

  const EMPTY: Merge := Merge(0, None, None, None, None)

  predicate HasPreimage(ty: PaymentType) {
    (ty.OutgoingLightningBolt11? || ty.OutgoingLightningBolt12?) && ty.preimage.Some?
  }

  function Folded(m: Merge, f: Fold): Merge {
    Merge(
      f.totalMsat,
      if f.trustedLeg then Some(f.leg) else m.trusted,
      if f.trustedLeg then m.lightning else Some(f.leg),
      if m.ty.None? || HasPreimage(f.ty) then Some(f.ty) else m.ty,
      Some(if m.time.Some? && m.time.value < f.time then m.time.value else f.time))
  }

  function Status(m: Merge): TxStatus {
    if (m.trusted.Some? && m.trusted.value.status == FailedTx)
      || (m.lightning.Some? && m.lightning.value.status == FailedTx) then FailedTx
    else if m.trusted.Some? && m.trusted.value.status == Completed
      && m.lightning.Some? && m.lightning.value.status == Completed then Completed
    else Pending
  }

  function FeeOf(leg: Option<MppLeg>): nat { if leg.Some? then leg.value.feeMsat else 0 }

  function CombinedFee(m: Merge): nat { SaturatingAdd(FeeOf(m.trusted), FeeOf(m.lightning)) }

  class MppMerger {
    var totalMsat: nat
    var trusted: Option<MppLeg>
    var lightning: Option<MppLeg>
    var ty: Option<PaymentType>
    var time: Option<nat>

    ghost function View(): Merge
      reads this
    {
      Merge(totalMsat, trusted, lightning, ty, time)
    }

    constructor ()
      ensures View() == EMPTY
    {
      totalMsat, trusted, lightning, ty, time := 0, None, None, None, None;
    }

    method Accumulate(f: Fold)
      modifies this
      ensures View() == Folded(old(View()), f)
    {
      totalMsat := f.totalMsat;
      if f.trustedLeg { trusted := Some(f.leg); } else { lightning := Some(f.leg); }
      if ty.None? || HasPreimage(f.ty) { ty := Some(f.ty); }
      time := Some(if time.Some? && time.value < f.time then time.value else f.time);
    }
  }

  /**
   The order of the two folds is invisible exactly when the payment types agree or one leg
   alone carries a preimage.
   */
  lemma FoldOrderIrrelevant(t: Fold, l: Fold)
    requires t.trustedLeg && !l.trustedLeg && t.totalMsat == l.totalMsat
    ensures Folded(Folded(EMPTY, t), l) == Folded(Folded(EMPTY, l), t)
      <==> t.ty == l.ty || HasPreimage(t.ty) != HasPreimage(l.ty)
  {
    var a, b := Folded(Folded(EMPTY, t), l), Folded(Folded(EMPTY, l), t);
    assert a.ty == Some(if HasPreimage(l.ty) then l.ty else t.ty);
    assert b.ty == Some(if HasPreimage(t.ty) then t.ty else l.ty);
    assert a.totalMsat == b.totalMsat && a.trusted == b.trusted && a.lightning == b.lightning && a.time == b.time;
  }

  /** Two BOLT 11 legs: exactly when they do not carry two different preimages. */
  lemma Bolt11FoldOrderIrrelevant(t: Fold, l: Fold)
    requires t.trustedLeg && !l.trustedLeg && t.totalMsat == l.totalMsat
    requires t.ty.OutgoingLightningBolt11? && l.ty.OutgoingLightningBolt11?
    ensures Folded(Folded(EMPTY, t), l) == Folded(Folded(EMPTY, l), t)
      <==> !(t.ty.preimage.Some? && l.ty.preimage.Some? && t.ty.preimage != l.ty.preimage)
  {
    FoldOrderIrrelevant(t, l);
  }

  /**
   What the merge of the two legs is, whichever was folded first: both legs, the earlier
   time, the saturating sum of the fees, and a preimage whenever one of the legs has one.
   */
  lemma MergedIs(t: Fold, l: Fold, trustedFirst: bool)
    requires t.trustedLeg && !l.trustedLeg && t.totalMsat == l.totalMsat
    ensures
      var m := Merged(t, l, trustedFirst);
      && m.trusted == Some(t.leg) && m.lightning == Some(l.leg) && m.totalMsat == t.totalMsat
      && m.time == Some(if t.time <= l.time then t.time else l.time)
      && CombinedFee(m) ==
         (if t.leg.feeMsat + l.leg.feeMsat <= U64_MAX then t.leg.feeMsat + l.leg.feeMsat else U64_MAX)
      && (m.ty == Some(t.ty) || m.ty == Some(l.ty))
      && (Proves(t.ty) || Proves(l.ty) ==> Proves(m.ty.value))
      && (!Proves(t.ty) && !Proves(l.ty) ==> m.ty == Some(if trustedFirst then t.ty else l.ty))
  {
  }

  /** The payment type shows a lightning preimage. */
  predicate Proves(ty: PaymentType) {
    match ty
    case OutgoingLightningBolt11(preimage) => preimage.Some?
    case OutgoingLightningBolt12(preimage) => preimage.Some?
    case _ => false
  }

  function Merged(t: Fold, l: Fold, trustedFirst: bool): Merge {
    if trustedFirst then Folded(Folded(EMPTY, t), l) else Folded(Folded(EMPTY, l), t)
  }

  // ----- agreement with the surfaced outcome

  datatype Report = Report(trustedLeg: bool, result: LegResult)

  /** The accumulator and the outcome surfaced by a sequence of reports. */
  datatype Recording = Recording(entry: Mpp, surfaced: Option<MppOutcome>)

  /** One uninterrupted report, as `RecordLeg` treats it. */
  function Recorded1(r: Recording, report: Report): Recording
    requires WellFormed(r.entry)
  {
    if r.entry.finalized then r
    else
      var e := AfterReport(r.entry, report.trustedLeg, report.result);
      Recording(e, if e.finalized then Some(OutcomeOf(e)) else r.surfaced)
  }

  function RecordAll(start: Mpp, reports: seq<Report>): (r: Recording)
    requires WellFormed(start)
    ensures WellFormed(r.entry)
  {
    if reports == [] then Recording(start, None)
    else Recorded1(RecordAll(start, reports[..|reports| - 1]), reports[|reports| - 1])
  }

  /** The value-level recording above is the store's `RecordLeg` on the surface entry. */
  lemma Recorded1IsRecordLeg(m: MetaMap, leg: PaymentId, surface: PaymentId, result: LegResult, r: Recording)
    requires AllWellFormed(m) && IsMpp(m, leg) && MppAt(m, leg).surface == surface && IsMpp(m, surface)
    requires r.entry == MppAt(m, surface)
    ensures
      var rec := RecordLeg(m, leg, result);
      var next := Recorded1(r, Report(leg == surface, result));
      && MppAt(AfterRecord(m, rec), surface) == next.entry
      && (rec.Recorded? && rec.outcome.Some? ==> next.surfaced == rec.outcome)
      && (!(rec.Recorded? && rec.outcome.Some?) ==> next.surfaced == r.surfaced)
  {
    RecordKeepsWellFormed(m, leg, result);
  }

  ghost predicate OncePerLeg(reports: seq<Report>) {
    forall i, j :: 0 <= i < j < |reports| ==> reports[i].trustedLeg != reports[j].trustedLeg
  }

  /** A leg's list entry reflects its report: pending without one, else its result and fee. */
  ghost predicate Reflects(reports: seq<Report>, trustedLeg: bool, leg: MppLeg) {
    && (forall r :: r in reports && r.trustedLeg == trustedLeg ==>
      match r.result
      case Success(fee, _) => leg == MppLeg(Completed, fee)
      case Failure => leg.status == FailedTx)
    && ((forall r :: r in reports ==> r.trustedLeg != trustedLeg) ==> leg.status == Pending)
  }

  /**
   Whatever the order of the reports, the outcome surfaced so far and the merged listing
   tell the same story, with the same saturating fee sum.
   */
  lemma OutcomeAgreesWithListing(
    start: Mpp, reports: seq<Report>, t: Fold, l: Fold, trustedFirst: bool)
    requires WellFormed(start) && !start.finalized && start.trustedFee.None? && start.lightningFee.None?
    requires OncePerLeg(reports)
    requires t.trustedLeg && !l.trustedLeg
    requires Reflects(reports, true, t.leg) && Reflects(reports, false, l.leg)
    ensures Agree(RecordAll(start, reports).surfaced, Merged(t, l, trustedFirst))
  {
    AtMostTwo(reports);
    if |reports| == 0 {
      assert reports == [];
    } else if |reports| == 1 {
      assert reports == [reports[0]];
      OneReportAgrees(start, reports[0], t, l, trustedFirst);
    } else {
      assert reports == [reports[0], reports[1]];
      TwoReportsAgree(start, reports[0], reports[1], t, l, trustedFirst);
    }
  }

  lemma AtMostTwo(reports: seq<Report>)
    requires OncePerLeg(reports)
    ensures |reports| <= 2
  {
    var sides := seq(|reports|, i requires 0 <= i < |reports| => reports[i].trustedLeg);
    assert forall i, j :: 0 <= i < j < |sides| ==> sides[i] != sides[j];
    assert FirstThreeDiffer(sides);
  }

  predicate FirstThreeDiffer(sides: seq<bool>) {
    |sides| >= 3 ==> sides[0] != sides[1] && sides[1] != sides[2] && sides[0] != sides[2]
  }

  /** The surfaced outcome and the merged listing tell the same story. */
  ghost predicate Agree(surfaced: Option<MppOutcome>, merged: Merge) {
    match surfaced
    case None => Status(merged) == Pending
    case Some(Succeeded(_, _, fee)) => Status(merged) == Completed && CombinedFee(merged) == fee
    case Some(Failed(_)) => Status(merged) == FailedTx
  }

  lemma OneReportAgrees(start: Mpp, r: Report, t: Fold, l: Fold, trustedFirst: bool)
    requires WellFormed(start) && !start.finalized && start.trustedFee.None? && start.lightningFee.None?
    requires t.trustedLeg && !l.trustedLeg && Reflects([r], true, t.leg) && Reflects([r], false, l.leg)
    ensures Agree(RecordAll(start, [r]).surfaced, Merged(t, l, trustedFirst))
  {
    assert r in [r];
    RecordOne(start, r);
  }

  lemma TwoReportsAgree(start: Mpp, a: Report, b: Report, t: Fold, l: Fold, trustedFirst: bool)
    requires WellFormed(start) && !start.finalized && start.trustedFee.None? && start.lightningFee.None?
    requires a.trustedLeg != b.trustedLeg
    requires t.trustedLeg && !l.trustedLeg && Reflects([a, b], true, t.leg) && Reflects([a, b], false, l.leg)
    ensures Agree(RecordAll(start, [a, b]).surfaced, Merged(t, l, trustedFirst))
  {
    assert a in [a, b] && b in [a, b] && [a, b][..1] == [a];
    RecordOne(start, a);
    assert RecordAll(start, [a, b]) == Recorded1(Recorded1(Recording(start, None), a), b);
  }

  lemma RecordOne(start: Mpp, r: Report)
    requires WellFormed(start) && !start.finalized
    ensures RecordAll(start, [r]) == Recorded1(Recording(start, None), r)
  {
    assert [r][..0] == [];
  }
}
