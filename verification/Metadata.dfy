/**
 Transaction metadata and the recording of the two legs of a multi-path payment (MPP).

 `TxMetadataStore` keeps a map in memory and a copy on disk. Writes are assumed to
 succeed, as the code insists ("We do not allow writes to fail"); what a crash between
 the steps of a call leaves behind is the subject of module MppRecord.
 */
module Metadata {
  import opened Common

  // 32-byte ids, hashes and preimages are abstract values with equality.
  type Bytes32 = nat

  datatype PaymentId = SelfCustodial(id: Bytes32) | Trusted(id: Bytes32)

  datatype PaymentType =
    | OutgoingLightningBolt12(preimage: Option<Bytes32>)
    | OutgoingLightningBolt11(preimage: Option<Bytes32>)
    | OutgoingOnChain(txid: Option<Bytes32>)
    | IncomingOnChain(txid: Option<Bytes32>)
    | IncomingLightning
    | TrustedInternal

  datatype Mpp = Mpp(
    surface: PaymentId, lightningLeg: Bytes32, totalMsat: nat, ty: PaymentType,
    trustedFee: Option<nat>, lightningFee: Option<nat>, preimage: Option<Bytes32>,
    failed: bool, finalized: bool)

  datatype TxType =
    | TrustedToLightning(trustedPayment: Bytes32, lightningPayment: Bytes32, trigger: PaymentId)
    | OnchainToLightning(channelTxid: Bytes32, triggeringTxid: Bytes32)
    | PaymentTriggeringTransferLightning(ty: PaymentType)
    | Payment(ty: PaymentType)
    | PendingRebalance
    | MppPayment(mpp: Mpp)

  datatype TxMetadata = TxMetadata(ty: TxType, time: nat)

  type MetaMap = map<PaymentId, TxMetadata>

  /** A leg's terminal result: its fee and the preimage, or a failure. */
  datatype LegResult = Success(feeMsat: nat, legPreimage: Bytes32) | Failure

  datatype MppOutcome =
    | Succeeded(paymentHash: Bytes32, preimage: Bytes32, feeMsat: nat)
    | Failed(paymentHash: Bytes32)

  predicate IsMpp(m: MetaMap, k: PaymentId) { k in m && m[k].ty.MppPayment? }

  function MppAt(m: MetaMap, k: PaymentId): Mpp
    requires IsMpp(m, k)
  {
    m[k].ty.mpp
  }

  function PutMpp(m: MetaMap, k: PaymentId, e: Mpp): MetaMap
    requires IsMpp(m, k)
  {
    m[k := m[k].(ty := MppPayment(e))]
  }

  predicate IsPayment(m: MetaMap, k: PaymentId) { k in m && m[k].ty.Payment? }

  function Promoted(m: MetaMap, k: PaymentId): MetaMap
    requires IsPayment(m, k)
  {
    m[k := m[k].(ty := PaymentTriggeringTransferLightning(m[k].ty.ty))]
  }

  // ----- recording one leg, on values

  /** The accumulator with one more report in it, before it is tested for completion. */
  function Accumulate(e: Mpp, trustedLeg: bool, result: LegResult): Mpp {
    match result
    case Success(fee, p) =>
      if trustedLeg then e.(trustedFee := Some(fee), preimage := Some(p))
      else e.(lightningFee := Some(fee), preimage := Some(p))
    case Failure => e.(failed := true)
  }

  predicate Resolved(e: Mpp) { e.failed || (e.trustedFee.Some? && e.lightningFee.Some?) }

  /** The accumulator after one more report, finalized if that resolves it. */
  function AfterReport(e: Mpp, trustedLeg: bool, result: LegResult): Mpp {
    var a := Accumulate(e, trustedLeg, result);
    a.(finalized := Resolved(a))
  }

  function OutcomeOf(e: Mpp): MppOutcome
    requires Resolved(e) && (e.failed || e.preimage.Some?)
  {
    if e.failed then Failed(e.lightningLeg)
    else Succeeded(e.lightningLeg, e.preimage.value, SaturatingAdd(e.trustedFee.value, e.lightningFee.value))
  }

  /** What every stored accumulator satisfies. */
  predicate WellFormed(e: Mpp) {
    && (e.finalized <==> Resolved(e))
    && (e.trustedFee.Some? || e.lightningFee.Some? ==> e.preimage.Some?)
  }

  /** `Panicked` stands for the `expect` on a missing preimage. */
  datatype Recorded =
    | NotRecorded
    | Recorded(surface: PaymentId, entry: Mpp, outcome: Option<MppOutcome>)
    | Panicked

  function RecordLeg(m: MetaMap, leg: PaymentId, result: LegResult): Recorded {
    if !IsMpp(m, leg) then NotRecorded
    else
      var surface := MppAt(m, leg).surface;
      if !IsMpp(m, surface) || MppAt(m, surface).finalized then NotRecorded
      else
        var e := AfterReport(MppAt(m, surface), leg == surface, result);
        if !e.finalized then Recorded(surface, e, None)
        else if !e.failed && e.preimage.None? then Panicked
        else Recorded(surface, e, Some(OutcomeOf(e)))
  }

  function AfterRecord(m: MetaMap, r: Recorded): MetaMap
    requires r.Recorded? ==> IsMpp(m, r.surface)
  {
    if r.Recorded? then PutMpp(m, r.surface, r.entry) else m
  }

  ghost predicate AllWellFormed(m: MetaMap) {
    forall k :: IsMpp(m, k) ==> WellFormed(MppAt(m, k))
  }

  /** Recording keeps every accumulator well formed, so the `expect` cannot fire. */
  lemma RecordKeepsWellFormed(m: MetaMap, leg: PaymentId, result: LegResult)
    requires AllWellFormed(m)
    ensures !RecordLeg(m, leg, result).Panicked?
    ensures AllWellFormed(AfterRecord(m, RecordLeg(m, leg, result)))
    ensures
      var r := RecordLeg(m, leg, result);
      r.Recorded? ==> (r.outcome.Some? <==> r.entry.finalized) && !MppAt(m, r.surface).finalized
  {
    var r := RecordLeg(m, leg, result);
    if r.Recorded? {
      assert WellFormed(MppAt(m, r.surface));
      assert WellFormed(r.entry);
      var t := AfterRecord(m, r);
      assert forall k :: IsMpp(t, k) ==>
        IsMpp(m, k) && MppAt(t, k) == if k == r.surface then r.entry else MppAt(m, k);
    }
  }

  lemma SetKeepsWellFormed(m: MetaMap, k: PaymentId, v: TxMetadata)
    requires AllWellFormed(m) && (v.ty.MppPayment? ==> WellFormed(v.ty.mpp))
    ensures AllWellFormed(m[k := v])
  {
    assert forall j :: IsMpp(m[k := v], j) ==> j == k || (IsMpp(m, j) && m[j] == m[k := v][j]);
  }

  /** The leg of a payment whose entry is there and not final. */
  predicate OpenLeg(m: MetaMap, leg: PaymentId) {
    && leg in m && m[leg].ty.MppPayment?
    && var surface := m[leg].ty.mpp.surface;
    surface in m && m[surface].ty.MppPayment? && !m[surface].ty.mpp.finalized
  }

  /** A success fills its own leg's fee and the preimage, a failure ends the payment. */
  predicate TakesReport(a: Mpp, trustedLeg: bool, result: LegResult, b: Mpp) {
    && b.surface == a.surface && b.lightningLeg == a.lightningLeg && b.totalMsat == a.totalMsat && b.ty == a.ty
    && (b.finalized <==> b.failed || (b.trustedFee.Some? && b.lightningFee.Some?))
    && match result
       case Success(fee, p) =>
         && b.preimage == Some(p) && b.failed == a.failed
         && b.trustedFee == (if trustedLeg then Some(fee) else a.trustedFee)
         && b.lightningFee == (if trustedLeg then a.lightningFee else Some(fee))
       case Failure =>
         b.failed && b.preimage == a.preimage && b.trustedFee == a.trustedFee && b.lightningFee == a.lightningFee
  }

  // ----- the store

  class TxMetadataStore {
    var mem: MetaMap
    var disk: MetaMap

    constructor (stored: MetaMap)
      ensures mem == stored && disk == stored
    {
      mem, disk := stored, stored;
    }

    method DoSet(key: PaymentId, value: TxMetadata) returns (hadOld: bool)
      modifies this
      ensures mem == old(mem)[key := value] && disk == old(disk)[key := value]
      ensures hadOld <==> key in old(mem)
    {
      hadOld := key in mem;
      mem := mem[key := value];
      disk := disk[key := value];
    }

    /** One whole uninterrupted call. */
    method RecordMppLeg(leg: PaymentId, result: LegResult) returns (r: Option<(PaymentId, MppOutcome)>)
      requires AllWellFormed(mem)
      modifies this
      ensures AllWellFormed(mem)
      ensures
        var rec := RecordLeg(old(mem), leg, result);
        && !rec.Panicked? && mem == AfterRecord(old(mem), rec)
        && disk == (if rec.Recorded? then old(disk)[rec.surface := mem[rec.surface]] else old(disk))
        && r == (if rec.Recorded? && rec.outcome.Some? then Some((rec.surface, rec.outcome.value)) else None)
      // the report itself: only a leg of a payment that is not final yet changes anything
      ensures !OpenLeg(old(mem), leg) ==> mem == old(mem) && r == None
      ensures OpenLeg(old(mem), leg) ==>
        && var surface := old(mem)[leg].ty.mpp.surface;
        && IsMpp(mem, surface) && mem == old(mem)[surface := mem[surface]] && mem[surface].time == old(mem)[surface].time
        && TakesReport(old(mem)[surface].ty.mpp, leg == surface, result, mem[surface].ty.mpp)
        && (r.Some? <==> mem[surface].ty.mpp.finalized) && (r.Some? ==> r.value.0 == surface)
    {
      RecordKeepsWellFormed(mem, leg, result);
      if leg !in mem || !mem[leg].ty.MppPayment? { return None; }
      var surface := mem[leg].ty.mpp.surface;
      var trustedLeg := leg == surface;
      if surface !in mem || !mem[surface].ty.MppPayment? { return None; }
      var e := mem[surface].ty.mpp;
      if e.finalized { return None; }
      match result {
        case Success(fee, p) =>
          if trustedLeg { e := e.(trustedFee := Some(fee)); } else { e := e.(lightningFee := Some(fee)); }
          e := e.(preimage := Some(p));
        case Failure => e := e.(failed := true);
      }
      r := None;
      if e.failed {
        e := e.(finalized := true);
        r := Some((surface, Failed(e.lightningLeg)));
      } else if e.trustedFee.Some? && e.lightningFee.Some? {
        e := e.(finalized := true);
        var fee := SaturatingAdd(e.trustedFee.value, e.lightningFee.value);
        r := Some((surface, Succeeded(e.lightningLeg, e.preimage.value, fee)));
      }
      mem := mem[surface := mem[surface].(ty := MppPayment(e))];
      disk := disk[surface := mem[surface]];
    }

    /** Promotes a payment to a rebalance trigger; refused for anything else. */
    method SetTxCausedRebalance(id: PaymentId) returns (ok: bool)
      modifies this
      ensures ok <==> IsPayment(old(mem), id)
      ensures mem == if ok then Promoted(old(mem), id) else old(mem)
      // what a promotion keeps: the payment's own type and its time
      ensures ok ==> mem == old(mem)[id :=
        TxMetadata(PaymentTriggeringTransferLightning(old(mem)[id].ty.ty), old(mem)[id].time)]
      ensures disk == if ok then old(disk)[id := mem[id]] else old(disk)
    {
      if id !in mem || !mem[id].ty.Payment? { return false; }
      mem := mem[id := mem[id].(ty := PaymentTriggeringTransferLightning(mem[id].ty.ty))];
      disk := disk[id := mem[id]];
      return true;
    }

    /** The same, together with the splice entry, in one update of the map. */
    method SetTxCausedRebalanceWithSplice(trigger: PaymentId, splice: PaymentId, metadata: TxMetadata)
      returns (ok: bool)
      modifies this
      ensures ok <==> IsPayment(old(mem), trigger)
      ensures mem == if ok then Promoted(old(mem), trigger)[splice := metadata] else old(mem)
      ensures ok ==> mem == old(mem)[trigger :=
        TxMetadata(PaymentTriggeringTransferLightning(old(mem)[trigger].ty.ty), old(mem)[trigger].time)][
        splice := metadata]
      ensures !ok ==> disk == old(disk)
      // the two writes are issued together, so they may land in either order
      ensures ok && trigger != splice ==>
        disk == old(disk)[trigger := Promoted(old(mem), trigger)[trigger]][splice := metadata]
    {
      if trigger !in mem || !mem[trigger].ty.Payment? { return false; }
      var promoted := mem[trigger].(ty := PaymentTriggeringTransferLightning(mem[trigger].ty.ty));
      mem := mem[trigger := promoted][splice := metadata];
      var triggerFirst: bool := *;
      disk := if triggerFirst then disk[trigger := promoted][splice := metadata] else disk[splice := metadata][trigger := promoted];
      return true;
    }
  }
}
