/**
 `record_mpp_leg` as a concurrent, crashing protocol, seen from one payment.

 A call takes the record lock, mutates the in-memory entry and encodes it, persists what it
 has encoded, and returns; a crash may fall between any two of these and loses the memory
 and the pending return. Reports, for any payment, may be duplicated and replayed without
 bound. Other tasks write any metadata, to memory and to disk in any order, entries of
 other multi-path payments being set up included; only the tracked payment's entries are
 not theirs. Those of both its legs are stored before the run starts; module MppLateWrite
 has the driver still writing them.
 */
module MppRecord {
  import opened Common
  import opened Metadata

  datatype Phase =
    | Idle
    | Mutated(surface: PaymentId, entry: TxMetadata, outcome: Option<MppOutcome>)
    | Persisted(surface: PaymentId, outcome: Option<MppOutcome>)

  /** `log` lists the outcomes the calls have returned so far. */
  datatype Sys = Sys(mem: MetaMap, disk: MetaMap, phase: Phase, log: seq<(PaymentId, MppOutcome)>)

  datatype Step =
    | Report(leg: PaymentId, result: LegResult)
    | Persist
    | Return
    | Crash
    | OtherMem(key: PaymentId, value: TxMetadata)
    | OtherDisk(key: PaymentId, value: TxMetadata)

  /** An entry of the payment surfaced under `id`. */
  predicate IsEntryOf(m: MetaMap, k: PaymentId, id: PaymentId) { IsMpp(m, k) && MppAt(m, k).surface == id }

  /** A write that has nothing to do with the payment, neither by its key nor by its surface. */
  predicate Foreign(id: PaymentId, s: Sys, k: PaymentId, v: TxMetadata) {
    && k != id && !IsEntryOf(s.mem, k, id) && !IsEntryOf(s.disk, k, id)
    && (v.ty.MppPayment? ==> v.ty.mpp.surface != id && WellFormed(v.ty.mpp))
  }

  ghost predicate Next(id: PaymentId, s: Sys, step: Step, t: Sys) {
    match step
    case Report(leg, result) =>
      && s.phase.Idle?
      && var r := RecordLeg(s.mem, leg, result);
      && (r.NotRecorded? ==> t == s)
      && (r.Recorded? ==> t == Recording(s, r))
      && !r.Panicked?
    case Persist =>
      && s.phase.Mutated?
      && t == s.(disk := s.disk[s.phase.surface := s.phase.entry],
                 phase := Persisted(s.phase.surface, s.phase.outcome))
    case Return =>
      && s.phase.Persisted?
      && t == s.(phase := Idle, log := s.log +
          if s.phase.outcome.Some? then [(s.phase.surface, s.phase.outcome.value)] else [])
    case Crash => t == s.(mem := s.disk, phase := Idle)
    case OtherMem(k, v) => Foreign(id, s, k, v) && t == s.(mem := s.mem[k := v])
    case OtherDisk(k, v) => Foreign(id, s, k, v) && t == s.(disk := s.disk[k := v])
  }

  /** The report is in memory, its entry encoded and not yet written. */
  function Recording(s: Sys, r: Recorded): Sys
    requires r.Recorded? && IsMpp(s.mem, r.surface)
  {
    var m := AfterRecord(s.mem, r);
    s.(mem := m, phase := Mutated(r.surface, m[r.surface], r.outcome))
  }

  ghost predicate Run(id: PaymentId, states: seq<Sys>, steps: seq<Step>) {
    && |states| == |steps| + 1
    && forall i :: 0 <= i < |steps| ==> Next(id, states[i], steps[i], states[i + 1])
  }

  ghost function Returned(log: seq<(PaymentId, MppOutcome)>, id: PaymentId): nat {
    if log == [] then 0
    else Returned(log[..|log| - 1], id) + if log[|log| - 1].0 == id then 1 else 0
  }

  ghost function Due(p: Phase, id: PaymentId): nat {
    if !p.Idle? && p.surface == id && p.outcome.Some? then 1 else 0
  }

  /** A return moves the outcome that was due into the log. */
  lemma ReturnLogs(id: PaymentId, s: Sys, t: Sys)
    requires Next(id, s, Return, t)
    ensures t.mem == s.mem && t.disk == s.disk && t.phase.Idle?
    ensures Returned(t.log, id) == Returned(s.log, id) + Due(s.phase, id)
  {
    if s.phase.outcome.Some? { assert t.log[..|t.log| - 1] == s.log; } else { assert t.log == s.log; }
  }

  ghost predicate Final(m: MetaMap, id: PaymentId) { IsMpp(m, id) && MppAt(m, id).finalized }

  /** A report of the payment is in memory and not yet persisted. */
  ghost predicate Mutating(s: Sys, id: PaymentId) { s.phase.Mutated? && s.phase.surface == id }

  /** Memory and disk hold the same entry, except while a report of it is being recorded. */
  ghost predicate Aligned(id: PaymentId, s: Sys) {
    && (IsMpp(s.mem, id) <==> IsMpp(s.disk, id))
    && (IsMpp(s.mem, id) && !Mutating(s, id) ==> MppAt(s.mem, id) == MppAt(s.disk, id))
    && (!s.phase.Idle? && s.phase.surface == id ==> IsMpp(s.mem, id))
    && (Mutating(s, id) ==> s.phase.entry.ty == s.mem[id].ty)
  }

  /** An outcome was returned, or is on its way, only for a finalized entry, and only once. */
  ghost predicate OnceOnly(id: PaymentId, s: Sys) {
    && Returned(s.log, id) + Due(s.phase, id) <= 1
    && (Returned(s.log, id) == 1 ==> Final(s.disk, id))
    && (Due(s.phase, id) == 1 ==> Final(s.mem, id))
    && (Mutating(s, id) ==> !Final(s.disk, id) && (Final(s.mem, id) <==> s.phase.outcome.Some?))
  }

  /** Every accumulator, the encoded one included, is well formed. */
  ghost predicate Sound(s: Sys) {
    && AllWellFormed(s.mem) && AllWellFormed(s.disk)
    && (s.phase.Mutated? ==> s.phase.entry.ty.MppPayment? && WellFormed(s.phase.entry.ty.mpp))
  }

  ghost predicate Inv(id: PaymentId, s: Sys) { Sound(s) && Aligned(id, s) && OnceOnly(id, s) }

  ghost predicate Init(id: PaymentId, s: Sys) {
    s.phase.Idle? && s.log == [] && Sound(s) && Aligned(id, s)
  }

  /** What a recorded report does to the entry of `id`. */
  lemma RecordingAt(s: Sys, leg: PaymentId, result: LegResult, id: PaymentId)
    requires Sound(s) && RecordLeg(s.mem, leg, result).Recorded?
    ensures
      var r := RecordLeg(s.mem, leg, result);
      var t := Recording(s, r);
      && Sound(t) && IsMpp(s.mem, r.surface) && !Final(s.mem, r.surface)
      && (forall k :: IsMpp(t.mem, k) <==> IsMpp(s.mem, k))
      && (forall k :: IsMpp(s.mem, k) ==> MppAt(t.mem, k).surface == MppAt(s.mem, k).surface)
      && (if id == r.surface then IsMpp(t.mem, id) && MppAt(t.mem, id) == r.entry
          else IsMpp(s.mem, id) ==> MppAt(t.mem, id) == MppAt(s.mem, id))
      && (r.outcome.Some? <==> r.entry.finalized)
  {
    RecordKeepsWellFormed(s.mem, leg, result);
  }

  lemma NextKeepsSound(id: PaymentId, s: Sys, step: Step, t: Sys)
    requires Sound(s) && Next(id, s, step, t)
    ensures Sound(t)
  {
    match step
    case Report(leg, result) =>
      if RecordLeg(s.mem, leg, result).Recorded? { RecordingAt(s, leg, result, id); }
    case Persist => SetKeepsWellFormed(s.disk, s.phase.surface, s.phase.entry);
    case Return =>
    case Crash =>
    case OtherMem(k, v) => SetKeepsWellFormed(s.mem, k, v);
    case OtherDisk(k, v) => SetKeepsWellFormed(s.disk, k, v);
  }

  lemma ReportKeepsInv(id: PaymentId, s: Sys, leg: PaymentId, result: LegResult, t: Sys)
    requires Inv(id, s) && Next(id, s, Report(leg, result), t)
    ensures Aligned(id, t) && OnceOnly(id, t)
  {
    if RecordLeg(s.mem, leg, result).Recorded? { RecordingAt(s, leg, result, id); }
  }

  lemma PersistKeepsInv(id: PaymentId, s: Sys, t: Sys)
    requires Inv(id, s) && Next(id, s, Persist, t)
    ensures Aligned(id, t) && OnceOnly(id, t)
  {
    assert Due(t.phase, id) == Due(s.phase, id);
  }

  lemma NextKeepsInv(id: PaymentId, s: Sys, step: Step, t: Sys)
    requires Inv(id, s) && Next(id, s, step, t)
    ensures Inv(id, t)
  {
    NextKeepsSound(id, s, step, t);
    match step
    case Report(leg, result) => ReportKeepsInv(id, s, leg, result, t);
    case Persist => PersistKeepsInv(id, s, t);
    case Return => ReturnLogs(id, s, t);
    case Crash =>
    case OtherMem(k, v) =>
    case OtherDisk(k, v) =>
  }

  lemma {:induction false} RunKeepsInv(id: PaymentId, states: seq<Sys>, steps: seq<Step>, n: nat)
    requires Run(id, states, steps) && Init(id, states[0]) && n <= |steps|
    ensures Inv(id, states[n])
  {
    if n > 0 {
      RunKeepsInv(id, states, steps, n - 1);
      NextKeepsInv(id, states[n - 1], steps[n - 1], states[n]);
    }
  }

  /**
   Over every interleaving, with crashes anywhere: at most one outcome per surface id is
   ever returned, and every entry keeps finalized == (failed or both fees present) with a
   preimage whenever a fee is present.
   */
  lemma OutcomeAtMostOnce(id: PaymentId, states: seq<Sys>, steps: seq<Step>, n: nat, k: PaymentId)
    requires Run(id, states, steps) && Init(id, states[0]) && n <= |steps|
    ensures Returned(states[n].log, id) <= 1
    ensures IsMpp(states[n].mem, k) ==>
      var e := MppAt(states[n].mem, k);
      && (e.finalized <==> e.failed || (e.trustedFee.Some? && e.lightningFee.Some?))
      && (e.trustedFee.Some? || e.lightningFee.Some? ==> e.preimage.Some?)
  {
    RunKeepsInv(id, states, steps, n);
    assert IsMpp(states[n].mem, k) ==> WellFormed(MppAt(states[n].mem, k));
  }

  /** No reachable report trips the `expect`: some next state always exists. */
  lemma ReportNeverPanics(
    id: PaymentId, states: seq<Sys>, steps: seq<Step>, n: nat, leg: PaymentId, result: LegResult)
    requires Run(id, states, steps) && Init(id, states[0]) && n <= |steps| && states[n].phase.Idle?
    ensures exists t :: Next(id, states[n], Report(leg, result), t)
  {
    RunKeepsInv(id, states, steps, n);
    var s := states[n];
    RecordKeepsWellFormed(s.mem, leg, result);
    var r := RecordLeg(s.mem, leg, result);
    assert Next(id, s, Report(leg, result), if r.Recorded? then Recording(s, r) else s);
  }

  // ----- crash-free runs

  /** The leg of `surface` has been heard from (or the payment has already failed). */
  ghost predicate LegDone(m: MetaMap, surface: PaymentId, trustedLeg: bool) {
    && IsMpp(m, surface)
    && var e := MppAt(m, surface);
    (e.failed || if trustedLeg then e.trustedFee.Some? else e.lightningFee.Some?)
  }

  ghost predicate IsLegOf(m: MetaMap, leg: PaymentId, surface: PaymentId) {
    IsEntryOf(m, leg, surface) && IsMpp(m, surface)
  }

  /** In a run without crashes every finalized entry has its outcome returned or due. */
  ghost predicate Accounted(s: Sys, surface: PaymentId) {
    Returned(s.log, surface) + Due(s.phase, surface) == if Final(s.mem, surface) then 1 else 0
  }

  /** What a step without a crash keeps, and adds if it is a report of `leg`. */
  ghost predicate Advances(s: Sys, step: Step, t: Sys, leg: PaymentId, surface: PaymentId) {
    && IsLegOf(t.mem, leg, surface) && Accounted(t, surface)
    && (forall b :: LegDone(s.mem, surface, b) ==> LegDone(t.mem, surface, b))
    && (step.Report? && step.leg == leg ==> LegDone(t.mem, surface, leg == surface))
  }

  lemma CrashFreeReport(s: Sys, l: PaymentId, result: LegResult, t: Sys, leg: PaymentId, surface: PaymentId)
    requires Inv(surface, s) && Next(surface, s, Report(l, result), t)
    requires IsLegOf(s.mem, leg, surface) && Accounted(s, surface)
    ensures Advances(s, Report(l, result), t, leg, surface)
  {
    assert WellFormed(MppAt(s.mem, surface));
    if RecordLeg(s.mem, l, result).Recorded? { RecordingAt(s, l, result, surface); }
  }

  lemma CrashFreeStep(s: Sys, step: Step, t: Sys, leg: PaymentId, surface: PaymentId)
    requires Inv(surface, s) && Next(surface, s, step, t) && !step.Crash?
    requires IsLegOf(s.mem, leg, surface) && Accounted(s, surface)
    ensures Advances(s, step, t, leg, surface)
  {
    match step
    case Report(l, result) => CrashFreeReport(s, l, result, t, leg, surface);
    case Return => ReturnLogs(surface, s, t);
    case Persist => assert t.mem == s.mem && t.log == s.log;
    case OtherMem(k, v) => assert t.log == s.log && t.phase == s.phase;
    case OtherDisk(k, v) => assert t.mem == s.mem && t.log == s.log;
  }

  /** A fresh accumulator: no leg heard from. */
  predicate Unreported(e: Mpp) {
    e.trustedFee.None? && e.lightningFee.None? && !e.failed && !e.finalized
  }

  ghost predicate Heard(steps: seq<Step>, n: nat, leg: PaymentId)
    requires n <= |steps|
  {
    exists i :: 0 <= i < n && steps[i].Report? && steps[i].leg == leg
  }

  lemma {:induction false} CrashFreeRun(
    states: seq<Sys>, steps: seq<Step>, n: nat, leg: PaymentId, surface: PaymentId)
    requires Run(surface, states, steps) && Init(surface, states[0]) && n <= |steps|
    requires forall i :: 0 <= i < |steps| ==> !steps[i].Crash?
    requires IsLegOf(states[0].mem, leg, surface) && !MppAt(states[0].mem, surface).finalized
    ensures IsLegOf(states[n].mem, leg, surface) && Accounted(states[n], surface)
    ensures Heard(steps, n, leg) ==> LegDone(states[n].mem, surface, leg == surface)
  {
    if n > 0 {
      CrashFreeRun(states, steps, n - 1, leg, surface);
      RunKeepsInv(surface, states, steps, n - 1);
      CrashFreeStep(states[n - 1], steps[n - 1], states[n], leg, surface);
      assert Heard(steps, n, leg) ==>
        Heard(steps, n - 1, leg) || (steps[n - 1].Report? && steps[n - 1].leg == leg);
    }
  }

  /** Without crashes, once both legs have reported and no call is in progress, exactly one. */
  lemma OutcomeExactlyOnce(
    states: seq<Sys>, steps: seq<Step>, n: nat, lightning: PaymentId, surface: PaymentId)
    requires Run(surface, states, steps) && Init(surface, states[0]) && n <= |steps| && states[n].phase.Idle?
    requires forall k :: 0 <= k < |steps| ==> !steps[k].Crash?
    requires lightning != surface
    requires IsLegOf(states[0].mem, surface, surface) && IsLegOf(states[0].mem, lightning, surface)
    requires Unreported(MppAt(states[0].mem, surface))
    requires Heard(steps, n, surface) && Heard(steps, n, lightning)
    ensures Returned(states[n].log, surface) == 1
  {
    CrashFreeRun(states, steps, n, surface, surface);
    CrashFreeRun(states, steps, n, lightning, surface);
    RunKeepsInv(surface, states, steps, n);
    assert LegDone(states[n].mem, surface, true) && LegDone(states[n].mem, surface, false);
    assert WellFormed(MppAt(states[n].mem, surface));
  }

  // ----- exactly when an outcome is lost

  ghost predicate LosesOutcome(s: Sys, step: Step, id: PaymentId) {
    step.Crash? && s.phase.Persisted? && Due(s.phase, id) == 1
  }

  /** A crash has fallen between persisting the outcome of `id` and returning it. */
  ghost predicate LostBy(states: seq<Sys>, steps: seq<Step>, n: nat, id: PaymentId)
    requires n <= |steps| < |states|
  {
    exists i :: 0 <= i < n && LosesOutcome(states[i], steps[i], id)
  }

  ghost function Delivered(s: Sys, id: PaymentId): nat {
    Returned(s.log, id) + if s.phase.Persisted? then Due(s.phase, id) else 0
  }

  /** How one step changes what has been delivered and what is final on disk. */
  ghost predicate Delivers(s: Sys, step: Step, t: Sys, id: PaymentId) {
    && IsMpp(s.disk, id) && IsMpp(t.disk, id)
    && (Final(s.disk, id) ==> Final(t.disk, id))
    && (!Final(s.disk, id) ==> !LosesOutcome(s, step, id))
    && Delivered(t, id) ==
      if LosesOutcome(s, step, id) then Returned(s.log, id)
      else Delivered(s, id) + if Final(t.disk, id) && !Final(s.disk, id) then 1 else 0
  }

  lemma ReportDelivers(s: Sys, leg: PaymentId, result: LegResult, t: Sys, id: PaymentId)
    requires Inv(id, s) && Next(id, s, Report(leg, result), t) && IsMpp(s.disk, id)
    ensures Delivers(s, Report(leg, result), t, id)
  {
    assert t.disk == s.disk && t.log == s.log && !t.phase.Persisted?;
  }

  lemma PersistDelivers(s: Sys, t: Sys, id: PaymentId)
    requires Inv(id, s) && Next(id, s, Persist, t) && IsMpp(s.disk, id)
    ensures Delivers(s, Persist, t, id)
  {
    assert t.log == s.log;
    if s.phase.surface == id {
      assert MppAt(t.disk, id) == MppAt(s.mem, id);
    } else {
      assert MppAt(t.disk, id) == MppAt(s.disk, id);
    }
  }

  lemma DeliveredStep(s: Sys, step: Step, t: Sys, id: PaymentId)
    requires Inv(id, s) && Next(id, s, step, t) && IsMpp(s.disk, id)
    ensures Delivers(s, step, t, id)
  {
    match step
    case Report(leg, result) => ReportDelivers(s, leg, result, t, id);
    case Persist => PersistDelivers(s, t, id);
    case Return => ReturnLogs(id, s, t);
    case Crash => assert t.disk == s.disk && t.log == s.log;
    case OtherMem(k, v) => assert t.disk == s.disk && t.log == s.log;
    case OtherDisk(k, v) => assert t.log == s.log && t.phase == s.phase;
  }

  /**
   Crashes included, the outcome of a finalized payment has been returned (exactly once) or
   is about to be, if and only if no crash fell between persisting it and returning it.
   */
  lemma {:induction false} DeliveredUnlessLost(id: PaymentId, states: seq<Sys>, steps: seq<Step>, n: nat)
    requires Run(id, states, steps) && Init(id, states[0]) && n <= |steps|
    requires IsMpp(states[0].disk, id) && !MppAt(states[0].disk, id).finalized
    ensures IsMpp(states[n].disk, id)
    ensures Delivered(states[n], id) ==
      if Final(states[n].disk, id) && !LostBy(states, steps, n, id) then 1 else 0
    ensures LostBy(states, steps, n, id) ==> Final(states[n].disk, id)
  {
    if n > 0 {
      DeliveredUnlessLost(id, states, steps, n - 1);
      RunKeepsInv(id, states, steps, n - 1);
      DeliveredStep(states[n - 1], steps[n - 1], states[n], id);
      assert LostBy(states, steps, n, id) <==>
        LostBy(states, steps, n - 1, id) || LosesOutcome(states[n - 1], steps[n - 1], id);
      if LosesOutcome(states[n - 1], steps[n - 1], id) {
        DeliversOnce(states[n - 1], steps[n - 1], states[n], id);
      }
    }
  }

  /** What has been lost was not returned, and cannot be lost again. */
  lemma DeliversOnce(s: Sys, step: Step, t: Sys, id: PaymentId)
    requires Inv(id, s) && Next(id, s, step, t) && LosesOutcome(s, step, id)
    ensures Returned(s.log, id) == 0 && Delivered(s, id) == 1
  {
  }

  /**
   Such a run exists from every state in which both legs are stored and unreported, and
   afterwards no report of either leg brings the outcome back.
   */
  lemma CrashCanLoseOutcome(s: Sys, lightning: PaymentId, surface: PaymentId)
    returns (states: seq<Sys>, steps: seq<Step>)
    requires Init(surface, s) && IsLegOf(s.mem, surface, surface) && IsLegOf(s.mem, lightning, surface)
    requires IsLegOf(s.disk, lightning, surface) && Unreported(MppAt(s.mem, surface))
    ensures Run(surface, states, steps) && states[0] == s
    ensures
      var last := states[|steps|];
      && last.phase.Idle? && last.log == [] && Final(last.disk, surface)
      && IsLegOf(last.mem, surface, surface) && IsLegOf(last.mem, lightning, surface)
      && forall leg, result, t ::
        IsLegOf(last.mem, leg, surface) && Next(surface, last, Report(leg, result), t) ==> t == last
  {
    var r := RecordLeg(s.mem, surface, Failure);
    var s1 := Recording(s, r);
    var s2 := s1.(disk := s1.disk[surface := s1.phase.entry], phase := Persisted(surface, r.outcome));
    var s3 := s2.(mem := s2.disk, phase := Idle);
    assert Next(surface, s, Report(surface, Failure), s1);
    assert Next(surface, s1, Persist, s2) && Next(surface, s2, Crash, s3);
    states, steps := [s, s1, s2, s3], [Report(surface, Failure), Persist, Crash];
  }
}
