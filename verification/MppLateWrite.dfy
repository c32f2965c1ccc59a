/**
 The recording of a payment's legs while the driver is still writing their entries.

 The driver puts the surface entry into memory, writes it, and goes on to the lightning
 entry. It does not hold the recording lock, so a report that arrives meanwhile is
 recorded in memory and persisted first, and the driver's write then lands on top of it
 with the unreported entry it had encoded before. A crash after that forgets the report.
 */
module MppLateWrite {
  import opened Common
  import opened Metadata
  import MppRecord

  /** The payment: the ids of its legs and the accumulator both are stored with. */
  datatype Pay = Pay(surface: PaymentId, lightning: PaymentId, mpp: Mpp, time: nat)

  function Entry(p: Pay): TxMetadata { TxMetadata(MppPayment(p.mpp), p.time) }

  predicate ValidPay(p: Pay) {
    p.surface != p.lightning && p.mpp.surface == p.surface && MppRecord.Unreported(p.mpp) && WellFormed(p.mpp)
  }

  datatype Driver = WritingSurface | SurfaceWritten | WritingLightning | Finished | Gone

  datatype Sys = Sys(core: MppRecord.Sys, driver: Driver)

  datatype Step = Core(step: MppRecord.Step) | DriverGoesOn

  ghost predicate Next(p: Pay, s: Sys, step: Step, t: Sys) {
    match step
    case Core(c) =>
      MppRecord.Next(p.surface, s.core, c, t.core) && t.driver == if c.Crash? then Gone else s.driver
    case DriverGoesOn =>
      match s.driver
      case WritingSurface =>
        t == Sys(s.core.(disk := s.core.disk[p.surface := Entry(p)]), SurfaceWritten)
      case SurfaceWritten =>
        t == Sys(s.core.(mem := s.core.mem[p.lightning := Entry(p)]), WritingLightning)
      case WritingLightning =>
        t == Sys(s.core.(disk := s.core.disk[p.lightning := Entry(p)]), Finished)
      case _ => false
  }

  ghost predicate Run(p: Pay, states: seq<Sys>, steps: seq<Step>) {
    && |states| == |steps| + 1
    && forall i :: 0 <= i < |steps| ==> Next(p, states[i], steps[i], states[i + 1])
  }

  /** The surface entry of a new payment has just been put into memory. */
  ghost predicate Init(p: Pay, s: Sys) {
    && ValidPay(p) && s.driver.WritingSurface? && s.core.phase.Idle? && s.core.log == []
    && MppRecord.Sound(s.core)
    && p.surface in s.core.mem && s.core.mem[p.surface] == Entry(p) && p.surface !in s.core.disk
  }

  /** A report on the payment is in memory and not yet persisted. */
  ghost predicate Mutating(p: Pay, s: Sys) { MppRecord.Mutating(s.core, p.surface) }

  ghost function Returned(p: Pay, s: Sys): nat { MppRecord.Returned(s.core.log, p.surface) }

  ghost function Due(p: Pay, s: Sys): nat { MppRecord.Due(s.core.phase, p.surface) }

  // ----- the invariant

  ghost predicate Inv(p: Pay, s: Sys) {
    && MppRecord.Sound(s.core)
    && (!s.core.phase.Idle? && s.core.phase.surface == p.surface ==> IsMpp(s.core.mem, p.surface))
    && (Mutating(p, s) ==> s.core.phase.entry.ty == s.core.mem[p.surface].ty)
    && (MppRecord.Final(s.core.disk, p.surface) ==> MppRecord.Final(s.core.mem, p.surface))
    && (Due(p, s) == 1 ==> MppRecord.Final(s.core.mem, p.surface))
    && (Mutating(p, s) && MppRecord.Final(s.core.mem, p.surface) ==> Due(p, s) == 1)
    && (s.driver.WritingSurface? ==> IsMpp(s.core.mem, p.surface))
  }

  lemma ReportKeepsInv(p: Pay, s: Sys, leg: PaymentId, result: LegResult, t: Sys)
    requires ValidPay(p) && Inv(p, s) && Next(p, s, Core(MppRecord.Report(leg, result)), t)
    ensures Inv(p, t)
  {
    if RecordLeg(s.core.mem, leg, result).Recorded? {
      MppRecord.RecordingAt(s.core, leg, result, p.surface);
    }
  }

  lemma DriverKeepsInv(p: Pay, s: Sys, t: Sys)
    requires ValidPay(p) && Inv(p, s) && Next(p, s, DriverGoesOn, t)
    ensures Inv(p, t)
  {
    SetKeepsWellFormed(s.core.disk, p.surface, Entry(p));
    SetKeepsWellFormed(s.core.mem, p.lightning, Entry(p));
    SetKeepsWellFormed(s.core.disk, p.lightning, Entry(p));
  }

  lemma NextKeepsInv(p: Pay, s: Sys, step: Step, t: Sys)
    requires ValidPay(p) && Inv(p, s) && Next(p, s, step, t)
    ensures Inv(p, t)
  {
    match step
    case DriverGoesOn => DriverKeepsInv(p, s, t);
    case Core(c) =>
      MppRecord.NextKeepsSound(p.surface, s.core, c, t.core);
      match c
      case Report(leg, result) => ReportKeepsInv(p, s, leg, result, t);
      case _ =>
  }

  lemma {:induction false} RunKeepsInv(p: Pay, states: seq<Sys>, steps: seq<Step>, n: nat)
    requires Run(p, states, steps) && Init(p, states[0]) && n <= |steps|
    ensures Inv(p, states[n])
  {
    if n > 0 {
      RunKeepsInv(p, states, steps, n - 1);
      NextKeepsInv(p, states[n - 1], steps[n - 1], states[n]);
    }
  }

  // ----- what a crash forgets

  /**
   The driver's write of the surface entry has landed on top of a recorded report, and
   nothing has been persisted for the payment since.
   */
  ghost predicate StaleAt(p: Pay, states: seq<Sys>, steps: seq<Step>, n: nat)
    requires n <= |steps| < |states|
    decreases n
  {
    n > 0
    && var s, step := states[n - 1], steps[n - 1];
    if step == Core(MppRecord.Crash) then false
    else if step == Core(MppRecord.Persist) && Mutating(p, s) then false
    else if step.DriverGoesOn? && s.driver.WritingSurface? then
      IsMpp(s.core.mem, p.surface) && MppAt(s.core.mem, p.surface) != p.mpp
    else StaleAt(p, states, steps, n - 1)
  }

  /** Memory and disk tell different stories about the payment. */
  ghost predicate Differs(p: Pay, s: Sys) {
    && IsMpp(s.core.mem, p.surface)
    && (IsMpp(s.core.disk, p.surface) ==> MppAt(s.core.disk, p.surface) != MppAt(s.core.mem, p.surface))
  }

  /** The entry on disk is behind only by the report being recorded, or because it is stale. */
  ghost predicate Explained(p: Pay, s: Sys, stale: bool) {
    && (!s.driver.WritingSurface? ==> (IsMpp(s.core.mem, p.surface) <==> IsMpp(s.core.disk, p.surface)))
    && (stale ==>
      && !s.driver.WritingSurface? && IsMpp(s.core.mem, p.surface) && IsMpp(s.core.disk, p.surface)
      && MppAt(s.core.disk, p.surface) == p.mpp && MppAt(s.core.mem, p.surface) != p.mpp)
    && (!stale && !Mutating(p, s) && Differs(p, s) ==>
      s.driver.WritingSurface? && MppAt(s.core.mem, p.surface) == p.mpp)
  }

  lemma ReportExplained(p: Pay, s: Sys, leg: PaymentId, result: LegResult, t: Sys, stale: bool)
    requires ValidPay(p) && Inv(p, s) && Explained(p, s, stale)
    requires Next(p, s, Core(MppRecord.Report(leg, result)), t)
    ensures Explained(p, t, stale)
  {
    var r := RecordLeg(s.core.mem, leg, result);
    if r.Recorded? {
      MppRecord.RecordingAt(s.core, leg, result, p.surface);
      assert r.entry.failed || r.entry.trustedFee.Some? || r.entry.lightningFee.Some?;
    }
  }

  lemma NextExplained(p: Pay, s: Sys, step: Step, t: Sys, before: bool, after: bool)
    requires ValidPay(p) && Inv(p, s) && Explained(p, s, before) && Next(p, s, step, t)
    requires after ==
      if step == Core(MppRecord.Crash) then false
      else if step == Core(MppRecord.Persist) && Mutating(p, s) then false
      else if step.DriverGoesOn? && s.driver.WritingSurface? then
        IsMpp(s.core.mem, p.surface) && MppAt(s.core.mem, p.surface) != p.mpp
      else before
    ensures Explained(p, t, after)
  {
    match step
    case DriverGoesOn =>
    case Core(c) =>
      match c
      case Report(leg, result) => ReportExplained(p, s, leg, result, t, before);
      case _ =>
  }

  lemma {:induction false} RunExplained(p: Pay, states: seq<Sys>, steps: seq<Step>, n: nat)
    requires Run(p, states, steps) && Init(p, states[0]) && n <= |steps|
    ensures Inv(p, states[n]) && Explained(p, states[n], StaleAt(p, states, steps, n))
  {
    RunKeepsInv(p, states, steps, n);
    if n > 0 {
      RunExplained(p, states, steps, n - 1);
      NextExplained(
        p, states[n - 1], steps[n - 1], states[n],
        StaleAt(p, states, steps, n - 1), StaleAt(p, states, steps, n));
    }
  }

  /**
   Once the driver has written the surface entry, and while no report is between memory and
   disk: a crash forgets what has been recorded of the payment if and only if it is stale.
   */
  lemma {:induction false} CrashForgetsIffStale(p: Pay, states: seq<Sys>, steps: seq<Step>, n: nat)
    requires Run(p, states, steps) && Init(p, states[0]) && n <= |steps|
    requires !states[n].driver.WritingSurface? && !Mutating(p, states[n])
    ensures Differs(p, states[n]) <==> StaleAt(p, states, steps, n)
  {
    RunExplained(p, states, steps, n);
  }

  // ----- how often the outcome is returned

  /** A crash that brings back as unfinished a payment whose outcome is no longer due. */
  ghost predicate Forgets(p: Pay, s: Sys, step: Step) {
    && step == Core(MppRecord.Crash) && Due(p, s) == 0
    && MppRecord.Final(s.core.mem, p.surface) && !MppRecord.Final(s.core.disk, p.surface)
  }

  /** A crash that drops an outcome still due, although its entry is final on disk. */
  ghost predicate Drops(p: Pay, s: Sys, step: Step) {
    step == Core(MppRecord.Crash) && Due(p, s) == 1 && MppRecord.Final(s.core.disk, p.surface)
  }

  ghost function Forgotten(p: Pay, states: seq<Sys>, steps: seq<Step>, n: nat): nat
    requires n <= |steps| < |states|
  {
    if n == 0 then 0
    else Forgotten(p, states, steps, n - 1) + if Forgets(p, states[n - 1], steps[n - 1]) then 1 else 0
  }

  ghost function Dropped(p: Pay, states: seq<Sys>, steps: seq<Step>, n: nat): nat
    requires n <= |steps| < |states|
  {
    if n == 0 then 0
    else Dropped(p, states, steps, n - 1) + if Drops(p, states[n - 1], steps[n - 1]) then 1 else 0
  }

  /** One step keeps the books: returned + due + dropped == forgotten + finalized. */
  ghost predicate Balances(p: Pay, s: Sys, step: Step, t: Sys) {
    Returned(p, t) + Due(p, t) + (if Drops(p, s, step) then 1 else 0) + (if MppRecord.Final(s.core.mem, p.surface) then 1 else 0)
    == Returned(p, s) + Due(p, s) + (if Forgets(p, s, step) then 1 else 0) + if MppRecord.Final(t.core.mem, p.surface) then 1 else 0
  }

  lemma ReportBalances(p: Pay, s: Sys, leg: PaymentId, result: LegResult, t: Sys)
    requires Inv(p, s) && Next(p, s, Core(MppRecord.Report(leg, result)), t)
    ensures Balances(p, s, Core(MppRecord.Report(leg, result)), t)
  {
    if RecordLeg(s.core.mem, leg, result).Recorded? {
      MppRecord.RecordingAt(s.core, leg, result, p.surface);
    }
  }

  lemma NextBalances(p: Pay, s: Sys, step: Step, t: Sys)
    requires ValidPay(p) && Inv(p, s) && Next(p, s, step, t)
    ensures Balances(p, s, step, t)
  {
    match step
    case DriverGoesOn => assert t.core.log == s.core.log && t.core.phase == s.core.phase;
    case Core(c) =>
      match c
      case Report(leg, result) => ReportBalances(p, s, leg, result, t);
      case Return => MppRecord.ReturnLogs(p.surface, s.core, t.core);
      case _ => assert t.core.log == s.core.log;
  }

  lemma {:induction false} OutcomesCounted(p: Pay, states: seq<Sys>, steps: seq<Step>, n: nat)
    requires Run(p, states, steps) && Init(p, states[0]) && n <= |steps|
    ensures
      Returned(p, states[n]) + Due(p, states[n]) + Dropped(p, states, steps, n)
      == Forgotten(p, states, steps, n) + if MppRecord.Final(states[n].core.mem, p.surface) then 1 else 0
  {
    if n > 0 {
      OutcomesCounted(p, states, steps, n - 1);
      RunKeepsInv(p, states, steps, n - 1);
      NextBalances(p, states[n - 1], steps[n - 1], states[n]);
    }
  }

  /** Exactly when a crash forgets a finished payment: its outcome is out and it is stale. */
  lemma ForgetsIffStale(p: Pay, states: seq<Sys>, steps: seq<Step>, n: nat)
    requires Run(p, states, steps) && Init(p, states[0]) && n < |steps|
    ensures Forgets(p, states[n], steps[n]) <==>
      && steps[n] == Core(MppRecord.Crash) && Due(p, states[n]) == 0
      && MppRecord.Final(states[n].core.mem, p.surface) && StaleAt(p, states, steps, n)
  {
    RunExplained(p, states, steps, n);
  }

  ghost predicate ForgottenBefore(p: Pay, states: seq<Sys>, steps: seq<Step>, n: nat)
    requires n <= |steps| < |states|
  {
    exists i :: 0 <= i < n && Forgets(p, states[i], steps[i])
  }

  lemma {:induction false} ForgottenIff(p: Pay, states: seq<Sys>, steps: seq<Step>, n: nat)
    requires n <= |steps| < |states|
    ensures Forgotten(p, states, steps, n) > 0 <==> ForgottenBefore(p, states, steps, n)
  {
    if n > 0 {
      ForgottenIff(p, states, steps, n - 1);
      assert ForgottenBefore(p, states, steps, n) <==>
        ForgottenBefore(p, states, steps, n - 1) || Forgets(p, states[n - 1], steps[n - 1]);
    }
  }

  /**
   With the driver's write in the picture the outcome can be returned twice: for a payment
   that stands finished, with no outcome due or dropped, if and only if a crash forgot it.
   */
  lemma ReturnedTwiceIffForgotten(p: Pay, states: seq<Sys>, steps: seq<Step>, n: nat)
    requires Run(p, states, steps) && Init(p, states[0]) && n <= |steps|
    ensures Returned(p, states[n]) >= 2 ==> ForgottenBefore(p, states, steps, n)
    ensures
      MppRecord.Final(states[n].core.mem, p.surface) && Due(p, states[n]) == 0 && Dropped(p, states, steps, n) == 0 ==>
      (Returned(p, states[n]) >= 2 <==> ForgottenBefore(p, states, steps, n))
  {
    OutcomesCounted(p, states, steps, n);
    ForgottenIff(p, states, steps, n);
  }

  // ----- a run that returns the outcome twice

  /** One whole recording of a failed trusted leg. */
  lemma FailureRecorded(p: Pay, s: Sys) returns (a: Sys, b: Sys, c: Sys)
    requires ValidPay(p) && s.core.phase.Idle?
    requires p.surface in s.core.mem && s.core.mem[p.surface] == Entry(p)
    ensures Next(p, s, Core(MppRecord.Report(p.surface, Failure)), a)
    ensures Next(p, a, Core(MppRecord.Persist), b) && Next(p, b, Core(MppRecord.Return), c)
    ensures c.core.phase.Idle? && c.driver == s.driver
    ensures c.core.log == s.core.log + [(p.surface, Failed(p.mpp.lightningLeg))]
  {
    var r := RecordLeg(s.core.mem, p.surface, Failure);
    a := s.(core := MppRecord.Recording(s.core, r));
    b := a.(core := a.core.(disk := a.core.disk[p.surface := a.core.mem[p.surface]],
                            phase := MppRecord.Persisted(r.surface, r.outcome)));
    c := b.(core := b.core.(phase := MppRecord.Idle, log := b.core.log + [(r.surface, r.outcome.value)]));
  }

  /** The failure is reported and returned, the driver's write lands, and a crash and a replay follow. */
  lemma LateWriteRepeatsOutcome(p: Pay, s: Sys) returns (states: seq<Sys>, steps: seq<Step>)
    requires Init(p, s)
    ensures Run(p, states, steps) && states[0] == s
    ensures states[|steps|].core.log ==
      [(p.surface, Failed(p.mpp.lightningLeg)), (p.surface, Failed(p.mpp.lightningLeg))]
  {
    var a, b, c := FailureRecorded(p, s);
    var d := Sys(c.core.(disk := c.core.disk[p.surface := Entry(p)]), SurfaceWritten);
    var e := Sys(d.core.(mem := d.core.disk, phase := MppRecord.Idle), Gone);
    var f, g, h := FailureRecorded(p, e);
    assert Next(p, c, DriverGoesOn, d) && Next(p, d, Core(MppRecord.Crash), e);
    var report := Core(MppRecord.Report(p.surface, Failure));
    states := [s, a, b, c, d, e, f, g, h];
    steps := [
      report, Core(MppRecord.Persist), Core(MppRecord.Return), DriverGoesOn, Core(MppRecord.Crash),
      report, Core(MppRecord.Persist), Core(MppRecord.Return)];
  }
}
