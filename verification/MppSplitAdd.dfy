/**
 Adding an event is not one step: `add_event` tests the metadata, lets go of it, and only
 then records the leg or takes the buffer lock. Here any number of tasks stand between the
 two points while one multi-path payment is set up, its leg entries are written, and its
 buffer is taken away and replayed. Events of other payments take the same two steps.
 */
module MppSplitAdd {
  import opened Common
  import opened Metadata
  import opened EventQueue
  import opened MppSetup

  type TaskId = nat

  /** The driver's way to a payment with both legs under way. */
  datatype Progress = Ready | Opened | SurfaceIn | BothIn | Removed

  /** A task that has tested the metadata, what it found, and when that was. */
  datatype Task = Task(e: Event, leg: bool, tested: Progress)

  /**
   `replay` is the buffer after the driver took it away; `reports` are the leg events that
   have arrived; `alone` are those that were queued by themselves.
   */
  datatype State = State(
    q: Queue, progress: Progress, tasks: map<TaskId, Task>, replay: seq<Event>,
    reports: seq<Event>, alone: seq<Event>)

  datatype Action =
    | BeginSetup
    | PutSurface
    | PutLightning
    | RemoveBuffer
    | Replay(task: TaskId)
    | Arrive(task: TaskId, e: Event)
    | Land(task: TaskId)
    | Other(step: Step)   // whole calls of other tasks

  function Tested(s: State, e: Event): Task { Task(e, TestsLeg(s.q, e), s.progress) }

  /** A leg event that was not taken for one and finds the buffer gone. */
  predicate Escapes(p: Pay, s: State, a: Action) {
    && a.Land? && a.task in s.tasks
    && var x := s.tasks[a.task];
    FromLeg(p, x.e) && !x.leg && p.hash !in s.q.pending
  }

  ghost predicate Does(p: Pay, s: State, a: Action, t: State) {
    match a
    case BeginSetup => s.progress.Ready? && t == s.(q := Begin(s.q, p.hash), progress := Opened)
    case PutSurface => s.progress.Opened? && t == s.(q := SetMeta(s.q, p.surface, LegMeta(p)), progress := SurfaceIn)
    case PutLightning =>
      s.progress.SurfaceIn? && t == s.(q := SetMeta(s.q, p.lightning, LegMeta(p)), progress := BothIn)
    case RemoveBuffer =>
      && s.progress.BothIn? && p.hash in s.q.pending
      && t == s.(q := s.q.(pending := s.q.pending - {p.hash}), replay := s.q.pending[p.hash], progress := Removed)
    case Replay(i) =>
      && s.replay != [] && i !in s.tasks
      && t == s.(tasks := s.tasks[i := Tested(s, s.replay[0])], replay := s.replay[1..])
    case Arrive(i, e) =>
      && i !in s.tasks
      && (ForeignEvent(p, e) || (LegEvent(p, e) && !s.progress.Ready?))
      && t == s.(tasks := s.tasks[i := Tested(s, e)], reports := s.reports + if FromLeg(p, e) then [e] else [])
    case Land(i) =>
      && i in s.tasks && (s.tasks[i].leg ==> !s.tasks[i].e.OtherEvent?)
      && t == s.(q := Landed(s.q, s.tasks[i].e, s.tasks[i].leg), tasks := s.tasks - {i},
                 alone := s.alone + if Escapes(p, s, a) then [s.tasks[i].e] else [])
    case Other(step) =>
      && (step.OtherBegins? || step.OtherFinishes? || step.OtherSets? || step.QueueHandled?)
      && MppSetup.Next(p, Sys(s.q, NotStarted, []), step, Sys(t.q, NotStarted, []))
      && t == s.(q := t.q)
  }

  ghost predicate SplitRun(p: Pay, states: seq<State>, actions: seq<Action>) {
    && |states| == |actions| + 1
    && forall i :: 0 <= i < |actions| ==> Does(p, states[i], actions[i], states[i + 1])
  }

  ghost predicate SplitInit(p: Pay, s: State) {
    && NewPayment(p, s.q) && !IsMpp(s.q.meta, p.lightning)
    && s.progress.Ready? && s.replay == [] && s.reports == [] && s.alone == []
    && forall i :: i in s.tasks ==> ForeignEvent(p, s.tasks[i].e) && (s.tasks[i].leg ==> !s.tasks[i].e.OtherEvent?)
  }

  // ----- the invariant

  /** The entry under the leg id had been written. */
  predicate EntryIn(p: Pay, progress: Progress, id: PaymentId) {
    if id == p.surface then progress.SurfaceIn? || progress.BothIn? || progress.Removed?
    else progress.BothIn? || progress.Removed?
  }

  predicate Buffered(progress: Progress) { progress.Opened? || progress.SurfaceIn? || progress.BothIn? }

  /** The entries and the buffer are where the driver's progress says. */
  ghost predicate InStep(p: Pay, s: State) {
    && Separate(p, s.q)
    && (IsMpp(s.q.meta, p.surface) <==> EntryIn(p, s.progress, p.surface))
    && (IsMpp(s.q.meta, p.lightning) <==> EntryIn(p, s.progress, p.lightning))
    && (IsMpp(s.q.meta, p.lightning) ==> MppAt(s.q.meta, p.lightning).surface == p.surface)
    && (p.hash in s.q.pending <==> Buffered(s.progress))
    && (s.replay != [] ==> s.progress.Removed?)
    && (s.progress.Ready? ==> s.reports == [])
  }

  predicate Known(p: Pay, s: State, e: Event) { LegEvent(p, e) && e in s.reports }

  /** Whatever waits is a leg event that arrived, or has nothing to do with the payment. */
  ghost predicate Waiting(p: Pay, s: State) {
    && (forall e :: e in s.reports ==> LegEvent(p, e))
    && (p.hash in s.q.pending ==> forall e :: e in s.q.pending[p.hash] ==> Known(p, s, e))
    && (forall e :: e in s.replay ==> Known(p, s, e))
    && (forall i :: i in s.tasks ==> TaskOk(p, s, s.tasks[i]))
  }

  ghost predicate TaskOk(p: Pay, s: State, x: Task) {
    if FromLeg(p, x.e) then
      && Known(p, s, x.e) && !x.tested.Ready?
      && (x.leg <==> EntryIn(p, x.tested, x.e.id))
      && (EntryIn(p, x.tested, x.e.id) ==> EntryIn(p, s.progress, x.e.id))
    else ForeignEvent(p, x.e) && (x.leg ==> !x.e.OtherEvent?)
  }

  /** One event is queued per event queued alone, and one more once the entry is final. */
  ghost predicate Story(p: Pay, s: State) {
    if EntryIn(p, s.progress, p.surface) then
      && EntryOk(p, s.q) && Sourced(p, MppAt(s.q.meta, p.surface), s.reports)
      && |Surfaced(p, s.q.pushed)| == |s.alone| + |Announcement(p, s.q)|
      && (s.alone == [] ==> Surfaced(p, s.q.pushed) == Announcement(p, s.q))
    else Surfaced(p, s.q.pushed) == [] && s.alone == []
  }

  /** Every leg event that arrived is recorded, waits somewhere, or was queued alone. */
  ghost predicate AllHeard(p: Pay, s: State) {
    forall e :: e in s.reports ==> HeardOf(p, s, e)
  }

  ghost predicate HeardOf(p: Pay, s: State, e: Event) {
    || (FromLeg(p, e) && IsMpp(s.q.meta, p.surface) && LegDone(p, s.q.meta, e.id))
    || (p.hash in s.q.pending && e in s.q.pending[p.hash])
    || e in s.replay || InFlight(s, e) || e in s.alone
  }

  ghost predicate InFlight(s: State, e: Event) { exists i :: i in s.tasks && s.tasks[i].e == e }

  ghost predicate SplitInv(p: Pay, s: State) {
    InStep(p, s) && Waiting(p, s) && Story(p, s) && AllHeard(p, s)
  }

  // ----- the driver

  lemma SetLeg(p: Pay, q: Queue, k: PaymentId)
    requires ValidPay(p) && Separate(p, q) && IsLeg(p, k)
    ensures Separate(p, SetMeta(q, k, LegMeta(p)))
    ensures IsMpp(SetMeta(q, k, LegMeta(p)).meta, k) && MppAt(SetMeta(q, k, LegMeta(p)).meta, k) == p.mpp
  {
    PutKeepsApart(p, q, k, LegMeta(p));
  }

  lemma DriverKeepsInv(p: Pay, s: State, a: Action, t: State)
    requires ValidPay(p) && SplitInv(p, s) && Does(p, s, a, t) && (a.BeginSetup? || a.RemoveBuffer?)
    ensures SplitInv(p, t)
  {
    assert t.q.meta == s.q.meta && t.q.pushed == s.q.pushed && t.reports == s.reports;
    assert forall i :: i in s.tasks ==> TaskOk(p, s, s.tasks[i]);
    forall e | e in t.reports ensures HeardOf(p, t, e) {
      assert HeardOf(p, s, e);
    }
  }

  lemma PutSurfaceKeepsInv(p: Pay, s: State, t: State)
    requires ValidPay(p) && SplitInv(p, s) && Does(p, s, PutSurface, t)
    ensures SplitInv(p, t)
  {
    SetLeg(p, s.q, p.surface);
    assert forall i :: i in s.tasks ==> TaskOk(p, s, s.tasks[i]);
    forall e | e in t.reports ensures HeardOf(p, t, e) { assert HeardOf(p, s, e); }
  }

  lemma PutLightningKeepsInv(p: Pay, s: State, t: State)
    requires ValidPay(p) && SplitInv(p, s) && Does(p, s, PutLightning, t)
    ensures SplitInv(p, t)
  {
    SetLeg(p, s.q, p.lightning);
    assert MppAt(t.q.meta, p.surface) == MppAt(s.q.meta, p.surface);
    assert forall i :: i in s.tasks ==> TaskOk(p, s, s.tasks[i]);
    forall e | e in t.reports ensures HeardOf(p, t, e) { assert HeardOf(p, s, e); }
  }

  // ----- arrivals

  lemma TestedOk(p: Pay, s: State, e: Event)
    requires InStep(p, s) && !s.progress.Ready? && (ForeignEvent(p, e) || Known(p, s, e))
    ensures TaskOk(p, s, Tested(s, e))
  {
  }

  lemma ArriveKeepsInv(p: Pay, s: State, i: TaskId, e: Event, t: State)
    requires ValidPay(p) && SplitInv(p, s) && Does(p, s, Arrive(i, e), t)
    ensures SplitInv(p, t)
  {
    assert forall r :: r in t.reports ==> r in s.reports || r == e;
    forall j | j in t.tasks ensures TaskOk(p, t, t.tasks[j]) {
      if j != i { assert TaskOk(p, s, s.tasks[j]); } else { assert t.tasks[i] == Tested(s, e); }
    }
    if EntryIn(p, s.progress, p.surface) && FromLeg(p, e) {
      SourcedGrows(p, MppAt(s.q.meta, p.surface), s.reports, e);
    }
    assert t.tasks[i].e == e;
    forall r | r in t.reports ensures HeardOf(p, t, r) {
      if r in s.reports { StillHeard(p, s, t, r, i); }
    }
  }

  /** A task more leaves everything heard. */
  lemma StillHeard(p: Pay, s: State, t: State, e: Event, i: TaskId)
    requires HeardOf(p, s, e) && i !in s.tasks && i in t.tasks
    requires t.q == s.q && t.alone == s.alone && t.tasks == s.tasks[i := t.tasks[i]]
    requires e in s.replay ==> e in t.replay || t.tasks[i].e == e
    ensures HeardOf(p, t, e)
  {
    if InFlight(s, e) {
      var j :| j in s.tasks && s.tasks[j].e == e;
      assert t.tasks[j].e == e;
    }
  }

  lemma ReplayKeepsInv(p: Pay, s: State, i: TaskId, t: State)
    requires ValidPay(p) && SplitInv(p, s) && Does(p, s, Replay(i), t)
    ensures SplitInv(p, t)
  {
    var e := s.replay[0];
    assert e in s.replay && s.replay == [e] + s.replay[1..];
    forall j | j in t.tasks ensures TaskOk(p, t, t.tasks[j]) {
      if j != i { assert TaskOk(p, s, s.tasks[j]); } else { TestedOk(p, s, e); }
    }
    assert forall r :: r in t.replay ==> r in s.replay;
    forall r | r in t.reports ensures HeardOf(p, t, r) {
      assert HeardOf(p, s, r);
      StillHeard(p, s, t, r, i);
    }
  }

  // ----- landings

  /** What a landing leaves of what was heard, if the event itself is. */
  lemma LandKeepsHeard(p: Pay, s: State, i: TaskId, t: State)
    requires AllHeard(p, s) && i in s.tasks
    requires t.reports == s.reports && t.replay == s.replay && t.tasks == s.tasks - {i} && s.alone <= t.alone
    requires IsMpp(s.q.meta, p.surface) ==>
      IsMpp(t.q.meta, p.surface) && forall id :: LegDone(p, s.q.meta, id) ==> LegDone(p, t.q.meta, id)
    requires p.hash in s.q.pending ==> p.hash in t.q.pending && s.q.pending[p.hash] <= t.q.pending[p.hash]
    requires s.tasks[i].e in s.reports ==> HeardOf(p, t, s.tasks[i].e)
    ensures AllHeard(p, t)
  {
    forall e | e in t.reports ensures HeardOf(p, t, e) {
      assert HeardOf(p, s, e);
      if e != s.tasks[i].e && InFlight(s, e) {
        var j :| j in s.tasks && s.tasks[j].e == e;
        assert j in t.tasks && t.tasks[j].e == e;
      }
    }
  }

  lemma LandKeepsWaiting(p: Pay, s: State, i: TaskId, t: State)
    requires Waiting(p, s) && i in s.tasks && t.progress == s.progress
    requires t.reports == s.reports && t.replay == s.replay && t.tasks == s.tasks - {i}
    requires p.hash in t.q.pending ==>
      p.hash in s.q.pending && forall e :: e in t.q.pending[p.hash] ==> e in s.q.pending[p.hash] || Known(p, s, e)
    ensures Waiting(p, t)
  {
    forall j | j in t.tasks ensures TaskOk(p, t, t.tasks[j]) { assert TaskOk(p, s, s.tasks[j]); }
  }

  /** A leg event that was taken for one is recorded. */
  lemma LandRecorded(p: Pay, s: State, i: TaskId, t: State)
    requires ValidPay(p) && SplitInv(p, s) && Does(p, s, Land(i), t)
    requires FromLeg(p, s.tasks[i].e) && s.tasks[i].leg
    ensures SplitInv(p, t)
  {
    var e := s.tasks[i].e;
    assert TaskOk(p, s, s.tasks[i]);
    assert RegisteredLeg(p, s.q, e) && t.q == AddEvent(s.q, e) && t.alone == s.alone;
    RegisteredLegAnnounces(p, s.q, e);
    RegisteredLegKeepsEntries(p, s.q, e);
    RegisteredLegIsHeard(p, s.q, e);
    RegisteredLegIsSourced(p, s.q, e, s.reports);
    LandKeepsWaiting(p, s, i, t);
    LandKeepsHeard(p, s, i, t);
    RecordedStory(p, s, e, t);
  }

  lemma RecordedStory(p: Pay, s: State, e: Event, t: State)
    requires Story(p, s) && RegisteredLeg(p, s.q, e) && EntryIn(p, s.progress, p.surface)
    requires t.q == AddEvent(s.q, e) && t.alone == s.alone && t.progress == s.progress && t.reports == s.reports
    requires EntryOk(p, t.q) && Sourced(p, MppAt(t.q.meta, p.surface), s.reports)
    ensures Story(p, t)
  {
    RegisteredLegAnnounces(p, s.q, e);
  }

  /** A leg event that was not is buffered while there is a buffer. */
  lemma LandBuffered(p: Pay, s: State, i: TaskId, t: State)
    requires ValidPay(p) && SplitInv(p, s) && Does(p, s, Land(i), t)
    requires FromLeg(p, s.tasks[i].e) && !s.tasks[i].leg && p.hash in s.q.pending
    ensures SplitInv(p, t)
  {
    var e, before := s.tasks[i].e, s.q.pending[p.hash];
    assert TaskOk(p, s, s.tasks[i]);
    assert t.q == s.q.(pending := s.q.pending[p.hash := before + [e]]);
    assert t.alone == s.alone;
    assert e in t.q.pending[p.hash];
    LandKeepsWaiting(p, s, i, t);
    LandKeepsHeard(p, s, i, t);
  }

  /** And queued alone after the buffer is gone. */
  lemma LandAlone(p: Pay, s: State, i: TaskId, t: State)
    requires ValidPay(p) && SplitInv(p, s) && Does(p, s, Land(i), t)
    requires FromLeg(p, s.tasks[i].e) && !s.tasks[i].leg && p.hash !in s.q.pending
    ensures SplitInv(p, t)
  {
    var e := s.tasks[i].e;
    assert TaskOk(p, s, s.tasks[i]);
    assert s.progress.Removed?;
    assert t.q == Push(s.q, e) && t.alone == s.alone + [e];
    SurfacedSnoc(p, s.q.pushed, e);
    LandKeepsWaiting(p, s, i, t);
    LandKeepsHeard(p, s, i, t);
  }

  /** An event of another payment changes nothing for this one. */
  lemma UntouchedKeepsSplitInv(p: Pay, s: State, t: State)
    requires SplitInv(p, s) && Untouched(p, s.q, t.q)
    requires t == s.(q := t.q)
    ensures SplitInv(p, t)
  {
    forall i | i in t.tasks ensures TaskOk(p, t, t.tasks[i]) { assert TaskOk(p, s, s.tasks[i]); }
    forall e | e in t.reports ensures HeardOf(p, t, e) { assert HeardOf(p, s, e); }
  }

  lemma LandForeign(p: Pay, s: State, i: TaskId, t: State)
    requires ValidPay(p) && SplitInv(p, s) && Does(p, s, Land(i), t) && !FromLeg(p, s.tasks[i].e)
    ensures SplitInv(p, t)
  {
    assert TaskOk(p, s, s.tasks[i]);
    ForeignLand(p, s.q, s.tasks[i].e, s.tasks[i].leg);
    var mid := s.(q := t.q);
    UntouchedKeepsSplitInv(p, s, mid);
    assert s.alone + [] == s.alone && t.alone == s.alone;
    LandKeepsWaiting(p, mid, i, t);
    assert s.tasks[i].e !in s.reports;
    LandKeepsHeard(p, mid, i, t);
  }

  lemma DoesKeepsInv(p: Pay, s: State, a: Action, t: State)
    requires ValidPay(p) && SplitInv(p, s) && Does(p, s, a, t)
    ensures SplitInv(p, t)
  {
    match a
    case BeginSetup => DriverKeepsInv(p, s, a, t);
    case PutSurface => PutSurfaceKeepsInv(p, s, t);
    case PutLightning => PutLightningKeepsInv(p, s, t);
    case RemoveBuffer => DriverKeepsInv(p, s, a, t);
    case Replay(i) => ReplayKeepsInv(p, s, i, t);
    case Arrive(i, e) => ArriveKeepsInv(p, s, i, e, t);
    case Land(i) =>
      if !FromLeg(p, s.tasks[i].e) {
        LandForeign(p, s, i, t);
      } else if s.tasks[i].leg {
        LandRecorded(p, s, i, t);
      } else if p.hash in s.q.pending {
        LandBuffered(p, s, i, t);
      } else {
        LandAlone(p, s, i, t);
      }
    case Other(step) =>
      ForeignStep(p, Sys(s.q, NotStarted, []), step, Sys(t.q, NotStarted, []));
      UntouchedKeepsSplitInv(p, s, t);
  }

  lemma {:induction false} SplitRunKeepsInv(p: Pay, states: seq<State>, actions: seq<Action>, n: nat)
    requires SplitRun(p, states, actions) && SplitInit(p, states[0]) && n <= |actions|
    ensures SplitInv(p, states[n])
  {
    if n > 0 {
      SplitRunKeepsInv(p, states, actions, n - 1);
      DoesKeepsInv(p, states[n - 1], actions[n - 1], states[n]);
    }
  }

  // ----- exactly when a leg event escapes

  /**
   A leg event is queued by itself if and only if it tested the metadata before its own
   entry was written and comes for the buffer lock after the buffer was taken away.
   */
  lemma EscapesIffTestedTooEarly(p: Pay, states: seq<State>, actions: seq<Action>, n: nat)
    requires SplitRun(p, states, actions) && SplitInit(p, states[0]) && n < |actions|
    requires actions[n].Land? && actions[n].task in states[n].tasks
    ensures
      var s, x := states[n], states[n].tasks[actions[n].task];
      && (Escapes(p, s, actions[n]) <==>
            FromLeg(p, x.e) && !EntryIn(p, x.tested, x.e.id) && s.progress.Removed?)
      && (Escapes(p, s, actions[n]) ==> states[n + 1].q == Push(s.q, x.e))
      && (!Escapes(p, s, actions[n]) && FromLeg(p, x.e) && x.leg ==> states[n + 1].q == AddEvent(s.q, x.e))
      && (!Escapes(p, s, actions[n]) && FromLeg(p, x.e) && !x.leg ==> states[n + 1].q.pushed == s.q.pushed)
  {
    SplitRunKeepsInv(p, states, actions, n);
    assert Does(p, states[n], actions[n], states[n + 1]);
    assert TaskOk(p, states[n], states[n].tasks[actions[n].task]);
  }

  ghost predicate EscapedBefore(p: Pay, states: seq<State>, actions: seq<Action>, n: nat)
    requires n <= |actions| < |states|
  {
    exists i :: 0 <= i < n && Escapes(p, states[i], actions[i])
  }

  lemma {:induction false} AloneIffEscaped(p: Pay, states: seq<State>, actions: seq<Action>, n: nat)
    requires SplitRun(p, states, actions) && SplitInit(p, states[0]) && n <= |actions|
    ensures states[n].alone != [] <==> EscapedBefore(p, states, actions, n)
  {
    if n > 0 {
      AloneIffEscaped(p, states, actions, n - 1);
      assert Does(p, states[n - 1], actions[n - 1], states[n]);
      assert EscapedBefore(p, states, actions, n) <==>
        EscapedBefore(p, states, actions, n - 1) || Escapes(p, states[n - 1], actions[n - 1]);
    }
  }

  /** Both legs have reported, the buffer is replayed, and no leg event is on its way. */
  ghost predicate Settled(p: Pay, s: State) {
    && s.progress.Removed? && s.replay == []
    && (forall i :: i in s.tasks ==> !FromLeg(p, s.tasks[i].e))
    && ReportedBy(s.reports, p.surface) && ReportedBy(s.reports, p.lightning)
  }

  /** The entry is final and its one combined event, made of the reports, is all there is. */
  ghost predicate AnnouncedOnce(p: Pay, s: State) {
    && EntryOk(p, s.q) && MppAt(s.q.meta, p.surface).finalized
    && Surfaced(p, s.q.pushed) == Announcement(p, s.q)
    && CombinesReports(p, Announcement(p, s.q)[0], s.reports)
  }

  lemma ReportIsDone(p: Pay, s: State, id: PaymentId)
    requires SplitInv(p, s) && Settled(p, s) && s.alone == [] && ReportedBy(s.reports, id)
    ensures IsMpp(s.q.meta, p.surface) && LegDone(p, s.q.meta, id)
  {
    var e :| e in s.reports && !e.OtherEvent? && e.id == id;
    assert HeardOf(p, s, e) && LegEvent(p, e);
    assert !InFlight(s, e);
  }

  /**
   Over every interleaving of the two points of every addition: while no leg event has
   escaped, no single-leg event is queued; and once both legs have reported and everything
   has settled, the payment has been announced by its one combined event if and only if
   none has escaped.
   */
  lemma AnnouncedIffNoneEscaped(p: Pay, states: seq<State>, actions: seq<Action>, n: nat)
    requires SplitRun(p, states, actions) && SplitInit(p, states[0]) && n <= |actions|
    ensures !EscapedBefore(p, states, actions, n) ==>
      && |Surfaced(p, states[n].q.pushed)| <= 1
      && forall c :: c in Surfaced(p, states[n].q.pushed) ==> CombinesReports(p, c, states[n].reports)
    ensures Settled(p, states[n]) ==>
      (AnnouncedOnce(p, states[n]) <==> !EscapedBefore(p, states, actions, n))
  {
    SplitRunKeepsInv(p, states, actions, n);
    AloneIffEscaped(p, states, actions, n);
    var s := states[n];
    if EntryIn(p, s.progress, p.surface) {
      var e := MppAt(s.q.meta, p.surface);
      if e.finalized { CombinedIsSourced(p, e, s.reports); }
      if s.alone == [] && Settled(p, s) {
        ReportIsDone(p, s, p.surface);
        ReportIsDone(p, s, p.lightning);
      }
    }
  }

  // ----- a run in which one escapes

  /**
   The lightning event tests before the entries are written and lands after the replay: it
   is queued by itself, its leg is never recorded, and the payment is never announced.
   */
  lemma EarlyTestEscapes(p: Pay, s: State, feeT: nat, feeL: nat, preimage: Bytes32)
    returns (states: seq<State>, actions: seq<Action>)
    requires SplitInit(p, s) && s.tasks == map[] && p.surface !in s.q.meta && p.lightning !in s.q.meta
    ensures SplitRun(p, states, actions) && states[0] == s
    ensures
      var last := states[|actions|];
      && Settled(p, last)
      && Surfaced(p, last.q.pushed) == [PaymentSuccessful(p.lightning, p.hash, preimage, Some(feeL))]
      && IsMpp(last.q.meta, p.surface) && !MppAt(last.q.meta, p.surface).finalized
  {
    var l := PaymentSuccessful(p.lightning, p.hash, preimage, Some(feeL));
    var t := PaymentSuccessful(p.surface, p.hash, preimage, Some(feeT));
    var first, setup := TestBeforeSetup(p, s, l);
    var last, landing := LandAfterSetup(p, first[5], l, t);
    states, actions := first[..5] + last, setup + landing;
    forall i | 0 <= i < |actions| ensures Does(p, states[i], actions[i], states[i + 1]) {
      if i < 5 {
        assert Does(p, first[i], setup[i], first[i + 1]);
      } else {
        assert Does(p, last[i - 5], landing[i - 5], last[i - 4]);
      }
    }
    EarlyTestEnds(p, s.q, last[2].q, l, t);
    BothReported(p, l, t);
  }

  /** The buffer is gone, nothing was in it, and one task holds `l` as no leg. */
  ghost predicate HoldsEarly(p: Pay, q: Queue, s: State, l: Event) {
    && s.progress.Removed? && s.tasks == map[0 := Task(l, false, Opened)]
    && s.replay == [] && s.reports == [l] && s.alone == []
    && s.q.pushed == q.pushed && p.hash !in s.q.pending
    && p.surface in s.q.meta && s.q.meta[p.surface] == LegMeta(p)
  }

  lemma TestBeforeSetup(p: Pay, s: State, l: Event) returns (states: seq<State>, actions: seq<Action>)
    requires SplitInit(p, s) && s.tasks == map[] && LegEvent(p, l) && l.id == p.lightning
    ensures SplitRun(p, states, actions) && |actions| == 5 && states[0] == s
    ensures HoldsEarly(p, s.q, states[5], l)
  {
    var s1 := s.(q := Begin(s.q, p.hash), progress := Opened);
    var s2 := s1.(tasks := map[0 := Task(l, false, Opened)], reports := [l]);
    var s3 := s2.(q := SetMeta(s2.q, p.surface, LegMeta(p)), progress := SurfaceIn);
    var s4 := s3.(q := SetMeta(s3.q, p.lightning, LegMeta(p)), progress := BothIn);
    var s5 := s4.(q := s4.q.(pending := s4.q.pending - {p.hash}), progress := Removed);
    assert Does(p, s, BeginSetup, s1);
    assert Does(p, s1, Arrive(0, l), s2) by { assert [] + [l] == [l] && Tested(s1, l) == Task(l, false, Opened); }
    assert Does(p, s4, RemoveBuffer, s5) by { assert s4.q.pending[p.hash] == []; }
    states, actions := [s, s1, s2, s3, s4, s5], [BeginSetup, Arrive(0, l), PutSurface, PutLightning, RemoveBuffer];
  }

  lemma LandAfterSetup(p: Pay, s: State, l: Event, t: Event) returns (states: seq<State>, actions: seq<Action>)
    requires HoldsEarly(p, s.q, s, l) && LegEvent(p, l) && LegEvent(p, t) && t.id == p.surface
    ensures SplitRun(p, states, actions) && |actions| == 3 && states[0] == s
    ensures states[2].q == Push(s.q, l)
    ensures states[3] == State(AddEvent(states[2].q, t), Removed, map[], [], [l, t], [l])
  {
    var s1 := s.(q := Push(s.q, l), tasks := map[], alone := [l]);
    var s2 := s1.(tasks := map[0 := Task(t, true, Removed)], reports := [l, t]);
    var s3 := s2.(q := AddEvent(s2.q, t), tasks := map[]);
    assert Does(p, s, Land(0), s1) by { assert s.tasks - {0} == map[] && [] + [l] == [l]; }
    assert Does(p, s1, Arrive(0, t), s2) by { assert [l] + [t] == [l, t] && Tested(s1, t) == Task(t, true, Removed); }
    assert Does(p, s2, Land(0), s3) by { assert s2.tasks - {0} == map[] && [l] + [] == [l]; }
    states, actions := [s, s1, s2, s3], [Land(0), Arrive(0, t), Land(0)];
  }

  lemma EarlyTestEnds(p: Pay, first: Queue, q: Queue, l: Event, t: Event)
    requires ValidPay(p) && Surfaced(p, first.pushed) == [] && FromLeg(p, l)
    requires t.PaymentSuccessful? && t.id == p.surface
    requires q.pushed == first.pushed + [l] && p.surface in q.meta && q.meta[p.surface] == LegMeta(p)
    ensures
      var last := AddEvent(q, t);
      && Surfaced(p, last.pushed) == [l]
      && IsMpp(last.meta, p.surface) && !MppAt(last.meta, p.surface).finalized
  {
    FirstSuccessQueuesNothing(p, q, t);
    SurfacedSnoc(p, first.pushed, l);
  }

  lemma BothReported(p: Pay, l: Event, t: Event)
    requires l.PaymentSuccessful? && l.id == p.lightning && t.PaymentSuccessful? && t.id == p.surface
    ensures ReportedBy([l, t], p.lightning) && ReportedBy([l, t], p.surface)
  {
    assert l in [l, t] && t in [l, t];
  }
}
