/**
 Events that no multi-path payment has anything to do with pass through the queue once
 each, in the order they arrived, whatever other payments are set up, finished, recorded
 and announced around them. Every step is a whole call.
 */
module QueueRuns {
  import opened Common
  import opened Metadata
  import opened EventQueue

  datatype Call =
    | BeginCall(h: Bytes32)
    | FinishCall(h: Bytes32)
    | SetCall(k: PaymentId, v: TxMetadata)
    | AddCall(e: Event)
    | HandledCall

  function Apply(q: Queue, c: Call): Queue {
    match c
    case BeginCall(h) => Begin(q, h)
    case FinishCall(h) => Finish(q, h)
    case SetCall(k, v) => SetMeta(q, k, v)
    case AddCall(e) => AddEvent(q, e)
    case HandledCall => Handle(q)
  }

  function ApplyAll(q: Queue, calls: seq<Call>): Queue {
    if calls == [] then q else Apply(ApplyAll(q, calls[..|calls| - 1]), calls[|calls| - 1])
  }

  function Arrivals(calls: seq<Call>): seq<Event> {
    if calls == [] then []
    else
      var c := calls[|calls| - 1];
      Arrivals(calls[..|calls| - 1]) + if c.AddCall? then [c.e] else []
  }

  /** Payment ids and hashes used by no multi-path payment. */
  datatype Bystanders = Bystanders(ids: set<PaymentId>, hashes: set<Bytes32>)

  predicate IsBystander(b: Bystanders, e: Event) {
    match e
    case PaymentSuccessful(id, h, _, _) => id in b.ids && h in b.hashes
    case PaymentFailed(id, h, _) => id in b.ids && (h.Some? ==> h.value in b.hashes)
    case OtherEvent(_) => true
  }

  function Only(b: Bystanders, es: seq<Event>): seq<Event> {
    if es == [] then []
    else Only(b, es[..|es| - 1]) + if IsBystander(b, es[|es| - 1]) then [es[|es| - 1]] else []
  }

  lemma OnlySnoc(b: Bystanders, es: seq<Event>, e: Event)
    ensures Only(b, es + [e]) == Only(b, es) + if IsBystander(b, e) then [e] else []
  {
    assert (es + [e])[..|es|] == es;
  }

  predicate Avoids(b: Bystanders, c: Call) {
    match c
    case BeginCall(h) => h !in b.hashes
    case SetCall(k, v) => v.ty.MppPayment? ==> k !in b.ids && v.ty.mpp.surface !in b.ids
    case _ => true
  }

  ghost predicate EntriesApart(b: Bystanders, m: MetaMap) {
    forall k :: IsMpp(m, k) ==> k !in b.ids && MppAt(m, k).surface !in b.ids
  }

  ghost predicate Apart(b: Bystanders, q: Queue) {
    && EntriesApart(b, q.meta)
    && q.pending.Keys !! b.hashes
    && forall h, e :: h in q.pending && e in q.pending[h] ==> !IsBystander(b, e)
  }

  lemma RecordKeepsApart(b: Bystanders, m: MetaMap, leg: PaymentId, result: LegResult)
    requires EntriesApart(b, m)
    ensures EntriesApart(b, AfterRecord(m, RecordLeg(m, leg, result)))
  {
    var r := RecordLeg(m, leg, result);
    if r.Recorded? {
      var t := AfterRecord(m, r);
      assert MppAt(m, r.surface).surface == r.entry.surface;
      assert forall k :: IsMpp(t, k) ==> IsMpp(m, k) && MppAt(t, k).surface == MppAt(m, k).surface;
    }
  }

  /** A leg event is no bystander, and neither is the combined event it may give rise to. */
  lemma LegAddStep(b: Bystanders, q: Queue, e: Event)
    requires Apart(b, q) && TestsLeg(q, e)
    ensures Apart(b, AddEvent(q, e)) && !IsBystander(b, e)
    ensures Only(b, AddEvent(q, e).pushed) == Only(b, q.pushed)
  {
    var r := RecordLeg(q.meta, e.id, ResultOf(e));
    RecordKeepsApart(b, q.meta, e.id, ResultOf(e));
    if r.Recorded? && r.outcome.Some? {
      var c := Combined(r.surface, r.outcome.value);
      assert !IsBystander(b, c);
      OnlySnoc(b, q.pushed, c);
      assert AddEvent(q, e).pushed == q.pushed + [c];
    } else {
      assert AddEvent(q, e).pushed == q.pushed;
    }
  }

  lemma OtherAddStep(b: Bystanders, q: Queue, e: Event)
    requires Apart(b, q) && !TestsLeg(q, e)
    ensures Apart(b, AddEvent(q, e))
    ensures Only(b, AddEvent(q, e).pushed) == Only(b, q.pushed) + if IsBystander(b, e) then [e] else []
  {
    var h := TerminalPaymentHash(e);
    if h.Some? && h.value in q.pending {
      assert !IsBystander(b, e);
      assert AddEvent(q, e) == q.(pending := q.pending[h.value := q.pending[h.value] + [e]]);
    } else {
      assert AddEvent(q, e) == Push(q, e);
      OnlySnoc(b, q.pushed, e);
    }
  }

  lemma AddStep(b: Bystanders, q: Queue, e: Event)
    requires Apart(b, q)
    ensures Apart(b, AddEvent(q, e))
    ensures Only(b, AddEvent(q, e).pushed) == Only(b, q.pushed) + if IsBystander(b, e) then [e] else []
  {
    if TestsLeg(q, e) { LegAddStep(b, q, e); } else { OtherAddStep(b, q, e); }
  }

  lemma {:induction false} ReplayStep(b: Bystanders, q: Queue, es: seq<Event>)
    requires Apart(b, q) && forall e :: e in es ==> !IsBystander(b, e)
    ensures Apart(b, AddAll(q, es)) && Only(b, AddAll(q, es).pushed) == Only(b, q.pushed)
    decreases |es|
  {
    if es != [] {
      assert es[0] in es;
      AddStep(b, q, es[0]);
      ReplayStep(b, AddEvent(q, es[0]), es[1..]);
    }
  }

  lemma ApplyStep(b: Bystanders, q: Queue, c: Call)
    requires Apart(b, q) && Avoids(b, c)
    ensures Apart(b, Apply(q, c))
    ensures Only(b, Apply(q, c).pushed) == Only(b, q.pushed) + if c.AddCall? && IsBystander(b, c.e) then [c.e] else []
  {
    match c
    case AddCall(e) => AddStep(b, q, e);
    case FinishCall(h) =>
      if h in q.pending { ReplayStep(b, q.(pending := q.pending - {h}), q.pending[h]); }
    case SetCall(k, v) =>
      var t := q.meta[k := v];
      assert forall j :: IsMpp(t, j) ==> j == k || (IsMpp(q.meta, j) && MppAt(t, j) == MppAt(q.meta, j));
    case _ =>
  }

  lemma {:induction false} UnrelatedEventsInOrder(b: Bystanders, q: Queue, calls: seq<Call>)
    requires Apart(b, q) && forall c :: c in calls ==> Avoids(b, c)
    ensures Apart(b, ApplyAll(q, calls))
    ensures Only(b, ApplyAll(q, calls).pushed) == Only(b, q.pushed) + Only(b, Arrivals(calls))
    decreases |calls|
  {
    if calls == [] {
      assert Only(b, Arrivals(calls)) == [];
    } else {
      var front, c := calls[..|calls| - 1], calls[|calls| - 1];
      UnrelatedEventsInOrder(b, q, front);
      ApplyStep(b, ApplyAll(q, front), c);
      ArrivalsStep(b, calls);
    }
  }

  lemma ArrivalsStep(b: Bystanders, calls: seq<Call>)
    requires calls != []
    ensures
      var front, c := calls[..|calls| - 1], calls[|calls| - 1];
      Only(b, Arrivals(calls)) == Only(b, Arrivals(front)) + if c.AddCall? && IsBystander(b, c.e) then [c.e] else []
  {
    var front, c := calls[..|calls| - 1], calls[|calls| - 1];
    if c.AddCall? {
      OnlySnoc(b, Arrivals(front), c.e);
    } else {
      assert Arrivals(calls) == Arrivals(front);
    }
  }

  /** What the consumer is handed: the front of the queue at each acknowledgement. */
  function Consumed(q: Queue, calls: seq<Call>): seq<Event> {
    if calls == [] then []
    else
      var front, c := calls[..|calls| - 1], calls[|calls| - 1];
      var at := ApplyAll(q, front);
      Consumed(q, front)
      + if c.HandledCall? && at.handled < |at.pushed| then [at.pushed[at.handled]] else []
  }

  lemma {:induction false} ReplayOnlyPushes(q: Queue, es: seq<Event>)
    ensures q.pushed <= AddAll(q, es).pushed && AddAll(q, es).handled == q.handled
    decreases |es|
  {
    if es != [] { ReplayOnlyPushes(AddEvent(q, es[0]), es[1..]); }
  }

  lemma CallOnlyPushes(q: Queue, c: Call)
    ensures q.pushed <= Apply(q, c).pushed
    ensures Apply(q, c).handled ==
      q.handled + if c.HandledCall? && q.handled < |q.pushed| then 1 else 0
  {
    if c.FinishCall? && c.h in q.pending {
      ReplayOnlyPushes(q.(pending := q.pending - {c.h}), q.pending[c.h]);
    }
  }

  /** Every event queued is handed out once, in the order it was queued, none skipped. */
  lemma {:induction false} ConsumedInOrder(q: Queue, calls: seq<Call>)
    requires q.handled <= |q.pushed|
    ensures
      var t := ApplyAll(q, calls);
      && q.pushed <= t.pushed && q.handled <= t.handled <= |t.pushed|
      && Consumed(q, calls) == t.pushed[q.handled..t.handled]
    decreases |calls|
  {
    if calls != [] {
      var front, c := calls[..|calls| - 1], calls[|calls| - 1];
      ConsumedInOrder(q, front);
      var at, t := ApplyAll(q, front), ApplyAll(q, calls);
      CallOnlyPushes(at, c);
      assert at.pushed[q.handled..at.handled] == t.pushed[q.handled..at.handled];
      if t.handled > at.handled {
        assert t.pushed[q.handled..t.handled] == t.pushed[q.handled..at.handled] + [t.pushed[at.handled]];
      }
    }
  }
}
