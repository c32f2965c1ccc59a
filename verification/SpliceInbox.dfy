/**
 The splice inbox: per-channel queues of outpoints with register-before-check wakeups.

 A delivery pushes under the lock and then notifies every registered waiter. A waiter
 registers, checks its queue under the lock, and sleeps if it found nothing; a
 notification that falls anywhere after the registration wakes it, and it starts over.
 Waiters may be cancelled. Deliveries and waiters of any number interleave freely.
 */
module SpliceInbox {
  import opened Common

  type Channel = nat
  type OutPoint = nat
  type TaskId = nat

  type Pending = map<Channel, seq<OutPoint>>

  function Queue(m: Pending, c: Channel): seq<OutPoint> { if c in m then m[c] else [] }

  /** The map after one push, and after taking the front of a non-empty queue. */
  function Pushed(m: Pending, c: Channel, o: OutPoint): Pending { m[c := Queue(m, c) + [o]] }

  function Popped(m: Pending, c: Channel): Pending
    requires Queue(m, c) != []
  {
    if |m[c]| == 1 then m - {c} else m[c := m[c][1..]]
  }

  ghost predicate NoEmptyQueue(m: Pending) { forall c :: c in m ==> m[c] != [] }

  /** The critical sections of `deliver` and of one round of `wait_for`. */
  class SplicePendingInbox {
    var pending: Pending

    constructor ()
      ensures pending == map[]
    {
      pending := map[];
    }

    method Push(c: Channel, o: OutPoint)
      modifies this
      ensures pending == Pushed(old(pending), c, o)
      ensures NoEmptyQueue(old(pending)) ==> NoEmptyQueue(pending)
      ensures c in pending && pending[c] == (if c in old(pending) then old(pending)[c] else []) + [o]
      ensures forall k :: k != c ==>
        (k in pending <==> k in old(pending)) && (k in pending ==> pending[k] == old(pending)[k])
    {
      if c !in pending { pending := pending[c := []]; }
      pending := pending[c := pending[c] + [o]];
      assert pending == Pushed(old(pending), c, o);
    }

    method TryTake(c: Channel) returns (taken: Option<OutPoint>)
      requires NoEmptyQueue(pending)
      modifies this
      ensures NoEmptyQueue(pending)
      ensures taken.Some? <==> Queue(old(pending), c) != []
      ensures taken.Some? ==> taken.value == Queue(old(pending), c)[0] && pending == Popped(old(pending), c)
      ensures taken.None? ==> pending == old(pending)
      ensures taken.None? <==> c !in old(pending)
      ensures taken.Some? ==> old(pending)[c] == [taken.value] + if c in pending then pending[c] else []
      ensures forall k :: k != c ==>
        (k in pending <==> k in old(pending)) && (k in pending ==> pending[k] == old(pending)[k])
    {
      if c !in pending { return None; }
      var queue := pending[c];
      taken := Some(queue[0]);
      queue := queue[1..];
      pending := if queue == [] then pending - {c} else pending[c := queue];
    }
  }

  // ----- all interleavings

  datatype Waiter =
    | Starting(channel: Channel)
    | Registered(channel: Channel, notified: bool)
    | Sleeping(channel: Channel, notified: bool)
    | Returned(channel: Channel, outpoint: OutPoint)

  /**
   `announcing` are deliveries that have pushed and not yet notified, by channel; `takers`
   lists the waiters in the order in which they took from a channel.
   */
  datatype Sys = Sys(
    pending: Pending, waiters: map<TaskId, Waiter>, announcing: map<TaskId, Channel>,
    delivered: Pending, taken: Pending, takers: map<Channel, seq<TaskId>>)

  datatype Step =
    | DeliverPush(task: TaskId, channel: Channel, outpoint: OutPoint)
    | DeliverNotify(task: TaskId)
    | WaitStart(task: TaskId, channel: Channel)
    | WaitRegister(task: TaskId)
    | WaitCheck(task: TaskId)
    | WaitWake(task: TaskId)
    | WaitCancel(task: TaskId)

  function Notified(w: Waiter): Waiter {
    match w
    case Registered(c, _) => Registered(c, true)
    case Sleeping(c, _) => Sleeping(c, true)
    case _ => w
  }

  function Takers(s: Sys, c: Channel): seq<TaskId> { if c in s.takers then s.takers[c] else [] }

  ghost predicate Next(s: Sys, step: Step, t: Sys) {
    match step
    case DeliverPush(d, c, o) =>
      && d !in s.announcing
      && t == s.(pending := Pushed(s.pending, c, o), announcing := s.announcing[d := c],
                 delivered := Pushed(s.delivered, c, o))
    case DeliverNotify(d) =>
      && d in s.announcing
      && t == s.(announcing := s.announcing - {d},
                 waiters := map w | w in s.waiters :: Notified(s.waiters[w]))
    case WaitStart(w, c) =>
      w !in s.waiters && t == s.(waiters := s.waiters[w := Starting(c)])
    case WaitRegister(w) =>
      && w in s.waiters && s.waiters[w].Starting?
      && t == s.(waiters := s.waiters[w := Registered(s.waiters[w].channel, false)])
    case WaitCheck(w) =>
      && w in s.waiters && s.waiters[w].Registered?
      && var c := s.waiters[w].channel;
      if Queue(s.pending, c) != [] then
        t == s.(pending := Popped(s.pending, c), taken := Pushed(s.taken, c, Queue(s.pending, c)[0]),
                takers := s.takers[c := Takers(s, c) + [w]],
                waiters := s.waiters[w := Returned(c, Queue(s.pending, c)[0])])
      else
        t == s.(waiters := s.waiters[w := Sleeping(c, s.waiters[w].notified)])
    case WaitWake(w) =>
      && w in s.waiters && s.waiters[w].Sleeping? && s.waiters[w].notified
      && t == s.(waiters := s.waiters[w := Starting(s.waiters[w].channel)])
    case WaitCancel(w) =>
      && w in s.waiters && !s.waiters[w].Returned?
      && t == s.(waiters := s.waiters - {w})
  }

  ghost predicate Init(s: Sys) {
    && s.pending == map[] && s.waiters == map[] && s.announcing == map[]
    && s.delivered == map[] && s.taken == map[] && s.takers == map[]
  }

  ghost predicate Run(states: seq<Sys>, steps: seq<Step>) {
    && |states| == |steps| + 1
    && forall i :: 0 <= i < |steps| ==> Next(states[i], steps[i], states[i + 1])
  }

  ghost predicate Forgotten(s: Sys, w: TaskId) {
    && w in s.waiters && s.waiters[w].Sleeping? && !s.waiters[w].notified
    && s.waiters[w].channel in s.pending
  }

  ghost predicate Announcing(s: Sys, c: Channel) {
    exists d :: d in s.announcing && s.announcing[d] == c
  }

  /** A waiter that sleeps through a non-empty queue is about to be notified. */
  ghost predicate NoLostWakeup(s: Sys) {
    forall w :: Forgotten(s, w) ==> Announcing(s, s.waiters[w].channel)
  }

  /** What was delivered is what was taken followed by what is pending, in order. */
  ghost predicate InOrder(s: Sys) {
    forall c :: Queue(s.delivered, c) == Queue(s.taken, c) + Queue(s.pending, c)
  }

  ghost predicate Inv(s: Sys) { NoEmptyQueue(s.pending) && NoLostWakeup(s) && InOrder(s) }

  lemma PushKeepsInv(s: Sys, step: Step, t: Sys)
    requires Inv(s) && step.DeliverPush? && Next(s, step, t)
    ensures Inv(t)
  {
    PushKeepsOrder(s, step, t);
    var c := step.channel;
    assert t.announcing[step.task] == c;
    forall w | Forgotten(t, w) ensures Announcing(t, t.waiters[w].channel) {
      if t.waiters[w].channel != c {
        assert Forgotten(s, w);
        var d :| d in s.announcing && s.announcing[d] == t.waiters[w].channel;
        assert t.announcing[d] == t.waiters[w].channel;
      }
    }
  }

  lemma PushKeepsOrder(s: Sys, step: Step, t: Sys)
    requires Inv(s) && step.DeliverPush? && Next(s, step, t)
    ensures forall k :: Queue(t.delivered, k) == Queue(t.taken, k) + Queue(t.pending, k)
  {
    var c, o := step.channel, step.outpoint;
    assert Queue(s.taken, c) + (Queue(s.pending, c) + [o]) == (Queue(s.taken, c) + Queue(s.pending, c)) + [o];
  }

  lemma TakeKeepsOrder(s: Sys, step: Step, t: Sys, k: Channel)
    requires Inv(s) && step.WaitCheck? && Next(s, step, t)
    ensures Queue(t.delivered, k) == Queue(t.taken, k) + Queue(t.pending, k)
  {
    var c := s.waiters[step.task].channel;
    if Queue(s.pending, c) != [] && k == c {
      var o, rest := Queue(s.pending, c)[0], Queue(s.pending, c)[1..];
      assert Queue(t.pending, c) == rest && Queue(t.taken, c) == Queue(s.taken, c) + [o];
      assert Queue(s.taken, c) + [o] + rest == Queue(s.taken, c) + Queue(s.pending, c);
    }
  }

  lemma TakeForgetsNobody(s: Sys, step: Step, t: Sys, w: TaskId)
    requires Inv(s) && step.WaitCheck? && Next(s, step, t) && Forgotten(t, w)
    ensures Announcing(t, t.waiters[w].channel)
  {
    assert w != step.task && Forgotten(s, w);
    var d :| d in s.announcing && s.announcing[d] == t.waiters[w].channel;
    assert t.announcing[d] == t.waiters[w].channel;
  }

  lemma CheckKeepsInv(s: Sys, step: Step, t: Sys)
    requires Inv(s) && step.WaitCheck? && Next(s, step, t)
    ensures Inv(t)
  {
    forall k ensures Queue(t.delivered, k) == Queue(t.taken, k) + Queue(t.pending, k) {
      TakeKeepsOrder(s, step, t, k);
    }
    forall w | Forgotten(t, w) ensures Announcing(t, t.waiters[w].channel) {
      TakeForgetsNobody(s, step, t, w);
    }
  }

  lemma NextKeepsInv(s: Sys, step: Step, t: Sys)
    requires Inv(s) && Next(s, step, t)
    ensures Inv(t)
  {
    match step
    case DeliverPush(_, _, _) => PushKeepsInv(s, step, t);
    case WaitCheck(_) => CheckKeepsInv(s, step, t);
    case DeliverNotify(_) =>
    case _ =>
      forall w | Forgotten(t, w) ensures Announcing(t, t.waiters[w].channel) {
        assert Forgotten(s, w);
        var d :| d in s.announcing && s.announcing[d] == t.waiters[w].channel;
      }
  }

  lemma {:induction false} RunKeepsInv(states: seq<Sys>, steps: seq<Step>, n: nat)
    requires Run(states, steps) && Init(states[0]) && n <= |steps|
    ensures Inv(states[n])
  {
    if n > 0 {
      RunKeepsInv(states, steps, n - 1);
      NextKeepsInv(states[n - 1], steps[n - 1], states[n]);
    }
  }

  /** No interleaving loses a wakeup, reorders or drops an outpoint, or leaves an empty queue. */
  lemma InboxIsSafe(states: seq<Sys>, steps: seq<Step>, n: nat, w: TaskId, c: Channel)
    requires Run(states, steps) && Init(states[0]) && n <= |steps|
    ensures Forgotten(states[n], w) ==> Announcing(states[n], states[n].waiters[w].channel)
    ensures Queue(states[n].delivered, c) == Queue(states[n].taken, c) + Queue(states[n].pending, c)
    ensures c in states[n].pending ==> states[n].pending[c] != []
  {
    RunKeepsInv(states, steps, n);
  }

  /** When every delivery is through, whoever still sleeps un-notified has nothing to take. */
  lemma QuiescentWaitersHaveNothing(states: seq<Sys>, steps: seq<Step>, n: nat, w: TaskId)
    requires Run(states, steps) && Init(states[0]) && n <= |steps|
    requires states[n].announcing == map[]
    requires w in states[n].waiters && states[n].waiters[w].Sleeping? && !states[n].waiters[w].notified
    ensures Queue(states[n].delivered, states[n].waiters[w].channel)
         == Queue(states[n].taken, states[n].waiters[w].channel)
  {
    RunKeepsInv(states, steps, n);
    assert !Forgotten(states[n], w);
  }

  /**
   On channel `c` the i-th outpoint taken is the one the i-th taker returned, no waiter
   takes twice, and nobody else has returned from that channel.
   */
  ghost predicate OneTakerEach(s: Sys, c: Channel) {
    var takers, taken := Takers(s, c), Queue(s.taken, c);
    && |takers| == |taken|
    && (forall i, j :: 0 <= i < j < |takers| ==> takers[i] != takers[j])
    && (forall i :: 0 <= i < |takers| ==> takers[i] in s.waiters && s.waiters[takers[i]] == Returned(c, taken[i]))
    && (forall w :: w in s.waiters && s.waiters[w].Returned? && s.waiters[w].channel == c ==> w in takers)
  }

  lemma CheckKeepsTakers(s: Sys, step: Step, t: Sys, c: Channel)
    requires OneTakerEach(s, c) && step.WaitCheck? && Next(s, step, t)
    ensures OneTakerEach(t, c)
  {
    var w := step.task;
    if Queue(s.pending, s.waiters[w].channel) != [] && s.waiters[w].channel == c {
      assert Takers(t, c) == Takers(s, c) + [w];
      assert w !in Takers(s, c);
    }
  }

  lemma NextKeepsTakers(s: Sys, step: Step, t: Sys, c: Channel)
    requires OneTakerEach(s, c) && Next(s, step, t)
    ensures OneTakerEach(t, c)
  {
    if step.WaitCheck? {
      CheckKeepsTakers(s, step, t, c);
    } else {
      assert Takers(t, c) == Takers(s, c) && Queue(t.taken, c) == Queue(s.taken, c);
    }
  }

  /** Each outpoint taken reaches exactly one waiter, and each waiter exactly one outpoint. */
  lemma {:induction false} ReturnedIsTaken(states: seq<Sys>, steps: seq<Step>, n: nat, c: Channel)
    requires Run(states, steps) && Init(states[0]) && n <= |steps|
    ensures OneTakerEach(states[n], c)
  {
    if n > 0 {
      ReturnedIsTaken(states, steps, n - 1, c);
      NextKeepsTakers(states[n - 1], steps[n - 1], states[n], c);
    }
  }
}
