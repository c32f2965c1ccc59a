/**
 What every run of proof-database calls keeps, whatever the store does: coherence of the
 cache, exclusive reservations, and releases that can be retried after any failure.
 */
module ProofRuns {
  import opened Common
  import opened Proofs
  import opened ProofDb

  datatype Event = Event(call: Call, outcome: Outcome)

  ghost predicate Run(states: seq<Db>, events: seq<Event>) {
    && |states| == |events| + 1
    && forall i :: 0 <= i < |events| ==>
      Next(states[i], events[i].call, events[i].outcome, states[i + 1])
  }

  // ----- coherence

  lemma SamePositionsUnique(a: seq<Proof>, b: seq<Proof>)
    requires UniqueYs(a) && |a| == |b| && forall i :: 0 <= i < |a| ==> a[i].y == b[i].y
    ensures UniqueYs(b) && Load(Saved(b)) == Ok(b)
  {
  }

  lemma AfterKeepsCoherent(s: Db, c: Call, r: Outcome, t: Db)
    requires s.live && !s.dirty && UniqueYs(s.cache) && Coherent(s)
    requires After(s, c, r, t)
    ensures Coherent(t) && t.live
  {
    match c
    case Update(added, removed) =>
      UpdateRefinesMap(s.cache, added, removed);
    case SetState(ys, state) =>
      SamePositionsUnique(s.cache, Stated(s.cache, SetOf(ys), state));
    case Reserve(ys, op) =>
      SamePositionsUnique(s.cache, Marked(s.cache, SetOf(ys), op));
    case Release(op) =>
      SamePositionsUnique(s.cache, Released(s.cache, Listed(s.legacy, op), op));
    case ReadAll =>
  }

  lemma NextKeepsCoherent(s: Db, c: Call, r: Outcome, t: Db)
    requires Coherent(s) && Next(s, c, r, t)
    ensures Coherent(t)
  {
    if !c.Restart? && t != s {
      AfterKeepsCoherent(Settled(s), c, r, t);
    }
  }

  /** The state a call works on once its reload has succeeded. */
  ghost function Settled(s: Db): Db {
    if s.dirty && Load(s.blob).Ok? then s.(cache := Load(s.blob).value, dirty := false) else s
  }

  lemma {:induction false} RunStaysCoherent(states: seq<Db>, events: seq<Event>, n: nat)
    requires Run(states, events) && Coherent(states[0]) && n <= |events|
    ensures Coherent(states[n])
  {
    if n > 0 {
      RunStaysCoherent(states, events, n - 1);
      NextKeepsCoherent(states[n - 1], events[n - 1].call, events[n - 1].outcome, states[n]);
    }
  }

  /** Every successful read of every run returns the committed snapshot, one record per Y. */
  lemma RunReadsCommitted(states: seq<Db>, events: seq<Event>, n: nat)
    requires Run(states, events) && Coherent(states[0]) && n < |events|
    requires events[n].call.ReadAll? && !events[n].outcome.Failed?
    ensures
      && events[n].outcome.Snapshot?
      && Load(states[n].blob) == Ok(events[n].outcome.proofs)
      && UniqueYs(events[n].outcome.proofs)
      && states[n + 1].blob == states[n].blob
  {
    RunStaysCoherent(states, events, n);
    assert Next(states[n], ReadAll, events[n].outcome, states[n + 1]);
  }

  // ----- what a call leaves behind, record by record

  /** An update that succeeds, or reaches the store, leaves the plain map update. */
  lemma UpdateCommitsMap(s: Db, added: seq<Proof>, removed: seq<PublicKey>, r: Outcome, t: Db)
    requires Coherent(s) && Next(s, Update(added, removed), r, t)
    ensures t.legacy == s.legacy
    ensures r == Done || t.blob != s.blob ==>
      && Load(s.blob).Ok? && Load(t.blob).Ok?
      && var ps, qs := Load(s.blob).value, Load(t.blob).value;
      && UniqueYs(ps) && UniqueYs(qs)
      && ByY(qs) == MapUpdate(ByY(ps), added, removed)
  {
    if r == Done || t.blob != s.blob {
      UpdateRefinesMap(Settled(s).cache, added, removed);
      assert After(Settled(s), Update(added, removed), r, t);
    }
  }

  /** A state change sets the state of every listed proof and touches nothing else. */
  lemma SetStateChangesListed(s: Db, ys: seq<PublicKey>, state: State, r: Outcome, t: Db)
    requires Coherent(s) && Next(s, SetState(ys, state), r, t)
    ensures t.legacy == s.legacy
    ensures r == Done || t.blob != s.blob ==>
      && Load(s.blob).Ok? && Load(t.blob).Ok?
      && var ps, qs := Load(s.blob).value, Load(t.blob).value;
      && |qs| == |ps|
      && forall i :: 0 <= i < |ps| ==> qs[i] == if ps[i].y in ys then ps[i].(state := state) else ps[i]
  {
    if r == Done || t.blob != s.blob {
      var ps := Settled(s).cache;
      SamePositionsUnique(ps, Stated(ps, SetOf(ys), state));
      assert After(Settled(s), SetState(ys, state), r, t);
    }
  }

  /** The legacy index of `op` lists `y`. */
  predicate LegacyLists(s: Db, op: OpId, y: PublicKey) {
    op in s.legacy && s.legacy[op].Index? && y in s.legacy[op].ys
  }

  /**
   A release frees every reserved or pending proof the operation owns, inline or through
   the legacy index, and touches nothing else; success also drops the legacy index.
   */
  lemma ReleaseFreesOwned(s: Db, op: OpId, r: Outcome, t: Db)
    requires Coherent(s) && Next(s, Release(op), r, t)
    ensures r == Done ==> t.legacy == s.legacy - {op}
    ensures t.legacy == s.legacy || t.legacy == s.legacy - {op}
    ensures r == Done || t.blob != s.blob ==>
      && Load(s.blob).Ok? && Load(t.blob).Ok?
      && var ps, qs := Load(s.blob).value, Load(t.blob).value;
      && |qs| == |ps|
      && forall i :: 0 <= i < |ps| ==>
        if (ps[i].state == Reserved || ps[i].state == Pending)
          && (ps[i].owner == Some(op) || (ps[i].owner == None && LegacyLists(s, op, ps[i].y)))
        then qs[i] == ps[i].(state := Unspent, owner := None) else qs[i] == ps[i]
  {
    if r == Done || t.blob != s.blob {
      var ps := Settled(s).cache;
      SamePositionsUnique(ps, Released(ps, Listed(s.legacy, op), op));
      assert After(Settled(s), Release(op), r, t);
    }
  }

  // ----- reservations

  ghost predicate Repeats(ys: seq<PublicKey>) { exists i, j :: 0 <= i < j < |ys| && ys[i] == ys[j] }

  lemma {:induction false} SetOfSize(ys: seq<PublicKey>)
    ensures |SetOf(ys)| <= |ys|
    ensures |SetOf(ys)| == |ys| <==> !Repeats(ys)
  {
    if ys != [] {
      var init, y := ys[..|ys| - 1], ys[|ys| - 1];
      SetOfSize(init);
      assert SetOf(ys) == SetOf(init) + {y};
      RepeatsSnoc(ys);
    }
  }

  lemma RepeatsSnoc(ys: seq<PublicKey>)
    requires ys != []
    ensures
      var init, y := ys[..|ys| - 1], ys[|ys| - 1];
      Repeats(ys) <==> Repeats(init) || y in init
  {
    var init, y := ys[..|ys| - 1], ys[|ys| - 1];
    if y in init {
      var i :| 0 <= i < |init| && init[i] == y;
      assert ys[i] == ys[|ys| - 1];
    }
    if Repeats(init) {
      var i, j :| 0 <= i < j < |init| && init[i] == init[j];
      assert ys[i] == ys[j];
    }
    if Repeats(ys) && y !in init {
      var i, j :| 0 <= i < j < |ys| && ys[i] == ys[j];
      assert init[i] in init;
      assert init[i] == init[j];
    }
  }

  /** Why a selection is refused: a repeated or missing Y, or a proof that is not free for `op`. */
  ghost predicate Refusable(s: Db, ps: seq<Proof>, ys: seq<PublicKey>, op: OpId) {
    || Repeats(ys)
    || (exists y :: y in ys && Missing(ps, y))
    || exists i :: 0 <= i < |ps| && ps[i].y in ys && NotFree(s, ps[i], op)
  }

  ghost predicate Missing(ps: seq<Proof>, y: PublicKey) { forall i :: 0 <= i < |ps| ==> ps[i].y != y }

  predicate NotFree(s: Db, p: Proof, op: OpId) {
    || (p.owner.Some? && p.owner.value != op)
    || (p.state != Unspent && p.state != Reserved)
    || (p.state == Reserved && p.owner == None && !LegacyLists(s, op, p.y))
  }

  lemma CanReserveIff(s: Db, ps: seq<Proof>, ys: seq<PublicKey>, op: OpId)
    ensures CanReserve(ps, Listed(s.legacy, op), ys, op) <==> !Refusable(s, ps, ys, op)
  {
    SetOfSize(ys);
    forall y ensures y in Ys(ps) <==> !Missing(ps, y) { MissingIff(ps, y); }
    assert SetOf(ys) <= Ys(ps) <==> !exists y :: y in ys && Missing(ps, y);
    AllFreeIff(s, ps, ys, op);
  }

  lemma MissingIff(ps: seq<Proof>, y: PublicKey)
    ensures y in Ys(ps) <==> !Missing(ps, y)
  {
    if y in Ys(ps) {
      var p :| p in ps && p.y == y;
    }
    assert forall i :: 0 <= i < |ps| ==> ps[i] in ps;
  }

  lemma AllFreeIff(s: Db, ps: seq<Proof>, ys: seq<PublicKey>, op: OpId)
    ensures (forall p :: p in ps && p.y in ys ==> Claimable(p, Listed(s.legacy, op), op))
       <==> !exists i :: 0 <= i < |ps| && ps[i].y in ys && NotFree(s, ps[i], op)
  {
    assert forall i :: 0 <= i < |ps| ==> ps[i] in ps;
    assert forall p :: Claimable(p, Listed(s.legacy, op), op) <==> !NotFree(s, p, op);
  }

  /** A selection is turned down only when it has to be, and never marked when it had to be. */
  lemma ReserveRefusedIff(s: Db, ys: seq<PublicKey>, op: OpId, r: Outcome, t: Db)
    requires Coherent(s) && Next(s, Reserve(ys, op), r, t)
    ensures ys == [] ==> r == Done && t == s
    ensures r == Failed(ProofNotUnspent) ==>
      Load(s.blob).Ok? && Refusable(s, Load(s.blob).value, ys, op) && t.blob == s.blob
    ensures (r == Done && ys != []) || t.blob != s.blob ==>
      Load(s.blob).Ok? && !Refusable(s, Load(s.blob).value, ys, op)
  {
    CanReserveIff(s, Settled(s).cache, ys, op);
  }

  /** A reserve attempt marks all of its proofs or none of them durably. */
  lemma ReserveAllOrNone(s: Db, ys: seq<PublicKey>, op: OpId, r: Outcome, t: Db)
    requires Coherent(s) && Next(s, Reserve(ys, op), r, t)
    ensures t.legacy == s.legacy
    ensures t.blob == s.blob || MarksAll(s, ys, op, t)
    ensures r == Done && ys != [] ==> MarksAll(s, ys, op, t)
  {
    var ps := Settled(s).cache;
    if CanReserve(ps, Listed(s.legacy, op), ys, op) && (t.blob != s.blob || (r == Done && ys != [])) {
      assert t.blob == Saved(Marked(ps, SetOf(ys), op));
      MarkedMarksAll(s, ps, ys, op, t);
    }
  }

  lemma MarkedMarksAll(s: Db, ps: seq<Proof>, ys: seq<PublicKey>, op: OpId, t: Db)
    requires Load(s.blob) == Ok(ps) && UniqueYs(ps) && CanReserve(ps, Listed(s.legacy, op), ys, op)
    requires t.blob == Saved(Marked(ps, SetOf(ys), op))
    ensures MarksAll(s, ys, op, t)
  {
    SamePositionsUnique(ps, Marked(ps, SetOf(ys), op));
    assert forall i :: 0 <= i < |ps| ==> ps[i] in ps;
  }

  /** Every requested proof was there and claimable; all of them now belong to `op`. */
  ghost predicate MarksAll(s: Db, ys: seq<PublicKey>, op: OpId, t: Db) {
    && Load(s.blob).Ok? && Load(t.blob).Ok?
    && var ps, qs := Load(s.blob).value, Load(t.blob).value;
    && |ps| == |qs| && SetOf(ys) <= Ys(ps)
    && forall i :: 0 <= i < |ps| ==>
      if ps[i].y in ys then
        && qs[i] == ps[i].(state := Reserved, owner := Some(op))
        && (ps[i].owner == None || ps[i].owner == Some(op))
        && (ps[i].state == Unspent || ps[i].state == Reserved)
        && (ps[i].state == Reserved && ps[i].owner == None ==> ps[i].y in Listed(s.legacy, op))
      else qs[i] == ps[i]
  }

  /** The committed record of `y` names `op` as its owner. */
  ghost predicate Held(s: Db, y: PublicKey, op: OpId) {
    Load(s.blob).Ok? && HeldIn(Load(s.blob).value, y, op)
  }

  ghost predicate HeldIn(ps: seq<Proof>, y: PublicKey, op: OpId) {
    exists i :: 0 <= i < |ps| && ps[i].y == y && ps[i].owner == Some(op)
  }

  /** The update removes `y`, or its last addition of `y` does not name `op` as the owner. */
  ghost predicate GivesUp(added: seq<Proof>, removed: seq<PublicKey>, y: PublicKey, op: OpId) {
    || y in removed
    || exists k: nat :: IsLast(added, k) && added[k].y == y && added[k].owner != Some(op)
  }

  /** Calls that may give `y` up: a release by its owner, or an update that overwrites it. */
  ghost predicate MayDrop(c: Call, y: PublicKey, op: OpId) {
    || c == Release(op)
    || (c.Update? && GivesUp(c.added, c.removed, y, op))
  }

  lemma HeldByMap(ps: seq<Proof>, y: PublicKey, op: OpId)
    requires UniqueYs(ps)
    ensures HeldIn(ps, y, op) <==> y in ByY(ps) && ByY(ps)[y].owner == Some(op)
  {
    ByYSpec(ps);
    if HeldIn(ps, y, op) {
      var i :| 0 <= i < |ps| && ps[i].y == y && ps[i].owner == Some(op);
      assert ps[i] in ps;
    }
  }

  lemma {:induction false} LastAddition(added: seq<Proof>, y: PublicKey) returns (k: nat)
    requires y in Ys(added)
    ensures IsLast(added, k) && added[k].y == y
  {
    var n := |added| - 1;
    if added[n].y == y {
      k := n;
    } else {
      assert added == added[..n] + [added[n]];
      k := LastAddition(added[..n], y);
      assert forall j :: k < j < n ==> added[..n][j] == added[j];
    }
  }

  /** A reservation survives an update exactly when the update does not give it up. */
  lemma UpdateKeepsHeldIff(ps: seq<Proof>, added: seq<Proof>, removed: seq<PublicKey>, y: PublicKey, op: OpId)
    requires UniqueYs(ps) && HeldIn(ps, y, op)
    ensures HeldIn(UpdatedList(ps, added, removed), y, op) <==> !GivesUp(added, removed, y, op)
  {
    var updated := UpdatedList(ps, added, removed);
    UpdateKeepsLastRecord(ps, added, removed, y);
    HeldByMap(ps, y, op);
    ByYSpec(ps);
    HeldByMap(updated, y, op);
    if y in Ys(added) {
      var k := LastAddition(added, y);
      assert forall j: nat :: IsLast(added, j) && added[j].y == y ==> j == k;
    } else {
      forall k: nat | IsLast(added, k) ensures added[k].y != y { assert added[k] in added; }
    }
  }

  /** Whether or not the write lands, the owner stays if the new list keeps it. */
  lemma PersistsKeepsHeld(s: Db, target: seq<Proof>, r: Outcome, t: Db, y: PublicKey, op: OpId)
    requires Held(s, y, op) && UniqueYs(target) && HeldIn(target, y, op)
    requires t.blob == s.blob || t.blob == Saved(target)
    ensures Held(t, y, op)
  {
  }

  lemma SameOwnerHeld(a: seq<Proof>, b: seq<Proof>, y: PublicKey, op: OpId)
    requires UniqueYs(a) && HeldIn(a, y, op) && |a| == |b|
    requires forall i :: 0 <= i < |a| ==> a[i].y == b[i].y
    requires forall i :: 0 <= i < |a| && a[i].owner == Some(op) ==> b[i].owner == Some(op)
    ensures UniqueYs(b) && HeldIn(b, y, op)
  {
    var i :| 0 <= i < |a| && a[i].y == y && a[i].owner == Some(op);
    assert b[i].y == y && b[i].owner == Some(op);
    SamePositionsUnique(a, b);
  }

  lemma ReserveKeepsHeld(s: Db, ys: seq<PublicKey>, op': OpId, r: Outcome, t: Db, y: PublicKey, op: OpId)
    requires UniqueYs(s.cache) && Load(s.blob) == Ok(s.cache) && HeldIn(s.cache, y, op)
    requires Reserves(s, ys, op', r, t)
    ensures Held(t, y, op)
  {
    var target := Marked(s.cache, SetOf(ys), op');
    if CanReserve(s.cache, Listed(s.legacy, op'), ys, op') {
      forall i | 0 <= i < |s.cache| && s.cache[i].owner == Some(op) ensures target[i].owner == Some(op) {
        assert s.cache[i] in s.cache;
      }
      SameOwnerHeld(s.cache, target, y, op);
      PersistsKeepsHeld(s, target, r, t, y, op);
    }
  }

  lemma AfterKeepsHeld(s: Db, c: Call, r: Outcome, t: Db, y: PublicKey, op: OpId)
    requires s.live && !s.dirty && UniqueYs(s.cache) && Coherent(s) && Held(s, y, op)
    requires After(s, c, r, t) && !MayDrop(c, y, op)
    ensures Held(t, y, op)
  {
    match c
    case Update(added, removed) =>
      UpdateRefinesMap(s.cache, added, removed);
      UpdateKeepsHeldIff(s.cache, added, removed, y, op);
    case SetState(ys, state) =>
      SameOwnerHeld(s.cache, Stated(s.cache, SetOf(ys), state), y, op);
    case Reserve(ys, op') => ReserveKeepsHeld(s, ys, op', r, t, y, op);
    case Release(op') =>
      SameOwnerHeld(s.cache, Released(s.cache, Listed(s.legacy, op'), op'), y, op);
    case ReadAll =>
  }

  lemma NextKeepsHeld(s: Db, c: Call, r: Outcome, t: Db, y: PublicKey, op: OpId)
    requires Coherent(s) && Held(s, y, op) && Next(s, c, r, t) && !MayDrop(c, y, op)
    ensures Held(t, y, op)
  {
    if !c.Restart? && t != s { AfterKeepsHeld(Settled(s), c, r, t, y, op); }
  }

  lemma ReserveTakesHold(s: Db, ys: seq<PublicKey>, op: OpId, t: Db, y: PublicKey)
    requires Coherent(s) && Next(s, Reserve(ys, op), Done, t) && y in ys
    ensures Held(t, y, op)
  {
    ReserveAllOrNone(s, ys, op, Done, t);
    assert y in Ys(Load(s.blob).value);
    var p :| p in Load(s.blob).value && p.y == y;
    var i :| 0 <= i < |Load(s.blob).value| && Load(s.blob).value[i] == p;
    assert Load(t.blob).value[i].owner == Some(op);
  }

  /**
   Between a successful reserve and the first call that may give the proof up, no other
   operation reserves it: the attempt is refused and changes nothing durable. Failures,
   lost acknowledgements and restarts may fall anywhere in the run.
   */
  lemma ReservationIsExclusive(
    states: seq<Db>, events: seq<Event>, i: nat, j: nat,
    ys: seq<PublicKey>, op: OpId, ys': seq<PublicKey>, op': OpId, y: PublicKey)
    requires Run(states, events) && Coherent(states[0]) && i < j < |events|
    requires events[i] == Event(Reserve(ys, op), Done) && y in ys
    requires forall k :: i < k < j ==> !MayDrop(events[k].call, y, op)
    requires events[j].call == Reserve(ys', op') && op' != op && y in ys'
    ensures events[j].outcome.Failed?
    ensures states[j + 1].blob == states[j].blob
    ensures Held(states[j + 1], y, op)
  {
    RunStaysCoherent(states, events, i);
    ReserveTakesHold(states[i], ys, op, states[i + 1], y);
    StaysHeld(states, events, i + 1, j, y, op);
    RunStaysCoherent(states, events, j);
    assert Next(states[j], Reserve(ys', op'), events[j].outcome, states[j + 1]);
    var ps := Load(states[j].blob).value;
    var k :| 0 <= k < |ps| && ps[k].y == y && ps[k].owner == Some(op);
    assert ps[k] in ps && !Claimable(ps[k], Listed(states[j].legacy, op'), op');
    assert !CanReserve(ps, Listed(states[j].legacy, op'), ys', op');
  }

  lemma {:induction false} StaysHeld(
    states: seq<Db>, events: seq<Event>, first: nat, last: nat, y: PublicKey, op: OpId)
    requires Run(states, events) && Coherent(states[0]) && first <= last <= |events|
    requires Held(states[first], y, op)
    requires forall k :: first <= k < last ==> !MayDrop(events[k].call, y, op)
    ensures Held(states[last], y, op)
    decreases last - first
  {
    if first < last {
      StaysHeld(states, events, first, last - 1, y, op);
      RunStepKeepsHeld(states, events, last - 1, y, op);
    }
  }

  lemma RunStepKeepsHeld(states: seq<Db>, events: seq<Event>, n: nat, y: PublicKey, op: OpId)
    requires Run(states, events) && Coherent(states[0]) && n < |events|
    requires Held(states[n], y, op) && !MayDrop(events[n].call, y, op)
    ensures Held(states[n + 1], y, op)
  {
    RunStaysCoherent(states, events, n);
    NextKeepsHeld(states[n], events[n].call, events[n].outcome, states[n + 1], y, op);
  }

  lemma ReplacesOnly(q: Proof, p: Proof)
    requires q.y == p.y && q.index == None
    ensures UpdatedList([q], [p], []) == [p]
  {
    assert [p][..0] == [] && [p][1..] == [] && [q][..0] == [];
    assert p in [p] && q.y in Ys([p]);
    assert Indexes(map[], [q]) == map[];
    assert Filled(map[], [p]) == [p];
    assert DedupLast([p]) == [p] by { assert Ys([p][1..]) == {}; }
    assert Without([q], Ys([p])) == [];
    assert [] + [p] == [p];
    assert (set z: PublicKey | z in []) == {};
    assert Without([p], {}) == [p];
  }

  /**
   The exemption for updates is needed: re-adding a reserved proof without its owner
   drops the reservation, and another operation may then take the proof.
   */
  lemma UpdateCanDropReservation(y: PublicKey, amount: nat, op: OpId, op': OpId)
    requires op' != op
    ensures
      var p := Proof(y, amount, Unspent, None, None, 0);
      var held := p.(state := Reserved, owner := Some(op));
      var s := Db(Saved([held]), map[], [held], false, true);
      var t := Db(Saved([p]), map[], [p], false, true);
      && Coherent(s) && Held(s, y, op)
      && Next(s, Update([p], []), Done, t)
      && exists u :: Next(t, Reserve([y], op'), Done, u)
  {
    var p := Proof(y, amount, Unspent, None, None, 0);
    var held := p.(state := Reserved, owner := Some(op));
    var s := Db(Saved([held]), map[], [held], false, true);
    var t := Db(Saved([p]), map[], [p], false, true);
    assert [held][0].owner == Some(op);
    ReplacesOnly(held, p);
    assert Next(s, Update([p], []), Done, t);
    var u := FreeProofIsReserved(t, p, op');
  }

  lemma FreeProofIsReserved(t: Db, p: Proof, op: OpId) returns (u: Db)
    requires t == Db(Saved([p]), map[], [p], false, true) && p.owner == None && p.state == Unspent
    ensures Next(t, Reserve([p.y], op), Done, u)
  {
    var target := Marked([p], SetOf([p.y]), op);
    u := t.(blob := Saved(target), cache := target);
    assert SetOf([p.y]) == {p.y};
    assert p in [p];
    assert CanReserve([p], Listed(map[], op), [p.y], op);
    assert Persists(t, target, Done, u);
  }

  // ----- releases

  ghost function Total(ps: seq<Proof>): nat {
    if ps == [] then 0 else Total(ps[..|ps| - 1]) + ps[|ps| - 1].amount
  }

  lemma {:induction false} SameAmountsSameTotal(a: seq<Proof>, b: seq<Proof>)
    requires |a| == |b| && forall i :: 0 <= i < |a| ==> a[i].amount == b[i].amount
    ensures Total(a) == Total(b)
  {
    if a != [] { SameAmountsSameTotal(a[..|a| - 1], b[..|b| - 1]); }
  }

  /** A release moves no money and touches only the proofs the operation holds. */
  lemma ReleaseConserves(ps: seq<Proof>, listed: seq<PublicKey>, op: OpId)
    ensures
      var qs := Released(ps, listed, op);
      && |qs| == |ps| && Ys(qs) == Ys(ps) && Total(qs) == Total(ps)
      && forall i :: 0 <= i < |ps| ==>
        && (qs[i] != ps[i] ==>
          && (ps[i].state == Reserved || ps[i].state == Pending)
          && (ps[i].owner == Some(op) || (ps[i].owner == None && ps[i].y in listed))
          && qs[i] == ps[i].(state := Unspent, owner := None))
        && ((ps[i].state == Reserved || ps[i].state == Pending)
            && (ps[i].owner == Some(op) || (ps[i].owner == None && ps[i].y in listed)) ==>
          qs[i] == ps[i].(state := Unspent, owner := None))
  {
    var qs := Released(ps, listed, op);
    SameAmountsSameTotal(ps, qs);
    SameYs(ps, qs);
  }

  /** Releasing again, with the legacy index kept or already dropped, changes nothing. */
  lemma ReleaseIsIdempotent(ps: seq<Proof>, listed: seq<PublicKey>, op: OpId)
    ensures Released(Released(ps, listed, op), listed, op) == Released(ps, listed, op)
    ensures Released(Released(ps, listed, op), [], op) == Released(ps, listed, op)
  {
    var qs := Released(ps, listed, op);
    forall i | 0 <= i < |qs| ensures !Releasable(qs[i], listed, op) && !Releasable(qs[i], [], op) {
      assert qs[i] == if Releasable(ps[i], listed, op) then ps[i].(state := Unspent, owner := None) else ps[i];
    }
  }

  predicate RetryOnly(c: Call, op: OpId) { c == Release(op) || c.Restart? || c.ReadAll? }

  /** Where a partly done release of `op` that started from `s0` can stand. */
  ghost predicate MidRelease(s0: Db, op: OpId, s: Db)
    requires Load(s0.blob).Ok?
  {
    var ps := Load(s0.blob).value;
    var qs := Released(ps, Listed(s0.legacy, op), op);
    || (Load(s.blob) == Ok(ps) && s.legacy == s0.legacy)
    || (Load(s.blob) == Ok(qs) && (s.legacy == s0.legacy || s.legacy == s0.legacy - {op}))
  }

  /** A release from anywhere on the way aims at the same proof set. */
  lemma MidReleaseTarget(s0: Db, s: Db, op: OpId)
    requires Load(s0.blob).Ok? && Coherent(s) && s.live && MidRelease(s0, op, s)
    ensures
      var target := Released(Load(s0.blob).value, Listed(s0.legacy, op), op);
      && Load(s.blob) == Ok(Settled(s).cache)
      && Released(Settled(s).cache, Listed(s.legacy, op), op) == target
      && Load(Saved(target)) == Ok(target) && s.legacy - {op} == s0.legacy - {op}
  {
    var ps := Load(s0.blob).value;
    ReleaseIsIdempotent(ps, Listed(s0.legacy, op), op);
    SamePositionsUnique(ps, Released(ps, Listed(s0.legacy, op), op));
  }

  lemma ReleaseStaysMidRelease(s0: Db, s: Db, r: Outcome, t: Db, op: OpId)
    requires Load(s0.blob).Ok? && Coherent(s) && s.live && MidRelease(s0, op, s)
    requires Next(s, Release(op), r, t)
    ensures MidRelease(s0, op, t)
    ensures r == Done ==>
      && t.blob == Saved(Released(Load(s0.blob).value, Listed(s0.legacy, op), op))
      && t.legacy == s0.legacy - {op}
  {
    MidReleaseTarget(s0, s, op);
    if t != s { assert After(Settled(s), Release(op), r, t); }
  }

  lemma NextStaysMidRelease(s0: Db, s: Db, c: Call, r: Outcome, t: Db, op: OpId)
    requires Load(s0.blob).Ok? && Coherent(s) && MidRelease(s0, op, s)
    requires Next(s, c, r, t) && RetryOnly(c, op)
    ensures MidRelease(s0, op, t)
    ensures c == Release(op) && r == Done ==>
      && t.blob == Saved(Released(Load(s0.blob).value, Listed(s0.legacy, op), op))
      && t.legacy == s0.legacy - {op}
  {
    if c == Release(op) { ReleaseStaysMidRelease(s0, s, r, t, op); }
  }

  lemma {:induction false} RetriesStayMidRelease(states: seq<Db>, events: seq<Event>, op: OpId, n: nat)
    requires Run(states, events) && Coherent(states[0]) && Load(states[0].blob).Ok? && n <= |events|
    requires forall k :: 0 <= k < |events| ==> RetryOnly(events[k].call, op)
    ensures MidRelease(states[0], op, states[n])
  {
    if n > 0 {
      RetriesStayMidRelease(states, events, op, n - 1);
      RunStaysCoherent(states, events, n - 1);
      NextStaysMidRelease(
        states[0], states[n - 1], events[n - 1].call, events[n - 1].outcome, states[n], op);
    }
  }

  /**
   However many attempts failed, and wherever, the release that finally succeeds leaves the
   proof set and the legacy index that one clean release would have left.
   */
  lemma RetriedReleaseEqualsCleanRelease(states: seq<Db>, events: seq<Event>, op: OpId, clean: Db)
    requires Run(states, events) && Coherent(states[0]) && Load(states[0].blob).Ok? && events != []
    requires forall k :: 0 <= k < |events| ==> RetryOnly(events[k].call, op)
    requires events[|events| - 1] == Event(Release(op), Done)
    requires Next(states[0], Release(op), Done, clean)
    ensures states[|events|].blob == clean.blob
    ensures states[|events|].legacy == clean.legacy
    ensures Load(clean.blob) == Ok(Released(Load(states[0].blob).value, Listed(states[0].legacy, op), op))
  {
    var n := |events| - 1;
    RetriesStayMidRelease(states, events, op, n);
    RunStaysCoherent(states, events, n);
    NextStaysMidRelease(states[0], states[n], Release(op), Done, states[n + 1], op);
    NextStaysMidRelease(states[0], states[0], Release(op), Done, clean, op);
    SamePositionsUnique(
      Load(states[0].blob).value, Released(Load(states[0].blob).value, Listed(states[0].legacy, op), op));
  }
}
