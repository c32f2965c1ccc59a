/**
 Persistent derivation counters. A successful increment by `count` that returns `next`
 hands out the index range [next - count, next). The keyset counters and the namespace
 counters live in separate namespaces and run the same steps under one lock, so one map
 from (namespace, key) to a stored cell stands for both.
 */
module Counters {
  import opened Common

  const U32_MAX: nat := 0xFFFF_FFFF

  datatype Space = KeysetCounters | DerivationCounters

  datatype Slot = Slot(space: Space, key: string)

  datatype Cell = Garbled | Count(n: nat)

  datatype Error = Io | Serialization | InvalidFormat

  type Cells = map<Slot, Cell>

  ghost function Value(cells: Cells, slot: Slot): nat {
    if slot in cells && cells[slot].Count? then cells[slot].n else 0
  }

  /** What one increment may do: nothing, advance and report, or advance unreported. */
  ghost predicate Increments(a: Cells, slot: Slot, count: nat, r: Result<nat, Error>, b: Cells) {
    var next := Value(a, slot) + count;
    || (r.Err? && b == a)
    || ((slot in a ==> a[slot].Count?) && next <= U32_MAX && b == a[slot := Count(next)]
        && (r == Ok(next) || r == Err(Io)))
  }

  class CounterStore {
    const reliable: bool   // the store never fails
    var cells: Cells

    constructor (reliable: bool, cells: Cells)
      ensures this.cells == cells && this.reliable == reliable
    {
      this.reliable, this.cells := reliable, cells;
    }

    method Increment(slot: Slot, count: nat) returns (r: Result<nat, Error>)
      modifies this
      ensures Increments(old(cells), slot, count, r, cells)
      ensures reliable && (slot in old(cells) ==> old(cells)[slot].Count?) ==>
        var next := (if slot in old(cells) then old(cells)[slot].n else 0) + count;
        r == if next <= U32_MAX then Ok(next) else Err(InvalidFormat)
    {
      var readFails: bool, writeFails: bool, committed: bool := *, *, *;
      readFails, writeFails := readFails && !reliable, writeFails && !reliable;
      if readFails { return Err(Io); }
      var current := 0;
      if slot in cells {
        match cells[slot]
        case Garbled => return Err(Serialization);
        case Count(n) => current := n;
      }
      if current + count > U32_MAX { return Err(InvalidFormat); }
      var next := current + count;
      if !writeFails || committed { cells := cells[slot := Count(next)]; }
      return if writeFails then Err(Io) else Ok(next);
    }
  }

  /** A successful increment hands out the indices that follow the stored ones, and stores their end. */
  lemma IncrementHandsOutNext(a: Cells, slot: Slot, count: nat, next: nat, b: Cells)
    requires Increments(a, slot, count, Ok(next), b)
    ensures slot in a ==> a[slot].Count?
    ensures next - count == if slot in a && a[slot].Count? then a[slot].n else 0
    ensures b == a[slot := Count(next)] && next <= 0xFFFF_FFFF
  {
  }

  datatype Event = Event(slot: Slot, count: nat, outcome: Result<nat, Error>)

  /** A run of increments; a restart keeps the cells, so it is not a step of its own. */
  ghost predicate Run(states: seq<Cells>, events: seq<Event>) {
    && |states| == |events| + 1
    && forall i :: 0 <= i < |events| ==>
      Increments(states[i], events[i].slot, events[i].count, events[i].outcome, states[i + 1])
  }

  lemma {:induction false} CountersNeverDecrease(
    states: seq<Cells>, events: seq<Event>, i: nat, j: nat, slot: Slot)
    requires Run(states, events) && i <= j <= |events|
    ensures Value(states[i], slot) <= Value(states[j], slot)
    decreases j
  {
    if i < j {
      CountersNeverDecrease(states, events, i, j - 1, slot);
      var e := events[j - 1];
      assert Increments(states[j - 1], e.slot, e.count, e.outcome, states[j]);
    }
  }

  /** No index of one counter is ever handed out twice. */
  lemma HandedOutRangesDisjoint(states: seq<Cells>, events: seq<Event>, i: nat, j: nat, index: nat)
    requires Run(states, events) && i < j < |events|
    requires events[i].slot == events[j].slot
    requires events[i].outcome.Ok? && events[j].outcome.Ok?
    requires events[i].outcome.value - events[i].count <= index < events[i].outcome.value
    ensures index < events[j].outcome.value - events[j].count
    ensures events[i].outcome.value <= events[j].outcome.value <= U32_MAX
  {
    var slot := events[i].slot;
    assert Increments(states[i], slot, events[i].count, events[i].outcome, states[i + 1]);
    assert Increments(states[j], slot, events[j].count, events[j].outcome, states[j + 1]);
    CountersNeverDecrease(states, events, i + 1, j, slot);
  }
}
