/**
 The Spark outgoing change queue: a persistent local revision counter and one stored
 entry per pending change, keyed by its zero-padded revision.

 Any store call may fail, before or after its write has committed; a restart keeps what
 is stored. The lock covers the counter only: an add allocates its revision under it and
 writes its entry afterwards, so the adds of several tasks interleave between the two.
 `checked` says whether the build checks arithmetic: a checked increment past the 64-bit
 limit panics, an unchecked one wraps to zero.
 */
module SparkQueue {
  import opened Common
  import opened SparkKeys

  /** The stored counter text, if any; `NotUtf8` cannot be read at all. */
  datatype Cell = Absent | NotUtf8 | Text(s: string)

  datatype Change = Change(record: RecordId, fields: nat, revision: nat)

  /** A record as the server last acknowledged it. */
  datatype SyncedRecord = SyncedRecord(id: RecordId, body: nat, revision: nat)

  datatype OutgoingChange = OutgoingChange(change: Change, parent: Option<SyncedRecord>)

  datatype Error = Implementation | Serialization | Panicked

  type Pending = map<string, Change>

  datatype Store = Store(counter: Cell, out: Pending)

  /** The stored decimal text read as a 64-bit number, anything else as zero. */
  function ParseOrZero(s: string): nat {
    var digits := if s != "" && s[0] == '+' then s[1..] else s;
    if digits != "" && AllDigits(digits) && Number(digits) <= U64_MAX then Number(digits) else 0
  }

  function Current(c: Cell): nat { if c.Text? then ParseOrZero(c.s) else 0 }

  lemma CounterRoundTrip(n: nat)
    requires n <= U64_MAX
    ensures Current(Text(Decimal(n))) == n
  {
    NumberOfDecimal(n);
    assert Decimal(n)[0] in Decimal(n);
  }

  /** Nothing stored, and text that is no number, count as zero. */
  lemma GarbageIsZero(s: string)
    requires s == "" || !(IsDigit(s[0]) || s[0] == '+')
    ensures Current(Absent) == 0 && Current(Text(s)) == 0
  {
    if s != "" { assert s[0] in s; }
  }

  lemma CurrentIsU64(c: Cell)
    ensures Current(c) <= U64_MAX
  {
  }

  /** The 64-bit increment; a checked build has no result past the limit. */
  function Successor(n: nat, checked: bool): Option<nat> {
    if n < U64_MAX then Some(n + 1) else if checked then None else Some(0)
  }

  /** What one allocation may leave behind; `r` is the revision handed out, if any. */
  ghost predicate Allocates(checked: bool, c: Cell, r: Result<nat, Error>, d: Cell) {
    var next := Successor(Current(c), checked);
    || (r.Err? && d == c && (r == Err(Panicked) ==> next.None?))
    || (!c.NotUtf8? && next.Some? && d == Text(Decimal(next.value))
        && (r == Ok(next.value) || r == Err(Implementation)))
  }

  /** What one entry write may leave behind. */
  ghost predicate WritesEntry(out: Pending, c: Change, acknowledged: bool, out': Pending) {
    out' == out[RevisionKey(c.revision) := c] || (!acknowledged && out' == out)
  }

  /** One add that no other task interrupts. */
  ghost predicate Adds(checked: bool, s: Store, record: RecordId, fields: nat, r: Result<nat, Error>, t: Store) {
    exists a ::
      && Allocates(checked, s.counter, a, t.counter)
      && if a.Err? then r == a && t.out == s.out
         else
           && (r == a || r == Err(Implementation))
           && WritesEntry(s.out, Change(record, fields, a.value), r.Ok?, t.out)
  }

  /** Entries sit under the key of their own revision. */
  ghost predicate WellKeyed(out: Pending) {
    forall k :: k in out ==> out[k].revision <= U64_MAX && k == RevisionKey(out[k].revision)
  }

  function Changes(cs: seq<OutgoingChange>): seq<Change> {
    seq(|cs|, i requires 0 <= i < |cs| => cs[i].change)
  }

  /** `changes` are the `limit` smallest pending revisions, in ascending order. */
  ghost predicate SmallestAscending(out: Pending, limit: nat, changes: seq<Change>) {
    && |changes| == (if |out| < limit then |out| else limit)
    && (forall c :: c in changes ==> RevisionKey(c.revision) in out && out[RevisionKey(c.revision)] == c)
    && (forall i, j :: 0 <= i < j < |changes| ==> changes[i].revision < changes[j].revision)
    && (forall k, c :: k in out && out[k] !in changes && c in changes ==> c.revision < out[k].revision)
  }

  /** The acknowledged record a change builds on, if there is one. */
  function Parent(synced: map<RecordId, SyncedRecord>, id: RecordId): Option<SyncedRecord> {
    if id in synced then Some(synced[id]) else None
  }

  /** The changes under the given keys, in that order, each with its parent. */
  ghost predicate ReadsOf(out: Pending, synced: map<RecordId, SyncedRecord>, keys: seq<string>, cs: seq<OutgoingChange>) {
    && |cs| == |keys|
    && forall i :: 0 <= i < |keys| ==>
      keys[i] in out && cs[i] == OutgoingChange(out[keys[i]], Parent(synced, out[keys[i]].record))
  }

  ghost predicate AnswersPending(
    out: Pending, synced: map<RecordId, SyncedRecord>, limit: nat, cs: seq<OutgoingChange>)
  {
    && SmallestAscending(out, limit, Changes(cs))
    && forall i :: 0 <= i < |cs| ==>
      cs[i].parent == if cs[i].change.record in synced then Some(synced[cs[i].change.record]) else None
  }

  class SparkStore {
    const checked: bool
    const reliable: bool   // the store never fails
    var counter: Cell
    var out: Pending
    var synced: map<RecordId, SyncedRecord>
    var serverRevision: Cell

    ghost function Here(): Store
      reads this
    {
      Store(counter, out)
    }

    constructor (checked: bool, reliable: bool, s: Store, synced: map<RecordId, SyncedRecord>, serverRevision: Cell)
      ensures this.checked == checked && this.reliable == reliable && Here() == s
      ensures this.synced == synced && this.serverRevision == serverRevision
    {
      this.checked, this.reliable, counter, out := checked, reliable, s.counter, s.out;
      this.synced, this.serverRevision := synced, serverRevision;
    }

    method ReadRevision(stored: Cell) returns (r: Result<nat, Error>)
      ensures r.Ok? ==> r.value == Current(stored) <= U64_MAX && !stored.NotUtf8?
      ensures r.Err? ==> r.error != Panicked && (!reliable || stored.NotUtf8?)
    {
      var fails: bool := *;
      if fails && !reliable { return Err(Implementation); }
      CurrentIsU64(stored);
      match stored
      case Absent => return Ok(0);
      case NotUtf8 => return Err(Serialization);
      case Text(s) => return Ok(ParseOrZero(s));
    }

    method NextLocalRevision() returns (r: Result<nat, Error>)
      modifies this`counter
      ensures Allocates(checked, old(counter), r, counter)
      ensures r.Ok? ==> r.value == if Current(old(counter)) < U64_MAX then Current(old(counter)) + 1 else 0
      ensures r == Err(Panicked) ==> checked && Current(old(counter)) == U64_MAX
      ensures reliable && !old(counter).NotUtf8? ==> r.Ok? || r == Err(Panicked)
    {
      var read := ReadRevision(counter);
      if read.Err? { return Err(read.error); }
      var current := read.value;
      if current == U64_MAX && checked { return Err(Panicked); }
      var next := if current == U64_MAX then 0 else current + 1;
      var writeFails: bool, committed: bool := *, *;
      writeFails := writeFails && !reliable;
      if !writeFails || committed { counter := Text(Decimal(next)); }
      return if writeFails then Err(Implementation) else Ok(next);
    }

    method AddOutgoingChange(record: RecordId, fields: nat) returns (r: Result<nat, Error>)
      requires WellKeyed(out)
      modifies this`counter, this`out
      ensures WellKeyed(out)
      ensures Adds(checked, old(Here()), record, fields, r, Here())
      ensures reliable && !old(counter).NotUtf8? ==> r.Ok? || r == Err(Panicked)
    {
      r := NextLocalRevision();
      if r.Err? { return; }
      var writeFails: bool, committed: bool := *, *;
      writeFails := writeFails && !reliable;
      if !writeFails || committed {
        out := out[RevisionKey(r.value) := Change(record, fields, r.value)];
      }
      if writeFails { return Err(Implementation); }
    }

    /**
     Drops the entry (a failure to do so is ignored), keeps the acknowledged record as the
     parent of later changes, and raises the server revision.
     */
    method CompleteOutgoingSync(record: SyncedRecord, revision: nat) returns (r: Result<(), Error>)
      requires record.revision <= U64_MAX
      modifies this`out, this`synced, this`serverRevision
      ensures out == old(out) || out == old(out) - {RevisionKey(revision)}
      ensures synced == old(synced)[record.id := record] || (r.Err? && synced == old(synced))
      ensures
        var was := Current(old(serverRevision));
        var raised := if record.revision > was then record.revision else was;
        Current(serverRevision) == raised || (r.Err? && serverRevision == old(serverRevision))
      ensures r != Err(Panicked)
      ensures reliable ==> RevisionKey(revision) !in out && (!old(serverRevision).NotUtf8? ==> r.Ok?)
    {
      var removed: bool, writeFails: bool, committed: bool := *, *, *;
      removed, writeFails := removed || reliable, writeFails && !reliable;
      if removed { out := out - {RevisionKey(revision)}; }
      if !writeFails || committed { synced := synced[record.id := record]; }
      if writeFails { return Err(Implementation); }
      r := UpdateServerRevision(record.revision);
    }

    method UpdateServerRevision(newRevision: nat) returns (r: Result<(), Error>)
      requires newRevision <= U64_MAX
      modifies this`serverRevision
      ensures
        var was := Current(old(serverRevision));
        var raised := if newRevision > was then newRevision else was;
        Current(serverRevision) == raised || (r.Err? && serverRevision == old(serverRevision))
      ensures r.Err? ==> r.error != Panicked && (!reliable || old(serverRevision).NotUtf8?)
    {
      var read := ReadRevision(serverRevision);
      if read.Err? { return Err(read.error); }
      if newRevision > read.value {
        var writeFails: bool, committed: bool := *, *;
      writeFails := writeFails && !reliable;
        CounterRoundTrip(newRevision);
        if !writeFails || committed { serverRevision := Text(Decimal(newRevision)); }
        if writeFails { return Err(Implementation); }
      }
      return Ok(());
    }

    method ListKeys() returns (r: Result<seq<string>, Error>)
      ensures r.Ok? ==>
        && (forall k :: k in r.value <==> k in out)
        && (forall i, j :: 0 <= i < j < |r.value| ==> r.value[i] != r.value[j])
      ensures reliable ==> r.Ok?
    {
      var fails: bool := *;
      if fails && !reliable { return Err(Implementation); }
      var rest, keys := out.Keys, [];
      while rest != {}
        invariant forall k :: k in out <==> k in keys || k in rest
        invariant forall k :: k in keys ==> k !in rest
        invariant forall i, j :: 0 <= i < j < |keys| ==> keys[i] != keys[j]
        decreases rest
      {
        var k :| k in rest;
        keys, rest := keys + [k], rest - {k};
      }
      return Ok(keys);
    }

    method GetPendingOutgoingChanges(limit: nat) returns (r: Result<seq<OutgoingChange>, Error>)
      requires WellKeyed(out)
      ensures r.Ok? ==> AnswersPending(out, synced, limit, r.value)
      ensures reliable ==> r.Ok?
    {
      var listed := ListKeys();
      if listed.Err? { return Err(listed.error); }
      var keys := Sort(listed.value);
      var few := if |keys| < limit then keys else keys[..limit];
      PrefixIsListed(out, keys, few);
      r := ReadChanges(few);
      if r.Ok? { PrefixAnswers(out, synced, limit, keys, few, r.value); }
    }

    method ReadChanges(keys: seq<string>) returns (r: Result<seq<OutgoingChange>, Error>)
      requires forall i :: 0 <= i < |keys| ==> keys[i] in out
      ensures r.Ok? ==> ReadsOf(out, synced, keys, r.value)
      ensures reliable ==> r.Ok?
    {
      var results: seq<OutgoingChange> := [];
      for i := 0 to |keys|
        invariant |results| == i
        invariant forall k :: 0 <= k < i ==>
          results[k] == OutgoingChange(out[keys[k]], Parent(synced, out[keys[k]].record))
      {
        var fails: bool := *;
        if fails && !reliable { return Err(Implementation); }
        var change := out[keys[i]];
        results := results + [OutgoingChange(change, Parent(synced, change.record))];
      }
      return Ok(results);
    }

    /** The pending change with the largest revision. */
    method GetLatestOutgoingChange() returns (r: Result<Option<OutgoingChange>, Error>)
      requires WellKeyed(out)
      ensures r == Ok(None) ==> out == map[]
      ensures reliable ==> r.Ok?
      ensures r.Ok? && r.value.Some? ==>
        && (exists k :: k in out && out[k] == r.value.value.change)
        && (forall k :: k in out ==> out[k].revision <= r.value.value.change.revision)
        && r.value.value.parent ==
           (if r.value.value.change.record in synced then Some(synced[r.value.value.change.record]) else None)
    {
      var listed := ListKeys();
      if listed.Err? { return Err(listed.error); }
      if listed.value == [] {
        assert forall k :: k !in out;
        return Ok(None);
      }
      var keys := Sort(listed.value);
      var last := keys[|keys| - 1];
      assert last in keys && last in listed.value;
      var fails: bool := *;
      if fails && !reliable { return Err(Implementation); }
      forall k | k in out ensures out[k].revision <= out[last].revision {
        assert k in keys;
        var j :| 0 <= j < |keys| && keys[j] == k;
        if j < |keys| - 1 { RevisionKeyOrder(out[k].revision, out[last].revision); }
      }
      return Ok(Some(OutgoingChange(out[last], Parent(synced, out[last].record))));
    }
  }

  // ----- sorting keys

  ghost predicate Sorted(s: seq<string>) { forall i, j :: 0 <= i < j < |s| ==> Less(s[i], s[j]) }

  lemma {:induction false} LessIsTotal(a: string, b: string)
    ensures Less(a, b) || a == b || Less(b, a)
  {
    if a != "" && b != "" {
      LessIsTotal(a[1..], b[1..]);
      assert a == [a[0]] + a[1..] && b == [b[0]] + b[1..];
    }
  }

  lemma {:induction false} LessIsTransitive(a: string, b: string, c: string)
    requires Less(a, b) && Less(b, c)
    ensures Less(a, c)
  {
    if a != "" && b != "" && c != "" && a[0] == b[0] && b[0] == c[0] {
      LessIsTransitive(a[1..], b[1..], c[1..]);
    }
  }

  /** `Vec::sort` on distinct keys, as an insertion sort. */
  method Sort(keys: seq<string>) returns (sorted: seq<string>)
    requires forall i, j :: 0 <= i < j < |keys| ==> keys[i] != keys[j]
    ensures Sorted(sorted) && |sorted| == |keys| && forall k :: k in sorted <==> k in keys
  {
    sorted := [];
    for i := 0 to |keys|
      invariant Sorted(sorted) && |sorted| == i
      invariant forall k :: k in sorted <==> k in keys[..i]
    {
      assert keys[i] !in keys[..i];
      assert keys[..i + 1] == keys[..i] + [keys[i]];
      sorted := Insert(sorted, keys[i]);
    }
    assert keys[..|keys|] == keys;
  }

  method Insert(sorted: seq<string>, key: string) returns (r: seq<string>)
    requires Sorted(sorted) && key !in sorted
    ensures Sorted(r) && |r| == |sorted| + 1 && forall k :: k in r <==> k in sorted || k == key
  {
    var p := 0;
    while p < |sorted| && Less(sorted[p], key)
      invariant 0 <= p <= |sorted|
      invariant forall i :: 0 <= i < p ==> Less(sorted[i], key)
    {
      p := p + 1;
    }
    forall i | p <= i < |sorted| ensures Less(key, sorted[i]) {
      LessIsTotal(sorted[p], key);
      assert sorted[p] in sorted;
      if i > p { LessIsTransitive(key, sorted[p], sorted[i]); }
    }
    r := sorted[..p] + [key] + sorted[p..];
    assert sorted == sorted[..p] + sorted[p..];
  }

  lemma AllListed(keys: seq<string>, out: Pending)
    requires Sorted(keys) && forall k :: k in keys <==> k in out
    ensures |keys| == |out|
  {
    DistinctCount(keys);
    assert (set k | k in keys) == out.Keys;
  }

  lemma {:induction false} LessIsIrreflexive(a: string)
    ensures !Less(a, a)
  {
    if a != "" { LessIsIrreflexive(a[1..]); }
  }

  lemma {:induction false} DistinctCount(keys: seq<string>)
    requires Sorted(keys)
    ensures |set k | k in keys| == |keys|
  {
    if keys != [] {
      var init, last := keys[..|keys| - 1], keys[|keys| - 1];
      DistinctCount(init);
      assert last !in init by { LessIsIrreflexive(last); }
      assert (set k | k in keys) == (set k | k in init) + {last};
    }
  }

  lemma SortedKeysAscend(out: Pending, keys: seq<string>, i: nat, j: nat)
    requires WellKeyed(out) && Sorted(keys) && (forall k :: k in keys ==> k in out) && i < j < |keys|
    ensures out[keys[i]].revision < out[keys[j]].revision
  {
    assert keys[i] in keys && keys[j] in keys;
    RevisionKeyOrder(out[keys[i]].revision, out[keys[j]].revision);
  }

  lemma PrefixIsSmallest(out: Pending, limit: nat, keys: seq<string>, changes: seq<Change>)
    requires WellKeyed(out) && Sorted(keys) && forall k :: k in keys <==> k in out
    requires |changes| == (if |keys| < limit then |keys| else limit)
    requires forall i :: 0 <= i < |changes| ==> changes[i] == out[keys[i]]
    ensures SmallestAscending(out, limit, changes)
  {
    AllListed(keys, out);
    forall i, j | 0 <= i < j < |changes| ensures changes[i].revision < changes[j].revision {
      SortedKeysAscend(out, keys, i, j);
    }
    forall c | c in changes ensures RevisionKey(c.revision) in out && out[RevisionKey(c.revision)] == c {
      var i :| 0 <= i < |changes| && changes[i] == c;
      assert keys[i] in keys;
    }
    forall k, c | k in out && out[k] !in changes && c in changes ensures c.revision < out[k].revision {
      var i :| 0 <= i < |changes| && changes[i] == c;
      assert k in keys;
      var j :| 0 <= j < |keys| && keys[j] == k;
      SortedKeysAscend(out, keys, i, j);
    }
  }

  lemma PrefixIsListed(out: Pending, keys: seq<string>, few: seq<string>)
    requires (forall k :: k in keys ==> k in out) && few <= keys
    ensures forall i :: 0 <= i < |few| ==> few[i] in out
  {
    forall i | 0 <= i < |few| ensures few[i] in out { assert keys[i] in keys; }
  }

  lemma PrefixAnswers(
    out: Pending, synced: map<RecordId, SyncedRecord>, limit: nat, keys: seq<string>, few: seq<string>,
    cs: seq<OutgoingChange>)
    requires WellKeyed(out) && Sorted(keys) && forall k :: k in keys <==> k in out
    requires few == (if |keys| < limit then keys else keys[..limit]) && ReadsOf(out, synced, few, cs)
    ensures AnswersPending(out, synced, limit, cs)
  {
    var changes := Changes(cs);
    forall i | 0 <= i < |changes| ensures changes[i] == out[keys[i]] { assert few[i] == keys[i]; }
    PrefixIsSmallest(out, limit, keys, changes);
  }

  // ----- all interleavings

  type TaskId = nat

  /** `held` are the changes whose revision is allocated and whose entry is not yet written. */
  datatype Sys = Sys(store: Store, held: map<TaskId, Change>)

  datatype Step =
    | Allocate(task: TaskId, record: RecordId, fields: nat, outcome: Result<nat, Error>)
    | WriteEntry(task: TaskId, acknowledged: bool)
    | Complete(revision: nat)
    | Restart

  ghost predicate Next(checked: bool, s: Sys, step: Step, t: Sys) {
    match step
    case Allocate(task, record, fields, r) =>
      && task !in s.held
      && Allocates(checked, s.store.counter, r, t.store.counter) && t.store.out == s.store.out
      && t.held == if r.Ok? then s.held[task := Change(record, fields, r.value)] else s.held
    case WriteEntry(task, acknowledged) =>
      && task in s.held && t.held == s.held - {task}
      && t.store.counter == s.store.counter
      && WritesEntry(s.store.out, s.held[task], acknowledged, t.store.out)
    case Complete(n) =>
      && n <= U64_MAX
      && (t == s || t == s.(store := s.store.(out := s.store.out - {RevisionKey(n)})))
    case Restart => t == s.(held := map[])
  }

  ghost predicate Run(checked: bool, states: seq<Sys>, steps: seq<Step>) {
    && |states| == |steps| + 1
    && forall i :: 0 <= i < |steps| ==> Next(checked, states[i], steps[i], states[i + 1])
  }

  predicate HandsOut(step: Step) { step.Allocate? && step.outcome.Ok? }

  /** The counter stands at the limit and the build does not check the increment. */
  predicate Wraps(checked: bool, s: Sys, step: Step) {
    !checked && step.Allocate? && Current(s.store.counter) == U64_MAX
  }

  ghost predicate NeverWraps(checked: bool, states: seq<Sys>, steps: seq<Step>)
    requires Run(checked, states, steps)
  {
    forall i :: 0 <= i < |steps| ==> !Wraps(checked, states[i], steps[i])
  }

  /** An allocation hands out more than the counter held exactly when it does not wrap. */
  lemma AllocationAdvancesIff(checked: bool, s: Sys, step: Step, t: Sys)
    requires Next(checked, s, step, t) && HandsOut(step)
    ensures step.outcome.value == Current(t.store.counter)
    ensures Current(s.store.counter) < step.outcome.value <==> !Wraps(checked, s, step)
    ensures !Wraps(checked, s, step) ==> step.outcome.value == Current(s.store.counter) + 1
    ensures Wraps(checked, s, step) ==> step.outcome.value == 0
  {
    CurrentIsU64(s.store.counter);
    CounterRoundTrip(step.outcome.value);
  }

  lemma CounterAdvances(checked: bool, s: Sys, step: Step, t: Sys)
    requires Next(checked, s, step, t) && !Wraps(checked, s, step)
    ensures Current(s.store.counter) <= Current(t.store.counter)
  {
    CurrentIsU64(s.store.counter);
    if step.Allocate? && Current(s.store.counter) < U64_MAX { CounterRoundTrip(Current(s.store.counter) + 1); }
  }

  lemma {:induction false} CounterNeverDecreases(checked: bool, states: seq<Sys>, steps: seq<Step>, i: nat, j: nat)
    requires Run(checked, states, steps) && NeverWraps(checked, states, steps) && i <= j <= |steps|
    ensures Current(states[i].store.counter) <= Current(states[j].store.counter)
    decreases j
  {
    if i < j {
      CounterNeverDecreases(checked, states, steps, i, j - 1);
      assert !Wraps(checked, states[j - 1], steps[j - 1]);
      CounterAdvances(checked, states[j - 1], steps[j - 1], states[j]);
    }
  }

  /** Revisions handed out strictly increase, whichever tasks they go to and whatever fails. */
  lemma RevisionsStrictlyIncrease(checked: bool, states: seq<Sys>, steps: seq<Step>, i: nat, j: nat)
    requires Run(checked, states, steps) && NeverWraps(checked, states, steps)
    requires i < j < |steps| && HandsOut(steps[i]) && HandsOut(steps[j])
    ensures steps[i].outcome.value < steps[j].outcome.value <= U64_MAX
  {
    AllocationAdvancesIff(checked, states[i], steps[i], states[i + 1]);
    CounterNeverDecreases(checked, states, steps, i + 1, j);
    assert !Wraps(checked, states[j], steps[j]);
    AllocationAdvancesIff(checked, states[j], steps[j], states[j + 1]);
    CurrentIsU64(states[j + 1].store.counter);
  }

  /** No two tasks hold one revision, and none is ahead of the counter. */
  ghost predicate HeldApart(s: Sys) {
    && (forall a :: a in s.held ==> s.held[a].revision <= Current(s.store.counter))
    && (forall a, b :: a in s.held && b in s.held && a != b ==> s.held[a].revision != s.held[b].revision)
  }

  lemma NextKeepsHeldApart(checked: bool, s: Sys, step: Step, t: Sys)
    requires HeldApart(s) && Next(checked, s, step, t) && !Wraps(checked, s, step)
    ensures HeldApart(t)
  {
    CounterAdvances(checked, s, step, t);
    if HandsOut(step) { AllocationAdvancesIff(checked, s, step, t); }
  }

  lemma {:induction false} RunKeepsHeldApart(checked: bool, states: seq<Sys>, steps: seq<Step>, n: nat)
    requires Run(checked, states, steps) && NeverWraps(checked, states, steps) && n <= |steps|
    requires states[0].held == map[]
    ensures HeldApart(states[n])
  {
    if n > 0 {
      RunKeepsHeldApart(checked, states, steps, n - 1);
      assert !Wraps(checked, states[n - 1], steps[n - 1]);
      NextKeepsHeldApart(checked, states[n - 1], steps[n - 1], states[n]);
    }
  }

  /** The change is stored, and no task still holds or can be handed its revision. */
  ghost predicate Stored(s: Sys, c: Change) {
    && c.revision <= Current(s.store.counter)
    && RevisionKey(c.revision) in s.store.out && s.store.out[RevisionKey(c.revision)] == c
    && forall a :: a in s.held ==> s.held[a].revision != c.revision
  }

  lemma NextKeepsStored(checked: bool, s: Sys, step: Step, t: Sys, c: Change)
    requires HeldApart(s) && Stored(s, c) && Next(checked, s, step, t) && !Wraps(checked, s, step)
    requires step != Complete(c.revision)
    ensures Stored(t, c)
  {
    CurrentIsU64(s.store.counter);
    CounterAdvances(checked, s, step, t);
    match step
    case Allocate(_, _, _, r) =>
      if r.Ok? { AllocationAdvancesIff(checked, s, step, t); }
    case WriteEntry(task, _) => RevisionKeyOrder(c.revision, s.held[task].revision);
    case Complete(m) => RevisionKeyOrder(c.revision, m);
    case Restart =>
  }

  lemma RunStepKeepsStored(checked: bool, states: seq<Sys>, steps: seq<Step>, j: nat, c: Change)
    requires Run(checked, states, steps) && NeverWraps(checked, states, steps) && states[0].held == map[]
    requires j < |steps| && Stored(states[j], c) && steps[j] != Complete(c.revision)
    ensures Stored(states[j + 1], c)
  {
    RunKeepsHeldApart(checked, states, steps, j);
    assert !Wraps(checked, states[j], steps[j]);
    NextKeepsStored(checked, states[j], steps[j], states[j + 1], c);
  }

  /** A written change stays pending, unaltered, until its own revision is completed. */
  lemma {:induction false} WrittenStaysPending(checked: bool, states: seq<Sys>, steps: seq<Step>, i: nat, j: nat)
    requires Run(checked, states, steps) && NeverWraps(checked, states, steps) && states[0].held == map[]
    requires i < j <= |steps| && steps[i].WriteEntry? && steps[i].acknowledged
    requires steps[i].task in states[i].held
    requires forall k :: i < k < j ==> steps[k] != Complete(states[i].held[steps[i].task].revision)
    ensures Stored(states[j], states[i].held[steps[i].task])
    decreases j
  {
    if i + 1 < j {
      WrittenStaysPending(checked, states, steps, i, j - 1);
      RunStepKeepsStored(checked, states, steps, j - 1, states[i].held[steps[i].task]);
    } else {
      RunKeepsHeldApart(checked, states, steps, i);
      WrittenIsStored(checked, states[i], steps[i], states[i + 1]);
    }
  }

  lemma WrittenIsStored(checked: bool, s: Sys, step: Step, t: Sys)
    requires HeldApart(s) && Next(checked, s, step, t) && step.WriteEntry? && step.acknowledged
    ensures Stored(t, s.held[step.task])
  {
  }

  /** Entries and allocated changes alike have 64-bit revisions, entries under their own key. */
  ghost predicate AllKeyed(s: Sys) {
    WellKeyed(s.store.out) && forall a :: a in s.held ==> s.held[a].revision <= U64_MAX
  }

  lemma NextKeepsKeyed(checked: bool, s: Sys, step: Step, t: Sys)
    requires AllKeyed(s) && Next(checked, s, step, t)
    ensures AllKeyed(t)
  {
  }

  /** The queries may be asked at any point of any run. */
  lemma {:induction false} RunKeepsKeyed(checked: bool, states: seq<Sys>, steps: seq<Step>, n: nat)
    requires Run(checked, states, steps) && AllKeyed(states[0]) && n <= |steps|
    ensures WellKeyed(states[n].store.out) && AllKeyed(states[n])
  {
    if n > 0 {
      RunKeepsKeyed(checked, states, steps, n - 1);
      NextKeepsKeyed(checked, states[n - 1], steps[n - 1], states[n]);
    }
  }

  predicate IsPending(s: Sys, m: nat) { RevisionKey(m) in s.store.out }

  /** The step writes the entry of revision `m`, acknowledged or not. */
  predicate Writes(s: Sys, step: Step, t: Sys, m: nat) {
    step.WriteEntry? && step.task in s.held && s.held[step.task].revision == m && IsPending(t, m)
  }

  /** The step completes revision `m` and its entry is gone. */
  predicate Removes(step: Step, t: Sys, m: nat) { step == Complete(m) && !IsPending(t, m) }

  ghost predicate KeptSince(states: seq<Sys>, steps: seq<Step>, i: nat, n: nat, m: nat)
    requires n <= |steps| < |states|
  {
    forall k :: i <= k < n ==> !Removes(steps[k], states[k + 1], m)
  }

  /** Some step before `n` has written revision `m`, and none since has removed it. */
  ghost predicate WrittenAndKept(states: seq<Sys>, steps: seq<Step>, n: nat, m: nat)
    requires n <= |steps| < |states|
  {
    exists i :: 0 <= i < n && Writes(states[i], steps[i], states[i + 1], m) && KeptSince(states, steps, i + 1, n, m)
  }

  lemma PendingStep(checked: bool, s: Sys, step: Step, t: Sys, m: nat)
    requires AllKeyed(s) && Next(checked, s, step, t) && m <= U64_MAX
    ensures IsPending(t, m) <==> Writes(s, step, t, m) || (IsPending(s, m) && !Removes(step, t, m))
  {
    match step
    case WriteEntry(task, _) => RevisionKeyOrder(m, s.held[task].revision);
    case Complete(n) => RevisionKeyOrder(m, n);
    case _ =>
  }

  lemma WrittenAndKeptSnoc(states: seq<Sys>, steps: seq<Step>, n: nat, m: nat)
    requires 0 < n <= |steps| < |states|
    ensures WrittenAndKept(states, steps, n, m) <==>
      || Writes(states[n - 1], steps[n - 1], states[n], m)
      || (WrittenAndKept(states, steps, n - 1, m) && !Removes(steps[n - 1], states[n], m))
  {
    if WrittenAndKept(states, steps, n, m) {
      var i :| 0 <= i < n && Writes(states[i], steps[i], states[i + 1], m) && KeptSince(states, steps, i + 1, n, m);
      if i < n - 1 { assert KeptSince(states, steps, i + 1, n - 1, m); }
    }
    if Writes(states[n - 1], steps[n - 1], states[n], m) { assert KeptSince(states, steps, n, n, m); }
    if WrittenAndKept(states, steps, n - 1, m) && !Removes(steps[n - 1], states[n], m) {
      var i :| 0 <= i < n - 1 && Writes(states[i], steps[i], states[i + 1], m) && KeptSince(states, steps, i + 1, n - 1, m);
      assert KeptSince(states, steps, i + 1, n, m);
    }
  }

  /**
   Over every interleaving, the pending revisions are exactly those written, or pending from
   the start, and not removed by their completion since.
   */
  lemma {:induction false} PendingIsWrittenAndKept(
    checked: bool, states: seq<Sys>, steps: seq<Step>, n: nat, m: nat)
    requires Run(checked, states, steps) && AllKeyed(states[0]) && n <= |steps| && m <= U64_MAX
    ensures IsPending(states[n], m) <==>
      WrittenAndKept(states, steps, n, m) || (IsPending(states[0], m) && KeptSince(states, steps, 0, n, m))
  {
    if n > 0 {
      PendingIsWrittenAndKept(checked, states, steps, n - 1, m);
      RunKeepsKeyed(checked, states, steps, n - 1);
      PendingStep(checked, states[n - 1], steps[n - 1], states[n], m);
      WrittenAndKeptSnoc(states, steps, n, m);
      assert KeptSince(states, steps, 0, n, m) <==>
        KeptSince(states, steps, 0, n - 1, m) && !Removes(steps[n - 1], states[n], m);
    }
  }

  /** An add that no other task interrupts is an allocation followed by a write. */
  lemma AddIsTwoSteps(
    checked: bool, s: Sys, task: TaskId, record: RecordId, fields: nat, r: Result<nat, Error>, t: Store)
    returns (states: seq<Sys>, steps: seq<Step>)
    requires task !in s.held && Adds(checked, s.store, record, fields, r, t)
    ensures Run(checked, states, steps) && states[0] == s && states[|steps|] == s.(store := t)
    ensures r.Ok? ==> steps == [Allocate(task, record, fields, r), WriteEntry(task, true)]
  {
    var a :| Allocates(checked, s.store.counter, a, t.counter)
      && if a.Err? then r == a && t.out == s.store.out
         else (r == a || r == Err(Implementation)) && WritesEntry(s.store.out, Change(record, fields, a.value), r.Ok?, t.out);
    var counted := s.store.(counter := t.counter);
    if a.Err? {
      states, steps := [s, s.(store := t)], [Allocate(task, record, fields, a)];
    } else {
      var mid := Sys(counted, s.held[task := Change(record, fields, a.value)]);
      states, steps := [s, mid, s.(store := t)], [Allocate(task, record, fields, a), WriteEntry(task, r.Ok?)];
      assert mid.held - {task} == s.held;
    }
  }
}
