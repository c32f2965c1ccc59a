/**
 The resumable re-keying of stored transactions from proof-derived ids to saga ids.

 Each record is copied to its new key before the old key is removed, and a conflicting
 record is never overwritten. Every store call may fail or be cancelled, with or without
 having committed; the migration is then simply run again. No other task writes
 transactions while it runs, and equal transactions have equal encodings.
 */
module Migration {
  import opened Common

  type Key = nat

  /** `id` is the key the record belongs under, `ysId` the key older versions used. */
  datatype Transaction = Transaction(id: Key, ysId: Key, body: nat)

  datatype Entry = Blank | Garbled | Tx(tx: Transaction)

  type Entries = map<Key, Entry>

  datatype Store = Store(marker: Option<seq<nat>>, entries: Entries)

  datatype Error = NotFound | Io | Serialization | InvalidFormat | Duplicate

  const COMPLETE: seq<nat> := [1]

  ghost predicate Misplaced(e: Entries, k: Key) {
    k in e && e[k].Tx? && e[k].tx.id != k
  }

  ghost function Backlog(e: Entries): nat { |set k | k in e && Misplaced(e, k)| }

  /** Every entry is empty or under its own id. */
  ghost predicate InPlace(e: Entries) {
    forall k :: k in e ==> Settled(e, k)
  }

  /** Nothing lost, nothing altered, nothing invented. */
  ghost predicate Keeps(a: Entries, b: Entries) {
    && (forall k :: k in a && a[k].Tx? ==> Stored(b, k, a[k]) || Stored(b, a[k].tx.id, a[k]))
    && (forall k :: k in a && !a[k].Tx? ==> Stored(b, k, a[k]))
    && (forall k :: k in b ==> Stored(a, k, b[k]) || (b[k].Tx? && b[k].tx.id == k && Occurs(a, b[k])))
  }

  ghost predicate Stored(e: Entries, k: Key, v: Entry) { k in e && e[k] == v }

  ghost predicate Occurs(e: Entries, v: Entry) { exists k :: Stored(e, k, v) }

  /** Old and new ids do not collide, and every record is readable. */
  ghost predicate ConflictFree(e: Entries) {
    && (forall k :: k in e ==> !e[k].Garbled?)
    && (forall k :: Misplaced(e, k) ==>
      k == e[k].tx.ysId && (e[k].tx.id in e ==> e[e[k].tx.id] == e[k]))
    && (forall j, k :: j in e && k in e && e[j].Tx? && e[k].Tx? && e[j].tx.id == e[k].tx.id ==> e[j] == e[k])
  }

  /** The record can be read, and is under its own id or under its old one. */
  ghost predicate Readable(e: Entries, k: Key)
    requires k in e
  {
    !e[k].Garbled? && (e[k].Tx? ==> k == e[k].tx.id || k == e[k].tx.ysId)
  }

  /** What one run of the migration may do to the store. */
  ghost predicate Migrates(s: Store, r: Result<(), Error>, t: Store) {
    && Keeps(s.entries, t.entries)
    && Backlog(t.entries) <= Backlog(s.entries)
    && (t.marker != s.marker ==>
      s.marker == None && t.marker == Some(COMPLETE) && s.entries != map[] && InPlace(t.entries))
    && (r.Ok? ==>
      || (s.marker == Some(COMPLETE) && t == s)
      || (s.marker == None && InPlace(t.entries)
          && t.marker == if s.entries == map[] then None else Some(COMPLETE)))
    && (r.Ok? && s.marker == None ==> forall k :: k in s.entries ==> Readable(s.entries, k))
  }

  /** How the store may change while the migration runs. */
  ghost predicate MovesOn(a: Entries, b: Entries) {
    Keeps(a, b) && Backlog(b) <= Backlog(a) && (ConflictFree(a) ==> ConflictFree(b))
  }

  ghost predicate Settled(e: Entries, k: Key)
    requires k in e
  {
    e[k].Blank? || (e[k].Tx? && e[k].tx.id == k)
  }

  /** The key is dealt with, the other keys are as before, and what is new is in place. */
  ghost predicate Visited(a: Entries, key: Key, b: Entries) {
    && (key in b ==> Settled(b, key))
    && (forall k :: k != key && k in a ==> Stored(b, k, a[k]))
    && (forall k :: k in b && k !in a ==> Settled(b, k))
  }

  /** The keys still to visit are there, and everything else is in place. */
  ghost predicate Unvisited(e: Entries, keys: seq<Key>) {
    && (forall i, j :: 0 <= i < j < |keys| ==> keys[i] != keys[j])
    && (forall i :: 0 <= i < |keys| ==> keys[i] in e)
    && (forall k :: k in e ==> k in keys || Settled(e, k))
  }

  /** The keys before `i` were readable, the others still hold what they held. */
  ghost predicate ReadSoFar(a: Entries, b: Entries, keys: seq<Key>, i: nat) {
    && i <= |keys|
    && (forall j :: 0 <= j < i ==> keys[j] in a && Readable(a, keys[j]))
    && (forall j :: i <= j < |keys| ==> keys[j] in a && Stored(b, keys[j], a[keys[j]]))
  }

  lemma ReadOneMore(a: Entries, b: Entries, c: Entries, keys: seq<Key>, i: nat)
    requires ReadSoFar(a, b, keys, i) && i < |keys| && Readable(b, keys[i]) && Visited(b, keys[i], c)
    requires forall j, k :: 0 <= j < k < |keys| ==> keys[j] != keys[k]
    ensures ReadSoFar(a, c, keys, i + 1)
  {
    forall j | i + 1 <= j < |keys| ensures Stored(c, keys[j], a[keys[j]]) {
      assert Stored(b, keys[j], a[keys[j]]) && keys[j] != keys[i];
      assert Stored(c, keys[j], b[keys[j]]);
    }
  }

  class TransactionStore {
    var marker: Option<seq<nat>>
    var entries: Entries
    ghost var faulted: bool   // some store call has failed or been cancelled

    ghost function Here(): Store
      reads this
    {
      Store(marker, entries)
    }

    constructor (marker: Option<seq<nat>>, entries: Entries)
      ensures this.marker == marker && this.entries == entries && !faulted
    {
      this.marker, this.entries, faulted := marker, entries, false;
    }

    method KvReadMarker() returns (r: Result<seq<nat>, Error>)
      modifies this`faulted
      ensures r.Ok? ==> marker == Some(r.value)
      ensures r == Err(NotFound) ==> marker == None
      ensures r.Err? && r.error != NotFound ==> r == Err(Io) && faulted
      ensures old(faulted) ==> faulted
    {
      var fails: bool := *;
      if fails { faulted := true; return Err(Io); }
      return if marker.None? then Err(NotFound) else Ok(marker.value);
    }

    method KvRead(k: Key) returns (r: Result<Entry, Error>)
      modifies this`faulted
      ensures r.Ok? ==> Stored(entries, k, r.value)
      ensures r == Err(NotFound) ==> k !in entries
      ensures r.Err? && r.error != NotFound ==> r == Err(Io) && faulted
      ensures old(faulted) ==> faulted
    {
      var fails: bool := *;
      if fails { faulted := true; return Err(Io); }
      return if k in entries then Ok(entries[k]) else Err(NotFound);
    }

    /** The keys in whatever order the store lists them. */
    method KvList() returns (r: Result<seq<Key>, Error>)
      modifies this`faulted
      ensures r.Ok? ==>
        && (forall k :: k in r.value <==> k in entries)
        && (forall i, j :: 0 <= i < j < |r.value| ==> r.value[i] != r.value[j])
      ensures r.Err? ==> faulted
      ensures old(faulted) ==> faulted
    {
      var fails: bool := *;
      if fails { faulted := true; return Err(Io); }
      var rest, keys := entries.Keys, [];
      while rest != {}
        invariant forall k :: k in entries <==> k in keys || k in rest
        invariant forall k :: k in keys ==> k !in rest
        invariant forall i, j :: 0 <= i < j < |keys| ==> keys[i] != keys[j]
        decreases rest
      {
        var k :| k in rest;
        keys, rest := keys + [k], rest - {k};
      }
      return Ok(keys);
    }

    method KvWrite(k: Key, v: Entry) returns (r: Result<(), Error>)
      modifies this`entries, this`faulted
      ensures entries == old(entries)[k := v] || (r.Err? && entries == old(entries))
      ensures r.Err? ==> faulted
      ensures old(faulted) ==> faulted
    {
      var fails: bool, committed: bool := *, *;
      if !fails || committed { entries := entries[k := v]; }
      if fails { faulted := true; return Err(Io); }
      return Ok(());
    }

    method KvRemove(k: Key) returns (r: Result<(), Error>)
      modifies this`entries, this`faulted
      ensures entries == old(entries) - {k} || (r.Err? && entries == old(entries))
      ensures r.Err? ==> faulted
      ensures old(faulted) ==> faulted
    {
      var fails: bool, committed: bool := *, *;
      if !fails || committed { entries := entries - {k}; }
      if fails { faulted := true; return Err(Io); }
      return Ok(());
    }

    method KvWriteMarker() returns (r: Result<(), Error>)
      modifies this`marker, this`faulted
      ensures marker == Some(COMPLETE) || (r.Err? && marker == old(marker))
      ensures r.Err? ==> faulted
      ensures old(faulted) ==> faulted
    {
      var fails: bool, committed: bool := *, *;
      if !fails || committed { marker := Some(COMPLETE); }
      if fails { faulted := true; return Err(Io); }
      return Ok(());
    }

    /** One listed key: skip it, or copy its record to its own id and drop the old key. */
    method MigrateKey(oldKey: Key) returns (r: Result<(), Error>)
      requires oldKey in entries
      modifies this`entries, this`faulted
      ensures MovesOn(old(entries), entries)
      ensures old(faulted) ==> faulted
      ensures r.Err? && ConflictFree(old(entries)) ==> faulted
      ensures r.Ok? ==> Visited(old(entries), oldKey, entries) && Readable(old(entries), oldKey)
    {
      KeepsIsReflexive(entries);
      var read := KvRead(oldKey);
      if read.Err? { return Err(read.error); }
      if read.value.Blank? { return Ok(()); }
      if read.value.Garbled? { return Err(Serialization); }
      var tx := read.value.tx;
      var newKey := tx.id;
      if oldKey == newKey { return Ok(()); }
      assert Misplaced(entries, oldKey);
      if oldKey != tx.ysId { return Err(InvalidFormat); }
      var existing := KvRead(newKey);
      match existing {
        case Ok(v) =>
          if !v.Tx? { return Err(Serialization); }
          if v.tx != tx { return Err(Duplicate); }
        case Err(e) =>
          if e != NotFound { return Err(e); }
          ghost var before := entries;
          var written := KvWrite(newKey, Tx(tx));
          if entries != before { CopyKeeps(before, oldKey); }
          if written.Err? { return written; }
      }
      ghost var copied := entries;
      RemoveKeeps(copied, oldKey);
      MovesOnIsTransitive(old(entries), copied, copied - {oldKey});
      r := KvRemove(oldKey);
    }

    /** `migrate_transaction_ids`: the marker, the listing, the loop, the marker again. */
    method MigrateTransactionIds() returns (r: Result<(), Error>)
      modifies this`marker, this`entries, this`faulted
      ensures Migrates(old(Here()), r, Here())
      ensures r.Err? && !faulted ==>
        !ConflictFree(old(entries)) || (old(marker).Some? && old(marker) != Some(COMPLETE))
    {
      KeepsIsReflexive(entries);
      var done := KvReadMarker();
      match done {
        case Ok(data) =>
          if data == COMPLETE { return Ok(()); }
          return Err(InvalidFormat);
        case Err(e) =>
          if e != NotFound { return Err(e); }
      }
      var listed := KvList();
      if listed.Err? { return Err(listed.error); }
      var keys := listed.value;
      if keys == [] {
        assert forall k :: k !in entries;
        return Ok(());
      }
      assert keys[0] in entries;
      r := MigrateAll(keys);
      if r.Err? { return; }
      r := KvWriteMarker();
    }

    /** The loop over the listed keys. */
    method MigrateAll(keys: seq<Key>) returns (r: Result<(), Error>)
      requires forall k :: k in keys <==> k in entries
      requires forall i, j :: 0 <= i < j < |keys| ==> keys[i] != keys[j]
      modifies this`entries, this`faulted
      ensures MovesOn(old(entries), entries) && (old(faulted) ==> faulted)
      ensures r.Ok? ==> InPlace(entries) && forall k :: k in old(entries) ==> Readable(old(entries), k)
      ensures r.Err? && ConflictFree(old(entries)) ==> faulted
    {
      KeepsIsReflexive(entries);
      for i := 0 to |keys|
        invariant old(faulted) ==> faulted
        invariant Progress(old(entries), entries, keys, i)
      {
        ghost var before := entries;
        var moved := MigrateKey(keys[i]);
        MovesOnIsTransitive(old(entries), before, entries);
        if moved.Err? { return moved; }
        ProgressStep(old(entries), before, entries, keys, i);
      }
      AllVisited(old(entries), entries, keys);
      return Ok(());
    }
  }

  ghost predicate Progress(a: Entries, b: Entries, keys: seq<Key>, i: nat) {
    MovesOn(a, b) && ReadSoFar(a, b, keys, i) && Unvisited(b, keys[i..])
  }

  lemma ProgressStep(a: Entries, b: Entries, c: Entries, keys: seq<Key>, i: nat)
    requires Progress(a, b, keys, i) && i < |keys| && MovesOn(b, c)
    requires Visited(b, keys[i], c) && keys[i] in b && Readable(b, keys[i])
    requires forall j, k :: 0 <= j < k < |keys| ==> keys[j] != keys[k]
    ensures Progress(a, c, keys, i + 1)
  {
    assert keys[i..][0] == keys[i] && keys[i..][1..] == keys[i + 1..];
    MovesOnIsTransitive(a, b, c);
    VisitedOne(b, c, keys[i..]);
    ReadOneMore(a, b, c, keys, i);
  }

  lemma AllVisited(a: Entries, b: Entries, keys: seq<Key>)
    requires Progress(a, b, keys, |keys|) && forall k :: k in keys <==> k in a
    ensures InPlace(b) && forall k :: k in a ==> Readable(a, k)
  {
    assert keys[|keys|..] == [];
    forall k | k in a ensures Readable(a, k) { var j :| 0 <= j < |keys| && keys[j] == k; }
  }

  // ----- what one copy and one removal keep

  lemma KeepsIsReflexive(a: Entries)
    ensures Keeps(a, a)
  {
  }

  lemma KeepsIsTransitive(a: Entries, b: Entries, c: Entries)
    requires Keeps(a, b) && Keeps(b, c)
    ensures Keeps(a, c)
  {
    forall k | k in c
      ensures Stored(a, k, c[k]) || (c[k].Tx? && c[k].tx.id == k && Occurs(a, c[k]))
    {
      if !Stored(b, k, c[k]) {
        var j :| Stored(b, j, c[k]);
        assert Occurs(a, b[j]) by {
          if Stored(a, j, b[j]) { }
        }
      }
    }
  }

  lemma MovesOnIsTransitive(a: Entries, b: Entries, c: Entries)
    requires MovesOn(a, b) && MovesOn(b, c)
    ensures MovesOn(a, c)
  {
    KeepsIsTransitive(a, b, c);
  }

  lemma VisitedOne(a: Entries, b: Entries, keys: seq<Key>)
    requires keys != [] && Unvisited(a, keys) && Visited(a, keys[0], b)
    ensures Unvisited(b, keys[1..])
  {
    var rest := keys[1..];
    assert keys == [keys[0]] + rest;
    forall i | 0 <= i < |rest| ensures rest[i] in b {
      assert rest[i] == keys[i + 1];
      assert Stored(b, rest[i], a[rest[i]]);
    }
    forall k | k in b ensures k in rest || Settled(b, k) {
      if k != keys[0] && k in a { assert Stored(b, k, a[k]); }
    }
  }

  lemma CopyKeeps(a: Entries, k: Key)
    requires Misplaced(a, k) && a[k].tx.id !in a
    ensures
      var b := a[a[k].tx.id := a[k]];
      MovesOn(a, b) && Backlog(b) == Backlog(a)
  {
    var b := a[a[k].tx.id := a[k]];
    assert Stored(a, k, a[k]);
    assert forall j :: j in a ==> Stored(b, j, a[j]);
    assert (set j | j in b && Misplaced(b, j)) == (set j | j in a && Misplaced(a, j));
  }

  lemma RemoveKeeps(a: Entries, k: Key)
    requires Misplaced(a, k) && Stored(a, a[k].tx.id, a[k])
    ensures
      var b := a - {k};
      MovesOn(a, b) && Backlog(b) < Backlog(a)
  {
    var b := a - {k};
    assert forall j :: j in b ==> Stored(a, j, b[j]);
    assert (set j | j in a && Misplaced(a, j)) == (set j | j in b && Misplaced(b, j)) + {k};
  }

  // ----- any number of interrupted runs

  ghost predicate Runs(states: seq<Store>, results: seq<Result<(), Error>>) {
    && |states| == |results| + 1
    && forall i :: 0 <= i < |results| ==> Migrates(states[i], results[i], states[i + 1])
  }

  /**
   However often the migration is stopped and rerun, on any store: every record is still
   there unaltered, the backlog never grows, and the marker is only ever set once the
   backlog is gone.
   */
  lemma {:induction false} RunsKeepEveryRecord(states: seq<Store>, results: seq<Result<(), Error>>, n: nat)
    requires Runs(states, results) && n <= |results| && states[0].marker == None
    ensures Keeps(states[0].entries, states[n].entries)
    ensures Backlog(states[n].entries) <= Backlog(states[0].entries)
    ensures states[n].marker == None || (states[n].marker == Some(COMPLETE) && InPlace(states[n].entries))
    ensures states[n].marker != None ==> states[0].entries != map[]
  {
    if n == 0 {
      KeepsIsReflexive(states[0].entries);
    } else {
      RunsKeepEveryRecord(states, results, n - 1);
      assert Migrates(states[n - 1], results[n - 1], states[n]);
      KeepsIsTransitive(states[0].entries, states[n - 1].entries, states[n].entries);
      if states[n - 1].marker == Some(COMPLETE) { KeepsInPlace(states[n - 1].entries, states[n].entries); }
    }
  }

  lemma KeepsInPlace(a: Entries, b: Entries)
    requires InPlace(a) && Keeps(a, b)
    ensures b == a
  {
  }

  /** Re-keying has one possible end state. */
  lemma RekeyedIsUnique(a: Entries, b: Entries, c: Entries)
    requires Keeps(a, b) && Keeps(a, c) && InPlace(b) && InPlace(c)
    ensures b == c
  {
    RekeyedIncluded(a, b, c);
    RekeyedIncluded(a, c, b);
  }

  lemma RekeyedIncluded(a: Entries, b: Entries, c: Entries)
    requires Keeps(a, b) && Keeps(a, c) && InPlace(b) && InPlace(c)
    ensures forall k :: k in b ==> Stored(c, k, b[k])
  {
    forall k | k in b ensures Stored(c, k, b[k]) {
      if b[k].Tx? {
        assert Occurs(a, b[k]) by { if Stored(a, k, b[k]) { } }
        var j: Key :| Stored(a, j, b[k]);
        assert j in a && a[j] == b[k];
      }
    }
  }

  /**
   The first run that reports success leaves exactly what a run that was never interrupted
   leaves, completion marker included: every record under its own id, every empty entry
   where it was, no backlog.
   */
  lemma InterruptedEqualsUninterrupted(
    states: seq<Store>, results: seq<Result<(), Error>>, clean: Store)
    requires Runs(states, results) && results != [] && states[0].marker == None
    requires results[|results| - 1].Ok?
    requires Migrates(states[0], Ok(()), clean)
    ensures states[|results|] == clean
    ensures InPlace(clean.entries) && Backlog(clean.entries) == 0
    ensures forall k, t :: Stored(clean.entries, k, Tx(t)) <==> k == t.id && Occurs(states[0].entries, Tx(t))
    ensures forall k :: Stored(clean.entries, k, Blank) <==> Stored(states[0].entries, k, Blank)
  {
    var n := |results|;
    RunsKeepEveryRecord(states, results, n - 1);
    RunsKeepEveryRecord(states, results, n);
    assert Migrates(states[n - 1], results[n - 1], states[n]);
    var a, b := states[0].entries, clean.entries;
    RekeyedIsUnique(a, states[n].entries, b);
    assert (set k | k in b && Misplaced(b, k)) == {};
    forall k, t | Stored(b, k, Tx(t)) ensures k == t.id && Occurs(a, Tx(t)) {
      if Stored(a, k, b[k]) { }
    }
    forall k, t: Transaction | k == t.id && Occurs(a, Tx(t)) ensures Stored(b, k, Tx(t)) {
      var j :| Stored(a, j, Tx(t));
      assert Stored(b, j, a[j]) || Stored(b, a[j].tx.id, a[j]);
    }
  }

  /** Two different records that claim one id: no run ever reports success over them. */
  lemma ClashNeverSucceeds(
    states: seq<Store>, results: seq<Result<(), Error>>, n: nat, t: Transaction, u: Transaction)
    requires Runs(states, results) && n < |results| && states[0].marker == None
    requires t != u && t.id == u.id
    requires Occurs(states[0].entries, Tx(t)) && Occurs(states[0].entries, Tx(u))
    ensures results[n].Err?
  {
    RunsKeepEveryRecord(states, results, n);
    RunsKeepEveryRecord(states, results, n + 1);
    assert Migrates(states[n], results[n], states[n + 1]);
    var a, b := states[0].entries, states[n + 1].entries;
    var j :| Stored(a, j, Tx(t));
    var k :| Stored(a, k, Tx(u));
    assert Stored(b, j, a[j]) || Stored(b, t.id, a[j]);
    assert Stored(b, k, a[k]) || Stored(b, u.id, a[k]);
  }
}
