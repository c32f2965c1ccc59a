/**
 Ecash proof records and the in-place upsert/dedupe/remove of a proof list.

 The list form works with an index map, a reverse scan and two retains. The reference
 form is a plain map: each added proof overwrites the record of its Y, keeping the
 derivation index already known for that Y, and the removed Ys are dropped.
 */
module Proofs {
  import opened Common

  // Curve points, operation ids and the parts of a record nothing here inspects are
  // abstract values with equality.
  type PublicKey = nat
  type OpId = nat

  datatype State = Unspent | Reserved | Pending | Spent | PendingSpent

  datatype Proof = Proof(
    y: PublicKey, amount: nat, state: State, owner: Option<OpId>, index: Option<nat>, rest: nat)

  ghost predicate UniqueYs(ps: seq<Proof>) {
    forall i, j :: 0 <= i < j < |ps| ==> ps[i].y != ps[j].y
  }

  function Ys(ps: seq<Proof>): set<PublicKey> {
    set p | p in ps :: p.y
  }

  /** `k` is the last position holding the Y it holds. */
  ghost predicate IsLast(ps: seq<Proof>, k: nat) {
    k < |ps| && forall j :: k < j < |ps| ==> ps[j].y != ps[k].y
  }

  ghost function ByY(ps: seq<Proof>): map<PublicKey, Proof>
    requires UniqueYs(ps)
  {
    map i | 0 <= i < |ps| :: ps[i].y := ps[i]
  }

  // ----- the list form

  function Without(ps: seq<Proof>, ys: set<PublicKey>): seq<Proof> {
    if ps == [] then []
    else
      var rest := Without(ps[..|ps| - 1], ys);
      if ps[|ps| - 1].y in ys then rest else rest + [ps[|ps| - 1]]
  }

  /** The derivation indexes known after `ps` has been folded into `known`. */
  function Indexes(known: map<PublicKey, nat>, ps: seq<Proof>): map<PublicKey, nat> {
    if ps == [] then known
    else
      var p := ps[|ps| - 1];
      var m := Indexes(known, ps[..|ps| - 1]);
      if p.index.Some? then m[p.y := p.index.value] else m
  }

  function Fill(p: Proof, known: map<PublicKey, nat>): Proof {
    if p.index.None? && p.y in known then p.(index := Some(known[p.y])) else p
  }

  function Filled(known: map<PublicKey, nat>, added: seq<Proof>): (filled: seq<Proof>)
    ensures |filled| == |added|
  {
    if added == [] then []
    else
      var init := added[..|added| - 1];
      Filled(known, init) + [Fill(added[|added| - 1], Indexes(known, init))]
  }

  /** Keeps the last record of every Y, in the order of those last records. */
  function DedupLast(ps: seq<Proof>): seq<Proof> {
    if ps == [] then []
    else if ps[0].y in Ys(ps[1..]) then DedupLast(ps[1..])
    else [ps[0]] + DedupLast(ps[1..])
  }

  function UpdatedList(cache: seq<Proof>, added: seq<Proof>, removed: seq<PublicKey>): seq<Proof> {
    var deduped := DedupLast(Filled(Indexes(map[], cache), added));
    Without(Without(cache, Ys(added)) + deduped, set y | y in removed)
  }

  // ----- the reference form

  ghost function Upsert(m: map<PublicKey, Proof>, p: Proof): map<PublicKey, Proof> {
    m[p.y := if p.index.None? && p.y in m then p.(index := m[p.y].index) else p]
  }

  ghost function UpsertAll(m: map<PublicKey, Proof>, added: seq<Proof>): map<PublicKey, Proof> {
    if added == [] then m else Upsert(UpsertAll(m, added[..|added| - 1]), added[|added| - 1])
  }

  ghost function MapUpdate(m: map<PublicKey, Proof>, added: seq<Proof>, removed: seq<PublicKey>)
    : map<PublicKey, Proof>
  {
    UpsertAll(m, added) - (set y | y in removed)
  }

  // ----- the loop computes the list form

  method UpdateProofsCache(cache: seq<Proof>, added: seq<Proof>, removedYs: seq<PublicKey>)
    returns (updated: seq<Proof>)
    ensures updated == UpdatedList(cache, added, removedYs)
  {
    var indexes := CollectIndexes(cache);
    var filled := FillIndexes(indexes, added);
    var deduped, addedYs := KeepLast(filled);
    FilledKeepsYs(indexes, added);
    SameYs(filled, added);
    var kept := Retain(cache, addedYs);
    updated := Retain(kept + deduped, set y | y in removedYs);
  }

  method CollectIndexes(cache: seq<Proof>) returns (indexes: map<PublicKey, nat>)
    ensures indexes == Indexes(map[], cache)
  {
    indexes := map[];
    for i := 0 to |cache|
      invariant indexes == Indexes(map[], cache[..i])
    {
      assert cache[..i + 1][..i] == cache[..i];
      if cache[i].index.Some? { indexes := indexes[cache[i].y := cache[i].index.value]; }
    }
    assert cache[..|cache|] == cache;
  }

  /** Fills in known indexes as it goes along; a filled one teaches nothing new. */
  method FillIndexes(known: map<PublicKey, nat>, added: seq<Proof>) returns (filled: seq<Proof>)
    ensures filled == Filled(known, added)
  {
    var indexes := known;
    filled := [];
    for i := 0 to |added|
      invariant indexes == Indexes(known, added[..i])
      invariant filled == Filled(known, added[..i])
    {
      assert added[..i + 1][..i] == added[..i];
      var p := added[i];
      if p.index.Some? {
        indexes := indexes[p.y := p.index.value];
      } else if p.y in indexes {
        p := p.(index := Some(indexes[p.y]));
      }
      filled := filled + [p];
    }
    assert added[..|added|] == added;
  }

  /** Scanning from the back and pushing to the front stands for push-then-reverse. */
  method KeepLast(filled: seq<Proof>) returns (deduped: seq<Proof>, seen: set<PublicKey>)
    ensures deduped == DedupLast(filled) && seen == Ys(filled)
  {
    deduped, seen := [], {};
    for i := |filled| downto 0
      invariant seen == Ys(filled[i..])
      invariant deduped == DedupLast(filled[i..])
    {
      assert filled[i..][1..] == filled[i + 1..] && filled[i..][0] == filled[i];
      assert filled[i..] == [filled[i]] + filled[i + 1..];
      if filled[i].y !in seen {
        seen := seen + {filled[i].y};
        deduped := [filled[i]] + deduped;
      }
    }
    assert filled[0..] == filled;
  }

  method Retain(ps: seq<Proof>, dropped: set<PublicKey>) returns (kept: seq<Proof>)
    ensures kept == Without(ps, dropped)
  {
    kept := [];
    for i := 0 to |ps|
      invariant kept == Without(ps[..i], dropped)
    {
      assert ps[..i + 1][..i] == ps[..i];
      if ps[i].y !in dropped { kept := kept + [ps[i]]; }
    }
    assert ps[..|ps|] == ps;
  }

  // ----- facts about the pieces of the list form

  lemma {:induction false} FilledKeepsYs(known: map<PublicKey, nat>, added: seq<Proof>)
    ensures forall i :: 0 <= i < |added| ==>
      Filled(known, added)[i] == Fill(added[i], Indexes(known, added[..i]))
  {
    if added != [] {
      var init := added[..|added| - 1];
      FilledKeepsYs(known, init);
      forall i | 0 <= i < |added|
        ensures Filled(known, added)[i] == Fill(added[i], Indexes(known, added[..i]))
      {
        if i < |init| { assert init[..i] == added[..i]; }
      }
    }
  }

  lemma SameYs(a: seq<Proof>, b: seq<Proof>)
    requires |a| == |b| && forall i :: 0 <= i < |a| ==> a[i].y == b[i].y
    ensures Ys(a) == Ys(b)
  {
    assert forall i :: 0 <= i < |a| ==> a[i] in a && b[i] in b;
  }

  lemma {:induction false} WithoutSpec(ps: seq<Proof>, ys: set<PublicKey>)
    ensures forall p :: p in Without(ps, ys) <==> p in ps && p.y !in ys
    ensures UniqueYs(ps) ==> UniqueYs(Without(ps, ys))
  {
    if ps != [] {
      var init := ps[..|ps| - 1];
      WithoutSpec(init, ys);
      assert ps == init + [ps[|ps| - 1]];
      if UniqueYs(ps) {
        assert UniqueYs(init);
        assert forall p :: p in Without(init, ys) ==> p in init && p.y != ps[|ps| - 1].y;
      }
    }
  }

  lemma {:induction false} DedupYs(ps: seq<Proof>)
    ensures UniqueYs(DedupLast(ps))
    ensures Ys(DedupLast(ps)) == Ys(ps)
  {
    if ps != [] {
      var tail, d := ps[1..], DedupLast(ps[1..]);
      DedupYs(tail);
      assert ps == [ps[0]] + tail;
      assert Ys(ps) == {ps[0].y} + Ys(tail);
      if ps[0].y !in Ys(tail) {
        assert Ys([ps[0]] + d) == {ps[0].y} + Ys(d);
        assert forall q :: q in d ==> q.y in Ys(d);
      }
    }
  }

  lemma {:induction false} DedupIsLast(ps: seq<Proof>, p: Proof) returns (k: nat)
    requires p in DedupLast(ps)
    ensures IsLast(ps, k) && ps[k] == p
  {
    if p in DedupLast(ps[1..]) {
      k := DedupIsLast(ps[1..], p);
      k := k + 1;
    } else {
      k := 0;
      assert forall j :: 0 < j < |ps| ==> ps[j] in ps[1..];
    }
  }

  // ----- the refinement

  /** The index map of the list form is the index column of the reference map. */
  ghost predicate IndexColumn(m: map<PublicKey, Proof>, known: map<PublicKey, nat>) {
    && known.Keys <= m.Keys
    && forall y :: y in m ==> m[y].index == if y in known then Some(known[y]) else None
  }

  lemma {:induction false} IndexesAgree(cache: seq<Proof>, added: seq<Proof>)
    requires UniqueYs(cache)
    ensures IndexColumn(UpsertAll(ByY(cache), added), Indexes(Indexes(map[], cache), added))
  {
    if added == [] {
      CachedIndexes(cache);
    } else {
      IndexesAgree(cache, added[..|added| - 1]);
    }
  }

  lemma ByYSnoc(cache: seq<Proof>)
    requires UniqueYs(cache) && cache != []
    ensures
      var init, p := cache[..|cache| - 1], cache[|cache| - 1];
      UniqueYs(init) && p.y !in ByY(init) && ByY(cache) == ByY(init)[p.y := p]
  {
    var init, p := cache[..|cache| - 1], cache[|cache| - 1];
    assert forall i :: 0 <= i < |init| ==> init[i] == cache[i];
  }

  lemma {:induction false} CachedIndexes(cache: seq<Proof>)
    requires UniqueYs(cache)
    ensures IndexColumn(ByY(cache), Indexes(map[], cache))
  {
    if cache != [] {
      ByYSnoc(cache);
      CachedIndexes(cache[..|cache| - 1]);
    }
  }

  /** Where the reference map gets each of its records from. */
  lemma {:induction false} UpsertAllSpec(m: map<PublicKey, Proof>, added: seq<Proof>)
    ensures UpsertAll(m, added).Keys == m.Keys + Ys(added)
    ensures forall y :: y in m && y !in Ys(added) ==> UpsertAll(m, added)[y] == m[y]
  {
    if added != [] {
      var init := added[..|added| - 1];
      UpsertAllSpec(m, init);
      assert added == init + [added[|added| - 1]];
    }
  }

  lemma {:induction false} UpsertAllLast(m: map<PublicKey, Proof>, added: seq<Proof>, k: nat)
    requires IsLast(added, k)
    ensures added[k].y in UpsertAll(m, added)
    ensures UpsertAll(m, added)[added[k].y] == Upsert(UpsertAll(m, added[..k]), added[k])[added[k].y]
  {
    var n := |added| - 1;
    if k < n {
      UpsertAllLast(m, added[..n], k);
      assert added[..n][..k] == added[..k];
    }
  }

  lemma RecordOfLast(cache: seq<Proof>, added: seq<Proof>, k: nat)
    requires UniqueYs(cache) && IsLast(added, k)
    ensures added[k].y in UpsertAll(ByY(cache), added)
    ensures UpsertAll(ByY(cache), added)[added[k].y] == Filled(Indexes(map[], cache), added)[k]
  {
    FilledKeepsYs(Indexes(map[], cache), added);
    IndexesAgree(cache, added[..k]);
    UpsertAllLast(ByY(cache), added, k);
  }

  /** Every record the list form ends with is the one the reference form holds. */
  lemma AddedRecord(cache: seq<Proof>, added: seq<Proof>, p: Proof)
    requires UniqueYs(cache)
    requires p in DedupLast(Filled(Indexes(map[], cache), added))
    ensures p.y in UpsertAll(ByY(cache), added) && UpsertAll(ByY(cache), added)[p.y] == p
  {
    var known := Indexes(map[], cache);
    var k := DedupIsLast(Filled(known, added), p);
    LastOfFilled(known, added, k);
    RecordOfLast(cache, added, k);
  }

  lemma LastOfFilled(known: map<PublicKey, nat>, added: seq<Proof>, k: nat)
    requires IsLast(Filled(known, added), k)
    ensures IsLast(added, k) && Filled(known, added)[k].y == added[k].y
  {
    FilledKeepsYs(known, added);
    forall j | k <= j < |added| ensures Filled(known, added)[j].y == added[j].y { }
  }

  lemma KeptRecord(cache: seq<Proof>, added: seq<Proof>, p: Proof)
    requires UniqueYs(cache)
    requires p in cache && p.y !in Ys(added)
    ensures p.y in UpsertAll(ByY(cache), added) && UpsertAll(ByY(cache), added)[p.y] == p
  {
    UpsertAllSpec(ByY(cache), added);
    ByYSpec(cache);
  }

  lemma MergedIsUnique(cache: seq<Proof>, added: seq<Proof>)
    requires UniqueYs(cache)
    ensures
      var merged := Without(cache, Ys(added)) + DedupLast(Filled(Indexes(map[], cache), added));
      UniqueYs(merged) && Ys(merged) == Ys(cache) + Ys(added)
  {
    var filled := Filled(Indexes(map[], cache), added);
    var kept, deduped := Without(cache, Ys(added)), DedupLast(filled);
    FilledKeepsYs(Indexes(map[], cache), added);
    SameYs(filled, added);
    DedupYs(filled);
    WithoutSpec(cache, Ys(added));
    assert forall i :: 0 <= i < |kept| ==> kept[i] in kept;
    forall i, j | 0 <= i < |kept| && 0 <= j < |deduped| ensures kept[i].y != deduped[j].y {
      assert deduped[j].y in Ys(deduped);
    }
    forall y | y in Ys(cache) + Ys(added) ensures y in Ys(kept + deduped) {
      if y in Ys(added) {
        var p :| p in deduped && p.y == y;
        assert p in kept + deduped;
      } else {
        var p :| p in cache && p.y == y;
        assert p in kept + deduped;
      }
    }
  }

  lemma ByYSpec(ps: seq<Proof>)
    requires UniqueYs(ps)
    ensures ByY(ps).Keys == Ys(ps)
    ensures forall p :: p in ps ==> p.y in ByY(ps) && ByY(ps)[p.y] == p
  {
    assert forall i :: 0 <= i < |ps| ==> ps[i] in ps;
  }

  lemma ByYIs(ps: seq<Proof>, m: map<PublicKey, Proof>)
    requires UniqueYs(ps) && Ys(ps) == m.Keys
    requires forall p :: p in ps ==> p.y in m && m[p.y] == p
    ensures ByY(ps) == m
  {
    ByYSpec(ps);
    forall y | y in m ensures y in ByY(ps) && ByY(ps)[y] == m[y] {
      var p :| p in ps && p.y == y;
    }
  }

  lemma WithoutYs(ps: seq<Proof>, ys: set<PublicKey>)
    ensures Ys(Without(ps, ys)) == Ys(ps) - ys
  {
    WithoutSpec(ps, ys);
    forall y | y in Ys(ps) - ys ensures y in Ys(Without(ps, ys)) {
      var p :| p in ps && p.y == y;
      assert p in Without(ps, ys);
    }
  }

  /** The list that replaces the cache is the plain map update, one record per Y. */
  lemma UpdateRefinesMap(cache: seq<Proof>, added: seq<Proof>, removed: seq<PublicKey>)
    requires UniqueYs(cache)
    ensures UniqueYs(UpdatedList(cache, added, removed))
    ensures ByY(UpdatedList(cache, added, removed)) == MapUpdate(ByY(cache), added, removed)
  {
    var kept, deduped := Without(cache, Ys(added)), DedupLast(Filled(Indexes(map[], cache), added));
    var gone := set y | y in removed;
    var updated := UpdatedList(cache, added, removed);
    MergedIsUnique(cache, added);
    WithoutSpec(cache, Ys(added));
    WithoutSpec(kept + deduped, gone);
    WithoutYs(kept + deduped, gone);
    UpsertAllSpec(ByY(cache), added);
    ByYSpec(cache);
    forall p | p in updated ensures p.y in MapUpdate(ByY(cache), added, removed)
                              && MapUpdate(ByY(cache), added, removed)[p.y] == p
    {
      if p in deduped { AddedRecord(cache, added, p); } else { KeptRecord(cache, added, p); }
    }
    ByYIs(updated, MapUpdate(ByY(cache), added, removed));
  }

  /** The last non-empty derivation index of `y` among its cached record and its additions. */
  function LastIndex(cache: seq<Proof>, added: seq<Proof>, y: PublicKey): Option<nat>
    decreases |cache| + |added|
  {
    if added != [] then
      var p := added[|added| - 1];
      if p.y == y && p.index.Some? then p.index else LastIndex(cache, added[..|added| - 1], y)
    else if cache != [] then
      var p := cache[|cache| - 1];
      if p.y == y && p.index.Some? then p.index else LastIndex(cache[..|cache| - 1], added, y)
    else None
  }

  /** The record at `k` gives `y` an index, and no later one does. */
  ghost predicate GivesLast(records: seq<Proof>, k: nat, y: PublicKey) {
    && k < |records| && records[k].y == y && records[k].index.Some?
    && forall j :: k < j < |records| && records[j].y == y ==> records[j].index == None
  }

  /** Read off the cached records followed by the additions. */
  lemma {:induction false} LastIndexIsLast(cache: seq<Proof>, added: seq<Proof>, y: PublicKey)
    ensures forall k: nat :: GivesLast(cache + added, k, y) ==> LastIndex(cache, added, y) == (cache + added)[k].index
    ensures LastIndex(cache, added, y) == None <==> forall p :: p in cache + added && p.y == y ==> p.index == None
    decreases |cache| + |added|
  {
    var all := cache + added;
    if all != [] {
      var n := |all| - 1;
      var c, a := if added == [] then cache[..n] else cache, if added == [] then added else added[..|added| - 1];
      LastIndexIsLast(c, a, y);
      LastIndexSnoc(cache, added, c, a, y);
      forall k: nat | GivesLast(all, k, y) ensures LastIndex(cache, added, y) == all[k].index {
        if k < n { GivesLastInInit(all, k, y); }
      }
      assert all == all[..n] + [all[n]];
    }
  }

  lemma LastIndexSnoc(cache: seq<Proof>, added: seq<Proof>, c: seq<Proof>, a: seq<Proof>, y: PublicKey)
    requires cache + added != []
    requires if added == [] then c == cache[..|cache| - 1] && a == [] else c == cache && a == added[..|added| - 1]
    ensures
      var all := cache + added;
      var last := all[|all| - 1];
      && all[..|all| - 1] == c + a
      && LastIndex(cache, added, y) == if last.y == y && last.index.Some? then last.index else LastIndex(c, a, y)
  {
  }

  lemma GivesLastInInit(all: seq<Proof>, k: nat, y: PublicKey)
    requires GivesLast(all, k, y) && k < |all| - 1
    ensures GivesLast(all[..|all| - 1], k, y) && !(all[|all| - 1].y == y && all[|all| - 1].index.Some?)
  {
  }

  lemma {:induction false} LastIndexIsMapIndex(cache: seq<Proof>, added: seq<Proof>, y: PublicKey)
    requires UniqueYs(cache)
    ensures
      var m := UpsertAll(ByY(cache), added);
      LastIndex(cache, added, y) == if y in m then m[y].index else None
    decreases |cache| + |added|
  {
    if added != [] {
      LastIndexIsMapIndex(cache, added[..|added| - 1], y);
    } else if cache != [] {
      ByYSnoc(cache);
      LastIndexIsMapIndex(cache[..|cache| - 1], added, y);
    }
  }

  /**
   Presence and contents, spelled out without the reference map: a Y is there iff it was
   cached or added and is not removed; its record is its last addition (or else the cached
   one) with the last derivation index that was ever given for it.
   */
  lemma UpdateKeepsLastRecord(cache: seq<Proof>, added: seq<Proof>, removed: seq<PublicKey>, y: PublicKey)
    requires UniqueYs(cache)
    ensures
      var updated := UpdatedList(cache, added, removed);
      && UniqueYs(updated)
      && (y in ByY(updated) <==> (y in Ys(cache) || y in Ys(added)) && y !in removed)
      && (y in ByY(updated) ==>
        && ByY(updated)[y].index == LastIndex(cache, added, y)
        && (y !in Ys(added) ==> ByY(updated)[y] == ByY(cache)[y])
        && (forall k: nat :: IsLast(added, k) && added[k].y == y ==>
          ByY(updated)[y] == added[k].(index := LastIndex(cache, added, y))))
  {
    UpdateRefinesMap(cache, added, removed);
    UpsertAllSpec(ByY(cache), added);
    ByYSpec(cache);
    LastIndexIsMapIndex(cache, added, y);
    forall k: nat | IsLast(added, k) && added[k].y == y
      ensures UpsertAll(ByY(cache), added)[y] == added[k].(index := LastIndex(cache, added, y))
    {
      UpsertAllLast(ByY(cache), added, k);
    }
  }

  /** A derivation index once known for a Y survives every update that keeps the Y. */
  lemma UpdateNeverLosesIndex(cache: seq<Proof>, added: seq<Proof>, removed: seq<PublicKey>, p: Proof)
    requires UniqueYs(cache)
    requires p in cache && p.index.Some? && p.y !in removed
    ensures
      var updated := UpdatedList(cache, added, removed);
      UniqueYs(updated) && p.y in ByY(updated) && ByY(updated)[p.y].index.Some?
  {
    UpdateRefinesMap(cache, added, removed);
    ByYSpec(cache);
    KnownIndexStays(ByY(cache), added, p.y);
  }

  lemma {:induction false} KnownIndexStays(m: map<PublicKey, Proof>, added: seq<Proof>, y: PublicKey)
    requires y in m && m[y].index.Some?
    ensures y in UpsertAll(m, added) && UpsertAll(m, added)[y].index.Some?
  {
    if added != [] { KnownIndexStays(m, added[..|added| - 1], y); }
  }
}
