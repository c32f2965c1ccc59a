/**
 The Cashu proof database: an in-memory proof cache over one durable snapshot.

 Every store call may succeed, fail before it commits, commit with a lost
 acknowledgement, or be cancelled on either side of the commit. An uncertain write is
 resolved one way or the other before the next read of the same key, and one wallet
 instance uses the store. The mutation mutex serialises the calls that change proofs, so
 a run is a sequence of whole calls; lock-free readers may look between any two
 assignments of a call, and `instants` records every state they can see. The cache lock
 and the flag are taken as sequentially consistent.
 */
module ProofDb {
  import opened Common
  import opened Proofs

  const PROOFS_SCHEMA_VERSION: nat := 1

  datatype Blob = Missing | Blank | Garbled | Versioned(version: nat, proofs: seq<Proof>)

  /** The ownership index older adapters kept per operation; it may fail to parse. */
  datatype LegacyIndex = BadIndex | Index(ys: seq<PublicKey>)

  datatype Error = Io | Cancelled | Serialization | InvalidFormat | Duplicate | ProofNotUnspent

  datatype Outcome = Done | Snapshot(proofs: seq<Proof>) | Failed(error: Error)

  /** Durable part (`blob`, `legacy`) and in-memory part of one wallet instance. */
  datatype Db = Db(
    blob: Blob, legacy: map<OpId, LegacyIndex>, cache: seq<Proof>, dirty: bool, live: bool)

  datatype Call =
    | Update(added: seq<Proof>, removed: seq<PublicKey>)
    | SetState(changed: seq<PublicKey>, state: State)
    | Reserve(ys: seq<PublicKey>, op: OpId)
    | Release(op: OpId)
    | ReadAll
    | Restart

  predicate IoFailure(e: Error) { e == Io || e == Cancelled }

  ghost function Load(b: Blob): Result<seq<Proof>, Error> {
    match b
    case Missing => Ok([])
    case Blank => Ok([])
    case Garbled => Err(Serialization)
    case Versioned(v, ps) =>
      if v != PROOFS_SCHEMA_VERSION then Err(InvalidFormat)
      else if !UniqueYs(ps) then Err(Duplicate)
      else Ok(ps)
  }

  function Saved(ps: seq<Proof>): Blob { Versioned(PROOFS_SCHEMA_VERSION, ps) }

  /** While the flag is down the cache is the committed snapshot. */
  ghost predicate Coherent(s: Db) {
    s.live && !s.dirty ==> Load(s.blob) == Ok(s.cache)
  }

  // ----- what each call writes

  function SetOf(ys: seq<PublicKey>): set<PublicKey> { set y | y in ys }

  function Stated(ps: seq<Proof>, ys: set<PublicKey>, state: State): seq<Proof> {
    seq(|ps|, i requires 0 <= i < |ps| => if ps[i].y in ys then ps[i].(state := state) else ps[i])
  }

  function Marked(ps: seq<Proof>, ys: set<PublicKey>, op: OpId): seq<Proof> {
    seq(|ps|, i requires 0 <= i < |ps| =>
      if ps[i].y in ys then ps[i].(state := Reserved, owner := Some(op)) else ps[i])
  }

  predicate Owns(p: Proof, listed: seq<PublicKey>, op: OpId) {
    match p.owner
    case Some(o) => o == op
    case None => p.y in listed
  }

  predicate Releasable(p: Proof, listed: seq<PublicKey>, op: OpId) {
    Owns(p, listed, op) && (p.state == Reserved || p.state == Pending)
  }

  function Released(ps: seq<Proof>, listed: seq<PublicKey>, op: OpId): seq<Proof> {
    seq(|ps|, i requires 0 <= i < |ps| =>
      if Releasable(ps[i], listed, op) then ps[i].(state := Unspent, owner := None) else ps[i])
  }

  function Listed(legacy: map<OpId, LegacyIndex>, op: OpId): seq<PublicKey> {
    if op in legacy && legacy[op].Index? then legacy[op].ys else []
  }

  predicate Claimable(p: Proof, listed: seq<PublicKey>, op: OpId) {
    && (p.owner == None || p.owner == Some(op))
    && (p.state == Unspent || p.state == Reserved)
    && (p.state == Reserved && p.owner == None ==> p.y in listed)
  }

  ghost predicate CanReserve(ps: seq<Proof>, listed: seq<PublicKey>, ys: seq<PublicKey>, op: OpId) {
    && |SetOf(ys)| == |ys|
    && SetOf(ys) <= Ys(ps)
    && forall p :: p in ps && p.y in ys ==> Claimable(p, listed, op)
  }

  // ----- one call, as a relation between the states around it

  ghost predicate Persists(s: Db, target: seq<Proof>, r: Outcome, t: Db) {
    || (r == Done && t == s.(blob := Saved(target), cache := target, dirty := false))
    || (r.Failed? && IoFailure(r.error)
        && (t == s.(dirty := true) || t == s.(dirty := true, blob := Saved(target))))
    || (r == Failed(Duplicate) && !UniqueYs(target) && t == s)
  }

  ghost predicate LegacyFails(s: Db, op: OpId, r: Outcome, t: Db) {
    && t == s && r.Failed?
    && (IoFailure(r.error) || (op in s.legacy && s.legacy[op].BadIndex? && r.error == Serialization))
  }

  ghost predicate Reserves(s: Db, ys: seq<PublicKey>, op: OpId, r: Outcome, t: Db) {
    var can := CanReserve(s.cache, Listed(s.legacy, op), ys, op);
    || (r == Failed(ProofNotUnspent) && !can && t == s)
    || LegacyFails(s, op, r, t)
    || (can && Persists(s, Marked(s.cache, SetOf(ys), op), r, t))
  }

  ghost predicate Releases(s: Db, op: OpId, r: Outcome, t: Db) {
    var target := Released(s.cache, Listed(s.legacy, op), op);
    var mid := s.(blob := Saved(target), cache := target, dirty := false);
    || LegacyFails(s, op, r, t)
    || (r.Failed? && Persists(s, target, r, t))
    || (r == Done && t == mid.(legacy := s.legacy - {op}))
    || (r.Failed? && IoFailure(r.error) && (t == mid || t == mid.(legacy := s.legacy - {op})))
  }

  /** The part of a call that follows a successful reload. */
  ghost predicate After(s: Db, c: Call, r: Outcome, t: Db) {
    match c
    case Update(added, removed) => Rewrites(s, UpdatedList(s.cache, added, removed), r, t)
    case SetState(ys, state) => Rewrites(s, Stated(s.cache, SetOf(ys), state), r, t)
    case Reserve(ys, op) => Reserves(s, ys, op, r, t)
    case Release(op) => Releases(s, op, r, t)
    case ReadAll => r == Snapshot(s.cache) && t == s
    case Restart => false
  }

  ghost predicate Rewrites(s: Db, target: seq<Proof>, r: Outcome, t: Db) {
    if target == s.cache then r == Done && t == s else Persists(s, target, r, t)
  }

  ghost predicate Reopens(s: Db, r: Outcome, t: Db) {
    || (r.Failed? && t == s.(cache := [], dirty := false, live := false))
    || (r == Done && Load(s.blob).Ok?
        && t == s.(cache := Load(s.blob).value, dirty := false, live := true))
  }

  ghost predicate Next(s: Db, c: Call, r: Outcome, t: Db) {
    if c.Restart? then Reopens(s, r, t)
    else if c.Reserve? && c.ys == [] then s.live && r == Done && t == s
    else
      && s.live
      && (|| (s.dirty && r.Failed? && (IoFailure(r.error) || Load(s.blob) == Err(r.error)) && t == s)
          || (s.dirty && Load(s.blob).Ok? && After(s.(cache := Load(s.blob).value, dirty := false), c, r, t))
          || (!s.dirty && After(s, c, r, t)))
  }

  // ----- the class

  class CashuKvDatabase {
    // the store: only the Kv methods touch these; a reliable one never fails or cancels
    const reliable: bool
    var blob: Blob
    var legacy: map<OpId, LegacyIndex>
    // the wallet instance
    var cache: seq<Proof>
    var dirty: bool
    var live: bool
    // every state a concurrent reader could have seen
    ghost var instants: seq<Db>

    ghost function Here(): Db
      reads this
    {
      Db(blob, legacy, cache, dirty, live)
    }

    ghost predicate Valid()
      reads this
    {
      Coherent(Here()) && forall s :: s in instants ==> Coherent(s)
    }

    constructor (reliable: bool, blob: Blob, legacy: map<OpId, LegacyIndex>)
      ensures Valid() && Here() == Db(blob, legacy, [], false, false) && this.reliable == reliable
    {
      this.reliable := reliable;
      this.blob, this.legacy, cache, dirty, live, instants := blob, legacy, [], false, false, [];
    }

    predicate BadlyIndexed(op: OpId)
      reads this
    {
      op in legacy && legacy[op].BadIndex?
    }

    method KvReadBlob() returns (r: Result<Blob, Error>)
      ensures r.Ok? ==> r.value == blob
      ensures r.Err? ==> IoFailure(r.error) && !reliable
    {
      var fails: bool, cancelled: bool := *, *;
      if fails && !reliable { return Err(if cancelled then Cancelled else Io); }
      return Ok(blob);
    }

    method KvWriteBlob(data: Blob) returns (r: Outcome)
      requires Valid() && dirty
      modifies this`blob, this`instants
      ensures Valid() && old(instants) <= instants
      ensures r == Done || (r.Failed? && IoFailure(r.error) && !reliable)
      ensures blob == data || (r.Failed? && blob == old(blob))
    {
      var fails: bool, cancelled: bool, committed: bool := *, *, *;
      fails := fails && !reliable;
      if !fails || committed {
        blob := data;
        instants := instants + [Here()];
      }
      if fails { return Failed(if cancelled then Cancelled else Io); }
      return Done;
    }

    method KvReadLegacy(op: OpId) returns (r: Result<seq<PublicKey>, Error>)
      ensures r.Ok? ==> r.value == Listed(legacy, op)
      ensures r.Err? ==> LegacyFails(Here(), op, Failed(r.error), Here())
      ensures r.Err? ==> !reliable || BadlyIndexed(op)
    {
      var fails: bool, cancelled: bool := *, *;
      if fails && !reliable { return Err(if cancelled then Cancelled else Io); }
      if op !in legacy { return Ok([]); }
      match legacy[op]
      case BadIndex => return Err(Serialization);
      case Index(ys) => return Ok(ys);
    }

    method KvRemoveLegacy(op: OpId) returns (r: Outcome)
      requires Valid()
      modifies this`legacy, this`instants
      ensures Valid() && old(instants) <= instants
      ensures r == Done || (r.Failed? && IoFailure(r.error) && !reliable)
      ensures legacy == old(legacy) - {op} || (r.Failed? && legacy == old(legacy))
    {
      var fails: bool, cancelled: bool, committed: bool := *, *, *;
      fails := fails && !reliable;
      if !fails || committed {
        legacy := legacy - {op};
        instants := instants + [Here()];
      }
      if fails { return Failed(if cancelled then Cancelled else Io); }
      return Done;
    }

    static method EnsureUniqueProofYs(proofs: seq<Proof>) returns (unique: bool)
      ensures unique <==> UniqueYs(proofs)
    {
      var ys: set<PublicKey> := {};
      for i := 0 to |proofs|
        invariant forall y :: y in ys <==> exists k :: 0 <= k < i && proofs[k].y == y
        invariant UniqueYs(proofs[..i])
      {
        if proofs[i].y in ys {
          var k :| 0 <= k < i && proofs[k].y == proofs[i].y;
          return false;
        }
        ys := ys + {proofs[i].y};
      }
      assert proofs[..|proofs|] == proofs;
      return true;
    }

    method LoadProofsFromStore() returns (r: Result<seq<Proof>, Error>)
      ensures r == Load(blob) || (r.Err? && IoFailure(r.error) && !reliable)
      // every branch spelled out
      ensures r.Ok? ==>
        || ((blob.Missing? || blob.Blank?) && r.value == [])
        || (blob.Versioned? && blob.version == 1 && UniqueYs(blob.proofs) && r.value == blob.proofs)
      ensures r == Err(Serialization) ==> blob.Garbled?
      ensures r == Err(InvalidFormat) ==> blob.Versioned? && blob.version != 1
      ensures r == Err(Duplicate) ==> blob.Versioned? && blob.version == 1 && !UniqueYs(blob.proofs)
      ensures r != Err(ProofNotUnspent)
    {
      var read := KvReadBlob();
      if read.Err? { return Err(read.error); }
      match read.value
      case Missing => return Ok([]);
      case Blank => return Ok([]);
      case Garbled => return Err(Serialization);
      case Versioned(v, ps) =>
        if v != PROOFS_SCHEMA_VERSION { return Err(InvalidFormat); }
        var unique := EnsureUniqueProofYs(ps);
        if !unique { return Err(Duplicate); }
        return Ok(ps);
    }

    method ReloadUncertainProofs() returns (r: Outcome)
      requires Valid() && live
      modifies this`cache, this`dirty, this`instants
      ensures Valid() && old(instants) <= instants
      ensures r == Done || r.Failed?
      ensures r.Failed? ==>
        && old(dirty) && Here() == old(Here())
        && ((IoFailure(r.error) && !reliable) || Load(blob) == Err(r.error))
      ensures r == Done ==>
        && !dirty
        && (if old(dirty) then Load(blob) == Ok(cache) else Here() == old(Here()))
    {
      if dirty {
        var loaded := LoadProofsFromStore();
        if loaded.Err? { return Failed(loaded.error); }
        cache := loaded.value;
        instants := instants + [Here()];
        dirty := false;
        instants := instants + [Here()];
      }
      return Done;
    }

    /** Raise the flag, write, then (only on an acknowledged write) install and lower it. */
    method Commit(proofs: seq<Proof>) returns (r: Outcome)
      requires Valid() && live && !dirty
      modifies this`blob, this`cache, this`dirty, this`instants
      ensures Valid() && old(instants) <= instants
      ensures Persists(old(Here()), proofs, r, Here())
      ensures reliable && UniqueYs(proofs) ==> r == Done
    {
      var unique := EnsureUniqueProofYs(proofs);
      if !unique { return Failed(Duplicate); }
      dirty := true;
      instants := instants + [Here()];
      r := KvWriteBlob(Saved(proofs));
      if r.Failed? { return; }
      cache := proofs;
      instants := instants + [Here()];
      dirty := false;
      instants := instants + [Here()];
    }

    method ReadProofs() returns (r: Outcome)
      requires Valid() && live
      modifies this`cache, this`dirty, this`instants
      ensures Valid() && old(instants) <= instants
      ensures Next(old(Here()), ReadAll, r, Here())
      ensures reliable && Load(blob).Ok? ==> !r.Failed?
    {
      if !dirty { return Snapshot(cache); }
      r := ReloadUncertainProofs();
      if r.Failed? { return; }
      return Snapshot(cache);
    }

    method UpdateProofs(added: seq<Proof>, removedYs: seq<PublicKey>) returns (r: Outcome)
      requires Valid() && live
      modifies this`blob, this`cache, this`dirty, this`instants
      ensures Valid() && old(instants) <= instants
      ensures Next(old(Here()), Update(added, removedYs), r, Here())
      ensures reliable && Load(old(blob)).Ok? ==> r == Done
    {
      r := ReloadUncertainProofs();
      if r.Failed? { return; }
      var updated := UpdateProofsCache(cache, added, removedYs);
      if updated != cache {
        if UniqueYs(cache) { UpdateRefinesMap(cache, added, removedYs); }
        r := Commit(updated);
      }
    }

    method UpdateProofsState(ys: seq<PublicKey>, state: State) returns (r: Outcome)
      requires Valid() && live
      modifies this`blob, this`cache, this`dirty, this`instants
      ensures Valid() && old(instants) <= instants
      ensures Next(old(Here()), SetState(ys, state), r, Here())
      ensures reliable && Load(old(blob)).Ok? ==> r == Done
    {
      r := ReloadUncertainProofs();
      if r.Failed? { return; }
      var updated, changed := StateAll(ys, state);
      if changed { r := Commit(updated); }
    }

    /** A working copy of the cache with the listed proofs in their new state. */
    method StateAll(ys: seq<PublicKey>, state: State) returns (updated: seq<Proof>, changed: bool)
      ensures updated == Stated(cache, SetOf(ys), state)
      ensures changed <==> updated != cache
    {
      ghost var target := Stated(cache, SetOf(ys), state);
      updated, changed := cache, false;
      for i := 0 to |cache|
        invariant |updated| == |cache|
        invariant forall k :: 0 <= k < i ==> updated[k] == target[k]
        invariant forall k :: i <= k < |cache| ==> updated[k] == cache[k]
        invariant changed <==> updated != cache
      {
        if updated[i].y in ys && updated[i].state != state {
          updated := updated[i := updated[i].(state := state)];
          changed := true;
          assert updated[i] != cache[i];
        }
      }
    }

    /** The committed proofs an operation owns, inline or through the legacy index. */
    method ReservedProofs(op: OpId) returns (r: Result<seq<Proof>, Error>)
      ensures r.Err? ==> LegacyFails(Here(), op, Failed(r.error), Here())
      ensures r.Err? ==> !reliable || BadlyIndexed(op)
      ensures r.Ok? ==> forall p :: p in r.value <==> p in cache && Owns(p, Listed(legacy, op), op)
      ensures r.Ok? ==> forall p :: p in r.value <==>
        p in cache && (p.owner == Some(op) || (p.owner == None && op in legacy && legacy[op].Index? && p.y in legacy[op].ys))
    {
      var read := KvReadLegacy(op);
      if read.Err? { return Err(read.error); }
      var owned: seq<Proof> := [];
      for i := 0 to |cache|
        invariant forall p :: p in owned <==> p in cache[..i] && Owns(p, read.value, op)
      {
        if Owns(cache[i], read.value, op) { owned := owned + [cache[i]]; }
      }
      assert cache[..|cache|] == cache;
      return Ok(owned);
    }

    /** Checks and marks a working copy of the cache; any refusal rejects the whole selection. */
    method ClaimAll(ys: seq<PublicKey>, op: OpId) returns (r: Result<seq<Proof>, Error>)
      requires UniqueYs(cache)
      ensures r.Ok? ==> CanReserve(cache, Listed(legacy, op), ys, op) && r.value == Marked(cache, SetOf(ys), op)
      ensures r.Err? ==>
        || (r.error == ProofNotUnspent && !CanReserve(cache, Listed(legacy, op), ys, op))
        || (LegacyFails(Here(), op, Failed(r.error), Here()) && (!reliable || BadlyIndexed(op)))
    {
      var proofs := cache;
      var requested := SetOf(ys);
      var found := CountRequested(proofs, requested);
      AllRequestedPresent(proofs, ys);
      if |requested| != |ys| || found != |ys| { return Err(ProofNotUnspent); }
      for i := 0 to |cache|
        invariant |proofs| == |cache|
        invariant forall k :: 0 <= k < i ==> proofs[k] == Marked(cache, requested, op)[k]
        invariant forall k :: i <= k < |cache| ==> proofs[k] == cache[k]
        invariant forall k :: 0 <= k < i && cache[k].y in requested ==> Claimable(cache[k], Listed(legacy, op), op)
      {
        var proof := proofs[i];
        if proof.y in requested {
          assert proof in cache && proof.y in ys;
          if (proof.owner.Some? && proof.owner.value != op) || (proof.state != Unspent && proof.state != Reserved) {
            return Err(ProofNotUnspent);
          }
          if proof.state == Reserved && proof.owner.None? {
            var reserved := ReservedProofs(op);
            if reserved.Err? { return Err(reserved.error); }
            if !(exists p :: p in reserved.value && p.y == proof.y) { return Err(ProofNotUnspent); }
            var q :| q in reserved.value && q.y == proof.y;
            SameYSameProof(cache, q, proof);
          }
          proofs := proofs[i := proof.(state := Reserved, owner := Some(op))];
        }
      }
      assert proofs == Marked(cache, requested, op);
      return Ok(proofs);
    }

    method ReserveProofs(ys: seq<PublicKey>, op: OpId) returns (r: Outcome)
      requires Valid() && live
      modifies this`blob, this`cache, this`dirty, this`instants
      ensures Valid() && old(instants) <= instants
      ensures Next(old(Here()), Reserve(ys, op), r, Here())
      ensures reliable && Load(old(blob)).Ok? && !old(BadlyIndexed(op)) ==> r == Done || r == Failed(ProofNotUnspent)
    {
      if ys == [] { return Done; }
      r := ReloadUncertainProofs();
      if r.Failed? { return; }
      var claimed := ClaimAll(ys, op);
      if claimed.Err? { return Failed(claimed.error); }
      r := Commit(claimed.value);
    }

    method ReleaseProofs(op: OpId) returns (r: Outcome)
      requires Valid() && live
      modifies this`blob, this`legacy, this`cache, this`dirty, this`instants
      ensures Valid() && old(instants) <= instants
      ensures Next(old(Here()), Release(op), r, Here())
      ensures reliable && Load(old(blob)).Ok? && !old(BadlyIndexed(op)) ==> r == Done
    {
      r := ReloadUncertainProofs();
      if r.Failed? { return; }
      var reserved := ReservedProofs(op);
      if reserved.Err? { return Failed(reserved.error); }
      var proofs := FreeAll(reserved.value, op);
      r := Commit(proofs);
      if r.Failed? { return; }
      r := KvRemoveLegacy(op);
    }

    /** A working copy of the cache with the operation's reserved and pending proofs unspent. */
    method FreeAll(reserved: seq<Proof>, op: OpId) returns (proofs: seq<Proof>)
      requires UniqueYs(cache)
      requires forall p :: p in reserved <==> p in cache && Owns(p, Listed(legacy, op), op)
      ensures proofs == Released(cache, Listed(legacy, op), op)
    {
      ghost var target := Released(cache, Listed(legacy, op), op);
      proofs := cache;
      for i := 0 to |cache|
        invariant |proofs| == |cache|
        invariant forall k :: 0 <= k < i ==> proofs[k] == target[k]
        invariant forall k :: i <= k < |cache| ==> proofs[k] == cache[k]
      {
        var proof := proofs[i];
        if exists p :: p in reserved && p.y == proof.y {
          var q :| q in reserved && q.y == proof.y;
          SameYSameProof(cache, q, proof);
          if proof.state == Reserved || proof.state == Pending {
            proofs := proofs[i := proof.(state := Unspent, owner := None)];
          }
        }
      }
    }

    /** A new process over the same store; nothing is exposed until the proofs are read. */
    method Reopen() returns (r: Outcome)
      requires Valid()
      modifies this`cache, this`dirty, this`live, this`instants
      ensures Valid() && old(instants) <= instants
      ensures Next(old(Here()), Restart, r, Here())
      ensures reliable && Load(blob).Ok? ==> r == Done
    {
      live, cache, dirty := false, [], false;
      instants := instants + [Here()];
      var loaded := LoadProofsFromStore();
      if loaded.Err? { return Failed(loaded.error); }
      cache, live := loaded.value, true;
      instants := instants + [Here()];
      return Done;
    }
  }

  // ----- counting the requested proofs

  ghost function Matching(ps: seq<Proof>, ys: set<PublicKey>): nat {
    if ps == [] then 0
    else Matching(ps[..|ps| - 1], ys) + if ps[|ps| - 1].y in ys then 1 else 0
  }

  method CountRequested(ps: seq<Proof>, ys: set<PublicKey>) returns (n: nat)
    ensures n == Matching(ps, ys)
  {
    n := 0;
    for i := 0 to |ps|
      invariant n == Matching(ps[..i], ys)
    {
      assert ps[..i + 1][..i] == ps[..i];
      if ps[i].y in ys { n := n + 1; }
    }
    assert ps[..|ps|] == ps;
  }

  lemma YsSnoc(ps: seq<Proof>)
    requires UniqueYs(ps) && ps != []
    ensures
      var init, p := ps[..|ps| - 1], ps[|ps| - 1];
      UniqueYs(init) && Ys(ps) == Ys(init) + {p.y} && p.y !in Ys(init)
  {
    var init, p := ps[..|ps| - 1], ps[|ps| - 1];
    assert forall i :: 0 <= i < |init| ==> init[i] == ps[i];
    assert ps == init + [p];
  }

  lemma {:induction false} MatchingCounts(ps: seq<Proof>, ys: set<PublicKey>)
    requires UniqueYs(ps)
    ensures Matching(ps, ys) == |ys * Ys(ps)|
  {
    if ps == [] {
      assert ys * Ys(ps) == {};
    } else {
      var init, p := ps[..|ps| - 1], ps[|ps| - 1];
      MatchingCounts(init, ys);
      YsSnoc(ps);
      if p.y in ys {
        assert ys * Ys(ps) == ys * Ys(init) + {p.y};
      } else {
        assert ys * Ys(ps) == ys * Ys(init);
      }
    }
  }

  /** The size test accepts exactly the selections whose proofs are all still there. */
  lemma AllRequestedPresent(ps: seq<Proof>, ys: seq<PublicKey>)
    requires UniqueYs(ps)
    ensures |SetOf(ys)| == |ys| && Matching(ps, SetOf(ys)) == |ys|
       <==> |SetOf(ys)| == |ys| && SetOf(ys) <= Ys(ps)
  {
    var requested := SetOf(ys);
    MatchingCounts(ps, requested);
    if |requested * Ys(ps)| == |requested| {
      SubsetOfSameSize(requested * Ys(ps), requested);
    }
    if requested <= Ys(ps) { assert requested * Ys(ps) == requested; }
  }

  lemma SubsetOfSameSize(a: set<PublicKey>, b: set<PublicKey>)
    requires a <= b && |a| == |b|
    ensures a == b
  {
    assert b == a + (b - a);
    assert |b - a| == 0;
  }

  lemma SameYSameProof(ps: seq<Proof>, p: Proof, q: Proof)
    requires UniqueYs(ps) && p in ps && q in ps && p.y == q.y
    ensures p == q
  {
  }
}
