/**
 Reading a list of keys with a bounded number of reads in flight.

 The completion order is arbitrary: each round completes any one of the reads in flight.
 `outcomes[i]` is what the read of the i-th key returns if it gets to complete; a task
 that fails to join counts as a failed read.
 */
module BoundedReader {
  import opened Common

  type Key = string
  type Data = seq<nat>
  type Error = nat

  const MAX_CONCURRENT_READS: nat := 10

  /** Indices from `next` on wait; `inflight` are being read; the others have a result. */
  datatype Reader = Reader(next: nat, inflight: set<nat>, results: seq<Option<(Key, Data)>>)

  ghost predicate Bounded(r: Reader) { |r.inflight| <= MAX_CONCURRENT_READS }

  /** Every index is in exactly one of waiting, in flight and done. */
  ghost predicate Partitions(r: Reader) {
    && r.next <= |r.results|
    && (forall i :: i in r.inflight ==> i < r.next)
    && (forall i: nat :: i < |r.results| ==> (r.results[i].Some? <==> i < r.next && i !in r.inflight))
  }

  /** No slot is left unused while a key still waits. */
  ghost predicate Saturated(r: Reader) {
    r.next < |r.results| ==> |r.inflight| == MAX_CONCURRENT_READS
  }

  ghost predicate Good(r: Reader) { Bounded(r) && Partitions(r) && Saturated(r) }

  /** One completion, followed by the start of the next waiting read, if any. */
  function Completed(r: Reader, index: nat, entry: (Key, Data)): Reader
    requires index < |r.results|
  {
    var results := r.results[index := Some(entry)];
    if r.next < |results| then Reader(r.next + 1, r.inflight - {index} + {r.next}, results)
    else Reader(r.next, r.inflight - {index}, results)
  }

  lemma CompletedKeepsGood(r: Reader, index: nat, entry: (Key, Data))
    requires Good(r) && index in r.inflight
    ensures index < |r.results| && Good(Completed(r, index, entry))
    ensures
      var t := Completed(r, index, entry);
      |t.results| - t.next + |t.inflight| < |r.results| - r.next + |r.inflight|
  {
    assert |r.inflight - {index}| == |r.inflight| - 1;
    if r.next < |r.results| {
      assert r.next !in r.inflight - {index};
      assert |r.inflight - {index} + {r.next}| == |r.inflight|;
    }
  }

  // ----- the serial loop it must agree with

  method ReadSequentially(keys: seq<Key>, outcomes: seq<Result<Data, Error>>)
    returns (r: Result<seq<(Key, Data)>, Error>)
    requires |outcomes| == |keys|
    ensures r.Ok? <==> forall i :: 0 <= i < |keys| ==> outcomes[i].Ok?
    ensures r.Ok? ==> |r.value| == |keys| && forall i :: 0 <= i < |keys| ==> r.value[i] == (keys[i], outcomes[i].value)
  {
    var read: seq<(Key, Data)> := [];
    for i := 0 to |keys|
      invariant |read| == i
      invariant forall k :: 0 <= k < i ==> outcomes[k].Ok? && read[k] == (keys[k], outcomes[k].value)
    {
      if outcomes[i].Err? { return Err(outcomes[i].error); }
      read := read + [(keys[i], outcomes[i].value)];
    }
    return Ok(read);
  }

  /** The results so far are what the serial loop would have put in their place. */
  ghost predicate Faithful(r: Reader, keys: seq<Key>, outcomes: seq<Result<Data, Error>>)
    requires |outcomes| == |keys|
  {
    && |r.results| == |keys|
    && forall i :: 0 <= i < |keys| && r.results[i].Some? ==>
      outcomes[i].Ok? && r.results[i].value == (keys[i], outcomes[i].value)
  }

  /** The first round of spawns. */
  method SpawnFirst(n: nat) returns (r: Reader)
    ensures |r.results| == n && Good(r)
    ensures forall i :: 0 <= i < n ==> r.results[i] == None
  {
    var next: nat, inflight: set<nat> := 0, {};
    for k := 0 to MAX_CONCURRENT_READS
      invariant next == (if k <= n then k else n)
      invariant |inflight| == next && (forall i: nat :: i in inflight <==> i < next)
    {
      if next < n {
        inflight, next := inflight + {next}, next + 1;
      } else {
        break;
      }
    }
    r := Reader(next, inflight, seq(n, _ => None));
  }

  /** Each state completes one read that was in flight and starts at most one that waited. */
  ghost predicate Steps(trace: seq<Reader>, keys: seq<Key>, outcomes: seq<Result<Data, Error>>)
    requires |outcomes| == |keys|
  {
    && (trace != [] ==> |trace[0].results| == |keys| && forall i :: 0 <= i < |keys| ==> trace[0].results[i] == None)
    && forall n :: 0 < n < |trace| ==> CompletesOne(trace[n - 1], keys, outcomes, trace[n])
  }

  ghost predicate CompletesOne(r: Reader, keys: seq<Key>, outcomes: seq<Result<Data, Error>>, t: Reader)
    requires |outcomes| == |keys|
  {
    exists i :: i in r.inflight && i < |r.results| == |keys| && outcomes[i].Ok?
      && t == Completed(r, i, (keys[i], outcomes[i].value))
  }

  /** `trace` collects the state after the first spawns and after every completion. */
  method ReadKeysBounded(keys: seq<Key>, outcomes: seq<Result<Data, Error>>)
    returns (r: Result<seq<(Key, Data)>, Error>, ghost trace: seq<Reader>)
    requires |outcomes| == |keys|
    ensures r.Ok? <==> forall i :: 0 <= i < |keys| ==> outcomes[i].Ok?
    ensures r.Ok? ==> |r.value| == |keys| && forall i :: 0 <= i < |keys| ==> r.value[i] == (keys[i], outcomes[i].value)
    ensures r.Err? ==> exists i :: 0 <= i < |keys| && outcomes[i] == Err(r.error)
    ensures forall s :: s in trace ==> |s.inflight| <= 10 && Bounded(s) && Partitions(s) && Saturated(s)
    ensures Steps(trace, keys, outcomes)
    ensures r.Ok? && keys != [] ==> trace != [] && trace[|trace| - 1].inflight == {}
  {
    trace := [];
    if keys == [] { return Ok([]), trace; }
    var s := SpawnFirst(|keys|);
    trace := [s];
    while s.inflight != {}
      invariant Good(s) && Faithful(s, keys, outcomes)
      invariant forall t :: t in trace ==> Good(t)
      invariant trace != [] && trace[|trace| - 1] == s && Steps(trace, keys, outcomes)
      decreases |s.results| - s.next + |s.inflight|
    {
      var index :| index in s.inflight;
      if outcomes[index].Err? { return Err(outcomes[index].error), trace; }
      CompletedKeepsGood(s, index, (keys[index], outcomes[index].value));
      ghost var before := s;
      s := Completed(s, index, (keys[index], outcomes[index].value));
      assert CompletesOne(before, keys, outcomes, s);
      trace := trace + [s];
    }
    var results := Collect(s.results);
    return Ok(results), trace;
  }

  /** The final `expect`: no slot is empty. */
  method Collect(slots: seq<Option<(Key, Data)>>) returns (results: seq<(Key, Data)>)
    requires forall i :: 0 <= i < |slots| ==> slots[i].Some?
    ensures |results| == |slots| && forall i :: 0 <= i < |slots| ==> results[i] == slots[i].value
  {
    results := [];
    for i := 0 to |slots|
      invariant |results| == i
      invariant forall k :: 0 <= k < i ==> results[k] == slots[k].value
    {
      results := results + [slots[i].value];
    }
  }
}
