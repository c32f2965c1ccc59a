/**
 Retry reconciliation: the mint wallet keeps every retry of an outgoing payment, the
 wallet shows one payment per outgoing quote. The loop keeps an index map from quote to
 position and overwrites the position when a better attempt turns up.
 */
module Reconcile {
  import opened Common

  type QuoteId = string

  datatype Direction = Incoming | Outgoing

  datatype Status = Pending | Completed | Failed

  datatype Transaction = Transaction(
    direction: Direction, quote: Option<QuoteId>, status: Status, timestamp: nat, saga: Option<nat>, rest: nat)

  /** An attempt to pay an outgoing quote. */
  predicate Attempt(t: Transaction) { t.direction.Outgoing? && t.quote.Some? }

  predicate AttemptOf(t: Transaction, q: QuoteId) { Attempt(t) && t.quote.value == q }

  /** `b` has strictly the higher priority: by (completed, timestamp, saga id), no saga id first. */
  predicate Beats(b: Transaction, a: Transaction) {
    if b.status.Completed? != a.status.Completed? then b.status.Completed?
    else if b.timestamp != a.timestamp then b.timestamp > a.timestamp
    else b.saga.Some? && (a.saga.None? || b.saga.value > a.saga.value)
  }

  // ----- the reference form

  ghost predicate Has(txs: seq<Transaction>, q: QuoteId) {
    exists i :: 0 <= i < |txs| && AttemptOf(txs[i], q)
  }

  /** The position opens a new line of the listing. */
  ghost predicate Opens(txs: seq<Transaction>, i: nat)
    requires i < |txs|
  {
    Attempt(txs[i]) ==> !Has(txs[..i], txs[i].quote.value)
  }

  /** The opening positions, in order. */
  ghost function Kept(txs: seq<Transaction>): seq<nat> {
    if txs == [] then []
    else
      var n := |txs| - 1;
      Kept(txs[..n]) + if Opens(txs, n) then [n] else []
  }

  /** The earliest attempt of `q` that no attempt of `q` beats. */
  ghost function Winner(txs: seq<Transaction>, q: QuoteId): Transaction
    requires Has(txs, q)
  {
    var n := |txs| - 1;
    if !AttemptOf(txs[n], q) then HasInInit(txs, q); Winner(txs[..n], q)
    else if !Has(txs[..n], q) then txs[n]
    else
      var w := Winner(txs[..n], q);
      if Beats(txs[n], w) then txs[n] else w
  }

  lemma HasInInit(txs: seq<Transaction>, q: QuoteId)
    requires Has(txs, q) && !AttemptOf(txs[|txs| - 1], q)
    ensures Has(txs[..|txs| - 1], q)
  {
    var i :| 0 <= i < |txs| && AttemptOf(txs[i], q);
    assert AttemptOf(txs[..|txs| - 1][i], q);
  }

  ghost function Pick(txs: seq<Transaction>, i: nat): Transaction
    requires i < |txs|
  {
    if Attempt(txs[i]) then
      assert AttemptOf(txs[i], txs[i].quote.value);
      Winner(txs, txs[i].quote.value)
    else txs[i]
  }

  lemma OpensInInit(txs: seq<Transaction>, i: nat)
    requires i < |txs| - 1
    ensures Opens(txs, i) <==> Opens(txs[..|txs| - 1], i)
  {
    assert txs[..|txs| - 1][..i] == txs[..i];
  }

  lemma {:induction false} KeptOpens(txs: seq<Transaction>, j: nat)
    requires j < |Kept(txs)|
    ensures Kept(txs)[j] < |txs| && Opens(txs, Kept(txs)[j])
  {
    var init := txs[..|txs| - 1];
    if j < |Kept(init)| {
      KeptOpens(init, j);
      OpensInInit(txs, Kept(init)[j]);
    }
  }

  lemma {:induction false} KeptAscends(txs: seq<Transaction>, i: nat, j: nat)
    requires i < j < |Kept(txs)|
    ensures Kept(txs)[i] < Kept(txs)[j]
  {
    var init := txs[..|txs| - 1];
    if j < |Kept(init)| { KeptAscends(init, i, j); } else { KeptOpens(init, i); }
  }

  lemma {:induction false} KeptComplete(txs: seq<Transaction>, i: nat)
    requires i < |txs| && Opens(txs, i)
    ensures i in Kept(txs)
  {
    if i < |txs| - 1 {
      OpensInInit(txs, i);
      KeptComplete(txs[..|txs| - 1], i);
    }
  }

  lemma KeptSpec(txs: seq<Transaction>)
    ensures forall j :: 0 <= j < |Kept(txs)| ==> Kept(txs)[j] < |txs| && Opens(txs, Kept(txs)[j])
    ensures forall i, j :: 0 <= i < j < |Kept(txs)| ==> Kept(txs)[i] < Kept(txs)[j]
    ensures forall i: nat :: i < |txs| && Opens(txs, i) ==> i in Kept(txs)
  {
    forall j | 0 <= j < |Kept(txs)| ensures Kept(txs)[j] < |txs| && Opens(txs, Kept(txs)[j]) { KeptOpens(txs, j); }
    forall i, j | 0 <= i < j < |Kept(txs)| ensures Kept(txs)[i] < Kept(txs)[j] { KeptAscends(txs, i, j); }
    forall i: nat | i < |txs| && Opens(txs, i) ensures i in Kept(txs) { KeptComplete(txs, i); }
  }

  lemma KeptInRange(txs: seq<Transaction>)
    ensures forall j :: 0 <= j < |Kept(txs)| ==> Kept(txs)[j] < |txs|
  {
    forall j | 0 <= j < |Kept(txs)| ensures Kept(txs)[j] < |txs| { KeptOpens(txs, j); }
  }

  ghost function Selected(txs: seq<Transaction>): (s: seq<Transaction>)
    ensures |s| == |Kept(txs)|
  {
    KeptInRange(txs);
    seq(|Kept(txs)|, j requires 0 <= j < |Kept(txs)| => Pick(txs, Kept(txs)[j]))
  }

  // ----- how one more transaction changes the reference form

  lemma WinnerSnoc(txs: seq<Transaction>, t: Transaction, q: QuoteId)
    requires Has(txs, q)
    ensures Has(txs + [t], q)
    ensures Winner(txs + [t], q) ==
      if AttemptOf(t, q) && Beats(t, Winner(txs, q)) then t else Winner(txs, q)
  {
    var i :| 0 <= i < |txs| && AttemptOf(txs[i], q);
    assert (txs + [t])[i] == txs[i];
    assert (txs + [t])[..|txs|] == txs;
  }

  lemma KeptAppends(txs: seq<Transaction>, t: Transaction)
    requires Attempt(t) ==> !Has(txs, t.quote.value)
    ensures Kept(txs + [t]) == Kept(txs) + [|txs|]
  {
    assert (txs + [t])[..|txs|] == txs;
  }

  lemma PickSnoc(txs: seq<Transaction>, t: Transaction, i: nat)
    requires i < |txs|
    ensures Pick(txs + [t], i) ==
      if Attempt(txs[i]) && AttemptOf(t, txs[i].quote.value) && Beats(t, Pick(txs, i)) then t else Pick(txs, i)
  {
    if Attempt(txs[i]) {
      assert AttemptOf(txs[i], txs[i].quote.value);
      WinnerSnoc(txs, t, txs[i].quote.value);
    }
  }

  lemma PickNew(txs: seq<Transaction>, t: Transaction)
    requires Attempt(t) ==> !Has(txs, t.quote.value)
    ensures Pick(txs + [t], |txs|) == t
  {
    var all := txs + [t];
    assert all[..|txs|] == txs && all[|txs|] == t;
    if Attempt(t) { assert AttemptOf(all[|txs|], t.quote.value); }
  }

  lemma PickUnchanged(txs: seq<Transaction>, t: Transaction, i: nat)
    requires i < |txs| && (Attempt(t) ==> !Has(txs, t.quote.value))
    ensures Pick(txs + [t], i) == Pick(txs, i)
  {
    PickSnoc(txs, t, i);
    if Attempt(txs[i]) { assert AttemptOf(txs[i], txs[i].quote.value); }
  }

  lemma SelectedByLine(txs: seq<Transaction>, lines: seq<Transaction>)
    requires |lines| == |Kept(txs)|
    requires forall j :: 0 <= j < |lines| ==> Kept(txs)[j] < |txs| && lines[j] == Pick(txs, Kept(txs)[j])
    ensures Selected(txs) == lines
  {
  }

  /** A transaction that opens a line is appended; the other lines do not change. */
  lemma SelectedAppends(txs: seq<Transaction>, t: Transaction)
    requires Attempt(t) ==> !Has(txs, t.quote.value)
    ensures Kept(txs + [t]) == Kept(txs) + [|txs|]
    ensures Selected(txs + [t]) == Selected(txs) + [t]
  {
    KeptInRange(txs);
    KeptAppends(txs, t);
    var all, lines := txs + [t], Selected(txs) + [t];
    forall j | 0 <= j < |lines| ensures Kept(all)[j] < |all| && lines[j] == Pick(all, Kept(all)[j]) {
      LineAfterAppend(txs, t, j);
    }
    SelectedByLine(all, lines);
  }

  lemma LineAfterAppend(txs: seq<Transaction>, t: Transaction, j: nat)
    requires Attempt(t) ==> !Has(txs, t.quote.value)
    requires j <= |Kept(txs)| && Kept(txs + [t]) == Kept(txs) + [|txs|]
    ensures Kept(txs + [t])[j] < |txs + [t]|
    ensures (Selected(txs) + [t])[j] == Pick(txs + [t], Kept(txs + [t])[j])
  {
    if j == |Kept(txs)| {
      PickNew(txs, t);
    } else {
      KeptOpens(txs, j);
      PickUnchanged(txs, t, Kept(txs)[j]);
    }
  }

  /** A further attempt changes at most the line its quote opened. */
  lemma SelectedOverwrites(txs: seq<Transaction>, t: Transaction, line: nat)
    requires Attempt(t) && Has(txs, t.quote.value)
    requires line < |Kept(txs)| && Kept(txs)[line] < |txs| && AttemptOf(txs[Kept(txs)[line]], t.quote.value)
    ensures Kept(txs + [t]) == Kept(txs)
    ensures Selected(txs + [t]) ==
      if Beats(t, Selected(txs)[line]) then Selected(txs)[line := t] else Selected(txs)
  {
    var all := txs + [t];
    assert all[..|txs|] == txs;
    KeptSpec(txs);
    forall j | 0 <= j < |Kept(txs)|
      ensures Pick(all, Kept(txs)[j]) ==
        if j == line && Beats(t, Pick(txs, Kept(txs)[j])) then t else Pick(txs, Kept(txs)[j])
    {
      PickSnoc(txs, t, Kept(txs)[j]);
      if j != line { OneLinePerQuote(txs, j, line); }
    }
  }

  lemma OneLinePerQuote(txs: seq<Transaction>, j: nat, k: nat)
    requires j < |Kept(txs)| && k < |Kept(txs)| && j != k
    ensures Kept(txs)[j] < |txs| && Kept(txs)[k] < |txs|
    ensures Attempt(txs[Kept(txs)[j]]) && Attempt(txs[Kept(txs)[k]]) ==>
      txs[Kept(txs)[j]].quote != txs[Kept(txs)[k]].quote
  {
    KeptSpec(txs);
    var a, b := if j < k then Kept(txs)[j] else Kept(txs)[k], if j < k then Kept(txs)[k] else Kept(txs)[j];
    if Attempt(txs[a]) && Attempt(txs[b]) && txs[a].quote == txs[b].quote {
      assert AttemptOf(txs[..b][a], txs[b].quote.value);
    }
  }

  // ----- the loop

  ghost predicate Indexed(txs: seq<Transaction>, index: map<QuoteId, nat>) {
    && (forall q :: q in index <==> Has(txs, q))
    && (forall q :: q in index ==>
      index[q] < |Kept(txs)| && Kept(txs)[index[q]] < |txs| && AttemptOf(txs[Kept(txs)[index[q]]], q))
  }

  lemma IndexedSnoc(txs: seq<Transaction>, t: Transaction, index: map<QuoteId, nat>)
    requires Indexed(txs, index)
    ensures !Attempt(t) ==> Indexed(txs + [t], index)
    ensures Attempt(t) && t.quote.value in index ==> Indexed(txs + [t], index)
    ensures Attempt(t) && t.quote.value !in index ==> Indexed(txs + [t], index[t.quote.value := |Kept(txs)|])
  {
    var all := txs + [t];
    forall q ensures Has(all, q) <==> Has(txs, q) || AttemptOf(t, q) { HasSnoc(txs, t, q); }
    assert forall i :: 0 <= i < |txs| ==> all[i] == txs[i];
    if Attempt(t) && t.quote.value in index { KeptStays(txs, t); } else { KeptAppends(txs, t); }
  }

  lemma HasSnoc(txs: seq<Transaction>, t: Transaction, q: QuoteId)
    ensures Has(txs + [t], q) <==> Has(txs, q) || AttemptOf(t, q)
  {
    var all := txs + [t];
    assert all[|txs|] == t && all[..|txs|] == txs;
    if Has(txs, q) { WinnerSnoc(txs, t, q); }
    if Has(all, q) && !AttemptOf(t, q) { HasInInit(all, q); }
  }

  lemma KeptStays(txs: seq<Transaction>, t: Transaction)
    requires Attempt(t) && Has(txs, t.quote.value)
    ensures Kept(txs + [t]) == Kept(txs)
  {
    assert (txs + [t])[..|txs|] == txs;
  }

  /** What one more transaction does to the selection, by what the index map says of it. */
  lemma SelectStep(txs: seq<Transaction>, t: Transaction, index: map<QuoteId, nat>)
    requires Indexed(txs, index)
    ensures Attempt(t) && t.quote.value in index ==>
      && var line := index[t.quote.value];
      && line < |Selected(txs)|
      && Selected(txs + [t]) == if Beats(t, Selected(txs)[line]) then Selected(txs)[line := t] else Selected(txs)
    ensures !(Attempt(t) && t.quote.value in index) ==> Selected(txs + [t]) == Selected(txs) + [t]
  {
    if Attempt(t) && t.quote.value in index {
      SelectedOverwrites(txs, t, index[t.quote.value]);
    } else {
      SelectedAppends(txs, t);
    }
  }

  method SelectAttempts(txs: seq<Transaction>) returns (selected: seq<Transaction>)
    ensures selected == Selected(txs)
  {
    var index: map<QuoteId, nat> := map[];
    selected := [];
    for i := 0 to |txs|
      invariant selected == Selected(txs[..i])
      invariant Indexed(txs[..i], index)
    {
      var t := txs[i];
      ghost var before := txs[..i];
      assert txs[..i + 1] == before + [t];
      IndexedSnoc(before, t, index);
      SelectStep(before, t, index);
      if t.direction == Outgoing && t.quote.Some? {
        if t.quote.value in index {
          var line := index[t.quote.value];
          if Beats(t, selected[line]) { selected := selected[line := t]; }
          continue;
        }
        index := index[t.quote.value := |selected|];
      }
      selected := selected + [t];
    }
    assert txs[..|txs|] == txs;
  }

  // ----- what the reference form promises

  lemma BeatsIsTransitive(a: Transaction, b: Transaction, c: Transaction)
    requires !Beats(a, b) && !Beats(b, c)
    ensures !Beats(a, c)
  {
  }

  /** The winner is an attempt of the quote that no attempt beats; settled if any is. */
  lemma {:induction false} WinnerIsBest(txs: seq<Transaction>, q: QuoteId)
    requires Has(txs, q)
    ensures AttemptOf(Winner(txs, q), q) && Winner(txs, q) in txs
    ensures forall t :: t in txs && AttemptOf(t, q) ==> !Beats(t, Winner(txs, q))
    ensures Winner(txs, q).status.Completed? <==> exists t :: t in txs && AttemptOf(t, q) && t.status.Completed?
  {
    var n := |txs| - 1;
    var init := txs[..n];
    assert txs == init + [txs[n]];
    if !AttemptOf(txs[n], q) {
      HasInInit(txs, q);
      WinnerIsBest(init, q);
    } else if Has(init, q) {
      WinnerIsBest(init, q);
      forall t | t in txs && AttemptOf(t, q) ensures !Beats(t, Winner(txs, q)) {
        if t in init && Beats(txs[n], Winner(init, q)) { BeatsIsTransitive(t, Winner(init, q), txs[n]); }
      }
    } else {
      forall t | t in init ensures !AttemptOf(t, q) {
        var i :| 0 <= i < |init| && init[i] == t;
      }
    }
  }

  /**
   Said in the transactions' own terms: the attempt shown is completed if any is, among
   equally completed ones the newest, among equally new ones the one with the largest saga
   id, and among equals the first.
   */
  lemma {:induction false} WinnerIsNewest(txs: seq<Transaction>, q: QuoteId) returns (k: nat)
    requires Has(txs, q)
    ensures k < |txs| && AttemptOf(txs[k], q) && txs[k] == Winner(txs, q)
    ensures forall i :: 0 <= i < |txs| && AttemptOf(txs[i], q) ==> NotBetter(txs[i], txs[k])
    ensures forall i :: 0 <= i < k && AttemptOf(txs[i], q) ==> !NotBetter(txs[k], txs[i])
  {
    var n := |txs| - 1;
    var init := txs[..n];
    if !AttemptOf(txs[n], q) {
      HasInInit(txs, q);
      k := WinnerIsNewest(init, q);
    } else if !Has(init, q) {
      k := n;
      forall i | 0 <= i < n ensures !AttemptOf(txs[i], q) { assert init[i] == txs[i]; }
    } else {
      k := WinnerIsNewest(init, q);
      BeatsIsNotNotBetter(txs[n], init[k]);
      if Beats(txs[n], init[k]) {
        forall i | 0 <= i < n && AttemptOf(txs[i], q) ensures NotBetter(txs[i], txs[n]) && !NotBetter(txs[n], txs[i]) {
          assert NotBetter(init[i], init[k]);
        }
        k := n;
      }
    }
  }

  predicate NotBetter(a: Transaction, b: Transaction) {
    && (a.status == Completed ==> b.status == Completed)
    && ((a.status == Completed) == (b.status == Completed) ==>
      && a.timestamp <= b.timestamp
      && (a.timestamp == b.timestamp ==> a.saga == None || (b.saga.Some? && a.saga.value <= b.saga.value)))
  }

  lemma BeatsIsNotNotBetter(a: Transaction, b: Transaction)
    ensures Beats(a, b) <==> !NotBetter(a, b)
  {
  }

  ghost function Plain(txs: seq<Transaction>): seq<Transaction> {
    if txs == [] then []
    else Plain(txs[..|txs| - 1]) + if Attempt(txs[|txs| - 1]) then [] else [txs[|txs| - 1]]
  }

  lemma PlainSnoc(txs: seq<Transaction>, t: Transaction)
    ensures Plain(txs + [t]) == Plain(txs) + if Attempt(t) then [] else [t]
  {
    assert (txs + [t])[..|txs|] == txs;
  }

  lemma {:induction false} PlainIgnoresAttempts(a: seq<Transaction>, line: nat, t: Transaction)
    requires line < |a| && Attempt(a[line]) && Attempt(t)
    ensures Plain(a[line := t]) == Plain(a)
  {
    var n := |a| - 1;
    if line < n {
      assert a[line := t][..n] == a[..n][line := t];
      PlainIgnoresAttempts(a[..n], line, t);
    } else {
      assert a[line := t][..n] == a[..n];
    }
  }

  /**
   Every receipt (and every transaction without a quote) is listed, in order; every
   outgoing quote has exactly one line, where it first occurred, showing its best attempt.
   */
  lemma ReconciliationIsComplete(txs: seq<Transaction>, q: QuoteId)
    ensures Plain(Selected(txs)) == Plain(txs)
    ensures forall i, j :: 0 <= i < j < |Selected(txs)| ==>
      !(AttemptOf(Selected(txs)[i], q) && AttemptOf(Selected(txs)[j], q))
    ensures Has(txs, q) ==> exists line :: ShowsWinner(txs, q, line)
    ensures !Has(txs, q) ==> !Has(Selected(txs), q)
  {
    PlainKept(txs);
    forall i | 0 <= i < |Kept(txs)| ensures LineOf(txs, i) { LineSpec(txs, i); }
    forall i, j | 0 <= i < j < |Selected(txs)|
      ensures !(AttemptOf(Selected(txs)[i], q) && AttemptOf(Selected(txs)[j], q))
    {
      assert LineOf(txs, i) && LineOf(txs, j);
      OneLinePerQuote(txs, i, j);
    }
    if Has(txs, q) {
      var f := FirstAttempt(txs, q);
      KeptSpec(txs);
      var line :| 0 <= line < |Kept(txs)| && Kept(txs)[line] == f;
      assert ShowsWinner(txs, q, line);
    } else {
      forall i | 0 <= i < |Selected(txs)| ensures !AttemptOf(Selected(txs)[i], q) {
        assert LineOf(txs, i);
        KeptSpec(txs);
      }
    }
  }

  /** The line shows the winner of `q` and stands where `q` first occurs. */
  ghost predicate ShowsWinner(txs: seq<Transaction>, q: QuoteId, line: nat) {
    && Has(txs, q) && line < |Kept(txs)| && Kept(txs)[line] < |txs|
    && AttemptOf(txs[Kept(txs)[line]], q) && !Has(txs[..Kept(txs)[line]], q)
    && Selected(txs)[line] == Winner(txs, q)
  }

  /** A line shows an attempt of a quote exactly when it was opened by that quote. */
  ghost predicate LineOf(txs: seq<Transaction>, line: nat)
    requires line < |Kept(txs)|
  {
    && Kept(txs)[line] < |txs|
    && (Attempt(Selected(txs)[line]) <==> Attempt(txs[Kept(txs)[line]]))
    && (Attempt(txs[Kept(txs)[line]]) ==> Selected(txs)[line].quote == txs[Kept(txs)[line]].quote)
  }

  lemma LineSpec(txs: seq<Transaction>, line: nat)
    requires line < |Kept(txs)|
    ensures LineOf(txs, line)
  {
    KeptSpec(txs);
    var i := Kept(txs)[line];
    assert Selected(txs)[line] == Pick(txs, i);
    if Attempt(txs[i]) {
      assert AttemptOf(txs[i], txs[i].quote.value);
      WinnerIsBest(txs, txs[i].quote.value);
    }
  }

  lemma {:induction false} FirstAttempt(txs: seq<Transaction>, q: QuoteId) returns (f: nat)
    requires Has(txs, q)
    ensures f < |txs| && AttemptOf(txs[f], q) && !Has(txs[..f], q) && Opens(txs, f)
  {
    var n := |txs| - 1;
    if Has(txs[..n], q) {
      f := FirstAttempt(txs[..n], q);
      assert txs[..n][..f] == txs[..f];
    } else {
      f := n;
      assert forall i :: 0 <= i < n ==> txs[..n][i] == txs[i];
    }
  }

  lemma {:induction false} PlainKept(txs: seq<Transaction>)
    ensures Plain(Selected(txs)) == Plain(txs)
  {
    if txs != [] {
      var n := |txs| - 1;
      var init, t := txs[..n], txs[n];
      assert txs == init + [t];
      PlainKept(init);
      PlainSnoc(init, t);
      if Attempt(t) && Has(init, t.quote.value) {
        var f := FirstAttempt(init, t.quote.value);
        KeptSpec(init);
        var line :| 0 <= line < |Kept(init)| && Kept(init)[line] == f;
        SelectedOverwrites(init, t, line);
        LineSpec(init, line);
        PlainIgnoresAttempts(Selected(init), line, t);
      } else {
        SelectedAppends(init, t);
        PlainSnoc(Selected(init), t);
      }
    }
  }

  /** No two different attempts of `q` have the same priority. */
  ghost predicate DistinctPriorities(txs: seq<Transaction>, q: QuoteId) {
    forall a, b :: a in txs && b in txs && AttemptOf(a, q) && AttemptOf(b, q) && a != b ==> Beats(a, b) || Beats(b, a)
  }

  /** With distinct priorities the attempt shown does not depend on the order of the input. */
  lemma WinnerIgnoresOrder(a: seq<Transaction>, b: seq<Transaction>, q: QuoteId)
    requires forall t :: t in a <==> t in b
    requires Has(a, q) && DistinctPriorities(a, q)
    ensures Has(b, q) && Winner(a, q) == Winner(b, q)
  {
    WinnerIsBest(a, q);
    var i :| 0 <= i < |b| && b[i] == Winner(a, q);
    WinnerIsBest(b, q);
  }
}
