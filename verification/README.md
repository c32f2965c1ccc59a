# Orange wallet: verified model of its crash- and concurrency-sensitive core

Orange is a graduated-custody wallet: small balances sit in a trusted wallet (a Cashu
mint or a Spark operator), larger ones move to the user's own lightning node. This
project models, in Dafny 4.11, the parts that must stay right across lost
acknowledgements, crashes and concurrent tasks, and proves what they promise.
`dafny verify dfyconfig.toml` checks everything.

| part | files |
|---|---|
| ecash proof list: upsert, dedupe, remove | `Proofs.dfy` |
| Cashu proof database: one call at a time, then whole runs | `ProofDb.dfy`, `ProofRuns.dfy` |
| resumable re-keying of stored transactions | `Migration.dfy` |
| persistent derivation counters | `Counters.dfy` |
| transaction metadata and multi-path payment (MPP) legs | `Metadata.dfy`, `MppRecord.dfy`, `MppLateWrite.dfy`, `MppMerge.dfy` |
| event queue with MPP buffering, and the driver that sets a payment up | `EventQueue.dfy`, `MppSetup.dfy`, `MppSplitAdd.dfy`, `QueueRuns.dfy` |
| splice inbox and bounded fan-out reader | `SpliceInbox.dfy`, `BoundedReader.dfy` |
| Spark record keys and outgoing change queue | `SparkKeys.dfy`, `SparkQueue.dfy` |
| retry reconciliation | `Reconcile.dfy` |
| rebalancing: decisions and handler; runs with crashes and concurrent writers | `Rebalance.dfy`, `RebalanceRuns.dfy` |

## How the model is built

Objects that the wallet updates in place are classes whose methods follow the source
branch by branch. A store call may succeed, fail, be cancelled, or commit and lose its
acknowledgement; the outcome is chosen nondeterministically inside the `Kv...` methods, so
each method is proved for all of them. A store declared `reliable` never fails; on such a
store the methods are proved to succeed, so that failures come from the store alone. Each such method is proved against a relation
between the states around the call (`Next`, `Migrates`, `Increments`) or against a
function of the old state (`AddEvent`, `Finish`, `Folded`), and the theorems about runs are
lemmas over sequences of those steps. Protocols whose tasks interleave inside a call (the
splice inbox, the recording of MPP legs, the outgoing change queue, the promotion of a
rebalance trigger) are state machines over the smaller steps.

Assumptions, by part:

- Proof database: an uncertain write is resolved one way or the other before the next read
  of the same key; one wallet instance uses the store
  (`cashu_store.rs:136-138`); the mutation mutex makes whole calls the steps, and every
  state a lock-free reader could meet between two assignments of a call is collected in
  the ghost field `instants`. A lock-free reader holds the cache lock while it tests the
  flag, so it sees one such state. The atomic flag is sequentially consistent.
- Metadata writes succeed, as the code insists by panicking otherwise.
- Event queue: whole calls are the steps of `MppSetup` and `QueueRuns`. `add_event` tests the
  metadata before it takes the buffer lock; `MppSplitAdd` takes the two points apart. The
  queue starts empty in every process.
- `MppRecord`: both legs' entries are stored, in memory and on disk, before the run starts.
  `MppLateWrite` drops this: there the driver is still writing them. Other payments may be set
  up, recorded and rewritten meanwhile.
- Rebalancing: other tasks may write any entry of any kind except those of settled inbound
  receipts, which only the rebalancer touches; a disk write that has not landed when its
  task stops never lands. A transfer takes another id than its trigger's
  (`RebalanceRuns.TripsIffOwnId` shows that this, and only this, is needed).
- Curve points, hashes, UUIDs, timestamps and wallets' answers are abstract values or
  parameters. A character of a Spark key stands for one byte of its UTF-8 text.

## Where the code does less than its documentation says

- `store.rs:643-649` promises the combined MPP outcome "exactly once even across restarts".
  The code gives at most once. `MppRecord.DeliveredUnlessLost` gives the exact condition:
  the outcome of a finalized payment is delivered, once, if and only if no crash fell
  between persisting it and returning it. `MppRecord.CrashCanLoseOutcome` is such a run.
- That result is about reports that meet entries already stored. The driver does not hold
  the recording lock while it writes them (`store.rs:484-495`), so its write can land on top
  of a report already persisted. `MppLateWrite.CrashForgetsIffStale`: a crash then forgets
  what was recorded exactly when no later report of the payment has been persisted.
  `MppLateWrite.ReturnedTwiceIffForgotten` gives the exact condition for returning the
  outcome twice, and `MppLateWrite.LateWriteRepeatsOutcome` a run that does.
- A rebalance trigger is promoted in memory first and written afterwards
  (`store.rs:506-528`), so an entry can be promoted twice.
  `RebalanceRuns.PromotedTwiceIffLost`: exactly when a crash fell between the two.
  `RebalanceRuns.LostPromotionRepeats` is such a run. The `expect` on a promotion cannot
  fire even then.
- The local revision counter is incremented without a check. Where the build does not check
  arithmetic, the allocation after the 64-bit limit hands out zero
  (`SparkQueue.AllocationAdvancesIff`).
- The buffering does not close every gap either. `add_event` lets go of the metadata before it
  takes the buffer lock, so a leg event can test before its entry is written and come for the
  lock after the buffer is gone: it is then queued by itself and its leg is never recorded
  (`MppSplitAdd.EarlyTestEscapes`). `MppSplitAdd.EscapesIffTestedTooEarly` says exactly when,
  and `MppSplitAdd.AnnouncedIffNoneEscaped` that this is all that can go wrong.
- The MPP setup buffers the terminal events of a payment until both leg entries exist. If
  the lightning id is still registered as a leg of an earlier payment (a retry of the same
  invoice repeats the lightning id, `lib.rs:1329-1333`), an early lightning event is
  recorded there and lost. `MppSetup.AnnouncesIffLightningIdIsFree`: every run announces
  the payment correctly if and only if the lightning id is not registered at the start.
- A reserved proof that is added again loses its owner unless the added record names it.
  `ProofRuns.UpdateKeepsHeldIff` says exactly which updates drop a reservation, and
  `ProofRuns.UpdateCanDropReservation` shows another operation then taking the proof.

## Model

| member | source | states |
|---|---|---|
| Proofs.UpdateProofsCache | orange-sdk/src/trusted_wallet/cashu/cashu_store.rs:449-485 | the index map, reverse dedupe and two retains compute the list form that the refinement lemmas are about |
| Proofs.UpdateRefinesMap | orange-sdk/src/trusted_wallet/cashu/cashu_store.rs:449-485 | on a cache with one record per Y, the new cache has one record per Y and is exactly the plain map update (insert each added proof, keep a known derivation index, drop the removed Ys) |
| Proofs.UpdateKeepsLastRecord | orange-sdk/src/trusted_wallet/cashu/cashu_store.rs:449-485 | a Y is present iff cached or added and not removed; its record is its last addition (else the cached one) with the last non-empty derivation index among the cached record and the additions |
| Proofs.LastIndexIsLast | orange-sdk/src/trusted_wallet/cashu/cashu_store.rs:456-470 | that index, read off the cached records followed by the additions: given by the last record of the Y that has one, none only if no record has |
| Proofs.UpdateNeverLosesIndex | orange-sdk/src/trusted_wallet/cashu/cashu_store.rs:449-485 | a known derivation index survives every update that keeps its Y |
| ProofDb.CashuKvDatabase.EnsureUniqueProofYs | orange-sdk/src/trusted_wallet/cashu/cashu_store.rs:412-419 | accepts exactly the lists with one record per Y |
| ProofDb.CashuKvDatabase.LoadProofsFromStore | orange-sdk/src/trusted_wallet/cashu/cashu_store.rs:317-340 | an empty list for nothing stored, the stored list at schema version 1 with unique Ys, or exactly the error its bytes, version or duplicate Ys call for; otherwise a store failure |
| ProofDb.CashuKvDatabase.ReloadUncertainProofs | orange-sdk/src/trusted_wallet/cashu/cashu_store.rs:342-351 | success means flag down and cache equal to the committed snapshot; failure changes nothing; no state visible in between is incoherent |
| ProofDb.CashuKvDatabase.Commit | orange-sdk/src/trusted_wallet/cashu/cashu_store.rs:398-410 | acknowledged: store and cache hold the new list; otherwise the flag stays up over either the old or the new snapshot; duplicates are refused before any write, and on a reliable store nothing else is |
| ProofDb.CashuKvDatabase.ReadProofs | orange-sdk/src/trusted_wallet/cashu/cashu_store.rs:353-367 | lock-free or reloading, a read that succeeds returns the cache of a settled state |
| ProofDb.CashuKvDatabase.UpdateProofs | orange-sdk/src/trusted_wallet/cashu/cashu_store.rs:941-961 | every outcome of an update (unchanged, committed, uncertain, refused) as one step of the run relation |
| ProofDb.CashuKvDatabase.UpdateProofsState | orange-sdk/src/trusted_wallet/cashu/cashu_store.rs:1002-1024 | every outcome of a state change as one step of the run relation, success on a reliable store; nothing is written if nothing changes |
| ProofDb.CashuKvDatabase.ReservedProofs | orange-sdk/src/trusted_wallet/cashu/cashu_store.rs:369-396 | exactly the cached proofs the operation owns inline, or that are unowned and in its legacy index |
| ProofDb.CashuKvDatabase.ClaimAll | orange-sdk/src/trusted_wallet/cashu/cashu_store.rs:1268-1296 | succeeds only if every requested Y is present once and claimable, and then marks all of them; a refusal means one was not |
| ProofDb.AllRequestedPresent | orange-sdk/src/trusted_wallet/cashu/cashu_store.rs:1270-1280 | the size comparison accepts a duplicate-free selection exactly when all its Ys are in the store |
| ProofDb.CashuKvDatabase.ReserveProofs | orange-sdk/src/trusted_wallet/cashu/cashu_store.rs:1261-1298 | every outcome of a reservation attempt as one step of the run relation |
| ProofDb.CashuKvDatabase.ReleaseProofs | orange-sdk/src/trusted_wallet/cashu/cashu_store.rs:1300-1328 | every outcome of a release, including the crash points between the proof write and the removal of the legacy index; success on a reliable store |
| ProofDb.CashuKvDatabase.Reopen | orange-sdk/src/trusted_wallet/cashu/cashu_store.rs:171-188 | a new instance serves the committed snapshot or does not open |
| ProofRuns.RunStaysCoherent | orange-sdk/src/trusted_wallet/cashu/cashu_store.rs:342-419 | in every run of updates, state changes, reservations, releases, reads and restarts, with any store outcome, the cache equals the durable proof set whenever the flag is down |
| ProofRuns.RunReadsCommitted | orange-sdk/src/trusted_wallet/cashu/cashu_store.rs:353-367 | every successful read of every run returns the committed snapshot, with unique Ys |
| ProofRuns.UpdateCommitsMap | orange-sdk/src/trusted_wallet/cashu/cashu_store.rs:941-961 | an update that succeeds, or reaches the store, leaves in the store the plain map update of what was there |
| ProofRuns.SetStateChangesListed | orange-sdk/src/trusted_wallet/cashu/cashu_store.rs:1002-1024 | a state change that succeeds, or reaches the store, sets the state of every record whose Y is listed and leaves every other record as it was |
| ProofRuns.ReleaseFreesOwned | orange-sdk/src/trusted_wallet/cashu/cashu_store.rs:1300-1328 | a release that succeeds, or reaches the store, frees every Reserved or Pending record owned inline, or unowned and in the legacy index, and leaves every other record as it was; success drops the index |
| ProofRuns.ReserveRefusedIff | orange-sdk/src/trusted_wallet/cashu/cashu_store.rs:1268-1296 | a selection is turned down only for a repeated or missing Y or a proof not free for the operation, and is never marked when one of these holds |
| ProofRuns.ReserveAllOrNone | orange-sdk/src/trusted_wallet/cashu/cashu_store.rs:1261-1298 | an attempt marks durably all requested proofs, each claimable before, or none; success means all |
| ProofRuns.ReservationIsExclusive | orange-sdk/src/trusted_wallet/cashu/cashu_store.rs:1261-1298 | after a successful reservation, and until a release of that operation or an update that gives the proof up, every other operation's attempt on it fails and changes nothing durable, across failures and restarts |
| ProofRuns.UpdateKeepsHeldIff | orange-sdk/src/trusted_wallet/cashu/cashu_store.rs:449-485 | an update keeps a reservation iff it neither removes the Y nor last adds it under another owner |
| ProofRuns.UpdateCanDropReservation | orange-sdk/src/trusted_wallet/cashu/cashu_store.rs:941-961 | a concrete update that drops a reservation, after which another operation reserves the proof |
| ProofRuns.ReleaseConserves | orange-sdk/src/trusted_wallet/cashu/cashu_store.rs:1300-1328 | a release keeps the Ys and the total amount, changes only Reserved or Pending proofs owned inline, or unowned and listed, and frees every one of these |
| ProofRuns.ReleaseIsIdempotent | orange-sdk/src/trusted_wallet/cashu/cashu_store.rs:1300-1328 | releasing again, with or without the legacy index, changes nothing |
| ProofRuns.RetriedReleaseEqualsCleanRelease | orange-sdk/src/trusted_wallet/cashu/cashu_store.rs:1300-1328 | retried any number of times after failures at any call, with restarts between, the release that succeeds leaves the proofs and legacy index of one clean release |
| Migration.TransactionStore.MigrateKey | orange-sdk/src/trusted_wallet/cashu/cashu_store.rs:208-252 | copy-then-remove of one key: no record lost or altered wherever it stops, other keys untouched, and on a conflict-free store an error means a store fault |
| Migration.TransactionStore.MigrateTransactionIds | orange-sdk/src/trusted_wallet/cashu/cashu_store.rs:193-256 | a run stopped anywhere keeps every record and never grows the backlog; Ok means every record was readable and under its own or its old id, everything in place and, unless the store was empty, the marker written; without store faults a conflict-free store migrates |
| Migration.CopyKeeps | orange-sdk/src/trusted_wallet/cashu/cashu_store.rs:236-247 | the intermediate store holding both copies has lost nothing and has the same backlog |
| Migration.RemoveKeeps | orange-sdk/src/trusted_wallet/cashu/cashu_store.rs:248-252 | removing the old key once the copy is there loses nothing and shrinks the backlog |
| Migration.RunsKeepEveryRecord | orange-sdk/src/trusted_wallet/cashu/cashu_store.rs:193-256 | any number of interrupted runs, on any store: every record still there unaltered, and the marker set only once everything is in place |
| Migration.InterruptedEqualsUninterrupted | orange-sdk/src/trusted_wallet/cashu/cashu_store.rs:193-256 | the first run that returns Ok leaves exactly the store one uninterrupted run leaves, marker included: each record under its own id, no backlog |
| Migration.ClashNeverSucceeds | orange-sdk/src/trusted_wallet/cashu/cashu_store.rs:230-240 | two different records claiming one id: no run ever reports success |
| Counters.CounterStore.Increment | orange-sdk/src/trusted_wallet/cashu/cashu_store.rs:1026-1082 | every outcome of an increment: unchanged with an error, or advanced by the count with the result reported or lost; never past 32 bits; on a reliable store a readable counter advances unless it would pass them |
| Counters.IncrementHandsOutNext | orange-sdk/src/trusted_wallet/cashu/cashu_store.rs:1026-1082 | a successful increment hands out exactly the indices that follow the stored ones and stores their end |
| Counters.CountersNeverDecrease | orange-sdk/src/trusted_wallet/cashu/cashu_store.rs:1026-1082 | no durable counter decreases in any run |
| Counters.HandedOutRangesDisjoint | orange-sdk/src/trusted_wallet/cashu/cashu_store.rs:1026-1082 | the index ranges of two successful increments of one counter never overlap, and come in order |
| Metadata.RecordKeepsWellFormed | orange-sdk/src/store.rs:651-732 | one report keeps finalized == (failed or both fees) and a preimage whenever a fee is present on every entry, never trips the `expect`, and never touches a finalized entry |
| Metadata.TxMetadataStore.DoSet | orange-sdk/src/store.rs:484-495 | memory and disk get the entry; the result says whether there was one |
| Metadata.TxMetadataStore.RecordMppLeg | orange-sdk/src/store.rs:651-732 | only a leg of a payment that is not final changes anything; a success fills its own leg's fee and the preimage, a failure ends the payment, everything else of the entry stays; an outcome is returned iff the entry becomes final |
| Metadata.TxMetadataStore.SetTxCausedRebalance | orange-sdk/src/store.rs:506-528 | succeeds iff the entry is a payment; then it alone changes, keeping its payment type and its time |
| Metadata.TxMetadataStore.SetTxCausedRebalanceWithSplice | orange-sdk/src/store.rs:530-580 | the same, with the splice entry in the same update of the map; the two writes may land in either order |
| MppRecord.OutcomeAtMostOnce | orange-sdk/src/store.rs:638-732 | over every interleaving of duplicated and replayed reports, split into lock, mutate, persist and return with crashes anywhere, at most one outcome per surface id, and every entry stays well formed |
| MppRecord.ReportNeverPanics | orange-sdk/src/store.rs:712-714 | in every reachable state every report can proceed: the `expect` on the preimage cannot fire |
| MppRecord.OutcomeExactlyOnce | orange-sdk/src/store.rs:638-732 | in crash-free runs where both legs have reported and no call is in progress, exactly one outcome |
| MppRecord.DeliveredUnlessLost | orange-sdk/src/store.rs:643-649 | with crashes: a finalized payment's outcome is delivered once iff no crash fell between persisting and returning it |
| MppRecord.CrashCanLoseOutcome | orange-sdk/src/store.rs:727-731 | from every state with both legs stored and unreported, a run in which it is lost and no later report of either leg brings it back |
| MppLateWrite.CrashForgetsIffStale | orange-sdk/src/store.rs:484-495 | with the driver still writing: once the surface entry is written and no report is half recorded, memory and disk differ on the payment iff that write landed on a recorded report and nothing was persisted since |
| MppLateWrite.OutcomesCounted | orange-sdk/src/store.rs:638-732 | over every run with crashes and the driver's writes: outcomes returned, due and dropped equal those forgotten plus one if the payment stands finished |
| MppLateWrite.ForgetsIffStale | orange-sdk/src/store.rs:653-657 | a crash brings a finished payment with no outcome due back as unfinished iff its entry is stale |
| MppLateWrite.ReturnedTwiceIffForgotten | orange-sdk/src/store.rs:648-649 | the outcome is returned twice only after such a crash, and for a finished payment with no outcome due or dropped exactly then |
| MppLateWrite.LateWriteRepeatsOutcome | orange-sdk/src/store.rs:484-495 | a run from every new payment that returns the outcome twice |
| MppMerge.MppMerger.Accumulate | orange-sdk/src/store.rs:339-360 | folds one leg into the merge |
| MppMerge.MergedIs | orange-sdk/src/store.rs:339-396 | the merge of two legs, folded in either order: both legs, the earlier time, the saturating fee sum, and a payment type with a preimage whenever one of the legs has one |
| MppMerge.FoldOrderIrrelevant | orange-sdk/src/store.rs:339-360 | folding in either order gives the same merge iff the payment types agree or exactly one leg has a preimage |
| MppMerge.Bolt11FoldOrderIrrelevant | orange-sdk/src/store.rs:339-360 | for two BOLT 11 legs: iff they do not carry two different preimages |
| MppMerge.Recorded1IsRecordLeg | orange-sdk/src/store.rs:691-718 | the recording used for the agreement is the store's recording on the surface entry |
| MppMerge.OutcomeAgreesWithListing | orange-sdk/src/store.rs:337-396 | for each leg reporting at most once, in any order: no outcome iff Pending, Succeeded iff Completed with the same saturating fee sum, Failed iff Failed |
| EventQueue.WalletEventQueue.BeginMppSetup | orange-sdk/src/event.rs:239-243 | opens a buffer under the hash and keeps one that is already open |
| EventQueue.WalletEventQueue.FinishMppSetup | orange-sdk/src/event.rs:245-257 | closes the buffer and replays its events in order through the ordinary path |
| EventQueue.WalletEventQueue.Add | orange-sdk/src/event.rs:259-294 | a leg event is recorded; any other event that carries a buffered hash is appended to that buffer, and one that does not is appended to the queue |
| EventQueue.WalletEventQueue.PushCombinedMpp | orange-sdk/src/event.rs:301-326 | an outcome is queued as one event under the surface id |
| EventQueue.WalletEventQueue.NextEvent | orange-sdk/src/event.rs:342-345 | the oldest event not yet handled |
| EventQueue.WalletEventQueue.EventHandled | orange-sdk/src/event.rs:351-362 | drops exactly that event |
| EventQueue.FinishEndsBuffering | orange-sdk/src/event.rs:245-257 | the replay never reopens the buffer it came from and touches no other buffer's existence |
| EventQueue.TryMppBolt11 | orange-sdk/src/lib.rs:1482-1614 | which answer each input gets; past the checks the portions are positive and add up to the invoice, the lightning wallet can afford its own with the fee, buffering ends on every path, and success leaves the same fresh entry under both leg ids |
| MppSetup.OneCombinedEvent | orange-sdk/src/event.rs:241-340 | for every order of arrivals relative to begin, the two metadata writes and finish: no single-leg event is queued, at most one combined event, whose fee is the saturating sum of the fees two reported successes carry, one of each leg, and exactly one once both legs have reported and setup has finished |
| MppSetup.AbortedLegSurfacesAlone | orange-sdk/src/lib.rs:1531-1606 | when a leg could not be started, the other leg's events surface one by one, in order, and no buffer is left |
| MppSetup.AnnouncesIffLightningIdIsFree | orange-sdk/src/lib.rs:1531-1606 | the coalescing property holds on every run iff the lightning id is not registered as a leg of another payment at the start |
| MppSetup.StaleLegLosesTheEvent | orange-sdk/src/event.rs:265-283 | otherwise this run loses the lightning leg's event: both legs succeed and the payment is never announced |
| MppSetup.ForeignAdd | orange-sdk/src/event.rs:259-294 | an event of another payment changes nothing the tracked payment depends on |
| MppSplitAdd.EscapesIffTestedTooEarly | orange-sdk/src/event.rs:259-294 | with the metadata test and the buffer lock apart: a leg event is queued by itself iff it tested before its entry was written and lands after the buffer was taken away; otherwise it is recorded or buffered |
| MppSplitAdd.AnnouncedIffNoneEscaped | orange-sdk/src/event.rs:241-340 | over every interleaving of the two points: no single-leg event and at most one combined event as long as none has escaped; once both legs have reported and all has settled, announced by its one combined event iff none has |
| MppSplitAdd.EarlyTestEscapes | orange-sdk/src/event.rs:265-292 | a run from every new payment in which the lightning event escapes and the payment is never announced |
| QueueRuns.UnrelatedEventsInOrder | orange-sdk/src/event.rs:241-340 | whatever multi-path payments are set up, buffered, recorded and announced around them, events they have nothing to do with are queued once each in arrival order |
| QueueRuns.ConsumedInOrder | orange-sdk/src/event.rs:328-362 | over any calls, the consumer is handed every queued event once, in the order it was queued, none skipped |
| SpliceInbox.SplicePendingInbox.Push | orange-sdk/src/lightning_wallet.rs:616-619 | appends to the channel's queue and leaves no queue empty |
| SpliceInbox.SplicePendingInbox.TryTake | orange-sdk/src/lightning_wallet.rs:621-644 | takes the front of a non-empty queue and removes a queue that becomes empty |
| SpliceInbox.InboxIsSafe | orange-sdk/src/lightning_wallet.rs:606-645 | for every interleaving: no lost wakeup, delivered == taken followed by pending per channel, no empty queue in the map |
| SpliceInbox.QuiescentWaitersHaveNothing | orange-sdk/src/lightning_wallet.rs:621-644 | when no delivery is half done, a waiter asleep and not notified has nothing left to take |
| SpliceInbox.ReturnedIsTaken | orange-sdk/src/lightning_wallet.rs:621-644 | per channel, the outpoints taken are, one by one and in order, the ones distinct waiters returned, and no other waiter returned any |
| BoundedReader.CompletedKeepsGood | orange-sdk/src/dyn_store.rs:184-203 | one completion keeps the bound and the partition of the indices and decreases the measure |
| BoundedReader.ReadKeysBounded | orange-sdk/src/dyn_store.rs:157-212 | for every completion order: at most 10 in flight, each index in exactly one of waiting, in flight and done, Ok iff every read succeeds and then the results in input order; an error is one of the reads' own |
| BoundedReader.ReadSequentially | orange-sdk/src/dyn_store.rs:157-212 | the serial loop has the same result on the same outcomes |
| SparkKeys.ParseOfEncode | orange-sdk/src/trusted_wallet/spark/spark_store.rs:57-70 | the length-prefixed key parses back to its parts |
| SparkKeys.EncodeIsInjective | orange-sdk/src/trusted_wallet/spark/spark_store.rs:57-70 | unhashed keys are injective over all part lists |
| SparkKeys.KeyFitsStore | orange-sdk/src/trusted_wallet/spark/spark_store.rs:57-70 | a text of at most 120 bytes is the key and reads back into its parts; a longer one becomes `h_` and its hash; with a 64-digit hash no key exceeds 120 bytes |
| SparkKeys.RecordKeysFitStore | orange-sdk/src/trusted_wallet/spark/spark_store.rs:72-79 | the same for record keys and incoming keys, with their parts in order |
| SparkKeys.HashedKeysAreApart | orange-sdk/src/trusted_wallet/spark/spark_store.rs:57-70 | no unhashed key equals a hashed one |
| SparkKeys.SyncRecordKeyIsInjective | orange-sdk/src/trusted_wallet/spark/spark_store.rs:57-70 | the whole key function is injective as long as the two texts do not collide under the hash |
| SparkKeys.RecordKeysIdentifyRecords | orange-sdk/src/trusted_wallet/spark/spark_store.rs:72-79 | record keys and incoming keys identify record and revision, and never coincide, unless the four texts behind them collide under the hash |
| SparkKeys.RevisionKeyOrder | orange-sdk/src/trusted_wallet/spark/spark_store.rs:776-805 | for every 64-bit revision the byte order of the padded keys is the numeric order |
| SparkKeys.RevisionKeyReadsBack | orange-sdk/src/trusted_wallet/spark/spark_store.rs:776-805 | a revision key has exactly twenty digits and reads back as its revision |
| SparkQueue.SparkStore.NextLocalRevision | orange-sdk/src/trusted_wallet/spark/spark_store.rs:262-269 | hands out the successor of the stored value and stores it; on failure the store is unchanged or advanced; past the 64-bit limit a checked build panics and an unchecked one wraps to zero |
| SparkQueue.SparkStore.AddOutgoingChange | orange-sdk/src/trusted_wallet/spark/spark_store.rs:776-805 | an allocation followed by an entry write, with every outcome of both |
| SparkQueue.AddIsTwoSteps | orange-sdk/src/trusted_wallet/spark/spark_store.rs:776-805 | an add that is not interrupted is the allocation and write steps of the interleaving model |
| SparkQueue.SparkStore.CompleteOutgoingSync | orange-sdk/src/trusted_wallet/spark/spark_store.rs:807-828 | removes that revision's entry or nothing, stores the acknowledged record as parent, and raises the server revision to the larger of the two, never lowering it; an error leaves each undone or done |
| SparkQueue.SparkStore.GetPendingOutgoingChanges | orange-sdk/src/trusted_wallet/spark/spark_store.rs:830-873 | the pending list is the `limit` smallest pending revisions, ascending, each with the acknowledged record as its parent |
| SparkQueue.SparkStore.GetLatestOutgoingChange | orange-sdk/src/trusted_wallet/spark/spark_store.rs:946-986 | the pending change with the largest revision and its parent; none only if nothing is pending |
| SparkQueue.PrefixIsSmallest | orange-sdk/src/trusted_wallet/spark/spark_store.rs:830-873 | a prefix of the sorted keys is the set of the smallest revisions |
| SparkQueue.AllocationAdvancesIff | orange-sdk/src/trusted_wallet/spark/spark_store.rs:262-269 | an allocation hands out the counter's value plus one iff it does not wrap, and zero if it does |
| SparkQueue.RevisionsStrictlyIncrease | orange-sdk/src/trusted_wallet/spark/spark_store.rs:262-269 | revisions handed out strictly increase over every interleaving of the adds of many tasks, with failures and restarts, as long as no allocation wraps |
| SparkQueue.WrittenStaysPending | orange-sdk/src/trusted_wallet/spark/spark_store.rs:776-828 | a written change stays pending, unaltered, until its own revision is completed, whatever other tasks allocate and write meanwhile |
| SparkQueue.RunKeepsKeyed | orange-sdk/src/trusted_wallet/spark/spark_store.rs:776-805 | in every interleaving entries stay under their own revision's key, which the two queries rely on |
| SparkQueue.PendingIsWrittenAndKept | orange-sdk/src/trusted_wallet/spark/spark_store.rs:776-828 | over every interleaving the pending revisions are exactly those written, or pending from the start, and not removed by their completion since |
| Reconcile.SelectAttempts | orange-sdk/src/trusted_wallet/cashu/mod.rs:875-902 | the loop with its index map computes the reference selection |
| Reconcile.WinnerIsBest | orange-sdk/src/trusted_wallet/cashu/mod.rs:875-902 | the attempt shown is maximal by (completed, timestamp, saga id), and completed iff some attempt was |
| Reconcile.WinnerIsNewest | orange-sdk/src/trusted_wallet/cashu/mod.rs:875-902 | said in the transactions' own terms: completed before any other status, then the newest, then the largest saga id, then the first |
| Reconcile.ReconciliationIsComplete | orange-sdk/src/trusted_wallet/cashu/mod.rs:875-902 | every transaction that is no attempt is kept in order; each outgoing quote has exactly one line, at its first occurrence, and no other quote has one |
| Reconcile.WinnerIgnoresOrder | orange-sdk/src/trusted_wallet/cashu/mod.rs:875-902 | with distinct priorities the attempt shown does not depend on the input order |
| Rebalance.TransferAmount | orange-sdk/src/rebalancer.rs:117-138 | a request A has min < A <= balance and balance - A <= limit; it is what the lightning wallet can take less the margin, or the whole balance, which exceeds that only if the rest would exceed the limit; no request only if either is not worth it |
| Rebalance.AmountPaid | graduated-rebalancer/src/lib.rs:279-310 | payment plus fee spend exactly the request, and the payment is positive, iff the request is below the maximum amount or the fee is zero |
| Rebalance.OrangeTrigger.NeedsTrustedRebalance | orange-sdk/src/rebalancer.rs:59-143 | only fresh settled receipts are registered, with their own time, in memory and on disk; the amount is as above; the trigger is the smallest new receipt, else the latest known one, and is a receipt with a payment entry |
| Rebalance.OrangeTrigger.CollectReceipts | orange-sdk/src/rebalancer.rs:70-115 | the loop finds exactly the new receipts, and the latest known one when there are none |
| Rebalance.LatestKnownIsChosen | orange-sdk/src/rebalancer.rs:117-138 | with nothing new and one receipt later than all others, the decision registers nothing and returns that receipt with the transfer amount |
| Rebalance.OrangeTrigger.NeedsOnchainRebalance | orange-sdk/src/rebalancer.rs:145-265 | the trigger is a largest new confirmed receipt not promoted yet, with a payment entry in memory and on disk; no request means there was none or too little to move; the `expect` on the amount fires exactly when the balance is no valid amount |
| Rebalance.RebalanceEventHandler.RebalanceInitiated | orange-sdk/src/rebalancer.rs:300-323 | writes the pending entry, in memory and on disk, and nothing else |
| Rebalance.RebalanceEventHandler.RebalanceSuccessful | orange-sdk/src/rebalancer.rs:325-366 | the promotion succeeds iff the trigger is a payment; then the trigger keeps its type and time and both transfer legs carry the two ids and the trigger, in memory and on disk; otherwise nothing changes |
| Rebalance.RebalanceEventHandler.OnChainRebalanceInitiated | orange-sdk/src/rebalancer.rs:367-385 | the same for a splice, in one update of memory and two writes |
| RebalanceRuns.DecisionIsStep | graduated-rebalancer/src/lib.rs:262-276 | what the two decision methods promise is a step of the runs below, whatever other receipts there are |
| RebalanceRuns.TransferIsSteps | orange-sdk/src/rebalancer.rs:325-366 | an uninterrupted transfer of the runs leaves what the handler's method leaves, in memory and on disk |
| RebalanceRuns.SpliceIsSteps | orange-sdk/src/store.rs:537-580 | so does an uninterrupted splice, in either order of its two writes |
| RebalanceRuns.PromotionsNeverPanic | graduated-rebalancer/src/lib.rs:262-276 | in every run under the balance mutex, with crashes and stopped tasks at any write and concurrent writers of any kind of entry, a chosen trigger stays a payment until its promotion, so the `expect`s never fire, unless a transfer is paid under its trigger's own id |
| RebalanceRuns.TripsIffOwnId | orange-sdk/src/rebalancer.rs:325-366 | at every step of every run, whatever falls between, the `expect` fires iff that step completes a transfer that was paid under the id of its own trigger |
| RebalanceRuns.PromotionsCounted | orange-sdk/src/store.rs:506-528 | in every run the promotions of a receipt equal its promotions lost to crashes plus one if it stands promoted |
| RebalanceRuns.PromotedTwiceIffLost | orange-sdk/src/store.rs:506-580 | a receipt that stands promoted was promoted more than once iff a crash fell between an earlier promotion in memory and its write; without such a crash no entry is promoted twice |
| RebalanceRuns.LostPromotionRepeats | orange-sdk/src/rebalancer.rs:82-138 | from every store in which the decision picks a latest known receipt, a run in which such a crash leads to a second promotion; both times the decision method can return nothing else |
| RebalanceRuns.OwnIdPanics | orange-sdk/src/rebalancer.rs:325-366 | a run from every recorded receipt that pays under the trigger's own id and trips the `expect` |

## Left out

- Proofs.UpdateProofsCache: models the list as a value that is replaced, not the vector's storage; scanning from the back builds the deduplicated list by pushing to the front instead of pushing and reversing.
- EventQueue.WalletEventQueue.Add: one uninterrupted call; the interleavings of its two points are those of `MppSplitAdd`.
- MppSplitAdd.AnnouncedIffNoneEscaped: the driver's two ways of giving up, and replays of other payments' buffers, stay whole calls as in `MppSetup`.
- EventQueue.TryMppBolt11: the wallets' answers, balances and fee estimates are parameters; the payments themselves are foreign code.
- MppSetup.OneCombinedEvent: starts from a payment whose hash is not being buffered already; two overlapping setups of one hash share a buffer and are not tracked as one payment.
- MppRecord.OutcomeAtMostOnce: the metadata writes of the driver are over before the run starts; with them under way it is false, and `MppLateWrite.ReturnedTwiceIffForgotten` says when.
- MppMerge.OutcomeAgreesWithListing: takes what each wallet's transaction list says of a leg as given by that leg's report.
- SparkQueue.SparkStore.CompleteOutgoingSync: the server revision is read and written without a lock; two completions at once are not modelled.
- RebalanceRuns.PromotionsCounted: counts receipts under whose id no transfer or splice is entered.
- Rebalance.RebalanceEventHandler.RebalanceSuccessful: the events the handler adds to the queue are left out; so are those of the two other handlers.
- Durable order of the two joined writes of one promotion is modelled only for distinct keys.
- Restart durability of the event queue and its byte encoding: the code does not reload the queue.
- The mint cache and keyset merging, and quote ownership across versioned quote writes: the code decides no clean agreement there.
- Truncated 32-byte Cashu payment ids and Spark cache keys: uniqueness is stated in quote ids and record ids.
- Serialization formats, hashing, curve arithmetic, the key-value backends, the lightning node, the Spark and Cashu client libraries: abstract values and failure outcomes.
- The `pay` fallback order, receive URIs, and the full transaction listing: branch-by-branch facts or dependent on foreign payment lists.
- Unlocked read-modify-writes of the Spark server revision and payment metadata: only sequential claims would hold.
