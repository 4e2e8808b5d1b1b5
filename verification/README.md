# Publication, dispatch and canonical forms: a verified model

The project models five parts of the crawler platform and proves what they keep, over every input, every
run or every reachable state.

1. **Publication activation.** Revisions of three domains (channel, video, agent) arrive in any order.
   One run of `activateReady` selects the longest hash-linked run per domain, replays it, and commits
   cursors, current results, row statuses and an audit entry under onboarding gates or a cutover.
   `Selection`, the `Video*` modules, and the `Activation*` modules; what a revision and a run do, record by
   record and row by row, is in `VideoEffect`, `ActivationEffects` and `ActivationOutcome`.
2. **Dispatch outbox.** Plans are staged under a budget, claimed under leases by publishers that may
   crash between transactions, published to a queue keyed by job id, and moved on by a consumer.
   `Outbox*`, `Budget`, `Staging`, `Envelope*`.
3. **About observations.** An idempotent, sequenced log with last-writer-wins metric registers.
   `AboutRegisters`, `AboutLog`, `AboutStore`.
4. **Two algorithms.** The greedy agent dispatch (`GreedyDispatch`), and the rollback query that rebuilds
   an old search release from before-images (`Rollback`, `RollbackChain`, `RollbackStore`).
5. **Canonical forms.** Canonical JSON from key order to printed text and back (`CanonicalJson`, `KeyOrder`,
   `CanonicalValue`, `JsonText`, `JsonReader`, `LooseJson`), and the baseline serializer (`Baseline`).

## How it is modelled

A transaction is one atomic step on a value (`State`, `System`, `Storage`); histories are sequences of
steps. Where the source changes things in place there is a class or a loop with the same statements
(`ChannelStore`, `VideoState`, `DispatchStore`, `SearchStorage`, `ObservationStore`,
`SelectContiguous`, `PersistVideo`, `BuildPlan`, `StageBatch`, `Check`), proved to do exactly the step.

Assumptions, stated where they are used:

- Hashes, dates and number tokens are parameters. Injectivity is assumed only where a lemma says so
  (the command hash in `AboutLog.KeyReused`, the window hash in `ActivationWindow.HistoryWindowIff`);
  `EnvelopeMeaning.JobIdsDiffer` takes dates to be written as YYYY-MM-DD.
- Database constraints: revision rows are keyed by stream, domain and sequence, and their ids are unique;
  plan ids, job ids and idempotency keys are unique; an active content row has a positive position unique
  in its channel, any other row has none. A write that breaks such a constraint rolls the transaction back.
- `ReasonsOk`: a revision's own removal reasons never spell the transient `window_rewrite` (nor are they
  blank). The ingress contract admits fixed reason codes only.
- The queue adds a job unless one with its id is there, and removes none.
- Random ids are given from outside and fresh.
- Times are numbers of milliseconds.
- `claimBatch` is one step. It locks outbox rows only, so a plan may move between its two statements;
  `OutboxClaim.ClaimSerialises` shows that this gives no behaviour beyond the step and the moves, other than
  an error that is rolled back.

## Where the code falls short of what it promises

- **Video replay is not always prefix-exact.** `simulateDomain` keeps records that a failing revision has
  already changed, and a run that accepted an earlier revision stores them. A batch of which nothing was
  accepted is not stored at all, so it is exact. `ActivationExact.HistoryExactIff` gives the exact condition
  for every run of every history, `ActivationWindow.HistoryWindowIff` the one for the stored window, and
  `ActivationLeaks.LeakIsReachable` a history in which both the delta is refused and its video is stored.
- **Such leftovers can block a channel.** If they clash with the accepted records, the index on active
  positions refuses the write and the run is rolled back together with the quarantine of the failing
  revision, so the next run does the same (`ActivationWedge.WriteRefusedIff`, `RefusedForever`,
  `ActivationLeaks.WedgeIsReachable`).
- **Rows can be left behind.** The observation applier may move a plan while its outbox row waits or is being
  published, and a publisher may crash before it marks a row. `OutboxLease.CouplingKeptIff` says which moves
  keep row and plan together; `OutboxStranded.CanMoveIff` says which rows can still change on any
  continuation. A waiting row is lost as soon as its plan is anything but planned or dispatching; a row being
  published, as soon as its plan is cancelled, or is not open and no holder of its lease can still mark it.
  Concrete runs: `StrandedRunsExist`, `CrashStrands`. In all of them the job is queued.
- **Metric registers are order-independent only if ties agree** (`AboutRegisters.OrderIrrelevantIff`).
- **Baseline events are sorted by ids as given but grouped by trimmed ids**, so contiguous events can be
  refused (`Baseline.SoundIff`, `Baseline.BlankIsRefused`).
- **The unchecked canonical form** identifies a non-finite number with null and a property without a JSON
  value with a missing one (`LooseJson.CanonicalStringIff` and the two collisions).

## Model

| member | source | states |
|---|---|---|
| Selection.SelectLinks | services/qybullmq/src/businessPublicationActivator.js:90-148 | the selected run continues the cursor: consecutive sequences, each linked to the hash before; the conflicting revision is the next one and cannot extend the run |
| Selection.SelectPartitions | services/qybullmq/src/businessPublicationActivator.js:98-147 | superseded, ready, conflict and waiting are the ordered rows again, none lost, none twice |
| Selection.SelectPlaces | services/qybullmq/src/businessPublicationActivator.js:98-147 | the sequence number alone decides which of the four parts a row is in |
| Selection.LongestRun | services/qybullmq/src/businessPublicationActivator.js:90-148 | every linked run that can be drawn from the rows is a prefix of the selected one |
| Selection.SelectContiguous | services/qybullmq/src/businessPublicationActivator.js:90-148 | the loop with its running sequence, hash and conflict yields exactly that selection |
| VideoReplay.ListingUnique | services/qybullmq/src/businessPublicationActivator.js:257-272 | a window has at most one order at positions 1..n |
| VideoReplay.SimulateConcat | services/qybullmq/src/businessPublicationActivator.js:434-457 | replaying two batches one after the other is replaying their concatenation |
| VideoReplay.SimulateTouched | services/qybullmq/src/businessPublicationActivator.js:257-329 | the touched flags never influence what a replay does to the records |
| VideoEffect.ChangeFollows | services/qybullmq/src/businessPublicationActivator.js:296-401 | what a revision that goes through does to every record: the id is retracted or moved out with the reason given last, or shown with the item given last; a bootstrap moves out what showed and is not given, or retracts it for the reason that recovery evidence names; every other record stays |
| VideoEffect.DeltaFailsIff | services/qybullmq/src/businessPublicationActivator.js:311-329 | a delta fails before its result is checked if and only if an exit names a video that does not show or names it twice, or a retraction names an unknown one |
| VideoEffect.AppliesIff | services/qybullmq/src/businessPublicationActivator.js:362-401 | a revision goes through if and only if a delta has a window and its targets, the evidence of a recovery bootstrap is sound, and the resulting window is listed at 1..n and hashes to the declared result |
| VideoEffect.ReplayEdits | services/qybullmq/src/businessPublicationActivator.js:434-457 | a batch that replays to its end leads through one table after each revision, each changed as that revision says |
| VideoTable.PartialViewRefinesTable | services/qybullmq/src/businessPublicationActivator.js:403-432 | loading only the active and the mentioned rows (or more), replaying, clearing and writing back active or touched records gives the table and the verdicts of a replay over all rows |
| VideoTable.SimulateKeeps | services/qybullmq/src/businessPublicationActivator.js:296-329 | a record that was not touched is as it was, and no record disappears |
| VideoExact.FailedTail | services/qybullmq/src/businessPublicationActivator.js:437-457 | the accepted prefix replays alone; the kept records are that replay plus the first changes of the failing revision |
| VideoExact.PrefixExactIff | services/qybullmq/src/businessPublicationActivator.js:434-457 | for one batch with fresh ids: the table afterwards is what a replay of exactly the accepted prefix over all rows leaves, if and only if no revision failed after an accepted one or the failing one stopped before its first write |
| VideoExact.WindowKeptIff | services/qybullmq/src/businessPublicationActivator.js:264-294 | with a hash that tells windows apart, the records in memory show the window of the last accepted revision if and only if the first changes of a failing one leave the active items as they were |
| VideoExact.FailedDeltaLeaks | services/qybullmq/src/businessPublicationActivator.js:311-329 | a concrete delta that is refused at its exit leaves its upsert, at whatever position, in the records |
| VideoRows.SimulateSettles | services/qybullmq/src/businessPublicationActivator.js:296-329 | records always have either a position and no reason, or a reason other than the transient one and no position |
| VideoRows.AcceptedWindow | services/qybullmq/src/businessPublicationActivator.js:264-294 | after a batch without a failure the active items stand at 1..n and hash to the last result_hash |
| VideoRows.MatchedIsWritable | services/qybullmq/src/businessPublicationActivator.js:264-272 | such a window never breaks the unique index on active positions |
| VideoRows.PersistSettles | services/qybullmq/src/businessPublicationActivator.js:516-555 | no written row keeps the reason window_rewrite |
| VideoRows.WrittenKeepsIndex | services/qybullmq/src/businessPublicationActivator.js:525-555 | after every single write no two active rows share a position |
| VideoRows.BatchExtendsReplay | services/qybullmq/src/businessPublicationActivator.js:403-457 | committing a batch on the committed replay of earlier revisions gives the committed replay of both, with the same verdicts |
| VideoMachine.ActiveInOrder | services/qybullmq/src/businessPublicationActivator.js:257-262 | the active items, each once, ordered by position |
| VideoMachine.OrderedIsListing | services/qybullmq/src/businessPublicationActivator.js:257-272 | if the window can be listed at 1..n at all, the sorted items are that listing |
| VideoMachine.AssertVideoResult | services/qybullmq/src/businessPublicationActivator.js:264-294 | passes if and only if the window can be listed at 1..n and hashes to the declared result |
| VideoMachine.VideoState.Put | services/qybullmq/src/businessPublicationActivator.js:296-309 | upserts one by one, in place |
| VideoMachine.VideoState.Drop | services/qybullmq/src/businessPublicationActivator.js:311-329 | removes one by one and stops at the first missing target, keeping the earlier removals |
| VideoMachine.VideoState.Withdraw | services/qybullmq/src/businessPublicationActivator.js:364-376 | withdraws every active record, with the historical reason where there is one |
| VideoMachine.VideoState.ApplyRevision | services/qybullmq/src/businessPublicationActivator.js:362-401 | applies one revision to the records in place, as `VideoEffect.ChangeFollows` and `AppliesIff` describe it; the header moves on only if the result is the declared one |
| VideoMachine.VideoState.Simulate | services/qybullmq/src/businessPublicationActivator.js:434-457 | stops at the first failure and keeps the records as they then are |
| VideoMachine.PersistVideo | services/qybullmq/src/businessPublicationActivator.js:516-555 | refused exactly if the active records lack distinct positive positions; otherwise the table after clearing and writing back |
| ActivationRows.PendingMember | services/qybullmq/src/businessPublicationActivator.js:826-840 | the query yields exactly the valid pending rows of a stream and domain |
| ActivationRows.PendingSorted | services/qybullmq/src/businessPublicationActivator.js:826-840 | and yields them in strictly rising sequence |
| ActivationRows.MarksTellPlace | services/qybullmq/src/businessPublicationActivator.js:184-205 | a pending row is marked superseded, quarantined or waiting exactly by its place relative to the cursor and the run |
| ActivationRows.PickedQuiet | services/qybullmq/src/businessPublicationActivator.js:805-853 | selecting never touches a row that is not pending and never makes one active |
| ActivationRows.TriedQuiet | services/qybullmq/src/businessPublicationActivator.js:894-943 | nor do the trials |
| ActivationRows.AcceptedUnmarked | services/qybullmq/src/businessPublicationActivator.js:902-909 | an accepted revision is not marked by the trial that accepted it |
| ActivationSafety.ArrivalKeepsInv | services/qybullmq/src/businessPublicationActivator.js:826-840 | storing a new revision keeps the invariant of the channel |
| ActivationSafety.QuietKeepsInv | services/qybullmq/src/businessPublicationActivator.js:184-205 | marking pending rows keeps it |
| ActivationSafety.ReopeningKeepsInv | services/qybullmq/src/publicationDeadLetterRecovery.js:1401-1408 | reopening superseded revisions that were never activated keeps it |
| ActivationCommit.LaneExtends | services/qybullmq/src/businessPublicationActivator.js:961-966 | the audit items of a stream and domain, extended by the batch, stay one linked chain from sequence 1, also across a cutover |
| ActivationCommit.CommittedLog | services/qybullmq/src/businessPublicationActivator.js:984-995 | each activation starts from the vector of the one before and replays its items onto it |
| ActivationCommit.CommittedRowInv | services/qybullmq/src/businessPublicationActivator.js:617-651 | after the commit a row is active if and only if the cursor of its domain names it |
| ActivationCommit.CommittedStream | services/qybullmq/src/businessPublicationActivator.js:961-982 | after a commit every cursor is on the stream that was activated |
| ActivationCommit.CommitKeepsInv | services/qybullmq/src/businessPublicationActivator.js:957-1021 | a commit keeps the invariant of the channel |
| ActivationCommit.PlanIsOk | services/qybullmq/src/businessPublicationActivator.js:840-956 | what a run works out is fit to be committed: pending revisions that continue the cursors, complete as the gates ask |
| ActivationCommit.ActivationRetires | services/qybullmq/src/businessPublicationActivator.js:805-825 | a run of an owned channel that is neither refused nor rolled back leaves nothing of another stream pending except evidenced recovery revisions |
| ActivationCommit.ActivationKeepsInv | services/qybullmq/src/businessPublicationActivator.js:739-1043 | every run keeps the invariant |
| ActivationCommit.HistoryKeepsInv | services/qybullmq/src/businessPublicationActivator.js:739-1043 | in every history of arrivals, ownership changes, reopenings and runs: exactly the rows named by cursors are active, cursors lie on one stream, the audit log replays to them with items 1..n linked per stream and domain, current results belong to the cursors, no row keeps window_rewrite, no two active rows share a position |
| ActivationEffects.OwnerAfterRun | services/qybullmq/src/businessPublicationActivator.js:996-1021 | a run that activates a cutover makes the pending owner active, on the same stream, with the same previous stream, mode and vector; every other run leaves the owner as it was |
| ActivationEffects.CutoverIsDone | services/qybullmq/src/businessPublicationActivator.js:761-802 | after an activated cutover, until the owner is changed again, no run ends waiting for ownership, on a cursor mismatch or for a cutover |
| ActivationEffects.CommitsIff | services/qybullmq/src/businessPublicationActivator.js:739-1043 | a run commits if and only if the owner may activate, the domains that start together all have a ready run that replays to its end, something is accepted, and the index takes the records; it completes a cutover if and only if in addition one is pending |
| ActivationEffects.CutoverActivatedIff | services/qybullmq/src/businessPublicationActivator.js:761-929 | a pending recovery cutover is activated if and only if its evidence fits the cursors and every domain has a ready run that replays to its end |
| ActivationOutcome.TurnedAwayIff | services/qybullmq/src/businessPublicationActivator.js:752-802 | exactly when a run is turned away, for each of the three refusals |
| ActivationOutcome.TurnedAway | services/qybullmq/src/businessPublicationActivator.js:752-802 | a run that is turned away changes nothing but that, without ownership, pending rows wait for it |
| ActivationOutcome.EveryOutcome | services/qybullmq/src/businessPublicationActivator.js:739-1043 | which of the sixteen outcomes a run has, from the owner, the cursors, what is ready, what replays and what is accepted: turned away; on cursors that do not belong together; waiting for a domain that has to start with the others; on one of these that failed; idle or waiting for gaps; refused by the index; activated |
| ActivationOutcome.ReadyMeans | services/qybullmq/src/businessPublicationActivator.js:90-148 | the ready run: pending revisions at the places after the cursor, each linked by sequence and hash to the one before, and the next place holds none that is linked |
| ActivationOutcome.AcceptedFacts | services/qybullmq/src/businessPublicationActivator.js:205-235 | of the channel and agent revisions exactly the leading ones whose payload has its result_hash are accepted |
| ActivationOutcome.HistoryHashes | services/qybullmq/src/businessPublicationActivator.js:205-235 | in every history whatever was activated in these domains has the hash of its payload |
| ActivationOutcome.RowAfterRun | services/qybullmq/src/businessPublicationActivator.js:805-972 | where every row of the owner's stream ends up after a run, by its place: behind the cursor superseded; the accepted ones active (the last) or superseded; the one that fails or breaks the run quarantined; those beyond it waiting; each only as far as the run got |
| ActivationOutcome.OtherRowAfterRun | services/qybullmq/src/businessPublicationActivator.js:805-825 | a pending row of another stream is superseded unless it carries supported, evidenced recovery; a cutover also retires the active rows of the stream that it leaves; nothing else changes |
| ActivationOutcome.CommitStores | services/qybullmq/src/businessPublicationActivator.js:957-1021 | after a commit the cursor and current result of each domain are those of its last accepted revision, or as before; the log gains one entry with both vectors and the accepted revisions |
| ActivationGates.CommitKeepsGate | services/qybullmq/src/businessPublicationActivator.js:855-892 | a commit that meets the gates keeps channel iff video, agent only with both, or all three or none |
| ActivationGates.HistoryKeepsGate | services/qybullmq/src/businessPublicationActivator.js:855-929 | coupled channels: channel iff video, agent only with both; automatic channels: all three or none; in every history of the regime |
| ActivationGates.InconsistentUnreachable | services/qybullmq/src/businessPublicationActivator.js:864-871 | the two returns for inconsistent cursors are never taken while the regime lasts |
| ActivationSettles.FailureShrinks | services/qybullmq/src/businessPublicationActivator.js:903-909 | a failed trial leaves strictly less pending |
| ActivationSettles.CommitShrinks | services/qybullmq/src/businessPublicationActivator.js:961-972 | so does a commit |
| ActivationSettles.ActivationShrinks | services/qybullmq/src/businessPublicationActivator.js:739-1043 | every run that changes more than row marks, or quarantines a row, leaves strictly less pending; no run leaves more |
| ActivationSettles.QuietRunIsLast | services/qybullmq/src/businessPublicationActivator.js:826-955 | a run that leaves as much pending as before is followed by a run that changes nothing |
| ActivationSettles.Settles | services/qybullmq/src/businessPublicationActivator.js:739-1043 | without arrivals a fixpoint is reached after at most pending + 1 runs |
| ActivationConfluence.ReadyIsFresher | services/qybullmq/src/businessPublicationActivator.js:90-148 | on a well-formed chain the run starts at the cursor and ends with the longest received prefix |
| ActivationConfluence.VideoPasses | services/qybullmq/src/businessPublicationActivator.js:434-457 | replaying the next revisions on the stored content passes and gives the replay of the longer prefix |
| ActivationConfluence.GateDecides | services/qybullmq/src/businessPublicationActivator.js:855-892 | the code's gates are the gate on the received prefixes, and before it is met nothing is active |
| ActivationConfluence.RunReaches | services/qybullmq/src/businessPublicationActivator.js:840-972 | one run takes every domain to the end of its received prefix, or to nothing while the gate is closed |
| ActivationConfluence.CursorIsLongestPrefix | services/qybullmq/src/businessPublicationActivator.js:739-1043 | after any interleaving that ends in a run each cursor is the longest received prefix if the onboarding gate is met, and absent otherwise |
| ActivationConfluence.ArrivalOrderIsIrrelevant | services/qybullmq/src/businessPublicationActivator.js:739-1043 | two histories with the same received revisions that end in a run agree on cursors, current results, content and active and pending rows |
| ActivationExact.HistoryKeepsNames | services/qybullmq/src/businessPublicationActivator.js:525-555 | in every history every id in a content row is that of a revision that is quarantined or audited, so no pending revision is named there |
| ActivationExact.HistoryExactIff | services/qybullmq/src/businessPublicationActivator.js:930-972 | in every history a run that commits stores exactly its accepted video revisions if and only if no video revision failed after an accepted one or the failing one stopped before its first write; a run that does not commit leaves the content as it was |
| ActivationExact.HistoryEdits | services/qybullmq/src/businessPublicationActivator.js:930-972 | in every history a run that commits, unless a failing revision had begun to write, takes the stored records through its accepted revisions, one after the other, each record as the revision says |
| ActivationWindow.CommittedWindow | services/qybullmq/src/businessPublicationActivator.js:516-580 | then, and whatever the table held before, the stored active items hash to the result_hash of the header that the run writes |
| ActivationWindow.HistoryWindowIff | services/qybullmq/src/businessPublicationActivator.js:516-580 | in every history, with a hash that tells windows apart: after a run that activates video revisions the stored window hashes to the header's result_hash if and only if the first changes of a failing revision leave the active items as they were |
| ActivationWedge.WriteRefusedIff | services/qybullmq/src/businessPublicationActivator.js:516-555 | a run is rolled back by the index on active positions if and only if it passes the gates outside any cutover or joint bootstrap, a video revision fails after an accepted one, and the records left behind clash; it then changes nothing |
| ActivationWedge.RefusedForever | services/qybullmq/src/businessPublicationActivator.js:739-1043 | once a run was refused so, every later run is, whatever arrives or is reopened, as long as the owner stays as it is: cursors, current results, content and log never change again |
| ActivationLeaks.LeakIsReachable | services/qybullmq/src/businessPublicationActivator.js:434-457 | a history of three steps whose next run commits the window together with a video of the delta it refuses, so the content is not the exact one |
| ActivationLeaks.WedgeIsReachable | services/qybullmq/src/businessPublicationActivator.js:516-555 | the same history with the video at a position that is taken: the run is refused and changes nothing |
| ActivationWindow.FedWindow | services/qybullmq/src/businessPublicationActivator.js:434-580 | on well-formed chains that holds in every state |
| ActivatorStore.SelectionsPick | services/qybullmq/src/businessPublicationActivator.js:805-853 | the update statements, in their order, mark the rows as the selections say |
| ActivatorStore.TrialsMark | services/qybullmq/src/businessPublicationActivator.js:894-910 | so do the marks after failed trials |
| ActivatorStore.CommitInSteps | services/qybullmq/src/businessPublicationActivator.js:961-1000 | the commit statements, domain by domain, amount to one commit |
| ActivatorStore.ChannelStore.SelectDomain | services/qybullmq/src/businessPublicationActivator.js:842-853 | selects, marks and quarantines for one domain |
| ActivatorStore.ChannelStore.TryDomain | services/qybullmq/src/businessPublicationActivator.js:894-910 | simulates one domain and marks what a failure leaves behind |
| ActivatorStore.ChannelStore.CheckGate | services/qybullmq/src/businessPublicationActivator.js:855-892 | the gate checks in the order of the source |
| ActivatorStore.ChannelStore.CheckTrials | services/qybullmq/src/businessPublicationActivator.js:911-929 | the checks on the trials in the order of the source |
| ActivatorStore.ChannelStore.SetAppliedRevisionStatuses | services/qybullmq/src/businessPublicationActivator.js:617-651 | retires the active row, supersedes the applied ones, activates the last |
| ActivatorStore.ChannelStore.PersistDomain | services/qybullmq/src/businessPublicationActivator.js:582-651 | current result, cursor and statuses of one domain |
| ActivatorStore.ChannelStore.ActivateReady | services/qybullmq/src/businessPublicationActivator.js:739-1043 | the whole transaction on the mutable store is the atomic step that the invariants are about, with its outcome; a refused write restores the state it began with |
| OutboxSafety.ClaimKeeps | services/feature-dispatch/src/dispatchOutboxPublisher.js:29-78 | a claim keeps the invariant of the outbox: its attempt numbers are new |
| OutboxSafety.SendKeeps | services/feature-dispatch/src/dispatchTransport.js:226-246 | so does sending, whatever fails |
| OutboxSafety.ConfirmKeeps | services/feature-dispatch/src/dispatchOutboxPublisher.js:80-108 | so does marking published, also when it throws |
| OutboxSafety.ReportKeeps | services/feature-dispatch/src/dispatchOutboxPublisher.js:110-141 | so does marking failed |
| OutboxSafety.RunKeepsInv | services/feature-dispatch/src/dispatchOutboxPublisher.js:168-221 | the invariant holds in every state of every run, for any number of publishers, crashes, lost replies, expired leases and any consumer |
| OutboxSafety.FinalForever | services/feature-dispatch/src/dispatchOutboxPublisher.js:80-141 | published and dead_letter rows never change again |
| OutboxSafety.JobsForever | services/feature-dispatch/src/dispatchTransport.js:231-241 | a job in the queue keeps the data it was added with |
| OutboxSafety.PublishedIsEnqueued | services/feature-dispatch/src/dispatchTransport.js:226-246 | a published row's job is in the queue with its canonical payload, and no other row has its job id |
| OutboxSafety.LostLeaseChangesNothing | services/feature-dispatch/src/dispatchOutboxPublisher.js:80-90 | a publisher whose lease is gone changes no plan, row or job |
| OutboxSafety.ReturnIsCounted | services/feature-dispatch/src/dispatchOutboxPublisher.js:110-140 | every return to pending adds one to the count of returns |
| OutboxSafety.ReturnsAreBounded | services/feature-dispatch/src/dispatchOutboxPublisher.js:198-207 | a row returns to pending fewer than maxAttempts times |
| OutboxSafety.DeadLetterIsHopeless | services/feature-dispatch/src/dispatchOutboxPublisher.js:199-200 | a dead letter has used its attempts, does not validate, or found another payload under its job id |
| OutboxSafety.ScheduledIffStaged | services/feature-dispatch/src/dynamicDispatcher.js:370-398 | a plan has scheduled_at if and only if it has an outbox row, built for that very time inside the window |
| OutboxLease.CouplingKeptIff | services/feature-engine/src/feature_engine/applier.py:653-738 | a move of the consumer keeps row and plan coupled if and only if it leaves waiting rows alone, cancels nothing being published and reopens nothing finished |
| OutboxLease.RunKeepsCoupling | services/feature-dispatch/src/dispatchOutboxPublisher.js:29-141 | with such a consumer pending means planned, and publishing means finished or dispatching/running under the same lease, in every run |
| OutboxLease.CoupledRunIff | services/feature-dispatch/src/dispatchOutboxPublisher.js:29-141 | a run keeps rows and plans coupled in every state if and only if its consumer is considerate in every step |
| OutboxLease.HolderMarks | services/feature-dispatch/src/dispatchOutboxPublisher.js:91-106 | then markPublished by the holder never throws, and markFailed throws if and only if the plan has left dispatching |
| OutboxStranded.StuckForever | services/feature-dispatch/src/dispatchOutboxPublisher.js:33-141 | a row that waits or is published with a plan that is not open, and without a lease holder that can still mark it, is never claimed, published, retried or given up again |
| OutboxStranded.CanMoveIff | services/feature-dispatch/src/dispatchOutboxPublisher.js:33-141 | a row can change on some continuation if and only if it waits and its plan is planned or dispatching, or it is being published and its plan is, or is not cancelled and a holder of its lease has the job in the queue or can still put it there |
| OutboxStranded.WaitingCanBeClaimedIff | services/feature-dispatch/src/dispatchOutboxPublisher.js:33-48 | a waiting row can be claimed again on some continuation of a run if and only if its plan is planned or dispatching |
| OutboxStranded.StrandedRunsExist | services/feature-engine/src/feature_engine/applier.py:653-738 | two concrete runs that strand a row although its job is queued: cancelled while being published, and finished while waiting for a retry |
| OutboxStranded.CrashStrands | services/feature-dispatch/src/dispatchOutboxPublisher.js:168-221 | coupling is not enough: a crash between the queue and the mark strands a row once its job has started, with row and plan still under one lease |
| OutboxPlans.NextStatusIff | services/feature-engine/src/feature_engine/applier.py:653-738 | which statuses a plan can have after one step, in every state: its own; those that the consumer may give it; dispatching if its row is due; dispatched, planned or failed if a holder of both leases is about to mark the row |
| OutboxPlans.RunKeepsLeased | services/feature-dispatch/src/dispatchOutboxPublisher.js:29-141 | in every state of every run a dispatching plan carries a lease, and no other plan does but one that was started under it |
| OutboxStore.CandidatesClaimable | services/feature-dispatch/src/dispatchOutboxPublisher.js:33-48 | the claiming query yields rows that may be claimed and are not locked, each once; which they are is `Outbox.DueIff` |
| OutboxStore.DispatchStore.SelectClaimable | services/feature-dispatch/src/dispatchOutboxPublisher.js:33-49 | the first rows of the query up to the limit |
| Outbox.DueIff | services/feature-dispatch/src/dispatchOutboxPublisher.js:33-44 | a row may be claimed if and only if it is pending and its next attempt has come, or its lease has run out; its plan is planned or dispatching and was scheduled by now; and the time of day is 00:30 to 21:30 |
| OutboxClaim.ClaimedWhenDue | services/feature-dispatch/src/dispatchOutboxPublisher.js:33-71 | a row gets a new attempt only by a claim while it is due; row and plan then carry the same new lease |
| OutboxClaim.LeaseRespected | services/feature-dispatch/src/dispatchOutboxPublisher.js:38-39 | while a row is published under a lease that has not run out, no claim by anyone and nothing but a mark of its owner changes the row, and nothing but that and the consumer its plan |
| OutboxClaim.LeaseHolds | services/feature-dispatch/src/dispatchOutboxPublisher.js:38-39 | over a run: until the lease runs out or its owner marks the row, the row stays as it is |
| OutboxStore.DispatchStore.ClaimBatch | services/feature-dispatch/src/dispatchOutboxPublisher.js:29-78 | claims rows that are due, not locked and not claimed twice, as many as the limit allows and in the order of the query; they and their plans get the lease and one attempt more, all else stays; taken as one step, the divergence error does not occur |
| OutboxClaim.ClaimSerialises | services/feature-dispatch/src/dispatchOutboxPublisher.js:47-76 | only outbox rows are locked (line 47), so the consumer may move plans between the two statements: the divergence error is thrown if and only if it touched a plan of the batch; otherwise the two statements amount to those moves followed by the claim as one step |
| OutboxStore.DispatchStore.MarkPublished | services/feature-dispatch/src/dispatchOutboxPublisher.js:80-108 | lost without the lease; thrown if the plan is neither leased while dispatching or running, nor finished; else the row is published, both leases end, a dispatching plan is dispatched, all else stays |
| OutboxStore.DispatchStore.MarkFailed | services/feature-dispatch/src/dispatchOutboxPublisher.js:110-141 | lost without the lease; thrown unless the plan is dispatching under it; else the row is pending until the retry time and the plan planned, or the row a dead letter and the plan failed; all else stays |
| OutboxStore.DispatchStore.Send | services/feature-dispatch/src/dispatchTransport.js:226-246 | a row that does not validate is never sent; otherwise the job is added unless one with its id is there, and another payload under that id is refused for good |
| OutboxStore.PassEnds | services/feature-dispatch/src/dispatchOutboxPublisher.js:182-219 | a row that is sent and marked undisturbed ends published, pending or dead_letter by what sending met |
| OutboxStore.DispatchStore.RunOnce | services/feature-dispatch/src/dispatchOutboxPublisher.js:168-221 | an undisturbed pass is a run of the step relation; it claims what is due, claimed = published + retried + dead-lettered, no lease lost, counts as the rows say, at most limit jobs added |
| Budget.TargetBounds | services/feature-dispatch/src/dynamicDispatcher.js:108-121 | the incremental target lies between the ceiling of the minimum share and the channel target |
| Budget.LimitMonotone | services/feature-dispatch/src/dynamicDispatcher.js:107-125 | more pressure on either queue never raises the limit, more capacity never lowers it |
| Budget.LimitFits | services/feature-dispatch/src/dynamicDispatcher.js:122-131 | pressure plus the limit stays within the larger of pressure and channel target; the agent limit lies within the limit |
| Budget.CapacityIsLeast | services/feature-dispatch/src/dynamicDispatcher.js:80-92 | the capacity of a queue is 0 if it is paused or has no worker, else the least of its workers, a positive concurrency and the ready proxies |
| Budget.TargetFollowsSample | services/feature-dispatch/src/dynamicDispatcher.js:107-121 | a paused or worker-less incremental queue, or no ready proxy, gives all limits 0; otherwise the channel target is the buffer of the least of these, within the maximum |
| Budget.TargetIsLeast | services/feature-dispatch/src/dynamicDispatcher.js:108-121 | with a competing full crawl the incremental target is the least whole number that is neither below its share nor below what the crawl leaves; without one it is the channel target |
| Budget.LimitIsLargest | services/feature-dispatch/src/dynamicDispatcher.js:122-125 | the limit is as large as the batch size and the incremental target allow |
| Budget.AgentLimitFollowsSample | services/feature-dispatch/src/dynamicDispatcher.js:126-137 | the agent limit is the share of the limit, rounded down but at least one, and 0 if and only if the limit is 0 or the agent queue is paused or has no worker |
| Budget.AgentTargetFollowsSample | services/feature-dispatch/src/dynamicDispatcher.js:126-137 | the target of agents under way is a number of batches per worker of the agent queue, one batch without workers |
| Staging.CountPending | services/feature-dispatch/src/dynamicDispatcher.js:301-315 | both pending and publishing rows whose release time has come are counted, and among them those of agent-only plans |
| Staging.CountOutstanding | services/feature-dispatch/src/dynamicDispatcher.js:321-333 | released plans with an agent task that are not finished and whose agent observation was not applied |
| Staging.SelectPlans | services/feature-dispatch/src/dynamicDispatcher.js:344-370 | the first available, unlocked plans of the kind in the order of the query, as many as the limit allows |
| Staging.Choose | services/feature-dispatch/src/dynamicDispatcher.js:315-370 | which plans are chosen: available, none twice, within all three rooms, and one left behind only if a room is used up |
| Staging.StageBatch | services/feature-dispatch/src/dynamicDispatcher.js:280-405 | outside the window nothing; inside it agent-only plans first, then the others in what is left, each available and not locked, in the order of the query; rows waiting, agent-only rows waiting and plans with an agent task under way stay within their limits unless they were above already; a plan is left behind only if a room is used up; a refused insert leaves everything as it was; the result is a run of the step relation |
| Staging.Cycle | services/feature-dispatch/src/dynamicDispatcher.js:427-448 | one cycle stages for the sampled budget, then claims and sends what is due up to the same limit; the queue pressure stays within the larger of the pressure before and the channel target |
| Envelope.UuidV5IsUuid | services/feature-dispatch/src/dynamicDispatcher.js:48-57 | the derived event id matches the validator's UUID pattern: version and variant bits of section 5.5 of RFC 9562 |
| Envelope.JobIdPasses | services/feature-dispatch/src/dynamicDispatcher.js:59-64 | the job id is not blank and has no colon |
| Envelope.SameHash | services/feature-dispatch/src/dispatchTransport.js:47-53 | the payload hash does not depend on the order of keys |
| Envelope.ProducerMeetsConsumer | services/feature-dispatch/src/dispatchTransport.js:125-224 | every envelope of a well-formed plan released inside the window on its day passes the validation, however the stored keys are reordered at any depth |
| EnvelopeMeaning.EnvelopeReads | services/feature-dispatch/src/dynamicDispatcher.js:225-272 | round trip: whoever reads a stored envelope by the names of its fields, whatever the order of its keys, gets the plan, the release time, the job id and both version numbers |
| EnvelopeMeaning.AcceptsIff | services/feature-dispatch/src/dispatchTransport.js:125-224 | the validator passes exactly the rows whose payload has the thirteen fields, each sound, and carries the hash of its canonical text |
| EnvelopeMeaning.ChangedIsRefused | services/feature-dispatch/src/dispatchTransport.js:210-224 | a row validates with another payload than its own, beyond key order, only if the canonical texts of the two have the same hash |
| EnvelopeMeaning.JobIdsDiffer | services/feature-dispatch/src/dynamicDispatcher.js:225-272 | two plans of one channel have the same job id only if they are for the same day and of the same clock version |
| EnvelopeMeaning.UuidTells | services/feature-dispatch/src/dynamicDispatcher.js:48-57 | two names get the same event id only if their hashes agree in the first sixteen bytes but for the six bits of version and variant |
| OutboxEnvelope.BuiltValidates | services/feature-dispatch/src/dispatchTransport.js:125-224 | so the canonical payload of such a plan validates in whatever form it is stored |
| OutboxEnvelope.EveryRowValidates | services/feature-dispatch/src/dispatchOutboxPublisher.js:184-207 | in every run with the dispatcher's own envelope and validator and well-formed plans every row validates, so a dead letter has used its attempts or found another payload under its job id |
| GreedyDispatch.SlotsAreEligible | services/qybullmq/src/agentDispatchPolicy.js:28-36 | the slots stand, in order, for exactly the configurations that are enabled, have a positive id and are below their limit, which is maxWorkers held between 1 and 100 |
| GreedyDispatch.PickFirst | services/qybullmq/src/agentDispatchPolicy.js:40-46 | the first available configuration in the order of the comparator, none if all are full |
| GreedyDispatch.PlanGrows | services/qybullmq/src/agentDispatchPolicy.js:48-49 | giving a batch to that one keeps the plan balanced |
| GreedyDispatch.BuildPlan | services/qybullmq/src/agentDispatchPolicy.js:38-51 | as long as limit and room allow, no capacity exceeded, each choice the first after the choices before it, balanced |
| GreedyDispatch.BalancedMaximisesMinimum | services/qybullmq/src/agentDispatchPolicy.js:38-51 | no feasible allocation of the same size has a higher minimum utilisation |
| GreedyDispatch.BalancedIsCheapest | services/qybullmq/src/agentDispatchPolicy.js:38-51 | none has a smaller sum of marginal loads |
| GreedyDispatch.ChoicesInOrder | services/qybullmq/src/agentDispatchPolicy.js:40-49 | each batch goes to a configuration that is not full and whose load, as a share of its capacity, is the least; ties go to the larger capacity, then the smaller id, then the earlier one |
| GreedyDispatch.SharesAreFair | services/qybullmq/src/agentDispatchPolicy.js:38-51 | in whole numbers: any other allocation of the same size that fits uses some configuration no more, in proportion, than any given one is used |
| GreedyDispatch.BuildAgentDispatchPlan | services/qybullmq/src/agentDispatchPolicy.js:19-52 | a plan that is not empty takes, with what is outstanding, at most workerCapacity workers; it has at most 100 and at most max(1, maxBatches) batches; it is shorter than the room of the configurations only if one of these bounds is met or no worker is left; each batch goes to the first configuration in the order and the shares are the best possible |
| Rollback.OnePassIsStepwise | services/qybullmq/src/businessCreatorSearchStorageAdmin.js:166-184 | overriding the live rows with the deepest before-images equals undoing the releases newest to oldest, for every chain |
| Rollback.QueryRecoversTarget | services/qybullmq/src/businessCreatorSearchStorageAdmin.js:147-184 | with exact before-images the query computes the rows that were live at the target |
| Rollback.NoDifferences | services/qybullmq/src/businessCreatorSearchStorageAdmin.js:189-206 | zero parity differences if and only if the two row sets are equal |
| Rollback.RollbackTargetBlockers | services/qybullmq/src/businessCreatorSearchStorageAdmin.js:294-317 | which blockers are listed; none if and only if the evidence is clear |
| Rollback.ClearMeans | services/qybullmq/src/businessCreatorSearchStorageAdmin.js:294-317 | clear evidence if and only if the chain reaches the target, its changes are complete and the legacy snapshot is what undoing would leave |
| RollbackChain.ReachedMeans | services/qybullmq/src/businessCreatorSearchStorageAdmin.js:148-165 | the query reaches the target if and only if a chain of predecessors of at most 10000 steps leads there, and then undoes all of it but the target |
| RollbackChain.UndoAllIs | services/qybullmq/src/businessCreatorSearchStorageAdmin.js:166-184 | along such a chain each release gives every changed channel its before-image and leaves the others; the last table is what the query computes |
| RollbackChain.ClearIff | services/qybullmq/src/businessCreatorSearchStorageAdmin.js:294-317 | the evidence is clear if and only if every release before the target has recorded its changes and the legacy snapshot has the bodies of that last table |
| RollbackStore.LoopFollowsPath | database/bootstrap/business.sql:2920-2963 | if the loop ends it has undone exactly the releases on the query's path |
| RollbackStore.UndoReleaseMeans | database/bootstrap/business.sql:2798-2913 | when the active release can be undone, and the state after |
| RollbackStore.LoopRuns | database/bootstrap/business.sql:2920-2963 | if the loop ends there is a run of single steps, each from a release that is not the target and may be undone, to the target, at most 10000 long |
| RollbackStore.LoopEnds | database/bootstrap/business.sql:2920-2963 | conversely the loop ends, in its last state, if there is such a run |
| RollbackStore.StorageMeans | database/bootstrap/business.sql:2708-2791 | the database function goes through if and only if both modes are on, the loop ends, and the live rows are as many as expected with the bodies of the legacy snapshot; it then turns both modes off |
| RollbackStore.NotAgain | services/qybullmq/src/businessCreatorSearchStorageAdmin.js:148-160 | a path that reaches the target passes every release once |
| RollbackStore.PublishedRollsBack | database/bootstrap/business.sql:2920-2963 | on a chain with recorded images the loop never raises and restores the rows of the target |
| RollbackStore.ClearRollsBack | database/bootstrap/business.sql:2708-2791 | a cleared rollback goes through on such a chain |
| RollbackStore.RolledBackMeans | database/bootstrap/business.sql:2740-2778 | a rollback that goes through leaves what the query computed, which is the legacy snapshot |
| RollbackStore.SearchStorage.Restore | database/bootstrap/business.sql:2858-2894 | delete and insert give the undone rows; the check for exact restoration never fires |
| RollbackStore.SearchStorage.RollbackRelease | database/bootstrap/business.sql:2798-2913 | raises unless the active release is marked active, has recorded its changes, the live rows are its after-images and its predecessor is retired; otherwise the before-images are back, the predecessor is active and the release retired |
| RollbackStore.SearchStorage.RollbackToWatermark | database/bootstrap/business.sql:2920-2963 | the loop to the target, with its safety limit |
| RollbackStore.SearchStorage.Rollback | services/qybullmq/src/businessCreatorSearchStorageAdmin.js:541-603 | succeeds if and only if the approved evidence still holds and the database function goes through; otherwise nothing changes |
| CanonicalJson.ArrangeLookup | services/qybullmq/src/canonicalJson.js:4-6 | sorting the keys keeps what each key maps to |
| CanonicalJson.ArrangeOrders | services/qybullmq/src/canonicalJson.js:4-6 | the keys end in one order: integer indices by value, then code units |
| CanonicalJson.OrderedUnique | services/qybullmq/src/canonicalJson.js:4-6 | an object in that order is determined by what its keys map to |
| KeyOrder.IsIndexMeans | services/qybullmq/src/canonicalJson.js:4-6 | the keys that come first are the decimal forms of 0 to 4294967294 |
| KeyOrder.KeyBeforeMeans | services/qybullmq/src/canonicalJson.js:4-6 | they are in the order of their numbers; all other keys follow in the order of their first different code unit, a text before its extensions |
| KeyOrder.CanonicalKeyOrder | services/qybullmq/src/canonicalJson.js:4-6 | the keys of a canonical object are those of the object, in that order |
| CanonicalValue.CheckedIff | services/feature-dispatch/src/dispatchTransport.js:32-45 | the checked form exists if and only if the value is JSON throughout, and then equals the unchecked one |
| CanonicalValue.CanonicalIff | services/qybullmq/src/canonicalJson.js:1-7 | two values have the same canonical value if and only if they are equal up to key order |
| CanonicalValue.Idempotent | services/qybullmq/src/canonicalJson.js:1-7 | canonicalising twice changes nothing, and once changes only key order |
| JsonText.EscapeSplits | services/feature-dispatch/src/dispatchTransport.js:47-49 | an escaped string can be read back in front of anything: escapes, control characters, surrogates |
| JsonText.PrintInjective | services/feature-dispatch/src/dispatchTransport.js:47-49 | printing JSON values is injective |
| JsonText.CanonicalTextIff | services/feature-dispatch/src/dispatchTransport.js:47-49 | two JSON values have the same canonical text if and only if they are equal up to key order |
| JsonReader.EscapeForms | services/feature-dispatch/src/dispatchTransport.js:47-49 | which code units are escaped, and how |
| JsonReader.PrintReads | services/feature-dispatch/src/dispatchTransport.js:47-49 | round trip: the text printed for a JSON value, in front of anything, is read back as that value by the grammar of RFC 8259 |
| JsonReader.PrintIsPaired | services/feature-dispatch/src/dispatchTransport.js:47-49 | the printed text has no lone surrogate, whatever the strings are |
| JsonReader.CanonicalTextReads | services/feature-dispatch/src/dispatchTransport.js:47-49 | the canonical text is read back as the canonical value |
| LooseJson.CleanCanonical | services/qybullmq/src/canonicalJson.js:9-11 | what JSON.stringify drops or replaces does not depend on the key order |
| LooseJson.CanonicalStringIff | services/qybullmq/src/canonicalJson.js:13-15 | canonicalJsonEqual holds if and only if what JSON.stringify writes is equal up to key order |
| JsonReader.CleanMeans | services/qybullmq/src/canonicalJson.js:9-11 | what JSON.stringify writes: nothing for what is not JSON, null for what is not finite, items of an array one by one with null for either, the properties of an object that are JSON |
| JsonReader.CanonicalStringReads | services/qybullmq/src/canonicalJson.js:9-11 | the text of the unchecked form is read back as the canonical value of what is written |
| LooseJson.StringsAgreeOnJson | services/qybullmq/src/canonicalJson.js:9-11 | on JSON values both canonical forms give the same text |
| LooseJson.NonFiniteCollides | services/qybullmq/src/canonicalJson.js:9-15 | the unchecked form does not tell a non-finite number from null |
| LooseJson.NonJsonCollides | services/qybullmq/src/canonicalJson.js:9-15 | nor a property without a JSON value from a missing one |
| AboutRegisters.FoldHolds | services/qybullmq/src/aboutObservationStore.js:353-414 | a metric register holds the last to arrive among its latest resolved readings |
| AboutRegisters.AgreeingTiesConverge | services/qybullmq/src/aboutObservationStore.js:353-414 | if readings at the latest time agree, every order with any repetitions leaves the same register |
| AboutRegisters.OrderIrrelevantIff | services/qybullmq/src/aboutObservationStore.js:353-414 | the register is independent of the order of delivery if and only if readings at the latest time agree |
| AboutRegisters.DistinctTimesConverge | services/qybullmq/src/aboutObservationStore.js:353-414 | with distinct times every order with any repetitions leaves the latest resolved reading, and the empty register exactly if there is none |
| AboutLog.TrailingMeans | services/qybullmq/src/aboutObservationStore.js:712 | the counted failures are the longest trailing run of failures |
| AboutLog.RecordKeeps | services/qybullmq/src/aboutObservationStore.js:606-770 | one call keeps the invariant of the log |
| AboutLog.DeliverKeeps | services/qybullmq/src/aboutObservationStore.js:606-770 | after any deliveries: sequences 1..n per channel, one event each, cursor and registers are the fold of the log |
| AboutLog.KeyReused | services/qybullmq/src/aboutObservationStore.js:299-329 | a redelivery changes nothing and is answered with the first observation; a reused key changes nothing and is refused |
| AboutLog.RecordIsRight | services/qybullmq/src/aboutObservationStore.js:606-770 | one call, written out: an observation that is not sound is rejected, a known key is answered from what was recorded under it or refused for another command, and a new one gets the next sequence, one event, an advanced cursor and updated registers |
| AboutLog.RegistersConverge | services/qybullmq/src/aboutObservationStore.js:348-414 | two stores that recorded the same readings agree on the register |
| AboutLog.RegisterIsLatest | services/qybullmq/src/aboutObservationStore.js:348-414 | with distinct times each register of a channel holds the latest resolved reading recorded for it |
| AboutStore.ObservationStore.ClaimObservationKey | services/qybullmq/src/aboutObservationStore.js:299-329 | claims a new key, or answers from the existing one |
| AboutStore.ObservationStore.AllocateSequence | services/qybullmq/src/aboutObservationStore.js:331-346 | the next sequence of the channel |
| AboutStore.ObservationStore.Record | services/qybullmq/src/aboutObservationStore.js:606-770 | the statements of the transaction amount to the atomic step, and so to `AboutLog.RecordIsRight` |
| Baseline.Sort | services/qybullmq/src/baselineBundle.js:265-269 | a permutation in the order of the comparator |
| Baseline.Check | services/qybullmq/src/baselineBundle.js:275-302 | the pass accepts if and only if every event passes against those before it |
| Baseline.PassingIsSound | services/qybullmq/src/baselineBundle.js:275-302 | what the pass accepts has unique ids and sequences 1..n per channel and kind |
| Baseline.SoundPasses | services/qybullmq/src/baselineBundle.js:275-302 | and the pass accepts all of that |
| Baseline.SoundMeans | services/qybullmq/src/baselineBundle.js:275-302 | what the pass accepts, event by event and pair by pair |
| Baseline.OneOrder | services/qybullmq/src/baselineBundle.js:265-269 | accepted events have one sorted order only |
| Baseline.SerializeBaselineEvents | services/qybullmq/src/baselineBundle.js:259-318 | accepted if and only if no id is blank, every time is known and not after the export, ids are unique, each channel and kind has the sequences 1, 2, 3, ..., the untrimmed ids agree with them, and the channels are as expected; the lines are those of the one sorted order, whatever the order given |
| Baseline.SoundIff | services/qybullmq/src/baselineBundle.js:265-289 | contiguous events are accepted if and only if their order by the untrimmed ids agrees with the sequences; always so without blanks |
| Baseline.BlankIsRefused | services/qybullmq/src/baselineBundle.js:265-289 | two contiguous events that are refused because of a blank |

## Left out

- Timestamps of rows, actors, reasons, ingress status, projection outbox rows and quarantine evidence: they
  do not influence any decision of the modelled steps.
- The ownership checks of the surrounding services; an owner may change in any way at any time, except
  that the previous stream differs from the active one.
- BullMQ's removal of finished jobs after two weeks or at 100000 jobs: `queue.add` is modelled without it.
- `dispatchRetryDelayMs` and jitter: the retry time is an input of the step.
- The stream column of content rows, which is written with every row and read by none of the modelled code.
- Row locks: `FOR UPDATE SKIP LOCKED` is a set of ids that a query does not see.
- Envelope.ProducerMeetsConsumer: string coercion of non-string values and dates after the year 9999 are not modelled; the producer writes neither.
- Baseline.SerializeBaselineEvents: kind_sequence is an integer; any other number is refused by the same check in the source.
- About fields other than the three metrics; the 90-day expiry of idempotency keys; publication
  reconciliation and query terms.
- GreedyDispatch.BuildAgentDispatchPlan: utilisation is compared over the reals; with at most 100 workers per configuration the source's doubles order the same.
- The storage cutover (`apply`) and the session lock of the search release administrator.
- Sampling of queues and the proxy capacity gateway: the sample is an input of the budget.
- Hash functions, encryption and random ids: parameters or inputs.
- Budget.TargetBounds: shares are reals; the source's `Math.ceil(channelTarget * minimumShare)` works on doubles and can differ by one where the rounded product crosses an integer.
- OutboxStore.DispatchStore.ClaimBatch: states the transaction as one step; when the divergence error is thrown is stated by `OutboxClaim.ClaimSerialises` instead.
- The sort keys of the claiming and staging queries: every statement holds for any order of the plans.
- JsonReader.PrintReads: the reader skips no blanks, which are never written, and takes a number token as a whole instead of checking the number grammar.
