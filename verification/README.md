# Polycopy verification

Dafny models of the parts of Polycopy whose correctness only shows over whole runs, with proofs about
them.  `dafny verify dfyconfig.toml` checks everything.

## What is modelled

| files | source | what it is |
|---|---|---|
| `CatchUp`, `CatchUpSafety`, `CatchUpRuns`, `CatchUpReasons` | `ingestion/catchup.py` | the resumable backwards paging that reconnects an approved wallet to its last known trade |
| `Fence`, `FenceLaws`, `FenceHistory`, `FenceProcess` | `poly2-comparison-fence.py`, `bounded_journal.py` | the event-sourced source epoch fence, its incremental state and its trigger-kept counters |
| `Observer`, `ObserverRuns`, `ObserverSafety`, `ObserverFate`, `ObserverLatch`, `ObserverFaults`, `ObserverProgress` | `shadow_observer.py`, `shadow_failure.py`, `shadow_capture.py`, `shadow_controller.py` | the session observer, a database with savepoints, commits whose reply may be lost, the denial latch and recovery |
| `SourceHook`, `SourceHookRuns`, `SourceHookOutcomes`, `SourceHookHistory` | `poly2-comparison-source-hook.py` | the observation hook, its two journals and its restart |
| `Drain`, `DrainLaws`, `DrainFrames`, `DrainScan`, `OffsetIndex`, `DrainFile`, `DrainProcess`, `DrainCodec` | `poly2-comparison-drain.py`, `poly2-comparison-fence.py`, `bounded_journal.py` | the frozen decision drain: producer, validators, byte-offset index, the file behind them |
| `BookWalk`, `BookSides` | `execution/bookwalk.py` | the greedy market-order simulation |
| `Pnl`, `Bankroll`, `PaperBook`, `PaperBookRuns`, `PaperAccounting`, `PaperFees`, `PaperSweeps`, `PaperOutcomes`, `PaperBot` | `execution/service.py`, `execution/fees.py`, `bankroll.py`, `accounting/pnl.py`, `accounting/settlements.py` | paper positions, cash, ledger, sweeps, settlement |
| `Settlements`, `SettlementHistory` | `accounting/settlements.py` | when a market counts as resolved, and when it may be asked about again |
| `CopyBoundary`, `CopyBoundaryRuns`, `CopyBoundaryOutcomes` | `execution/service.py`, `api/routes.py` | which trades may ever be copied |
| `Bootstrap`, `BootstrapReasons` | `ingestion/service.py` | the bounded history bootstrap |

Code that works by updating fields is a class whose methods are proved equal to functions on values;
the run theorems are lemmas about those functions.  A run is a sequence of steps with arbitrary
parameters, so a theorem over runs is a theorem over every interleaving and every crash point.

Conventions: money is `real`, clocks are integers, a digest is the value it was taken of (an event or
frame carries its predecessor), and what the network, the clock or a query answers is a parameter.  An
INSERT is atomic and may fail; an append to a journal file may also stop part way.  Error texts are
enumerations except where the program tests their truthiness.

Assumptions, each visible in a `requires` or an `Enabled` predicate: the trade source is append-only
with nondecreasing timestamps and distinct identities; UUIDs are fresh; clocks do not go back within a
run of the hook or of the copy boundary; primary keys are unique; no trade row is inserted between the
witness and its COMMIT; a settlement check makes at most two requests per market; a page is no longer
than asked; a drain frame written as a line reads back as itself, and an unfinished one with another
behind it does not parse (`DrainCodec.CodecExists`: it can be had); of a fee's power function, that x to
the 0 is 1, x to the 1 is x, and x to more than 1 stays within x (`PaperFees.PowerExists`).

## Where the code falls short of its promise

Each has a lemma with the exact condition under which the promise holds, most with a failing case beside
it.  An exception raised without arguments has an empty message.

- Catch-up: before the first checkpoint exists, a crash after the tail page loses the old anchor
  (`CrashBeforeFirstCheckpointHidesGap`, `FirstCheckpointGuardsAnchor`).
- Fence: failure is tested by truthiness, so a later ERROR with an empty message clears it
  (`EmptyMessageClearsFailure`, `FailureLatchesIffMessageNonempty`).
- Fence: a COMMIT that fails after the block succeeded is not followed by a rebuild, so the process can
  be left ahead of its journal (`Process.CommitFails`).
- Observer: a contained failure withholds the witness only while the newest message of the process or of
  the journal is not empty (`WitnessIffNothingRecorded`).  When both are empty, a detach, flush, release
  or rollback callback that failed is followed by a witness with wrong rows
  (`UndetachedFlushIsWitnessed`, `UnseenFlushIsWitnessed`, `UnnoticedReleaseIsWitnessed`,
  `UnnoticedRollbackIsWitnessed`); if no outer callback clears the fields, the next commit carries the
  token of an abandoned transaction (`StaleTokenIsWitnessed`, `OneOuterCallbackClears`).  The denial latch
  that the failure stores then keeps recovery from believing such a witness, except a recovery that was
  open before; and if the latch could not be stored, nothing does (`FateNeverMisjudged`,
  `DenialIsFinal`).
- Observer: after an acknowledged COMMIT the flag of an unknown end stays up; a later rollback reported
  before, or without, its own end being noted is then not journaled and its attempt stays outstanding
  (`StandingFlagHidesRollback`, `AbandonedIsRolledBackIff`).
- Counters: the update trigger looks at the new epoch only; right exactly while no upsert changes an
  attempt between epochs, which no accepted event does (`UpsertAgreesIffEpochKept`,
  `AcceptedEventKeepsCounts`).
- Hook: `before_commit` accepts a second intent that the restart refuses (`SecondIntentSpoilsRestart`).
- Drain: `_validate_terminal` takes the expected cursor from the frame under check
  (`RenumberedFrameStreams`, `StreamingEqualsFullButNumbers`, `StreamedEqualsRestart`); `timeout` appends
  behind an append that latched without looking at the latch (`LatchedTimeoutRestartsIff`).
- Paper money: the bankroll's documentation says available cash can never go negative; a SELL whose fee
  exceeds its proceeds and the free cash there is does that, and a market may ask for such a fee
  (`ThinMarketOverdraws`, `SellKeepsCashIffFeeCovered`); on the gentlest curves rounding alone can, by
  half a quantum a sale (`CurveFeeIsCovered`, `DustSaleOverpays`, `CurveRunsKeepMoney`).
- Sweeps: when losses eat a remainder the next sweep should have to cross the profit limit again; the
  reset that would do this is not committed (`LostResetSweepsEarly`, `SweepBelowLimitIffResetLost`).

## Model

| member | source | states |
|---|---|---|
| CatchUpRuns.CaughtUpMeansNoGap | backend/src/polycopy/ingestion/catchup.py:49-155 | In every run - trades arriving between any two requests, crashes between any two commits, any stored history, no checkpoint yet - a checkpoint that says "caught up" leaves no source trade unstored from the first recorded anchor up to its own; a recovering checkpoint is right about its anchor too. |
| CatchUpRuns.StallsOnlyOnCrowdedSecond | backend/src/polycopy/ingestion/catchup.py:113-118 | Recovery never records exhausted history, and records a stalled window only if 10000 source trades share one timestamp. |
| CatchUpRuns.EventuallySettles | backend/src/polycopy/ingestion/catchup.py:105-155 | Liveness: with a quiet source and a wallet that stays approved, finitely many calls record "caught up" at the newest trade, or a stall on a crowded second. |
| CatchUpRuns.CycleAdvances | backend/src/polycopy/ingestion/catchup.py:29-155 | One undisturbed call is caught up, stalled, or strictly further in a lexicographic measure of anchor, window end and offset. |
| CatchUpRuns.CrashBeforeFirstCheckpointHidesGap | backend/src/polycopy/ingestion/catchup.py:50-67 | Concrete failure: a crash after the tail page and before the first checkpoint makes the next call take the newest trade for its anchor and report "caught up" over a gap. |
| CatchUpRuns.FirstCheckpointGuardsAnchor | backend/src/polycopy/ingestion/catchup.py:67-106 | Exactly when the first call is safe to cut off: with any trade missing between stored anchor and tail page, ties in time included, the anchor the next call starts from hides a gap if and only if the crash falls after the tail page and before the first checkpoint and that page held a trade not stored before. |
| CatchUpSafety.CycleIsSafe | backend/src/polycopy/ingestion/catchup.py:49-155 | One call cut off after any of its commits keeps every claim recorded in the checkpoint log. |
| CatchUpSafety.PageMovesCursor | backend/src/polycopy/ingestion/catchup.py:123-134 | A page of the frozen window is the run of source positions just below the cursor, and is full unless it reaches the anchor, whatever arrived meanwhile. |
| CatchUpSafety.RollKeepsWindow | backend/src/polycopy/ingestion/catchup.py:114-122 | Rolling the window at offset 10000 loses nothing: the inclusive boundary second is read again. |
| CatchUpSafety.ConnectKeepsSound | backend/src/polycopy/ingestion/catchup.py:135-152 | The follow-up window that starts at the old head covers everything stored so far. |
| CatchUpSafety.HeadMovesToTail | backend/src/polycopy/ingestion/catchup.py:68-70 | Moving the head anchor up to the newest trade opens no gap. |
| CatchUpSafety.TailConnects | backend/src/polycopy/ingestion/catchup.py:84-85 | A tail page that holds a covered anchor covers everything up to its newest row. |
| CatchUp.WalletCatchUp.IngestApprovedWallet | backend/src/polycopy/ingestion/catchup.py:60-155 | The two-phase call in place on the store and the checkpoint log: exactly the commits of the cycle, in order, with the tail page always stored before any claim. |
| CatchUp.WalletCatchUp.PageOlder | backend/src/polycopy/ingestion/catchup.py:105-156 | The bounded paging loop commits exactly the rounds of the cycle, each page before its checkpoint. |
| CatchUp.WalletCatchUp.IngestTradeRows | backend/src/polycopy/ingestion/service.py:499-568 | Inserts, in page order, exactly the first row of each identity not stored yet. |
| CatchUp.InsertNewKeys | backend/src/polycopy/ingestion/service.py:520-528 | Storing a page adds exactly its identities and only rows of that page. |
| CatchUpReasons.LostApprovalStops | backend/src/polycopy/ingestion/catchup.py:105-112 | Approval lost, exactly: the first unapproved round ends the call with one checkpoint, reason "wallet disabled", that keeps the window the earlier rounds left, and no page follows it; if those rounds had ended the loop, nothing follows at all. |
| CatchUpReasons.ApprovedNeverDisabled | backend/src/polycopy/ingestion/catchup.py:107-112 | While every round finds the wallet approved, "wallet disabled" is never recorded and at most one page a round is stored. |
| CatchUpReasons.DisabledCall | backend/src/polycopy/ingestion/catchup.py:60-112 | The same for a whole call: tail page, the window recorded, at most a page for each round before approval was lost, and then that checkpoint. |
| CatchUpReasons.TailDecides | backend/src/polycopy/ingestion/catchup.py:67-106 | What the tail page decides: no anchor or the anchor on it means no paging, and a checkpoint exactly where there was none or the newest trade moved; otherwise the next commit records the window to page. |
| CatchUpReasons.RequestIsLargest | backend/src/polycopy/ingestion/catchup.py:113-124 | A request asks for as many rows as the page size and the window of 10000 allow. |
| CatchUpReasons.CursorMoves | backend/src/polycopy/ingestion/catchup.py:130-134 | After a page that missed the anchor the cursor stands right behind it and the oldest time seen is the least on the page. |
| CatchUpReasons.NewestStoredIs | backend/src/polycopy/ingestion/catchup.py:52-58 | The anchor taken from stored history is a trade no other stored trade is newer than, the last stored one among equals. |
| CatchUpReasons.StoresFirstUnknown | backend/src/polycopy/ingestion/service.py:499-568 | Storing a page appends a subsequence of it: for every identity not stored before, the first row that carries it, in page order. |
| CatchUpReasons.StoredOnce | backend/src/polycopy/ingestion/service.py:520-528 | No identity is ever stored twice. |
| Fence.ReplaySplits | backend/src/polycopy/_shadow_protocol/poly2-comparison-fence.py:62-156 | Replaying a concatenated journal equals replaying the first part and continuing from its state, index and last event. |
| FenceLaws.ClosedPopulationIsFinal | backend/src/polycopy/_shadow_protocol/poly2-comparison-fence.py:90-151 | Once FENCE is in an accepted journal, every accepted extension has the same resolved closed-epoch attempts, receipt counts and committed population, and facts recorded by FREEZE equal that population in every later state. |
| FenceLaws.AcceptedJournalOk | backend/src/polycopy/_shadow_protocol/poly2-comparison-fence.py:62-156 | Every accepted journal: epoch 0 before CLOSE and 1 after, witnesses that match their attempts, post-close facts after the window, and FENCE only over an empty set of outstanding closed-epoch attempts. |
| FenceLaws.FencedReplayChangesNothing | backend/src/polycopy/_shadow_protocol/poly2-comparison-fence.py:74-156 | From a fenced state any accepted continuation leaves receipt, closed-epoch rows and population untouched. |
| FenceLaws.LateRowContributesNothing | backend/src/polycopy/_shadow_protocol/poly2-comparison-fence.py:122-125 | An attempt admitted after CLOSE adds no fact to the window population. |
| FenceLaws.FailureLatchesIffMessageNonempty | backend/src/polycopy/_shadow_protocol/poly2-comparison-fence.py:133-137 | The failure latch, exactly: a failed state stays failed over an accepted continuation if and only if its last ERROR message is not empty. |
| FenceLaws.EmptyMessageClearsFailure | backend/src/polycopy/_shadow_protocol/poly2-comparison-fence.py:133-134 | Concrete failure: from every failed, unarchived state an ERROR with an empty message clears the failure, and is accepted exactly when signed or no signature is asked for. |
| FenceLaws.FailedAuthorizesNothing | backend/src/polycopy/_shadow_protocol/poly2-comparison-fence.py:129-145 | Corollary: while a journal state is failed, no FENCE, FREEZE or ARCHIVE is accepted. |
| FenceLaws.CompleteIsAccepted | backend/src/polycopy/_shadow_protocol/poly2-comparison-fence.py:392-402 | Corollary: what `complete` checks is enough for `replay` to accept its FENCE. |
| FenceLaws.FreezeIsAccepted | backend/src/polycopy/_shadow_protocol/poly2-comparison-fence.py:143-151 | Corollary: a FREEZE over exactly the committed population is accepted. |
| FenceLaws.FreezeCheckStaysValid | backend/src/polycopy/_shadow_protocol/poly2-comparison-fence.py:404-421 | `freeze` compares before it opens its transaction; whatever is appended in between, its FREEZE is refused only if a failure or another FREEZE came first. |
| FenceLaws.LastEventCommitsToHistory | backend/src/polycopy/_shadow_protocol/poly2-comparison-fence.py:76-78 | Two accepted journals with the same last event are the same journal. |
| FenceHistory.AcceptedIffLegal | backend/src/polycopy/_shadow_protocol/poly2-comparison-fence.py:62-156 | Replay against the history alone: a journal is accepted if and only if it starts with the right ARM and each later event was legal by the events before it - who is enrolled, attempted, resolved, closed, failed, fenced, frozen - with no replay state in the statement. |
| FenceHistory.FreezeRecordsTheCohort | backend/src/polycopy/_shadow_protocol/poly2-comparison-fence.py:178-191 | In every accepted journal a FREEZE records, by record ID, exactly the facts that commit evidence before it lists for wallets of the cohort, ingested at or after the start and at or before the end. |
| FenceHistory.SharedRecordRefusesFreeze | backend/src/polycopy/_shadow_protocol/poly2-comparison-fence.py:178-191 | As soon as two commits contribute facts of one record, every FREEZE is refused. |
| FenceHistory.PermittedIffAccepted | backend/src/polycopy/_shadow_protocol/poly2-comparison-fence.py:74-156 | One event on an accepted journal: replay takes it exactly when the history permits it. |
| FenceHistory.TellsStep | backend/src/polycopy/_shadow_protocol/poly2-comparison-fence.py:79-156 | Every accepted event keeps the replayed state a true account of the history: rows, epochs, fates, evidence, counts, error and milestones. |
| FenceHistory.ReadyIff | backend/src/polycopy/_shadow_protocol/poly2-comparison-fence.py:392-402 | What `complete` waits for, told from an accepted journal: a CLOSE, the ACKs of exactly the workers of the roster, and every attempt of the closed epoch resolved. |
| FenceProcess.AcceptedEventKeepsCounts | backend/src/polycopy/_shadow_protocol/poly2-comparison-fence.py:230-234 | No accepted event moves an attempt between epochs, so the trigger-kept counters stay equal to a recount. |
| FenceProcess.UpsertAgreesIffEpochKept | backend/src/polycopy/_shadow_protocol/poly2-comparison-fence.py:232-233 | An upsert keeps the counters equal to a recount if and only if it does not move an attempt into or out of epoch 0. |
| FenceProcess.DeleteAgrees | backend/src/polycopy/_shadow_protocol/poly2-comparison-fence.py:234 | Deleting a row keeps the counters equal to a recount. |
| FenceProcess.CountAfterUpsert | backend/src/polycopy/_shadow_protocol/bounded_journal.py:22-23 | How one upsert changes the recount of each fate. |
| FenceProcess.FastReceiptIsReceipt | backend/src/polycopy/_shadow_protocol/poly2-comparison-fence.py:159-175 | Both branches of `receipt` - counters or recount - give the same receipt. |
| FenceProcess.Process.constructor | backend/src/polycopy/_shadow_protocol/poly2-comparison-fence.py:216-238 | Opening a journal arms an empty one, and indexes every event of it. |
| FenceProcess.Process.Refresh | backend/src/polycopy/_shadow_protocol/poly2-comparison-fence.py:269-278 | After `state()` the kept state is the replay of the whole journal, other processes' events included, and the counters agree. |
| FenceProcess.Process.Append | backend/src/polycopy/_shadow_protocol/poly2-comparison-fence.py:280-290 | Appends exactly when `replay` accepts and the INSERT succeeds; a failure leaves the journal as it was. |
| FenceProcess.Process.End | backend/src/polycopy/_shadow_protocol/poly2-comparison-fence.py:248-257 | COMMIT keeps the transaction; a raise inside the block restores the journal, and the rebuilt state is its replay. |
| FenceProcess.Process.CommitFails | backend/src/polycopy/_shadow_protocol/poly2-comparison-fence.py:248-257 | A COMMIT that itself fails: rows, counters and journal go back, nothing is rebuilt, and the kept state is right if and only if it is not ahead of the journal and its rows had not moved. |
| FenceProcess.Process.Rebuild | backend/src/polycopy/_shadow_protocol/poly2-comparison-fence.py:262-267 | Dropping the index and replaying restores state and counters for any journal. |
| FenceProcess.Process.DeleteAllAttempts | backend/src/polycopy/_shadow_protocol/poly2-comparison-fence.py:262-264 | Deleting every row through the trigger leaves all counters at zero. |
| FenceProcess.Process.OtherProcessAppends | backend/src/polycopy/_shadow_protocol/poly2-comparison-fence.py:269-278 | An append by another process leaves this process's kept prefix and counters valid. |
| FenceProcess.Process.OtherProcessTries | backend/src/polycopy/_shadow_protocol/poly2-comparison-fence.py:280-290 | An event another process tries is appended or refused; either way the journal stays accepted and this process's prefix valid. |
| FenceProcess.RowsOnlyGrow | backend/src/polycopy/_shadow_protocol/poly2-comparison-fence.py:82-128 | Along any accepted journal no attempt vanishes and a resolved attempt never changes. |
| FenceProcess.Process.Admit | backend/src/polycopy/_shadow_protocol/poly2-comparison-fence.py:337-342 | Admits exactly when roster, enrollment, token and retry rule allow; a refusal changes nothing durable. |
| FenceProcess.Process.Resolve | backend/src/polycopy/_shadow_protocol/poly2-comparison-fence.py:381-387 | A witness resolves an outstanding attempt, agrees with an equal one, and otherwise raises with the journal unchanged. |
| FenceProcess.Process.Recover | backend/src/polycopy/_shadow_protocol/poly2-comparison-fence.py:358-390 | The recovery loop while other processes append between its reads and its writes, corrupt witness rows included: unless it raises, no attempt there was at the start and whose witness is visible stays outstanding; what no other process touched changed by its own witness or not at all; the journal only grows and stays accepted. |
| FenceProcess.Process.ReportError | backend/src/polycopy/_shadow_protocol/poly2-comparison-fence.py:318-324 | The failure is recorded in the process at once, and in the journal only if the append still works. |
| FenceProcess.Process.Complete | backend/src/polycopy/_shadow_protocol/poly2-comparison-fence.py:392-402 | Returns a receipt exactly when already fenced or ready, raises exactly on a failure, and the receipt written from the counters is the recounted one. |
| ObserverLatch.FateNeverMisjudged | backend/src/polycopy/shadow_observer.py:63-185 | Over every run without exception - flushes, failed flushes, partial detaches, savepoints, callbacks failing with or without a message, reports journaled or not, commits acknowledged, lost or refused, either callback order, crashes, recoveries by other processes: ROLLED_BACK means the database does not hold the transaction and never will; COMMITTED means it holds the one admitted under the token, with the recorded witness and exactly its rows, unless a recovery opened before the denial latch was stored read the witness after it, or the latch of a failure was lost; without those two an ambiguous or unwitnessed commit stays outstanding. |
| ObserverLatch.DenialIsFinal | backend/src/polycopy/shadow_controller.py:36-41 | Once the latch is stored and no recovery is open, no continuation of any run makes an attempt of this observer COMMITTED. |
| ObserverLatch.StepLatches | backend/src/polycopy/shadow_failure.py:27-69 | Each step keeps: fields out of step and witnesses sent out of step mean a latch stored or lost, and every COMMITTED row rests on a witness sent in step, read late, or a lost latch. |
| ObserverFate.OneWitnessPerToken | backend/src/polycopy/shadow_observer.py:116-123 | Over every run no two transactions, durable or unsettled, carry witnesses for one token. |
| ObserverFaults.LoudFailuresNeverMislead | backend/src/polycopy/shadow_observer.py:45-61 | When every contained failure carries a message, COMMITTED always names its own transaction with exactly its rows, and an ambiguous or unwitnessed commit always stays outstanding. |
| ObserverFate.VisibleWitnessResolves | backend/src/polycopy/_shadow_protocol/poly2-comparison-fence.py:368-387 | Recovery with a visible witness commits the attempt if and only if the facts repeat no event ID and no post-close fact predates the window end. |
| ObserverFaults.WitnessIffNothingRecorded | backend/src/polycopy/shadow_observer.py:108-127 | A clean COMMIT of any world carries a witness if and only if its token is journaled, has no witness yet, the observer listens, and neither the process nor the journal has a failure on record whose message is not empty. |
| ObserverFaults.BesideRun | backend/src/polycopy/shadow_failure.py:27-50 | Whatever reports, other processes, control ticks and controllers come in between, the session is as it was; the two records are the newest message of the process and of the journaled ERRORs, unless the observer fell silent. |
| ObserverFaults.UndetachedFlushIsWitnessed | backend/src/polycopy/shadow_observer.py:78-106 | Failing case and exact condition: a detach fails after any number of facts; the next COMMIT carries a witness if and only if the observer still listens and the newest message of the process and of the journal are empty, and it omits rows unless the last fact raised after it was stored. |
| ObserverFaults.UnseenFlushIsWitnessed | backend/src/polycopy/shadow_observer.py:63-76 | The same where the flush callback fails under an admitted token: the witness has none of the rows of that flush. |
| ObserverFaults.UnnoticedRollbackIsWitnessed | backend/src/polycopy/shadow_observer.py:139-146 | The same where rolling back a savepoint goes unnoticed: the witness lists rows the database dropped, and is exact only if there were none. |
| ObserverFaults.UnnoticedReleaseIsWitnessed | backend/src/polycopy/shadow_observer.py:129-137 | The same where releasing a savepoint goes unnoticed and its parent is rolled back. |
| ObserverFaults.OneOuterCallbackClears | backend/src/polycopy/shadow_observer.py:147-164 | The next transaction starts in step if and only if at least one outer callback worked. |
| ObserverFaults.StaleTokenIsWitnessed | backend/src/polycopy/shadow_observer.py:108-164 | No outer callback clears the fields of an abandoned transaction: the next transaction commits with a witness for the abandoned token if and only if the observer still listens and both newest messages are empty.  If the journal accepts the facts, some continuation then journals COMMITTED for the transaction the database never committed if and only if a recovery is open already or no latch is there - and the latch is there, and no recovery opens, once one failing callback stored it. |
| ObserverFate.StepKeepsSound | backend/src/polycopy/shadow_observer.py:63-185 | Each step of session, database, recovery or other process, failing callbacks included, keeps the books sound. |
| ObserverFate.WitnessIsExact | backend/src/polycopy/shadow_observer.py:108-119 | A witness written before COMMIT by an observer in step lists exactly the rows that the commit will make durable. |
| ObserverRuns.MirrorsMeansSurvivors | backend/src/polycopy/shadow_observer.py:87-106 | Savepoint refinement: at any depth the facts held are exactly the rows that survive in a stack-of-savepoints database. |
| ObserverRuns.InsertMirrors | backend/src/polycopy/shadow_observer.py:87-106 | A flush keeps facts and owners level by level equal to the database. |
| ObserverRuns.ReleaseMirrors | backend/src/polycopy/shadow_observer.py:129-137 | Releasing a savepoint hands its facts to the enclosing level, as the database merges its rows. |
| ObserverRuns.RollbackMirrors | backend/src/polycopy/shadow_observer.py:139-146 | Rolling a savepoint back forgets exactly the facts of the rows the database drops. |
| ObserverRuns.FailMirrors | backend/src/polycopy/shadow_observer.py:139-146 | A failed flush leaves the surviving levels mirrored. |
| ObserverSafety.RolledBackKeeps | backend/src/polycopy/shadow_observer.py:147-153 | ROLLED_BACK for a token whose transaction was never sent is a true verdict. |
| ObserverSafety.CommittedKeeps | backend/src/polycopy/_shadow_protocol/poly2-comparison-fence.py:382-385 | COMMITTED with the witness of a durable transaction is a true verdict. |
| ObserverSafety.SendKeeps | backend/src/polycopy/shadow_observer.py:164-180 | Sending COMMIT - applied or unanswered - falsifies no verdict. |
| ObserverProgress.FirstFlushAdmits | backend/src/polycopy/shadow_observer.py:63-76 | The first flush that writes trades admits its outer transaction, as one outstanding attempt in the open epoch, exactly if the callback works and the journal takes attempts. |
| ObserverProgress.AdmittedOnce | backend/src/polycopy/shadow_observer.py:63-76 | Later flushes of the transaction, and flushes without trades, admit nothing. |
| ObserverProgress.AbandonedIsRolledBackIff | backend/src/polycopy/shadow_observer.py:139-164 | A transaction goes away and its rollback callback works: its outstanding attempt becomes ROLLED_BACK if and only if no COMMIT was started and the end was noted first or no flag of an earlier transaction stands; in both callback orders, and no other attempt moves. |
| ObserverProgress.CleanRollbackIsJournaled | backend/src/polycopy/shadow_observer.py:139-164 | The same over every run inside one transaction: ROLLED_BACK if and only if no COMMIT was started in it. |
| ObserverProgress.StandingFlagHidesRollback | backend/src/polycopy/shadow_observer.py:139-164 | Concrete failure: after an acknowledged COMMIT the flag of an unknown end stays up, and a rollback reported before its end is noted journals nothing. |
| ObserverProgress.StartedIff | backend/src/polycopy/shadow_observer.py:170-183 | Within one transaction the flag says that a COMMIT was started: only one whose own flush failed leaves its transaction open. |
| ObserverProgress.FailuresAreRecorded | backend/src/polycopy/shadow_observer.py:45-61 | A listening observer records a failure exactly where one of its callbacks failed: in the process at once, in the journal and in the latch as far as these can be written. |
| ObserverProgress.FlushIsRecorded | backend/src/polycopy/shadow_observer.py:45-76 | A flush that writes trades is on record as failed exactly where its callback raised or the journal refused its attempt. |
| ObserverProgress.ReportIsRecorded | backend/src/polycopy/shadow_failure.py:27-69 | A failure reported by another part of the process is recorded, unless the journal is archived. |
| ObserverProgress.SilenceChangesNothing | backend/src/polycopy/shadow_observer.py:45-61 | Retired, or with the journal archived, no callback and no report changes anything, and no witness is written. |
| ObserverProgress.TickRetiresIff | backend/src/polycopy/shadow_capture.py:111-132 | A control tick retires a listening observer exactly where a failure is on record or the journal is archived. |
| ObserverProgress.RestartObservesIff | backend/src/polycopy/shadow_capture.py:199-216 | A new process observes exactly where no latch is stored and the journal is not failed. |
| Observer.ListingRoundTrip | backend/src/polycopy/shadow_observer.py:116-117 | Sorting the held facts by record ID and rebuilding the table from the list is the identity. |
| Observer.ErrorIsAccepted | backend/src/polycopy/_shadow_protocol/poly2-comparison-fence.py:133-134 | An open journal accepts the signed ERROR of a contained failure, and only its failure record moves. |
| Observer.SessionObserver.Invalidate | backend/src/polycopy/shadow_failure.py:27-50 | A contained failure: the record of the process always, the ERROR and the latch as far as the two sinks work. |
| Observer.SessionObserver.Control | backend/src/polycopy/shadow_capture.py:111-132 | Any record of a failure - message, ERROR or latch - is reported again and retires the observer; so does an archived journal. |
| Observer.SessionObserver.OnAfterFlush | backend/src/polycopy/shadow_observer.py:78-106 | The detach loop adds the candidates in order, owned by the savepoint open now, and empties the list; failing at one of them it keeps those added, that one perhaps stored without an owner, and the list. |
| Observer.SessionObserver.OnBeforeFlush | backend/src/polycopy/shadow_observer.py:63-76 | One token and one ATTEMPT per outer transaction; a raising admission leaves the failure recorded. |
| Observer.SessionObserver.OnBeforeCommit | backend/src/polycopy/shadow_observer.py:108-127 | The COMMIT flag is always set; a witness is returned only when nothing failed. |
| Observer.SessionObserver.OnAfterRelease | backend/src/polycopy/shadow_observer.py:129-137 | Ownership of the released savepoint moves to its parent and nothing else changes. |
| Observer.SessionObserver.OnAfterSoftRollback | backend/src/polycopy/shadow_observer.py:139-156 | Nested: forgets what the savepoint owned.  Outer: reports ROLLED_BACK unless a COMMIT was ever sent, then clears. |
| Observer.SessionObserver.OnAfterTransactionEnd | backend/src/polycopy/shadow_observer.py:158-164 | Keeps the ended token with whether its fate is unknown, and clears the rest. |
| SourceHookRuns.RestartEqualsLive | backend/src/polycopy/_shadow_protocol/poly2-comparison-source-hook.py:127-243 | Over every run of operations, failed appends and crashes: while nothing has failed, a restart succeeds exactly when the stream is synthetic, nothing is unresolved and no token has two intents, and it rebuilds cursor, commits, writers, active and ended as they were; after any failure it is refused. |
| SourceHookRuns.RestartIff | backend/src/polycopy/_shadow_protocol/poly2-comparison-source-hook.py:226-243 | The same for one state: restart of the journals of a sound healthy hook, both directions. |
| SourceHookRuns.UnacknowledgedCommitRestores | backend/src/polycopy/_shadow_protocol/poly2-comparison-source-hook.py:372-396 | A crash between COMMIT frame and acknowledgement restores as committed at the next cursor, exactly when no other transaction is open. |
| SourceHookRuns.SecondIntentSpoilsRestart | backend/src/polycopy/_shadow_protocol/poly2-comparison-source-hook.py:357-370 | Concrete failure and exact condition: `before_commit` stays healthy live, and the journal becomes unrestorable if and only if the token already had an intent. |
| SourceHookRuns.LatchedRefuses | backend/src/polycopy/_shadow_protocol/poly2-comparison-source-hook.py:238-243 | A latched failure refuses every restart. |
| SourceHookRuns.StepKeepsSound | backend/src/polycopy/_shadow_protocol/poly2-comparison-source-hook.py:289-431 | Every operation and every death, between two appends or in the middle of one, keeps journals and live fields in agreement or leaves journals no restart accepts. |
| SourceHookRuns.FramesUnmoved | backend/src/polycopy/_shadow_protocol/poly2-comparison-source-hook.py:182-219 | Later controls never change what earlier frames restore to. |
| SourceHookRuns.SaidMatchesControls | backend/src/polycopy/_shadow_protocol/poly2-comparison-source-hook.py:151-180 | The rebuilt table knows exactly the tokens begun and the intents given. |
| SourceHookOutcomes.HealthyIffProper | backend/src/polycopy/_shadow_protocol/poly2-comparison-source-hook.py:311-431 | Each operation leaves the hook healthy if and only if it was healthy, the sinks worked, and the operation was proper for the state before it: an activation only of an inactive synthetic stream with both writers, no later than the start; a begin only of an enrolled writer and unused token; and so on for every operation. |
| SourceHookOutcomes.SetupEffects | backend/src/polycopy/_shadow_protocol/poly2-comparison-source-hook.py:311-341 | What a proper enrolment or activation leaves: one writer more, or one frame and an active stream. |
| SourceHookOutcomes.TransactionEffects | backend/src/polycopy/_shadow_protocol/poly2-comparison-source-hook.py:343-404 | What each proper step of a transaction leaves: pending, intended, committed at the next cursor, or gone; nothing else moves. |
| SourceHookOutcomes.FinishEffects | backend/src/polycopy/_shadow_protocol/poly2-comparison-source-hook.py:406-431 | What a proper end leaves: a fence frame through the last cursor, and the owner stop at its own. |
| SourceHookOutcomes.RefusalEffects | backend/src/polycopy/_shadow_protocol/poly2-comparison-source-hook.py:268-431 | What an operation that is refused or fails leaves: nothing but the failure, unless only the acknowledgement behind the frame could not be written, and then that frame alone. |
| SourceHookOutcomes.ActiveWasArmed | backend/src/polycopy/_shadow_protocol/poly2-comparison-source-hook.py:332-341 | Over every run, deaths included, an active stream was activated, no later than its window starts. |
| SourceHookHistory.RestoresIffLegal | backend/src/polycopy/_shadow_protocol/poly2-comparison-source-hook.py:127-243 | Restart against the lines alone: it succeeds if and only if neither journal is torn, no failure is latched, every control and every frame was legal by the lines before it, and nothing is left open; it then holds the commit of every frame and the last cursor. |
| SourceHookHistory.ControlsIffLegal | backend/src/polycopy/_shadow_protocol/poly2-comparison-source-hook.py:144-181 | The first pass accepts exactly the control journals that are legal line by line. |
| SourceHookHistory.FramesIffLegal | backend/src/polycopy/_shadow_protocol/poly2-comparison-source-hook.py:182-225 | The second pass accepts exactly the frame journals that are legal line by line under those controls. |
| SourceHook.ObservationHook.Restore | backend/src/polycopy/_shadow_protocol/poly2-comparison-source-hook.py:127-243 | Refuses a torn last line; otherwise the two passes and closing checks succeed exactly when both folds and the conclusion do, and leave their result in the fields. |
| SourceHook.ObservationHook.CommittedOne | backend/src/polycopy/_shadow_protocol/poly2-comparison-source-hook.py:372-396 | Frame, then cursor, then acknowledgement; a repeated report with equal facts changes nothing. |
| SourceHook.ObservationHook.EndFenceOnce | backend/src/polycopy/_shadow_protocol/poly2-comparison-source-hook.py:412-431 | Ends only a healthy, active, drained stream past its end. |
| DrainLaws.ProposalIsValidIff | backend/src/polycopy/_shadow_protocol/poly2-comparison-drain.py:180-213 | Whatever a scan returns, the frame `step` builds on an open journal passes validation if and only if the population is vouched for and - for the first frame - record and event IDs are distinct. |
| DrainProcess.ProposableIffValid | backend/src/polycopy/_shadow_protocol/poly2-comparison-drain.py:180-213 | The condition under which `step` appends is exactly that the frame it proposes passes validation, whatever the decisions. |
| DrainLaws.TimeoutIsValid | backend/src/polycopy/_shadow_protocol/poly2-comparison-drain.py:215-219 | A timeout of an active drain always passes validation, fails the drain and changes no mark. |
| DrainLaws.FrozenForever | backend/src/polycopy/_shadow_protocol/poly2-comparison-drain.py:102-110 | Along any valid journal frozen IDs and facts never change, a recorded decision never changes, and a terminal frame is last. |
| DrainLaws.AppendKeepsFull | backend/src/polycopy/_shadow_protocol/poly2-comparison-drain.py:65-113 | A journal valid from its start stays so with every frame that validates after it. |
| DrainLaws.EligibleMeansDecided | backend/src/polycopy/_shadow_protocol/poly2-comparison-drain.py:85-101 | Counts add up to the population, and an eligible frame holds a decision for every frozen fact of the fenced population. |
| DrainLaws.StreamingEqualsFullButNumbers | backend/src/polycopy/_shadow_protocol/poly2-comparison-fence.py:619-630 | Streaming re-validation accepts exactly the journals that whole-history validation accepts, except that it does not check the numbering. |
| DrainLaws.RenumberedFrameStreams | backend/src/polycopy/_shadow_protocol/poly2-comparison-fence.py:624-626 | Concrete failure: any valid first frame with any other cursor still passes streaming; full validation accepts it only with cursor 1. |
| DrainLaws.HeldJournalsStream | backend/src/polycopy/_shadow_protocol/poly2-comparison-fence.py:619-630 | On journals validated from their start the two agree, one appended frame included when its cursor is the next one. |
| DrainLaws.AbsorbKeeps | backend/src/polycopy/_shadow_protocol/poly2-comparison-drain.py:204-213 | The decision loop keeps every recorded decision and marks only with decisions of their own event. |
| DrainScan.ScanOutcome | backend/src/polycopy/_shadow_protocol/poly2-comparison-drain.py:180-213 | The frame one scan appends: which fault it carries, for every scan; without one, exactly the events the scan decides are marked with their decisions and every other mark stays; with one, marks stop at the first bad decision and every pending mark becomes a capture error. |
| DrainScan.RecordedIff | backend/src/polycopy/_shadow_protocol/poly2-comparison-drain.py:204-213 | After a scan without fault an event is recorded if and only if it was before or the scan lists a decided decision for it, and its mark holds that decision. |
| DrainScan.FirstScanCompletes | backend/src/polycopy/_shadow_protocol/poly2-comparison-drain.py:180-213 | A first scan with one decided decision for every trade and nothing else appends a COMPLETE frame, eligible when the population is vouched for. |
| DrainScan.LostIsWithdrawn | backend/src/polycopy/_shadow_protocol/poly2-comparison-drain.py:201-203 | The retention fault is raised exactly when a recorded decision is missing from the scan or listed otherwise. |
| DrainLaws.BuiltIsValid | backend/src/polycopy/_shadow_protocol/poly2-comparison-drain.py:115-136 | A frame built from marks that keep the previous ones passes every check. |
| DrainLaws.RepeatedIdRefused | backend/src/polycopy/_shadow_protocol/poly2-comparison-drain.py:81-84 | A frame over repeated record or event IDs is refused. |
| DrainFrames.ValidIff | backend/src/polycopy/_shadow_protocol/poly2-comparison-drain.py:66-110 | Exactly the frames that pass: of this binding, at the right place behind the right predecessor, as many records and events as facts, counts, state and claims that match the marks, and no recorded decision of the frame before lost or changed. |
| DrainFrames.JournalIsChained | backend/src/polycopy/_shadow_protocol/poly2-comparison-drain.py:66-110 | In a valid journal the frames are numbered and chained from the first, and only the last may have ended the drain. |
| DrainLaws.CountsCover | backend/src/polycopy/_shadow_protocol/poly2-comparison-drain.py:87-89 | The four counts partition the per-event marks. |
| DrainFile.StreamedEqualsRestart | backend/src/polycopy/_shadow_protocol/poly2-comparison-fence.py:619-630 | Streaming re-validation, each row read from the file through the byte-offset index, accepts what a restart over the same bytes accepts, but for the numbering; bytes appended later do not matter. |
| DrainFile.RewrittenStreamsAsRestart | backend/src/polycopy/_shadow_protocol/poly2-comparison-fence.py:619-630 | For any file of the same size: restart with lines of the indexed lengths if and only if the streaming pass accepts, the pieces are single lines and the numbers count up. |
| DrainFile.CutFileRefused | backend/src/polycopy/_shadow_protocol/bounded_journal.py:105-107 | A file cut short anywhere is refused by the streaming pass. |
| DrainFile.CutAppendRestarts | backend/src/polycopy/_shadow_protocol/poly2-comparison-drain.py:138-147 | An append that dies after k bytes: the file restarts if and only if nothing or all of the line was written, with the old journal or the frame added. |
| DrainFile.LatchedTimeoutRestartsIffNothingWritten | backend/src/polycopy/_shadow_protocol/poly2-comparison-drain.py:215-219 | Behind an append that wrote k bytes and was not indexed, a timeout frame leaves a file that restarts if and only if k is 0. |
| DrainProcess.LatchedTimeoutRestartsIff | backend/src/polycopy/_shadow_protocol/poly2-comparison-drain.py:136-155 | Failing case and exact condition: `timeout` does not look at the latch; after any append that latched, the file with the timeout frame restarts if and only if that append wrote nothing, or was indexed and only its publication failed. |
| DrainCodec.CodecExists | backend/src/polycopy/_shadow_protocol/poly2-comparison-drain.py:138-147 | An encoder and a decoder that meet what is asked of written frames exist. |
| DrainProcess.FrozenDrain.Open | backend/src/polycopy/_shadow_protocol/poly2-comparison-drain.py:53-61 | The restart scan accepts a file exactly when every line is whole, parses and is valid after those before it, and indexes it. |
| DrainProcess.FrozenDrain.FrameAt | backend/src/polycopy/_shadow_protocol/bounded_journal.py:94-107 | A frame read back through the index is the frame appended. |
| DrainProcess.FrozenDrain.Append | backend/src/polycopy/_shadow_protocol/poly2-comparison-drain.py:115-155 | A frame reaches the file exactly when it validates and the fence vouches; a write cut anywhere or a failed publication latches; the journal stays valid from its start. |
| DrainProcess.FrozenDrain.Step | backend/src/polycopy/_shadow_protocol/poly2-comparison-drain.py:180-213 | Latched raises, over returns the last frame; otherwise the proposed frame is appended exactly when the window is over, the population is vouched for and a first scan has distinct IDs. |
| DrainProcess.FrozenDrain.Timeout | backend/src/polycopy/_shadow_protocol/poly2-comparison-drain.py:215-219 | Exactly an active drain gets its timeout frame, which fails it and changes no mark. |
| DrainProcess.FrozenDrain.ValidateTerminal | backend/src/polycopy/_shadow_protocol/poly2-comparison-fence.py:619-630 | The loop that holds one previous frame and reads one row at a time decides streaming validity of the file. |
| OffsetIndex.IndexedReadIsLine | backend/src/polycopy/_shadow_protocol/bounded_journal.py:94-107 | Reading through the index returns the appended line whatever was appended after it. |
| OffsetIndex.TornLineRefused | backend/src/polycopy/_shadow_protocol/bounded_journal.py:105-107 | A file cut short is refused at a line if and only if the cut falls before that line's end. |
| OffsetIndex.ReadRowIff | backend/src/polycopy/_shadow_protocol/bounded_journal.py:94-107 | A row reads back exactly where the file still has all its bytes and the last is a line end; and it reads those. |
| OffsetIndex.AppendIndexes | backend/src/polycopy/_shadow_protocol/bounded_journal.py:118-122 | Positions stay the prefix sums of line lengths. |
| OffsetIndex.LinesRoundTrip | backend/src/polycopy/_shadow_protocol/poly2-comparison-drain.py:53-60 | Writing lines and splitting the file gives the lines back. |
| OffsetIndex.FileRoundTrip | backend/src/polycopy/_shadow_protocol/poly2-comparison-drain.py:53-60 | Splitting a file and joining the pieces loses no byte, torn tail included. |
| OffsetIndex.JournalSequence.Get | backend/src/polycopy/_shadow_protocol/bounded_journal.py:94-107 | Indexed reads, negative indexes included, return exactly the appended lines. |
| OffsetIndex.JournalSequence.Iterate | backend/src/polycopy/_shadow_protocol/bounded_journal.py:109-116 | Iteration, the appended lines and the plain file read line by line agree. |
| OffsetIndex.JournalSequence.Rebuild | backend/src/polycopy/_shadow_protocol/poly2-comparison-drain.py:53-60 | Succeeds exactly on files made of whole lines, and then indexes all of them. |
| BookWalk.BuyWalkIsOptimal | backend/src/polycopy/execution/bookwalk.py:76-112 | No allocation within level sizes, money and share cap buys more shares than a BUY walk. |
| BookWalk.SellWalkIsOptimal | backend/src/polycopy/execution/bookwalk.py:76-112 | No allocation within the same limits raises more proceeds than a SELL walk. |
| BookWalk.ImpactIsMonotone | backend/src/polycopy/execution/bookwalk.py:85-122 | Raising the notional or the cap never lowers filled size and never improves the average price. |
| BookWalk.FillWithinLimits | backend/src/polycopy/execution/bookwalk.py:114-122 | Filled size never exceeds depth or cap, money spent never exceeds the target, and "filled" holds exactly when the target is spent. |
| BookWalk.FillPriceWithinConsumedLevels | backend/src/polycopy/execution/bookwalk.py:117 | The reported price lies between the best level and the last level consumed. |
| BookWalk.UsedLevelsComeFirst | backend/src/polycopy/execution/bookwalk.py:90-112 | The levels consumed are the first ones, each gives shares, no later one does. |
| BookSides.BuyIsBestOnAsks | backend/src/polycopy/execution/bookwalk.py:56-117 | On the raw book, bad levels included: a BUY reports the most shares the given asks can sell for the money under the cap, whatever the bids, and that many can be had; its depth is what is offered at real prices, and it is filled exactly when the money is spent. |
| BookSides.SellIsBestOnBids | backend/src/polycopy/execution/bookwalk.py:56-117 | On the raw book: a SELL raises the most money the given bids can pay within money and cap, whatever the asks, and that much can be had. |
| BookWalk.TakesFeasible | backend/src/polycopy/execution/bookwalk.py:95-112 | The walk respects level sizes, money and cap. |
| BookWalk.SortedIsBestFirst | backend/src/polycopy/execution/bookwalk.py:76-80 | Sorting keeps the levels and puts the best price first. |
| BookWalk.WalkBook | backend/src/polycopy/execution/bookwalk.py:42-122 | The in-place loop returns the one result that reports the greedy walk, or refuses a bad size or side. |
| BookWalk.WalkLevels | backend/src/polycopy/execution/bookwalk.py:85-112 | The loop computes the greedy takes, their notional and the number of levels used. |
| PaperBookRuns.RunKeepsMoney | backend/src/polycopy/execution/service.py:284-515 | Over every run of BUY, SELL, settlement, sweep and limit change from a nonnegative stake, each SELL fee covered by its proceeds and the free cash there is: free cash stays nonnegative, exposure stays within both caps, and account, ledger and position rows agree. |
| PaperFees.CurveRunsKeepMoney | backend/src/polycopy/execution/fees.py:48-57 | Where every taker curve has rate at most 1 and exponent at least 1, every run, with no condition on its fees, keeps free cash within half a rounding quantum per SELL of zero, and caps and statement as before. |
| PaperFees.NoDustKeepsCash | backend/src/polycopy/execution/fees.py:48-57 | On such curves, without dust sales, free cash never goes negative. |
| PaperFees.CurveFeeIsCovered | backend/src/polycopy/execution/fees.py:48-57 | On such a curve a SELL fee, rounded half up to five places, exceeds the proceeds by at most half a quantum, and exceeds them at all exactly for dust: the unrounded fee reaches the midpoint over the last whole quantum in the proceeds. |
| PaperFees.QuantizedCoveredIff | backend/src/polycopy/execution/fees.py:55-57 | Rounding adds at most half a quantum, and lifts an amount over a bound exactly at that midpoint. |
| PaperFees.DustSaleOverpays | backend/src/polycopy/execution/fees.py:55-57 | Concrete case: 0.000056 shares at 0.1, rate 1, exponent 1, pay 0.00001 on proceeds of 0.0000056. |
| PaperFees.ThinMarketOverdraws | backend/src/polycopy/execution/fees.py:25-57 | Concrete failure: with a stake of 10, order size 2, one level of 4 shares at 0.5 on both sides and a market fee of rate 2 and exponent 0, a BUY and a SELL leave free cash at -6. |
| PaperSweeps.SweepBelowLimitIffResetLost | backend/src/polycopy/bankroll.py:172-190 | Over every run, a sweep below the profit limit finishes a partial one unless, and only unless, an earlier sweep turn found the remainder eaten by losses and its reset was not committed. |
| PaperSweeps.FlagIsOwedOrLost | backend/src/polycopy/execution/service.py:687-694 | Over every run the kept pending flag is set exactly while a remainder is owed or such a reset was lost, never both. |
| PaperSweeps.LostResetSweepsEarly | backend/src/polycopy/execution/service.py:691-693 | Concrete failure: a reachable run whose gain of 0.5 is swept at once under a profit limit of 1. |
| PaperBookRuns.SellKeepsCashIffFeeCovered | backend/src/polycopy/execution/service.py:498-515 | A SELL leaves free cash nonnegative if and only if its fee is at most its proceeds plus the free cash there was. |
| PaperBookRuns.ExecutedFillOk | backend/src/polycopy/execution/service.py:284-436 | An executed signal passed every gate: holdings, cash, both caps and the price zone. |
| PaperOutcomes.OutcomeIff | backend/src/polycopy/execution/service.py:283-404 | Every outcome of a signal and exactly when it comes: each miss where its gate is the first one closed, an exception where the size is not positive or the fee lookup fails, and nothing changed unless it is filled. |
| PaperOutcomes.LastGatesIff | backend/src/polycopy/execution/service.py:406-444 | The cap and cash gates on the exact cost of the fill; a signal is executed if and only if every gate is open, and then with the walked shares, price and fee. |
| PaperOutcomes.ExecutedIsBest | backend/src/polycopy/execution/service.py:362-369 | An executed BUY got the most shares its money could buy from the quoted asks; an executed SELL raised the most the quoted bids would pay for no more than the shares owned. |
| PaperOutcomes.NoBuyUnderFloor | backend/src/polycopy/bankroll.py:113-122 | No BUY is executed while the stake plus every amount on the statement is at or under a positive floor, and with the gates before it open the stop-loss is what stops it. |
| PaperOutcomes.SettlesExactly | backend/src/polycopy/execution/service.py:545-610 | A settlement pass settles every row whose market resolved while it held shares, once, with what its shares pay less what they cost, and no other; the account gains the sum. |
| PaperOutcomes.ResultIsFinal | backend/src/polycopy/accounting/settlements.py:178-282 | A result is recorded once, for a known market, and closes it; nothing changes a settled market later. |
| PaperBookRuns.FillMovesFreeCash | backend/src/polycopy/execution/service.py:476-515 | A BUY spends exactly notional and fee, a SELL brings in exactly notional less fee. |
| PaperBookRuns.OpenCostIsExposure | backend/src/polycopy/bankroll.py:102-110 | The sweep's open cost and the BUY check's exposure are the same sum, because a settled row is closed for good. |
| PaperBookRuns.SettleKeepsMoney | backend/src/polycopy/execution/service.py:545-609 | Settling pays winning shares into free cash and takes nothing out. |
| PaperAccounting.RunKeepsAgreement | backend/src/polycopy/execution/service.py:489-502 | After every run each row's realized profit less its cost basis equals the cash flow of its own fills, and its quantity their shares. |
| PaperAccounting.SettledRowsEqualMarketAccounting | backend/src/polycopy/accounting/pnl.py:81-94 | After settlement a wallet's summed row profits in a market equal what cash-flow accounting of the same fills reports. |
| Bankroll.PostKeepsConsistent | backend/src/polycopy/bankroll.py:125-147 | Posting keeps every cached balance equal to the stake plus all amounts so far. |
| Bankroll.SweepKeepsConsistent | backend/src/polycopy/bankroll.py:150-221 | Sweeping keeps the statement and never withdraws more in total than the highest realized profit reached. |
| PaperOutcomes.SweepIff | backend/src/polycopy/bankroll.py:150-205 | A sweep moves money exactly when a limit is set, there is profit, the limit is reached or a remainder owed, and there is idle cash; it moves the most both allow, as one entry, and owes the rest. |
| PaperOutcomes.LimitsAreKept | backend/src/polycopy/api/routes.py:271-301 | Each limit given replaces the old one, each left out stays, and nothing else moves. |
| PaperOutcomes.PeakIsLargest | backend/src/polycopy/bankroll.py:125-147 | The peak profit the withdrawals are bounded by is the largest realized total after any part of the statement. |
| Bankroll.SweepIsSafe | backend/src/polycopy/bankroll.py:167-221 | A positive sweep moves only profit and free cash, leaves at least the stake, and a second sweep with nothing changed moves nothing. |
| Bankroll.PendingSweepFinishes | backend/src/polycopy/bankroll.py:177-190 | The remainder of a partial sweep is paid as soon as cash frees up, without crossing the limit again. |
| Pnl.AccountMarket | backend/src/polycopy/accounting/pnl.py:62-94 | The accumulating loop yields, per outcome, the shares and cash of its legs, and profit only once resolved. |
| Pnl.MarkedToResultIffNotShort | backend/src/polycopy/accounting/pnl.py:71-93 | Profit is marked to the result exactly where no winning shares were sold short; a short winner owes nothing here, and the profit is too high by its shares. |
| Pnl.AccountsAdd | backend/src/polycopy/accounting/pnl.py:81-93 | Two lists of legs booked one after the other, in either order, make the sum of both. |
| PaperBot.Bot.ExecuteSignal | backend/src/polycopy/execution/service.py:284-515 | The gates in order and the booking in place: the new state and answer are those of the value-level attempt. |
| PaperBot.Bot.RecordFill | backend/src/polycopy/execution/service.py:474-515 | Row, fill log, account and ledger move together. |
| PaperBot.Bot.SettlePaperPositions | backend/src/polycopy/execution/service.py:545-609 | Every open row of a resolved market is settled, and no other. |
| PaperBot.Bot.SweepProfitIfDue | backend/src/polycopy/bankroll.py:150-221 | The sweep in place, with the amount it reports. |
| PaperBot.Bot.SweepAtCycleEnd | backend/src/polycopy/execution/service.py:687-694 | A sweep that moved money is committed; any other change it made is undone. |
| PaperBot.Bot.PostRealizedPnl | backend/src/polycopy/bankroll.py:125-147 | Account and ledger move by the amount; zero writes nothing. |
| PaperBot.SettlingTwiceIsOnce | backend/src/polycopy/execution/service.py:557-574 | A second settlement pass changes nothing. |
| Settlements.FeedIsPatient | backend/src/polycopy/accounting/settlements.py:160-292 | Over every run of calls, failures and deaths: a settled market is closed with its one result and never asked about again; after a recorded check it is left alone for the full back-off; after a 429 nothing is asked until its retry-after has passed. |
| Settlements.DeathForgetsTheCheck | backend/src/polycopy/accounting/settlements.py:215-224 | A due market may be asked about again at once if and only if the process died between the request and the commit that counts it. |
| Settlements.RefreshKeepsSound | backend/src/polycopy/accounting/settlements.py:215-285 | One call over its markets keeps spacing, cool-down and settlement invariants. |
| Settlements.DelayGrows | backend/src/polycopy/accounting/settlements.py:218-219 | Corollary: waits between checks never shrink as attempts grow. |
| SettlementHistory.DelaySchedule | backend/src/polycopy/accounting/settlements.py:218-220 | The waits: 60 seconds after the first check, doubled after each of the next nine, 43200 from the eleventh on. |
| SettlementHistory.CheckedIff | backend/src/polycopy/accounting/settlements.py:222-286 | A check records a result exactly when its own answer is a closed market with all prices within 0 and 1 and exactly one of them 1, and then that outcome; no other market moves. |
| SettlementHistory.CallAsks | backend/src/polycopy/accounting/settlements.py:206-247 | A call asks about its markets in order, up to and including the first answer that stops it, and about none while a pause runs. |
| SettlementHistory.AskableIff | backend/src/polycopy/accounting/settlements.py:160-170 | Over every run of calls, failures and deaths: a market may be asked about exactly when no request settled it, no pause asked for is running, and the wait of its last recorded check is over; the waits count the recorded checks. |
| Settlements.DetectWinningOutcome | backend/src/polycopy/accounting/settlements.py:40-68 | A result exists if and only if the market is closed and exactly one outcome has price 1 with all others in [0, 1), and then it is that outcome. |
| Settlements.SettlementFeed.RefreshSettlements | backend/src/polycopy/accounting/settlements.py:160-292 | The loop over the picked markets, each committed by itself, stopping at a cool-down. |
| Settlements.SettlementFeed.CheckMarket | backend/src/polycopy/accounting/settlements.py:215-285 | One market: counted check, back-off, metadata, and at most one settlement that also closes it. |
| CopyBoundaryRuns.CopyBoundaryHolds | backend/src/polycopy/execution/service.py:244-281 | Over every interleaving of approve, reject, disable, reenable, scoring, ingestion, detection and execution by any number of bots: one signal and one order per source trade, a signal pending exactly while it has no order, and every fill made and ingested in the approval period still open at its decision, late enough after t1 and young enough from t0. |
| CopyBoundaryRuns.DecisionIsOk | backend/src/polycopy/execution/service.py:244-276 | A fill decided on any reachable state obeys the copy rule. |
| CopyBoundaryRuns.ReenableForgetsThePast | backend/src/polycopy/api/routes.py:50-57 | Corollary: after a reenable nothing made or ingested before it can be filled. |
| CopyBoundaryRuns.UnapprovedNeverFills | backend/src/polycopy/execution/service.py:262-281 | Corollary: a wallet that is not approved at execution is never filled. |
| CopyBoundaryRuns.StepKeepsSound | backend/src/polycopy/execution/service.py:655-668 | Every step keeps the boundary invariant. |
| CopyBoundaryOutcomes.TransitionIff | backend/src/polycopy/api/routes.py:50-57 | The operator transitions, exactly: approve and reject from review, disable from approved, reenable from disabled; the copy boundary moves exactly on becoming approved; anything else changes nothing. |
| CopyBoundaryOutcomes.CopyableIff | backend/src/polycopy/execution/service.py:139-153 | A trade may become a signal exactly while its wallet is approved, from the boundary on by both clocks, and has no signal yet. |
| CopyBoundaryOutcomes.BatchAllOrNothing | backend/src/polycopy/execution/service.py:155-173 | A detected batch is inserted whole and in order unless one of its trades has a signal by then, and then not at all. |
| CopyBoundaryOutcomes.VerdictIff | backend/src/polycopy/execution/service.py:244-281 | The gates, exactly: stale is a miss even under the kill switch; otherwise deferred exactly while the switch is on or the review delay runs; otherwise missed for want of approval or for the first later gate; and filled exactly where none of this holds. |
| CopyBoundaryOutcomes.DeferralCounts | backend/src/polycopy/execution/service.py:255-259 | A deferral under the kill switch counts one on its signal and touches no other. |
| CopyBoundaryOutcomes.BatchFields | backend/src/polycopy/execution/service.py:155-170 | A new signal repeats wallet and both clocks of its trade, is pending and was never deferred. |
| CopyBoundaryOutcomes.BookedIff | backend/src/polycopy/execution/service.py:438-468 | An order is booked exactly where its trade has none yet; its signal then says filled or missed, and no other signal changes. |
| CopyBoundaryOutcomes.CopyGoesThrough | backend/src/polycopy/execution/service.py:120-515 | Nothing else stands in the way: from any state, a copyable trade that is young enough, past its review delay, with the kill switch off, has a run of four steps after which it is filled, or missed for the later gate that closed. |
| CopyBoundaryOutcomes.OnboardedIsCopyable | backend/src/polycopy/api/routes.py:335-372 | A new wallet that is scored, sent to review and approved: the trades it makes from then on may be copied. |
| CopyBoundaryOutcomes.OutcomesHold | backend/src/polycopy/execution/service.py:224-281 | Over every run: a signal is executed exactly where its trade was filled and skipped exactly where it was missed; with the kill switch on nothing is filled and only stale signals are missed; no trade made or ingested before an approval of its wallet becomes a signal. |
| CopyBoundary.CopyDesk.TransitionWallet | backend/src/polycopy/api/routes.py:345-357 | Succeeds exactly from the required state; an approval starts a new copy period. |
| CopyBoundary.CopyDesk.DetectSignals | backend/src/polycopy/execution/service.py:133-174 | Adds exactly one pending signal per picked trade, with the trade's own clocks. |
| CopyBoundary.CopyDesk.ExecuteSignal | backend/src/polycopy/execution/service.py:244-281 | The answer of the gates in their order; the deferral counter of this signal moves by one exactly under the kill switch on a signal that is not stale, and nothing else changes. |
| CopyBoundary.CopyDesk.BookOrder | backend/src/polycopy/execution/service.py:438-468 | Order and signal status are committed together, at most once per trade. |
| Bootstrap.BudgetSurvivesCrashes | backend/src/polycopy/ingestion/service.py:252-380 | Over any number of runs, resumed and cut anywhere, requests really sent never exceed the request cap, and recorded pages, rows and checked markets stay within theirs. |
| Bootstrap.LoopKeepsPaid | backend/src/polycopy/ingestion/service.py:252-380 | Every record a run commits pays in advance for the requests sent before the next record. |
| Bootstrap.EveryRunCloses | backend/src/polycopy/ingestion/service.py:252-380 | Every run ends within the pages left and closes with a final record. |
| Bootstrap.RequestFitsWindow | backend/src/polycopy/ingestion/service.py:255-269 | Each request asks for 1 to 500 rows inside the 10000-row window, and a roll goes to a strictly older end. |
| Bootstrap.MarketsWithin | backend/src/polycopy/ingestion/service.py:315-346 | Settlement checks stay within the market cap and the remaining request budget. |
| BootstrapReasons.TurnStopsIff | backend/src/polycopy/ingestion/service.py:252-380 | Why a turn leaves the loop, each reason if and only if: an error for a failed page or settlement check, maturity, the end of history for an empty or short page, the limit at a cap or where the window cannot move. |
| BootstrapReasons.TurnCommits | backend/src/polycopy/ingestion/service.py:255-339 | What a turn commits and in which order: the moved window, the page before its request, its rows, the settlement check before its requests. |
| BootstrapReasons.LoopCloses | backend/src/polycopy/ingestion/service.py:252-400 | How every loop ends: "limit reached" at a cap, "in progress" where only the share of one run is used up, the reason of the turn that stopped it, or cut short by death. |
| BootstrapReasons.RunStartsIff | backend/src/polycopy/ingestion/service.py:139-205 | A run sends anything exactly where the wallet is not mature, something is left to do, this run has room and there is a window; it records local maturity exactly once. |
| BootstrapReasons.MarketsAreMost | backend/src/polycopy/ingestion/service.py:308-334 | The markets checked are the most that are due, that the cap allows and that the budget pays two requests each for. |
| BootstrapReasons.CapsAre | backend/src/polycopy/ingestion/service.py:182-185 | Every cap is the configured one but at least one; a page is at most 500 rows and the cap on trades. |
| Bootstrap.WalletBootstrap.Run | backend/src/polycopy/ingestion/service.py:113-205 | Commits exactly the records of the run over the newest record. |
| Bootstrap.WalletBootstrap.OneTurn | backend/src/polycopy/ingestion/service.py:252-378 | One turn of the loop commits its records where the program does. |

## Left out

- Signatures, keys, authority pins, installed-byte hashes and canonical JSON: an event carries a `signed` flag; a digest is its value.
- A frame's or event's digests of its own fields, the drain's `query` evidence and clock evidence: recomputed from the fields modelled.
- fsync, file locks, owner files, `.pending` renames and diagnostic health files; the hook's health file is modelled as always written.  The `capture-failed.json` latch is modelled with the observer and its recovery, not with `freeze`, `complete` and the drain, which the controller reaches only past the same check.
- SQL text, PostgreSQL isolation, asyncpg and HTTP client retries: queries, pages and replies are parameters.
- SQLAlchemy internals: callback order, nesting of savepoints, and a deactivated session after a failed flush are taken as its contract; one session is followed, others appear as journal events on tokens it never used.
- `TransactionDriver` and `poly2-comparison-session-observer.py`: other integrations of the same fence.
- Decimal precision and six-place column rounding: amounts are exact; in `PaperBook` the fee is a nonnegative parameter.
- NaN sizes for `size_usd`, and an account row created on first use: the account exists from the start.
- Malformed and quarantined rows in catch-up and bootstrap, and market metadata lookups.
- `enroll`, `close_epoch`, `_ack`, `authenticate_archive`, `status`, `pending_transactions`: their events are in `replay`; the methods only guard one append.
- FenceProcess.Process.Recover: looks tokens up in any order instead of by ascending ID; an attempt another process admits meanwhile may be looked up or not, and nothing is claimed of it.
- FenceProcess.Process.CommitFails: a COMMIT that fails with its transaction still open, as a busy database makes it, is not modelled; here a failed COMMIT has rolled back.
- Gamma lookups (exact condition ID, then token), query ordering and the other metadata of `_backfill_market_metadata`: the answer for each market is given; in the paper-money model a market found resolved is one event.
- `run_execution_cycle` batching and ordering: any pending signal may be decided next, so every batch order is covered.
- `summarize`, `bankroll_view`, scoring, dashboards, heartbeats, watchdog, configuration checks and the frontend: sums and display.
- ObserverLatch.FateNeverMisjudged: one session of a process is followed; a recovery looks up and resolves one token in one step, and installing capture in a new process is taken to succeed where no failure is on record.
- PaperFees.TakerFee: a price of 1 with exponent 0, where the program's power raises and the signal is retried, is charged here.
- FenceProcess.Process.OtherProcessAppends: other processes validate as this one does, because the journal is accepted as a whole by assumption; a foreign invalid event makes the program raise.
- SettlementHistory.AskableIff: speaks of times no earlier than the requests so far; a clock set back before them is not judged.
- Bootstrap.BudgetSurvivesCrashes: the settings are the same in every run, because a lowered cap cannot take back what was already spent.
