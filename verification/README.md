# What stays true when calls crash, repeat and interleave

A Dafny 4.11 model of the parts of the system whose promises are about whole runs, with proofs that hold
for every input, every schedule and every failure point of the model. `dafny verify dfyconfig.toml`
checks all of it.

The model has four parts.

1. **Effects with crash recovery.** `TenantInterleaving` and `TenantGuarantees` run any number of executor
   calls and reconciliations of one tenant statement by statement, with authority changing between any two
   statements, a scope lock held to transaction end, and rollbacks anywhere; the adapter's store survives.
   `TrustedExecutor` is the same call as a class over mutable tables, taken one call at a time;
   `SerialSchedules` proves that undisturbed calls of the schedules refine to it. `ClaimInterleaving` and
   `ClaimOutcomes` add the semantic-action claims to those schedules, `FlightInterleaving` the flight fence
   and the statements on flights; `SingleFlight` holds decision flights and the calls on them. `Dbos` replays
   an arbitrary workflow body over checkpoints; a resume may finish, stop after the adapter commit, or be
   interrupted at any phase of any step, while restores (`Recovery`) freeze and reopen the writers between
   any two of its statements. `DbosGuarantees` says what every run keeps, `DbosOutcomes` what each call
   answers and how a resume ends.
2. **Reconciliation.** The pure decision with all its branches, its application to the stored row, and what
   sequences of reconciliations can do to labels, provenance and values.
3. **Builder evidence.** Candidates, verifications, reviews and approvals bound to exact SHAs (`Evidence`,
   `EvidenceStore`, `EvidenceSteps`, `EvidenceGuarantees`), the CI wait, the runs and repair policy of a task, and the
   orchestrator loop over them. GitHub, worker, hooks, reviewer and clock are inputs.
4. **Canonical text and restore.** The canonical JSON printer with a parser that inverts it, the ids hashed
   from it, the five copies of the printer, the two secret scanners, and backup, wipe and restore.

Pure code is modelled by functions and lemmas. Code that updates fields or rows is modelled by classes whose
methods are proved to do what a specification function says, and the lemmas are about those functions.

Transactions are READ COMMITTED; `effect_ledger` and `execution_receipts` are unique by idempotency key
(migrations/0012_effect_ledger.sql:33, migrations/0007_receipts_pii.sql:49) and flights by ACTIVE key
(migrations/0021_v1_0c_single_flight.sql:25-27). SHA-256 is any injective function on texts; UUIDs are fresh
numbers; wall-clock times are integers.

## Where the code is weaker than one might think

Each of these is a proved statement; the lemma named gives the exact condition or a whole family of inputs.

- A workflow that succeeded and then makes another call for the same action, on a branch that gives the claim
  back, frees the action; another workflow can then claim success too (exact for one call in
  `LosesTheClaimExactlyWhen` and `SecondSuccessExactlyWhen`, over runs in `SecondWorkflowNeedsARelease`, over
  schedules in `SecondWorkflowNeedsARemoval`, a family in `SecondKeyFreesTheClaim`). With one key per action
  it cannot happen, in any schedule of statements (`ClaimInterleaving.OneWorkflowPerAction`).
- A call that finds its key completed by another call after its own INSERT returns without releasing its claim,
  whatever the outcome; a crash after the adapter commit does the same (`StaysClaimedExactlyWhen` is exact, in
  terms of the statements of the schedule; `FailedActionStaysClaimed` gives the schedules).
- A freeze of the writers stops every later allocation (`AllocationsOnlyWhenOpen`) but not the COMMIT of a
  resume that has passed its last check: function ids, checkpoints and statuses can then be published while
  the writers are frozen (`PublishesUnderFreezeExactlyWhen` names the window for each way a resume ends,
  `StoppedResumePublishesUnderFreeze` gives a family for every body that starts with an effect-bound step).
- The flight fence and the effect's commit are separate statements; a flight can end in between, and the call
  still commits (`CommitsOnItsFlightExactlyWhen` is exact, `CancelledBeforeTheCommit` turns every committing
  schedule into such a one); another workflow can then pass the fence for the same key
  (`CancelledBeforeItsCommit`). Acquiring a flight throws when the winner of the race has ended before it is
  read (`ThrowsExactlyWhen`).
- Registering another SHA invalidates only approvals of candidates that are not yet superseded, so voiding a
  task's evidence first shields them for good (`ApprovedExactlyWhen` is exact, `InvalidatedTaskKeepsApprovals`).
- The idempotency key joins its parts without a separator, so step and capability ids are not separately
  recoverable (`StepAndCapabilityBlur`, exact in `KeyTextDecides`).
- A provider observation is labelled with its own max_age_seconds while the row keeps the old one, so an AGING
  row can turn FRESH again without new evidence (`AgingTurnsFreshAgain`, exact in `RejuvenatedExactlyWhen`).
- Reconcile actions other than REPAIR and HOLD write the caller's value back (`UnfaithfulWriteBack`).
- A provider value of JSON null is repaired into the row, after which every reconcile of the row is refused
  (`NullRepairWedgesTheRecord`, exact over runs in `WedgedExactlyWhen`).
- A test or build hook that calls itself `landing_evidence_snapshot` replaces the landing snapshot; after a CI
  poll the verification can then be authoritative over a CI that did not succeed
  (`FailedCiCanLookAuthoritative`, exact in `ForgeryExactlyWhen`).
- Restore defaults an empty source_system and JSON-null columns, and timestamps lose their microseconds
  (`StateRowRoundTrip`, `EventRowRoundTrip`, both exact). So a backup is restorable exactly when every row is
  storable and no other tenant has meanwhile taken one of its ids or dedupe keys (`RestorableExactlyWhen`).
- The adapter answers a requested status of UNVERIFIED from its store, as if VERIFIED had been asked
  (`Effects.VerifyPostcondition`); an ABSENT postcondition is stored as UNKNOWN.

## Model

| member | source | states |
|---|---|---|
| Effects.VerifyPostcondition | src/runtime/local-effect-adapter.js:56-76 | VERIFIED is answered exactly for a key the store holds, asked as VERIFIED or UNVERIFIED; UNVERIFIED is never answered, every other status is echoed |
| TenantInterleaving.RunKeeps | src/runtime/trusted-executor.js:299-799 | every schedule of executor and reconciliation statements, authority changes, commits and rollbacks keeps the protocol invariant |
| SerialSchedules.SerialCallsRefine | src/runtime/trusted-executor.js:337-799 | the statement-level protocol refines to the sequential call: from every reachable state in which nobody holds the scope lock or an uncommitted receipt of its key, a call whose statements run without others between them leaves adapter, ledger and receipts as TrustedExecutor's specification does, up to the ids drawn, for every gate, authority, re-read, requested status, crash and rollback; nothing else moves |
| TenantGuarantees.RowsCarryTheToken | src/runtime/trusted-executor.js:572-799 | in every reachable state each COMMITTED or COMPLETED row, committed or still uncommitted in some transaction, carries exactly the adapter's token; COMPLETED exactly when a receipt exists, and they agree |
| TenantGuarantees.CompletedForever | src/runtime/trusted-executor.js:189-284 | whatever follows a schedule, adapter tokens, receipts and completed rows stay exactly as they are |
| TenantGuarantees.WaitsAndFailsExactlyWhen | src/runtime/trusted-executor.js:589-799 | in every reachable state a statement of an open call waits exactly for a scope lock or an uncommitted receipt of another, and fails exactly on a receipt or a rebuilt row that another has committed meanwhile |
| TenantGuarantees.InsertDecides | src/runtime/trusted-executor.js:713-750 | in every reachable state a call whose INSERT met another's committed row commits nothing: it returns on a COMPLETED row and completes a COMMITTED one; with its own row it commits unless the adapter has the key |
| TenantGuarantees.FilterSelects | src/runtime/reconciliation.js:844-875 | the re-check's filter selects by capability, by key, by both, or everything |
| TenantGuarantees.OneFreshCommitPerKey | src/runtime/local-effect-adapter.js:30-50 | in every schedule with every crash a key is freshly committed at most once, and the adapter still holds that token |
| TenantGuarantees.CommitsWereReauthorised | src/runtime/trusted-executor.js:654-750 | with authority changing between any two statements, every fresh commit follows a re-read of the same call that found authority in force, active and with both epochs of that call's decision |
| TenantGuarantees.ChangedEpochNeverCommits | src/contracts/authority.js:61-79 | a call whose re-read found authority inactive or an epoch changed commits nothing, before or after |
| TenantGuarantees.CommitsWereAdmitted | src/runtime/trusted-executor.js:337-400 | in every schedule each fresh commit follows an authority read of the same call that succeeded and that no gate denied |
| TenantGuarantees.AdmittedOrIdle | src/runtime/trusted-executor.js:337-400 | in every schedule an open call has been admitted so, or has written and claimed nothing |
| TenantGuarantees.DeniedCallsWriteNothing | src/runtime/trusted-executor.js:392-400 | a call a gate denies, or whose authority cannot be read, writes nothing in whatever follows; however it ends, ledger, receipts and adapter stay as they were |
| TenantGuarantees.RepairExcludesEffects | src/runtime/reconciliation.js:784-842 | from a REPAIR's re-check to the end of its transaction it holds the scope lock, no committed row its filter selects is blocking, and no other open transaction has an uncommitted ledger row |
| TenantGuarantees.NoCommitDuringRepair | src/runtime/reconciliation.js:628-875 | no adapter commit falls between a REPAIR's re-check and the end of its transaction |
| TenantGuarantees.LogTellsExactly | src/runtime/trusted-executor.js:654-750 | the events these statements speak of are exactly the state changes: a fresh commit is logged exactly when the adapter gains that key and token, a repair check exactly when a reconciliation enters its REPAIR, an end exactly when a transaction is over, a decision or re-read exactly when the call reads that authority |
| TenantGuarantees.IdsDistinct | src/runtime/trusted-executor.js:189-284 | in every reachable state tokens, effect ids and receipt ids of different keys differ, receipts not yet committed included |
| SerialSchedules.SerialReconcile | src/runtime/reconciliation.js:628-875 | with the lock free, an undisturbed reconciliation stores its value exactly unless it would REPAIR while a ledger row its filter selects is blocking; nothing else changes |
| SerialSchedules.RecordsComeFromReconciles | src/runtime/reconciliation.js:628-875 | in every schedule the records change exactly by the commit of a reconciliation that has stopped, and by its own value |
| TenantGuarantees.BlockingMeansUnsettled | src/runtime/reconciliation.js:81-92 | in every reachable state a ledger row blocks a REPAIR exactly while it has no receipt or one that is neither VERIFIED nor FAILED |
| TrustedExecutor.Executor.CommitToAdapter | src/runtime/local-effect-adapter.js:30-50 | a key already present keeps its record; otherwise exactly the new token is added |
| TrustedExecutor.Executor.ClaimSemanticAction | src/runtime/single-flight.js:276-349 | a free action is claimed, an own claim is kept, another workflow's claim refuses |
| TrustedExecutor.Executor.ReleaseSemanticClaim | src/runtime/single-flight.js:352-369 | only the workflow's own claim is deleted |
| TrustedExecutor.Executor.CompleteFromCommitted | src/runtime/trusted-executor.js:189-284 | verify, append the receipt, complete the row, release a claim that did not end in success; a second receipt throws |
| TrustedExecutor.Executor.ResumeCommitted | src/runtime/trusted-executor.js:589-652 | a lost COMMITTED row is rebuilt from the adapter, an existing one completed, nothing is committed again |
| TrustedExecutor.Executor.CommitFresh | src/runtime/trusted-executor.js:654-799 | re-check, PENDING row, adapter commit, COMMITTED row, then completion or the crash after commit |
| TrustedExecutor.Executor.ExecuteTrustedEffect | src/runtime/trusted-executor.js:337-799 | the whole call on the tables equals the specification that DeniedCallsDoNothing, CommitsExactlyWhen, AnswersExactlyWhen, FirstReport and CallsMindTheirOwn are about |
| TrustedExecutor.Executor.InTransaction | src/runtime/trusted-executor.js:299-799 | a rollback restores the tables and never the adapter |
| TrustedExecutor.LedgerMatchesReceipts | src/runtime/trusted-executor.js:62-74 | in every reachable state a row is COMPLETED exactly when its key has a receipt, SUCCEEDED exactly when that receipt is VERIFIED, and then the adapter holds the key |
| TrustedExecutor.ReportsAgree | src/runtime/trusted-executor.js:572-587 | all calls of a key that report anything report the same outcome, verification status, receipt and token |
| TrustedExecutor.CompletedAnswers | src/runtime/trusted-executor.js:713-729 | a call on a completed key that is not denied answers exactly from the stored receipt |
| TrustedExecutor.DeniedCallsDoNothing | src/runtime/trusted-executor.js:392-400 | in every run a call that a gate denies, or whose authority cannot be read, reports nothing and leaves ledger, receipts, claims and adapter exactly as they were |
| TrustedExecutor.CommitsExactlyWhen | src/runtime/trusted-executor.js:536-750 | a call reaches the adapter exactly when it is admitted (gates, authority, and its action free or its own), its key is new and authority still holds at the re-read; the adapter gains that key and nothing else |
| TrustedExecutor.AnswersExactlyWhen | src/runtime/trusted-executor.js:392-799 | exactly when a call reports, and exactly when it is denied |
| TrustedExecutor.FirstReport | src/runtime/trusted-executor.js:189-284 | what a call reports about a key not completed before: SUCCEEDED, NOT_SUCCEEDED or AMBIGUOUS exactly by the requested postcondition, with the adapter's token and a new receipt |
| TrustedExecutor.CallsMindTheirOwn | src/runtime/trusted-executor.js:536-799 | no call writes another key's row or receipt or another action's claim, and one that is not admitted or rolled back writes no table |
| TrustedExecutor.HoldsTheActionExactlyWhen | src/runtime/trusted-executor.js:562-799 | after a kept, admitted call its action is claimed, by its workflow, exactly when it succeeded or threw |
| TrustedExecutor.RowRecords | src/runtime/trusted-executor.js:589-750 | a new row records the call's capability and the epochs of the re-read; a row rebuilt from the adapter those of the decision |
| TrustedExecutor.IdsDistinct | src/runtime/trusted-executor.js:589-750 | in every reachable state receipt ids, effect ids and commit tokens of different keys differ |
| TrustedExecutor.LosesTheClaimExactlyWhen | src/runtime/trusted-executor.js:562-587 | a success loses the claim it stands on exactly by a kept call of the same workflow and action that passes its gates and ends on a releasing branch (completed without success, held key not VERIFIED, denied re-read, fresh commit not VERIFIED), and then the action is free |
| TrustedExecutor.SecondWorkflowNeedsARelease | src/runtime/trusted-executor.js:536-799 | over any run of calls two workflows both claim success for an action only if such a call of the first lies between them |
| TrustedExecutor.SecondSuccessExactlyWhen | src/runtime/trusted-executor.js:536-799 | after any call, an unhindered call of another workflow claims success for the action exactly when that call gave the claim back |
| TrustedExecutor.OneWorkflowPerAction | src/runtime/trusted-executor.js:536-587 | hence, one call at a time and with one key per action and workflow, at most one workflow ever gets claimed_success, over denials, ambiguous outcomes, releases and crashes |
| TrustedExecutor.SecondKeyFreesTheClaim | src/runtime/trusted-executor.js:562-587 | an instance: for every triple of calls whose second uses another key and ends AMBIGUOUS, both workflows claim success |
| ClaimInterleaving.AfterSound | src/runtime/single-flight.js:276-369 | every schedule of executor, claim and release statements, with waits on a claim row another transaction has touched, keeps the claim protocol's invariant |
| ClaimOutcomes.ClaimAttempt | src/runtime/single-flight.js:276-349 | the claim's statements without others between: another workflow's claim refuses, the own one is kept, a free action is claimed or waited for; nobody else is affected |
| ClaimOutcomes.LostInsert | src/runtime/single-flight.js:276-349 | an INSERT that meets a claim committed meanwhile is decided by that claim, and fails exactly when it has been given back before it is read |
| ClaimOutcomes.ReleaseDecides | src/runtime/single-flight.js:352-369 | a release deletes exactly the own claim, or waits for another transaction's write of the row |
| ClaimOutcomes.AnswersTell | src/runtime/trusted-executor.js:572-799 | in every schedule each statement with which a call returns gives the answer of its program point, and gives the claim back exactly for a held one and a denial or a report that is neither a success nor found after the own INSERT |
| ClaimOutcomes.CommitPublishes | src/runtime/trusted-executor.js:536-799 | in every schedule a commit publishes exactly the call's claim row and counts exactly a claimed success; a call turned away is rolled back, any other stays open |
| ClaimOutcomes.RollbackDrops | src/runtime/trusted-executor.js:536-799 | a rollback undoes whatever the call did to the claim row |
| ClaimInterleaving.StaysClaimedExactlyWhen | src/runtime/trusted-executor.js:572-799 | in every schedule, a committing call that took the claim leaves the action claimed exactly when one of its statements loaded a SUCCEEDED row, completed its key observed VERIFIED, crashed behind the adapter commit, or found the row COMPLETED by another call after its own INSERT; otherwise the action is free |
| ClaimInterleaving.OneWorkflowPerAction | src/runtime/trusted-executor.js:536-799 | in every schedule of statements of concurrent calls with one key per action and workflow, at most one workflow ever commits a claimed success for an action, and its claim stands from then on |
| ClaimInterleaving.SecondWorkflowNeedsARemoval | src/runtime/trusted-executor.js:536-799 | in every schedule, with any keys, two workflows both commit a claimed success for an action only if one of them, the one whose claim stood first, has committed the deletion of it |
| ClaimInterleaving.FailedActionStaysClaimed | src/runtime/trusted-executor.js:713-729 | for every key, action and workflow a schedule exists in which a call answers AMBIGUOUS and commits, and its action stays claimed |
| SingleFlight.Flights.AcquireOrJoinDecisionFlight | src/runtime/single-flight.js:46-139 | expire, join, insert or re-read and throw, with arbitrary statements of others between any two of its own |
| SingleFlight.Flights.AssertWorkflowMayCommitEffect | src/runtime/single-flight.js:186-271 | the sweep is kept and a latest flight of the workflow decides |
| SingleFlight.AtMostOneActive | migrations/0021_v1_0c_single_flight.sql:25-27 | at most one ACTIVE flight per key after any statements |
| SingleFlight.FinishedForever | src/runtime/single-flight.js:141-178 | a finished, cancelled or expired flight never changes again |
| SingleFlight.PassesExactlyWhen | src/runtime/single-flight.js:186-271 | the required fence lets a workflow through exactly when all bindings are given and a latest flight of it is ACTIVE, not overdue and for that key |
| SingleFlight.AllowedExactlyWhen | src/runtime/single-flight.js:186-271 | with or without a required flight the fence allows exactly a workflow without any flight where none is required, or one whose latest flight is ACTIVE, not overdue and agrees with the bindings |
| SingleFlight.RefusedExactlyWhen | src/runtime/single-flight.js:186-271 | and each refusal has exactly its reason, in this order: no flight, the latest flight's status, a missing binding, the first binding that does not match |
| SingleFlight.FenceIsExclusive | src/runtime/single-flight.js:186-271 | two different workflows never both pass the required fence for a key in one state |
| SingleFlight.HandoverEndsTheFlight | src/runtime/single-flight.js:46-271 | if another workflow passes later, the first one's flight has ended for good |
| SingleFlight.ActiveExactlyWhen | src/runtime/single-flight.js:141-178 | after any statements an ACTIVE flight is still ACTIVE exactly when none of them cancels or completes its workflow or sweeps its key or workflow past its expiry |
| SingleFlight.EndedBy | src/runtime/single-flight.js:141-178 | a flight that is not ACTIVE any more was ended by one of the statements and carries that statement's status |
| FlightInterleaving.CommitsOnItsFlightExactlyWhen | src/runtime/trusted-executor.js:511-750 | in every schedule a fresh adapter commit of a call that enforces single flight follows a fence passed on an ACTIVE flight of its workflow and bindings, and that flight is still ACTIVE at the commit exactly when no statement from the fence on ended it; then it is the only one |
| FlightInterleaving.CancelledBeforeTheCommit | src/runtime/trusted-executor.js:511-750 | every such schedule with a cancellation put before the commit still commits, its flight no longer ACTIVE |
| FlightInterleaving.SweepDecides | src/runtime/single-flight.js:186-206 | in every world a call at the fence first expires its own workflow's overdue flights and nothing else |
| FlightInterleaving.ReadDecides | src/runtime/trusted-executor.js:511-533 | and then passes exactly if the latest flight of its workflow is ACTIVE and is the one its three bindings name |
| SingleFlight.CancelledBeforeItsCommit | src/runtime/trusted-executor.js:511-533 | at every pass such a gap exists, after which any other workflow passes the fence for the same key |
| SingleFlight.ThrowsExactlyWhen | src/runtime/single-flight.js:94-129 | acquire-or-join throws exactly when a flight that was not there at its SELECT held the key at its INSERT and none holds it at the re-read |
| SingleFlight.AcquireGivesTheOneFlight | src/runtime/single-flight.js:46-139 | whatever others do between any two of its statements, a call that does not throw answers with a flight of the key, ACTIVE unless others ended the caller's fresh flight; acquired exactly when it is the caller's; a joined caller cannot pass the fence |
| Recovery.RecoveryControl.Begin | src/runtime/dbos.js:922-943 | freeze, next epoch, all marks cleared |
| Recovery.RecoveryControl.MarkSurface | src/runtime/dbos.js:945-964 | marks one surface, refused outside a restore |
| Recovery.RecoveryControl.Complete | src/runtime/dbos.js:970-992 | reports exactly the missing surfaces and reopens only when there are none |
| Recovery.OpenExactlyByHistory | src/runtime/dbos.js:922-992 | writers are open exactly when no restore ever began, or since the latest one all three surfaces were marked and then completed; the epoch counts the restores |
| Recovery.OpenSince | src/runtime/dbos.js:922-992 | if the writers were open at some point, what followed decides alone whether they are open now |
| Dbos.Runtime.AllocateFunctionId | src/runtime/dbos.js:181-206 | one UPDATE conditional on recovery_control advances next_function_id by one or not at all; then the check that follows it |
| Dbos.Runtime.CheckpointStep | src/runtime/dbos.js:307-340 | the check reads recovery_control, then a separate upsert by step id keeps the function id |
| Dbos.Runtime.ResumeAmbiguousEffectStep | src/runtime/dbos.js:358-432 | does on the tables what DbosOutcomes.AmbiguousExactly says of its specification |
| Dbos.Runtime.RunEffectBoundStep | src/runtime/dbos.js:439-636 | checkpointed, recovered from the adapter, or prepared, committed, observed and checkpointed |
| Dbos.Runtime.RunPlainStep | src/runtime/dbos.js:638-693 | a step function runs only without a checkpoint |
| Dbos.Runtime.WaitForApproval | src/runtime/dbos.js:699-750 | a signaled payload becomes a checkpoint, a cancelled wait throws, otherwise the workflow waits (cases in DbosOutcomes.EveryCallAnswers) |
| Dbos.Runtime.ResumeWorkflow | src/runtime/dbos.js:763-872 | the replay loop over an arbitrary body equals its specification, with rollback on interruption |
| Dbos.Runtime.Signal | src/runtime/dbos.js:874-901 | a waiting approval is signaled once, and not while frozen |
| DbosOutcomes.EveryCallAnswers | src/runtime/dbos.js:291-750 | for every well-formed state, and whatever dies, freezes, throws or reaches the adapter meanwhile: what a context call of each kind answers, which row it leaves and which calls it makes, case by case, and exactly when it is interrupted |
| DbosOutcomes.SavesExactlyWhen | src/runtime/dbos.js:307-340 | a checkpoint is written exactly when the process survives, and the writers are open at, its check; an existing row keeps its function id, and its key unless one is given |
| DbosOutcomes.AllocatesExactlyWhen | src/runtime/dbos.js:181-206 | a function id is allocated exactly when nothing stops or freezes the two points around its UPDATE |
| DbosOutcomes.AmbiguousExactly | src/runtime/dbos.js:358-432 | without its commit, or with a throwing observation, the call fails and the row stays; otherwise the row becomes SUCCESS, AMBIGUOUS, UNKNOWN or ERROR as observed, under the commit's token |
| DbosOutcomes.LostExactly | src/runtime/dbos.js:498-546 | a commit without a checkpoint: a row only for VERIFIED, UNKNOWN and AMBIGUOUS, otherwise an error and no row |
| DbosOutcomes.DeliverExactly | src/runtime/dbos.js:548-636 | prep once, then the adapter once; a throwing prep is an ERROR unless its key reached the adapter, a throwing observation stops the workflow, any other observation decides the row |
| DbosOutcomes.ResumeEnds | src/runtime/dbos.js:786-872 | a resume past its first check: SUCCESS with the body's value or ERROR exactly when the body ended and the writers were open by then, the replay's tables when it stopped short, the old tables when it was interrupted, frozen out or lost; calls and commits made stay made |
| DbosOutcomes.CheckpointedWorkflowFinishes | src/runtime/dbos.js:763-872 | whenever the body ends on its checkpoints, a resume that survives with open writers stores its value as SUCCESS, calling nothing and touching no row |
| DbosOutcomes.DeathLeavesTheTables | src/runtime/dbos.js:763-872 | a process that dies between two context calls leaves the tables as the resume found them |
| DbosOutcomes.TokensStayDistinct | src/runtime/local-effect-adapter.js:30-50 | over every run of resumes and foreign commits the adapter gives every key its own token |
| DbosGuarantees.CheckpointedNeverRunsAgain | src/runtime/dbos.js:291-693 | over any sequence of resumes a checkpointed step is never run, prepared or delivered again, and SUCCESS and ERROR rows keep everything |
| DbosGuarantees.HeldKeyNeverRedelivered | src/runtime/dbos.js:498-546 | once the adapter holds a key no later resume calls prep or commit for it, and its token stays |
| DbosGuarantees.DeliveredAtMostOnce | src/runtime/dbos.js:548-636 | over a whole run a key is delivered at most once, even by steps that share it |
| DbosGuarantees.CheckpointsStandOnCommits | src/runtime/dbos.js:439-636 | a non-ERROR checkpoint of an effect-bound step records the adapter's token for its key, VERIFIED exactly when SUCCESS |
| DbosGuarantees.SettledOnlyWhenVerified | src/runtime/dbos.js:358-432 | AMBIGUOUS or UNKNOWN becomes SUCCESS only in a resume that observed VERIFIED for the key |
| DbosGuarantees.OutputIsTheBodyOnCheckpoints | src/runtime/dbos.js:763-872 | in every reachable state a SUCCESS workflow's output is the body evaluated on the checkpointed outputs |
| DbosGuarantees.TerminalIsFinal | src/runtime/dbos.js:763-784 | nothing changes a finished workflow's status, output, checkpoints or function ids |
| DbosGuarantees.SignalsSurvive | src/runtime/dbos.js:699-750 | a given approval survives every later resume, interruption and repeated signal, payload included |
| DbosGuarantees.ApprovalGivesItsPayload | src/runtime/dbos.js:699-750 | in every run the checkpoint of an approval step is a SUCCESS with exactly the payload the step was signaled with |
| DbosGuarantees.SignalExactlyWhen | src/runtime/dbos.js:874-901 | a signal takes effect exactly on a waiting step while the writers are open, with its own payload, and touches nothing else but a waiting workflow's status |
| DbosGuarantees.FunctionIdsDistinct | src/runtime/dbos.js:291-340 | checkpoint function ids are distinct and below next_function_id, which never decreases |
| DbosGuarantees.AllocationsOnlyWhenOpen | src/runtime/dbos.js:181-206 | over every run, with restores beginning, marking and completing between any two statements, each UPDATE of next_function_id happens at a moment open by the history of restores, and next_function_id never exceeds their number |
| DbosGuarantees.PublishesUnderFreezeExactlyWhen | src/runtime/dbos.js:763-872 | a resume publishes anything under a freeze exactly when the restores of its window leave one uncompleted: those before the COMMIT, and with a recoverable step also those between its check and its INSERT, with a stopped step also those behind its prep and its adapter commit |
| DbosGuarantees.QuietWindowsPublishOpen | src/runtime/dbos.js:763-872 | if no restore begins in those windows, nothing is ever published under a freeze |
| DbosGuarantees.StoppedResumePublishesUnderFreeze | src/runtime/dbos.js:548-636 | for every body that starts with an effect-bound step: a beginRestore behind the adapter commit and a throwing observation publish one more function id into a frozen database |
| Reconciliation.ComputeFreshness | src/runtime/reconciliation.js:112-160 | a forced FRESH or AGING never replaces a fail-closed label |
| Reconciliation.LoadBlocking | src/runtime/reconciliation.js:844-875 | finds a row exactly when some row is both selected and blocking |
| Reconciliation.HoldExactlyWhen | src/runtime/reconciliation.js:287-444 | for every record, observation, effect and evidence: a call decides exactly on a complete record; it HOLDs, value unchanged, exactly when the evidence conflicts (SOURCE_CONFLICT), else the effect is unsettled (PENDING_LOCAL_EFFECT), else the row was already in conflict and nobody observed |
| Reconciliation.LoadedEffectsHold | src/runtime/reconciliation.js:844-926 | with the automatic load a call HOLDs as PENDING_LOCAL_EFFECT whenever the loaded ledger has a row that its filter selects and that blocks, and otherwise decides as without an effect |
| Reconciliation.PassedEffectsCount | src/runtime/reconciliation.js:887-926 | an effect that is passed decides instead, and the ledger is not asked |
| Reconciliation.OfflineExactlyWhen | src/runtime/reconciliation.js:345-372 | OFFLINE exactly when the source is unavailable and nothing holds, and then without a conflict |
| Reconciliation.ProviderDecides | src/runtime/reconciliation.js:446-570 | with an observation nothing holds and a known source: action, label, value, conflict, times and source of the decision, each exactly by age, difference and the two escalation flags |
| Reconciliation.OwnAgeDecides | src/runtime/reconciliation.js:396-444 | without an observation: the decision exactly by the record's own age |
| Reconciliation.UnknownSourceDecides | src/runtime/reconciliation.js:373-395 | an unknown source marks UNKNOWN |
| Reconciliation.AgeMeans | src/runtime/reconciliation.js:112-160 | STALE beyond the maximum age, AGING beyond half of it, FRESH up to there, UNKNOWN without usable age data |
| Reconciliation.LabelMeans | src/runtime/reconciliation.js:112-160 | a computed label by source, conflict and age in this order, and exactly when a forced label stands |
| Reconciliation.SqlFilterAgrees | src/runtime/reconciliation.js:81-92 | the SQL filter and isBlockingLocalEffect agree on every ledger |
| Reconciliation.FailClosedStays | src/runtime/reconciliation.js:287-444 | OFFLINE, CONFLICTED, UNKNOWN and STALE never become FRESH or AGING without provider evidence, for any clock, effects and evidence, with source_status dropped between steps |
| Reconciliation.AgeLabelNeverGoesBack | src/runtime/reconciliation.js:396-444 | from a computed label and a clock that never goes back the label only rises |
| Reconciliation.RejuvenatedExactlyWhen | src/runtime/reconciliation.js:446-570 | a label given by a provider can be lowered later exactly when the row's own max age would have given a lower one |
| Reconciliation.AgingTurnsFreshAgain | src/runtime/reconciliation.js:446-570 | such a case exists |
| Reconciliation.LabelAndConflictAgree | src/runtime/reconciliation.js:287-572 | label and conflict_status of the stored row belong together over any run of calls, faithful or not |
| Reconciliation.ProvenanceMovesWithTheObservation | src/runtime/reconciliation.js:510-570 | times, source and evidence change only with an accepted observation, whose they then are, and no earlier evidence is lost |
| Reconciliation.ValueChangesOnlyByRepair | src/runtime/reconciliation.js:540-572 | on the stored row the value changes exactly when a REPAIR is applied, and then every safeguard held |
| Reconciliation.ValueComesFromARepair | src/runtime/reconciliation.js:887-926 | over any such run a changed value is the provider's value of one justified REPAIR of the run |
| Reconciliation.RepairSeesARealDifference | src/runtime/reconciliation.js:66-75 | what a REPAIR replaces differs as a JSON value, not only in key order |
| Reconciliation.HoldKeepsTheValue | src/runtime/reconciliation.js:717-730 | HOLD never changes the stored value and stops exactly when the caller's differs |
| Reconciliation.UnfaithfulWriteBack | src/runtime/reconciliation.js:650-776 | the other actions store the caller's value |
| Reconciliation.RecheckStopsExactlyWhen | src/runtime/reconciliation.js:784-842 | the re-check under the lock stops a faithful call exactly when it would REPAIR and a blocking row its filter selects is there by then, which the automatic load had not found |
| Reconciliation.NullRepairWedgesTheRecord | src/runtime/reconciliation.js:214-236 | after a stored faithful call the next one is refused exactly when that call repaired the row to JSON null |
| Reconciliation.WedgedExactlyWhen | src/runtime/reconciliation.js:214-236 | a faithful run ends with a record every later call refuses exactly when some call of it stored such a repair |
| Reconciliation.Records.ApplyReconciliation | src/runtime/reconciliation.js:650-776 | the stored row after a decision, and every other row untouched |
| Reconciliation.Records.ReconcileStateFor | src/runtime/reconciliation.js:887-926 | load, decision and application for one key equal the specification that HoldExactlyWhen, LoadedEffectsHold, ProviderDecides, OwnAgeDecides and ValueChangesOnlyByRepair are about |
| EvidenceStore.Registry.SupersedeOthers | src/builder/candidate-registry.js:104-148 | the nested loops supersede exactly the task's other-SHA candidates, void what they refer to and invalidate the task's APPROVED approvals of them |
| EvidenceStore.Registry.RegisterExactCandidate | src/builder/candidate-registry.js:51-203 | supersede, then insert a PROPOSED candidate |
| EvidenceStore.Registry.RefreshCandidateLanding | src/builder/candidate-registry.js:209-313 | changed landing evidence voids the verification and review and takes VERIFIED back |
| EvidenceStore.Registry.InvalidatePriorVerifications | src/builder/verifier.js:42-50 | the loop voids exactly the candidate's verifications |
| EvidenceStore.Registry.InvalidatePriorReviews | src/builder/verifier.js:52-72 | the loop voids exactly the candidate's reviews |
| EvidenceStore.Registry.CollectChecks | src/builder/verifier.js:136-306 | the checks in the order they are pushed |
| EvidenceStore.Registry.VerifyExactCandidate | src/builder/verifier.js:78-401 | refused for superseded and rejected candidates, otherwise one new row and nothing else live |
| EvidenceStore.Registry.AbortVerification | src/builder/verifier.js:122-173 | a hook that throws leaves the earlier rows voided and writes no new one |
| EvidenceStore.Registry.ReviewExactCandidate | src/builder/codex-review.js:258-503 | recorded exactly when the stored verification is authoritative for this candidate; the row is the one ReviewHistory describes |
| EvidenceStore.Registry.ObserveCi | src/builder/ci-wait.js:349-357 | a poll overwrites the landing fields and voids nothing |
| EvidenceStore.Registry.MismatchCi | src/builder/ci-wait.js:256-289 | a mismatching poll voids the referenced verification and review |
| EvidenceStore.Registry.InvalidateTaskEvidence | src/builder/tick.js:301-324 | the nested loops supersede the whole task and void everything about it |
| EvidenceStore.Registry.RecordApproval | src/builder/core.js:743-782 | a row for any candidate id, live or not |
| EvidenceGuarantees.LiveCandidatesCarryTheLastSha | src/builder/candidate-registry.js:104-148 | in every reachable state every non-superseded candidate carries its task's last registered SHA |
| EvidenceGuarantees.LastShaIsTheLastRegistered | src/builder/candidate-registry.js:51-203 | which is what the history's last registration says |
| EvidenceGuarantees.OneLiveVerification | src/builder/verifier.js:124-134 | at most one verification per candidate is un-invalidated, and it is the candidate's current one |
| EvidenceSteps.VerificationLiveExactlyWhen | src/builder/verifier.js:42-50 | at every later point of every run a verification is the row it was, invalidated exactly when an operation since has voided it: a new SHA or changed landing while its candidate refers to it, a poll of another branch or head, a new or thrown verification of its candidate, an explicit or task-wide voiding |
| EvidenceSteps.ReviewLiveExactlyWhen | src/builder/verifier.js:52-72 | the same for reviews |
| EvidenceSteps.CandidateStep | src/builder/candidate-registry.js:104-313 | what every operation does to every candidate, told from the stored rows |
| EvidenceSteps.AddsItself | src/builder/candidate-registry.js:150-203 | a registration adds one PROPOSED candidate with the given landing, an approval its row, nothing else adds either |
| EvidenceSteps.AddsJudgment | src/builder/verifier.js:307-401 | only a verification of an open candidate adds a verification, only a review that may be held a review |
| EvidenceGuarantees.NewShaEndsAuthority | src/builder/candidate-registry.js:104-148 | after a different SHA is registered no earlier verification or review is authoritative again |
| EvidenceGuarantees.AbortEndsAuthority | src/builder/verifier.js:122-173 | a verification whose hook throws takes all authority from its candidate until it is verified anew |
| EvidenceGuarantees.ApprovedExactlyWhen | src/builder/candidate-registry.js:131-147 | over any run a recorded approval is still APPROVED exactly when no registration of another SHA for its task has met its candidate not yet superseded |
| EvidenceGuarantees.InvalidatedTaskKeepsApprovals | src/builder/tick.js:301-324 | voiding a task's evidence shields its approvals from every later registration |
| EvidenceGuarantees.PassExactlyWhen | src/builder/verifier.js:307-341 | PASS exactly when every hook passed and GitHub confirmed the landing with completed/success CI, whatever the hooks are called |
| EvidenceGuarantees.FailExactlyWhen | src/builder/verifier.js:307-341 | FAIL exactly when a hook failed, GitHub contradicted the landing or the CI failed |
| EvidenceGuarantees.VerifiedCandidate | src/builder/verifier.js:307-401 | what a verification leaves of its candidate: VERIFIED by PASS, REJECTED by FAIL, VERIFYING otherwise, one reference to the new row and GitHub's landing fields |
| EvidenceGuarantees.AuthoritativeExactlyWhen | src/builder/verifier.js:343-390 | the new row is authoritative exactly then, if no hook takes the snapshot's name |
| EvidenceGuarantees.AuthorityIsCurrent | src/builder/verifier.js:437-458 | in every run an authoritative verification is a PASS of the last registered SHA whose snapshot equals the candidate's current record; with a completed, successful CI unless some verification of the run had a hook printing the candidate's own SHA and branch with another CI under the snapshot's name |
| EvidenceGuarantees.ReviewAuthorityIsBound | src/builder/codex-review.js:574-592 | an authoritative review is a PASS bound to the authoritative, only live verification of the same candidate and SHA |
| EvidenceGuarantees.ReviewHistory | src/builder/codex-review.js:258-503 | in every run each review row was recorded by one of its steps and reports exactly what that step's reviewer answered: PASS, REQUEST_CHANGES, or BLOCKED and unbound without a usable answer |
| EvidenceGuarantees.AuthorityStemsFromAPass | src/builder/codex-review.js:469-503 | in every run an authoritative review stems from a step that required none or whose reviewer answered PASS for that candidate |
| EvidenceGuarantees.RequestedChangesEndAuthority | src/builder/codex-review.js:469-503 | requested changes reject the candidate: at no later point of any run is a verification or review of it authoritative |
| EvidenceGuarantees.ForgeryExactlyWhen | src/builder/verifier.js:426-435 | a CI poll can leave a verification authoritative over a CI that did not succeed exactly when a hook of the snapshot's name printed the candidate's SHA and branch with such a CI |
| EvidenceGuarantees.FailedCiCanLookAuthoritative | src/builder/verifier.js:152-172 | such a run exists for every commit, branch and unsuccessful CI |
| CiWait.SummaryMeaning | src/builder/github-landing.js:126-178 | pending, failure and success each exactly when the runs, or without runs the combined status, say so; success needs all runs completed with success, neutral or skipped |
| CiWait.SuccessExactlyWhenLanded | src/builder/ci-wait.js:39-64 | a poll ends the wait with SUCCESS exactly when commit, PR head, branch and CI all match |
| CiWait.EndingsMean | src/builder/ci-wait.js:249-413 | each other ending of a poll exactly: HEAD_CHANGED, PR mismatch, a SHA that throws, failed CI, unknown CI |
| CiWait.PollWrites | src/builder/ci-wait.js:251-357 | what each poll writes: the observed landing with the summarised CI, the mismatch, or nothing |
| CiWait.PollUntilTerminal | src/builder/ci-wait.js:217-413 | the loop stops at the first conclusive poll or the deadline, after at most ceil(timeout/poll) polls |
| CiWait.OpsAreItsOwn | src/builder/ci-wait.js:251-357 | the polls write observations of the waiting candidate and nothing else |
| CiWait.WaitForExactCandidateCi | src/builder/ci-wait.js:150-435 | SUCCESS only from a last poll that landed, earlier polls inconclusive, at most ceil(timeout/poll) polls, and then the last observation records a completed, successful CI; on HEAD_CHANGED with the stored SHA unmoved it answers the head of the last poll's pull request, which differs from the bound SHA |
| BuilderRuns.ElapsedRuntimeMsFromRuns | src/builder/retry.js:210-221 | the loop computes the sum over the runs |
| BuilderRuns.TotalAdds | src/builder/retry.js:210-221 | the runtime accounted for is additive over the runs |
| BuilderRuns.OneRunCosts | src/builder/retry.js:210-221 | one run costs the time from its start to its end, or to now, and nothing if it never started or ends before it starts |
| BuilderRuns.DefaultPolicy | src/builder/retry.js:13-40 | two attempts and thirty minutes unless the task says otherwise |
| BuilderRuns.ProviderStatusMeans | src/builder/core.js:71-90 | which run status a provider's status is taken for; an unknown one counts as running |
| BuilderRuns.Runs.GetCurrentCodingRun | src/builder/core.js:236-254 | the newest run if it is active, else none |
| BuilderRuns.Runs.LaunchWorker | src/builder/core.js:314-498 | launches on the PENDING run or one new run, never beside an active one; the run then shows the provider's status, or FAILED when the launch is refused |
| BuilderRuns.Runs.Observe | src/builder/core.js:626-679 | the provider's status is taken over, except that CANCELLED and STALE are sticky and an end time is set once |
| BuilderRuns.Runs.BeginRepairAttempt | src/builder/retry.js:68-208 | refuses by class, attempts or runtime; otherwise closes the active run and mints exactly one fresh PENDING run |
| BuilderRuns.RepairsAreBounded | src/builder/retry.js:68-208 | over any history of launches, observations and repairs no more repairs are granted than attempts were left, and none once max_attempts runs exist |
| BuilderRuns.ExhaustionIsFinal | src/builder/retry.js:100-149 | with a clock that never goes back, once attempts or runtime are used up no later step of any history is granted a repair: neither the runs nor the runtime they account for ever shrink |
| BuilderRuns.ClosingKeepsTheTotal | src/builder/retry.js:155-208 | closing a run costs the runtime budget nothing extra |
| Orchestrator.WaitForCi | src/builder/orchestrator.js:240-277 | refresh, then the CI wait over the stored candidate: it ends as CiWait says, within its poll budget, and the store holds exactly what the refresh and the polls wrote |
| Orchestrator.WaitKeeps | src/builder/orchestrator.js:240-277 | neither of them supersedes, rejects or rebinds the candidate |
| Orchestrator.GateMeans | src/builder/codex-review.js:505-547 | the gate opens exactly for a live PASS verification that, when review is required, has a live PASS review of the same candidate and SHA; FAIL exactly for a failed verification or requested changes |
| Orchestrator.BindCandidate | src/builder/orchestrator.js:228-281 | at most three registrations; the first binds the worker's SHA, each further one the head of the pull request in the last poll of the wait before, which differs from the SHA bound before; without a candidate there is one of the named reasons |
| Orchestrator.RegisterAndVerify | src/builder/orchestrator.js:202-290 | the last registered SHA is the one verified, after a wait that met neither a new head nor another branch; a throwing hook verifies nothing |
| Orchestrator.ReviewAndDecide | src/builder/orchestrator.js:292-356 | DONE exactly for a PASS that is approved when review is required, RETRY exactly for FAIL or requested changes; DONE only with authoritative evidence in the store |
| Orchestrator.RunGates | src/builder/orchestrator.js:540-700 | DONE needs passing hooks, the confirmed landing with successful CI and, when required, the reviewer's PASS; RETRY a failed registration or verification or requested changes; DONE rests on authoritative evidence of the SHA the attempt settled on |
| Orchestrator.WorkAndGate | src/builder/orchestrator.js:455-640 | what waiting for and collecting the worker comes to: repairable, not repairable, thrown, blocked, or what the gates say |
| Orchestrator.WorkAndRepair | src/builder/orchestrator.js:455-714 | a repair follows exactly what may be repaired, within attempts; NEEDS_OWNER only with the attempts used up, BLOCKED for a refused repair only with attempts left |
| Orchestrator.RunCycle | src/builder/orchestrator.js:424-714 | one cycle of launch, wait, verify, review and repair: its answer by what the worker, the gates and the repair policy say, and the runs it adds |
| Orchestrator.RunOwnerSoftwareTask | src/builder/orchestrator.js:411-724 | every attempt before the last came to a repair and the last one to the verdict; at most max_attempts launches and runs; a cycle cap of at least max_attempts always answers inside the loop; DONE implies passing hooks, landing and CI, an authoritative PASS of the SHA bound last, whose CI wait met neither a new head nor another branch, and, when required, the reviewer's PASS in an authoritative review of the same candidate and SHA |
| CanonicalJson.ParseInvertsCanonical | src/contracts/ids.js:13-21 | a parser inverts the printer |
| CanonicalJson.CanonicalDecides | src/contracts/ids.js:13-21 | canonical texts are equal exactly when the values are equal up to object key order |
| PrinterCopies.CopiesAgree | src/runtime/backup-restore.js:59-68 | all copies of the printer agree on JSON values |
| PrinterCopies.CopiesAgreeExactlyWhen | src/runtime/backup-restore.js:59-68 | on every JavaScript value of JSON leaves, arrays, objects and undefined, the backup copy writes the canonical text exactly when no undefined occurs at any depth; rows read from jsonb hold none |
| Ids.KeyTextDecides | src/contracts/ids.js:35-44 | with fixed-length ids and hash the key text is equal exactly when tenant, workflow, step+capability and hash are |
| Ids.EffectKeyDecides | src/contracts/ids.js:28-44 | two effects share a key exactly when those agree and the requests are equal up to key order |
| Ids.StepAndCapabilityBlur | src/contracts/ids.js:35-44 | moving a character across the boundary leaves the key unchanged |
| Ids.SortTextsDecides | src/builder/contracts.js:250-262 | sorting forgets exactly the order |
| Ids.TaskHashDecides | src/builder/contracts.js:230-266 | the task hash changes with every field and ignores only the order of paths, providers and tools and whether the default mode is spelled out |
| SecretScan.ScanWorkerMessage | src/runtime/credential-broker.js:146-181 | the explicit-stack scan terminates and accepts exactly the objects and arrays in which at no path, through array items and object fields, a key names a secret or a string has the shape of one; so does the recursive scan |
| SecretScan.CleanExactlyWhen | src/contracts/connector.js:80-104 | the recursive scan accepts exactly the values that expose nothing at any path |
| DurableState.StateRowRoundTrip | src/runtime/backup-restore.js:439-470 | a restored state row reads back as its snapshot exactly when it is storable, and is unchanged exactly when its times are also whole milliseconds |
| DurableState.EventRowRoundTrip | src/runtime/backup-restore.js:472-507 | the same for event rows |
| DurableState.DurableRoundTrip | src/runtime/backup-restore.js:207-264 | wipe and restore reproduces the snapshot exactly when every row is storable, and the tables exactly when every row survives |
| DurableState.FingerprintDecides | src/runtime/backup-restore.js:70-72 | fingerprints are equal exactly when tenant and every column of every row agree |
| BackupRestore.TamperingIsDetected | src/runtime/backup-restore.js:369-406 | a set that loads does not load without one of its surfaces, and with the payload of any one surface altered loads exactly when the alteration only reorders keys |
| BackupRestore.SnapshotTampering | src/runtime/backup-restore.js:369-406 | for the durable snapshot: exactly when tenant and every column of every row agree |
| BackupRestore.InsertRows | src/runtime/backup-restore.js:439-507 | one insert per row, failing exactly on a key or id that is repeated or held by another tenant |
| BackupRestore.BackupRuntime.CreateBackupSet | src/runtime/backup-restore.js:280-367 | the loop over the surfaces stores the labelled snapshot of the tables with its fingerprint and what describes the other three, each with its digest; the set loads |
| BackupRestore.BackupRuntime.LoadBackupSet | src/runtime/backup-restore.js:369-406 | the two loops load exactly the sets in which every required surface is present and every payload matches its digest, and otherwise report the missing surfaces, or the first altered one by name |
| BackupRestore.BackupRuntime.RestoreTransaction | src/runtime/backup-restore.js:408-508 | commits exactly when nothing fails and the rows read back as the snapshot |
| BackupRestore.BackupRuntime.RunRestoreRehearsal | src/runtime/backup-restore.js:663-883 | SUCCESS only if the re-read snapshot equals the backed-up one, and exactly at which stage it ends, by what fails and what is restorable; a failure inside the transaction leaves the tables untouched; one after the freeze and before the thaw leaves the writers frozen |
| BackupRestore.RestorableExactlyWhen | src/runtime/backup-restore.js:414-508 | a backup is restorable exactly when every row of the tables it was taken of is storable and by then no other tenant holds one of their ids or dedupe keys |

## Left out

- SQL text, pools, roles, row-level security and the row mappers: one tenant's tables as maps and sequences with their uniqueness constraints.
- Policy, grant, approval, capability and ambiguity checks of the executor: one input that can only deny.
- Concurrent resumes of one workflow, and interleavings inside one Builder verify or review: the code does not serialise them.
- Workflow bodies that catch errors of their context calls, and step functions that throw the runtime's own error codes: errors propagate.
- error_json of steps and workflows, timestamps of rows, and event logs: not stored in the model.
- state_version of a state record and NaN as max_age_seconds.
- Worker prompts, landing extraction and SHA resolution: inputs of an attempt.
- resumeExactCandidateCiAndVerify and task statuses: straight-line variants of the same steps.
- Checks of derived indexes, object storage and git provenance inside a restore: each can only fail the transaction; what a backup writes for these surfaces is any function of surface, epoch and fingerprint.
- Secret-shaped strings: an abstract predicate on strings; number lexemes are opaque texts.
- Database collation: ORDER BY uses the code-unit order; any total order would do.
- Inbound gate, PII erasure, observability apart from its copy of the printer, Agent 0, briefing and command-line scripts: mostly straight-line checks.
- Clocks that go back and sleeps that return early: in CiWait a reading is the one before it plus the time slept and any delay, without which the loop need not end.
- Statements of single-flight.js as parts of a longer transaction: each counts as visible to others at once.
- TrustedExecutor.OneWorkflowPerAction: takes calls one at a time; ClaimInterleaving.OneWorkflowPerAction is the statement over schedules.
