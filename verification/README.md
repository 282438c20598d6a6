# Durable, budgeted research executions

A Dafny model of the layers that let Hypatia run approved research without spending more than was
approved, running a step twice, or forgetting what it did:

1. **Plan execution.** `ExecutionStates` is the immutable state machine, `Allowances` the money,
   `Snapshots` what a save writes and a restart or rebind makes of it. `AttemptProtocol` cuts everything
   that can happen to one execution identifier into twenty atomic steps: the charge, the compare-and-set
   commit, the capture and the landing of a save, the dispatch, the outcome, and, between any two of them,
   a cancel, a ruling, a withdrawn ruling, other saves or a crash. Any number of saves may be under way.
   `ProtocolSafety` and `DurableHistory` prove what every step keeps, `AnyRuns` what every step keeps
   whatever lands; `ProtocolTheorems`, `AcknowledgedRulings`, `Cancellations` and `Restarts` state what follows
   over every run. `Overlaps`, `LateLandings` and `OverlappingAdvances` say exactly what a document landing
   late and a second advance can break. `TransitionLaws`, `AdvanceLaws` and `RebindLaws` say of each
   transition, of one advance and of one rebind exactly when it happens and what it leaves, in terms of the
   statuses and entries alone.
2. **The service itself.** `PlanExecutionService` is the class with its dictionaries and its store; each
   method is proved to move every execution by whole runs of the protocol (`SequentialAdvance`,
   `SequentialDecisions`, `Continuations`, `ExecutionMemory`), so the run theorems hold after any sequence
   of requests, and says exactly when the request takes effect and what it then leaves.
3. **One-use approvals.** `Approvals` and `AuthorizationService`. A start is a two-store protocol with
   plan execution: `OverlappingStarts` takes the check, the mark, the capture and the landing of a
   consumption apart, and `JointStarts` runs that beside every execution, with crashes between any two steps.
4. **Autonomy and the background scheduler.** `Autonomy`, `AutonomyService`, `Tasks`, `Scheduling`,
   `SchedulerService`: two more budget and retry layers, which reach an execution only through its
   one-step advance. `WorkerAccounts` sets what a worker cycle asked for against what was spent.
5. **Goal start, recovery and resume.** `MissionRequests`, `GoalIntake` (identities over runs of goals and
   restarts), `GoalService`, `CuriosityService`.
6. **Smaller cores.** `Kali` (consume before dispatch) and `KaliOverlaps` (the same with loads and saves
   apart), `Relevance` (evidence selection), `AssetInventory` and `HttpEvidence` (append-only logs).

## What the model assumes

- A save writes one whole document: it lands whole or leaves the store unchanged. A save that failed
  reports failure. The caller chooses which saves land.
- Saves of the execution store overlap freely and land in any order
  (`src/cognition/ResearchPlanExecutionApplicationService.py:1691-1710` captures and writes outside the
  lock). A document is *stale* once the checkpoint of an attempt has landed that was committed after the
  document was captured, and *overtaken* once any document captured later has landed. The code prevents
  neither from landing. Budget and at most once hold over every run whose restarts find sane records, ones
  that count everything dispatched and call no dispatched step pending, whatever landed in between
  (`Restarts`); every run in which no stale document lands is one. That the store says so first, and what the
  store then keeps counting, is said of the latter; the durable history is kept over every run in which no
  overtaken document lands. Honest completion, closed stays closed, completed steps survive, acknowledged and
  refused decisions and cancellations are said after any run at all, whatever landed and lands.
- A capture takes one execution as it is at one moment. The code reads the state, the plan, the context, the
  allowance and the request identity of a document one after another, outside the lock (`:1727-1780`), and
  each execution at a different moment; a document that joins a state from before a commit with an allowance
  from after the charge, or the other way round, is not part of this model.
- At most one advance is in flight per execution; the code does not enforce it (the charge and the refund at
  `:1407-1418` are outside the lock), and `OverlappingAdvances` says what follows when two are.
- The outcome of an attempt and the time it took are settled in one act; the code charges the time first
  (`:1457-1510`), so only seconds, which nothing here bounds, could differ in between.
- A rebind installs its entries in one act. The code writes the execution under the lock and its context and
  allowance after it (`:569-582`), so an advance that came in between would see no allowance.
- Approvals are captured and written without a lock
  (`src/cognition/ResearchPlanAuthorizationApplicationService.py:474-501` and `:624-632`). In
  `OverlappingStarts` and `JointStarts` a check, a mark, a capture and a landing or rollback are steps of
  their own, and so are those of a recording. In `Approvals` and in the classes one call is one act.
- The rules for semantic comparison plans are one yes or no.
- `Kali` is about runs one after another and approvals that overlap them; `KaliOverlaps` lets both overlap
  freely, with a load and a save each. There each approval works on the list it loaded; in the code
  overlapping approvals share one dictionary
  (`src/cognition/KaliOperationAuthorizationApplicationService.py:74-107`), so one may write the list another
  has reloaded.
- Both stores live in one process, so a crash ends both services.
- A plan digest is the digested content itself: injective, and blind to the plan identifier.
- Plan, approval and task identifiers are minted fresh.
- Providers, gates, clocks and registries are inputs. An operation raises, performs nothing, performs and
  fails, performs and succeeds, or leaves by an exception that is not a `ResearchError`.

## What the code does not keep

Where a promise fails only sometimes, the lemma says exactly when, for arbitrary cells, runs and documents.

- `Overlaps.LandingRepeatsIffUnanswered`: when any document lands and the process dies, the next dispatch
  repeats one without a ruling if and only if the step the document leaves next is unanswered for, and only
  a stale document does that. `Overlaps.LateSaveRepeatsADispatch`: wherever an advance may begin, a save
  that captures before it and lands after its dispatch is such a document.
- `ProtocolTheorems.OvertakenLandingKeepsHistoryIff`: the first overtaken document to land keeps what
  the store held if and only if nothing was completed, closed or first saved since its capture.
- `OverlappingAdvances.OverlappingAdvanceForgetsACharge`: an advance that loses the compare-and-set puts
  back the allowance it read, which leaves uncounted exactly the charges the other advance made since the
  read and did not give back itself. `OverlappingAdvances.SecondAdvanceErasesADispatch`: wherever an advance
  may begin, a second one can do so.
- `Overlaps.WithdrawnStartDropsASavedIdentity`: the next landed save after a mission start was taken back
  drops a saved identity if and only if the store held it at that moment.
- `Restarts.RestartRepeatsIffUnanswered`: a restart and an advance repeat a dispatch if and only if the next
  step of the record found is unanswered for.
- `LateLandings.LateLandingCountsIff`: a document still counts every operation when it lands if and only if
  the cost of what was dispatched since fits into what it had paid ahead of use; where it had paid exactly
  what was owed, if and only if nothing was dispatched in between but the attempt it had charged.
- `Cancellations.CancellationSurvivesIffSaved`: a cancellation stands in memory even when its save fails,
  and comes back after a restart if and only if the last document to land since was captured since, in
  whatever order documents land.
- `OverlappingStarts.OverlappingConsumptionPermitsTwice`: of two executions permitted on one approval, the
  second to mark had checked before the first marked, or after a document captured before that mark landed
  over it or an older mark of that approval was rolled back over it; only so can an approval permit twice.
  `OverlappingStarts.FailedStartForgetsAPermit` and `OverlappingStarts.LateRecordingErasesASpend`: from any
  reachable state a failed start, or a recording that lands late, can do that.
- `Kali.OverlappingApprovalRevives`: an approver's save stores a consumed approval again if and only if
  something it had loaded was consumed before it saved; `Kali.RevivedApprovalRunsAgain`: such an approval
  can be run again.
- `KaliOverlaps.DispatchedTwiceIffOverlapped`: of two runs that dispatched one approval, the second had loaded
  before the first one saved, or a third save, loaded before that, landed between the two; only so can an
  approval be dispatched twice.
  `KaliOverlaps.BothLoadedMayDispatch` and `KaliOverlaps.AnotherRunBringsItBack`: both can happen.
- `Snapshots.ExactReturnIffNothingOpenOrRuled`, `Snapshots.RulingLostByRebind`: a rebind does not pass on
  rulings and recoveries, although the comment at `src/research/ResearchPlanStepState.py:26-28` promises
  that a ruling survives a restart. It survives in the store and in a restored record, not in the rebound
  execution.
- `GoalIntake.UniqueIffNoneRepeats`: a goal request identity is compared as sent
  (`src/cognition/ResearchGoalStartApplicationService.py:624-635`, `:692`) and stored trimmed
  (`src/cognition/ResearchPlanExecutionApplicationService.py:1910-1920`), so request identities stay apart if
  and only if no mission is started whose trimmed identity one already carries.
  `GoalIntake.NewIffTrimmedFormIsUnknown`: one call could check that, by comparing trimmed forms.
  `GoalIntake.TrimmedRequestsStayApart`: it never happens while every request is sent trimmed.
  `GoalIntake.TwoFormsStartTwoMissions`: any two forms of one identity start two missions, in either order.
- `SequentialAdvance.StepLeftRunningIff`: an advance leaves its step running in memory if and only if the
  operation was dispatched and what came of it cannot be recorded: an exception that is not a
  `ResearchError`, a text of more than 500 characters
  (`src/cognition/ResearchPlanExecutionApplicationService.py:1463-1465`), or an outcome of an operation
  without a name.
- `SchedulerService.Scheduler.ProcessWorkerCycle`: a background task a cycle claimed stays running if and only
  if its run raised.
- `JointStarts.NoExecutionOnAnUnspentApproval`: an execution holds the budget of the approval its one start was
  permitted on, and the approval store names it if and only if the last document to land was captured while
  memory named it, which it does until another start of that approval marks or is rolled back, or the process
  restarts (`OverlappingStarts.MemoryNamesUntil`).
- `JointStarts.CrashLeavesASpentApproval`: a crash after a landed consumption leaves the approval spent on an
  execution that exists nowhere.

## Model

| member | source | states |
|---|---|---|
| ProtocolTheorems.LifetimeBudgetSafety | src/cognition/ResearchPlanExecutionApplicationService.py:1332-1456 | over every run in which no stale document lands, with crashes, failed and overlapping saves, cancels, rulings and rebinds, all operations ever dispatched for an approved execution stay within the approved budget, and every record it could resume from, or that may still land, already counts them |
| Histories.UsedLaw | src/research/ResearchCapabilityCost.py:45-54 | what has been used counts every dispatch as one step and at the declared cost of its step, and nothing else |
| ProtocolTheorems.AtMostOnceDispatch | src/cognition/ResearchPlanExecutionApplicationService.py:1282-1440 | over the same runs, between two dispatches of one step an operator ruled that it was not performed; no record that is durable or may still land calls a step pending whose last dispatch is unanswered for |
| ProtocolTheorems.DispatchIsRecordedAndPaidFirst | src/cognition/ResearchPlanExecutionApplicationService.py:1402-1440 | whenever an operation may be dispatched, the store already says its step was begun and has counted its cost |
| Restarts.SafeWhateverLands | src/cognition/ResearchPlanExecutionApplicationService.py:1332-1456 | whatever documents land, stale ones included: over every run whose restarts find sane records, everything ever dispatched stays within the approved budget, memory has counted it, and between two dispatches of one step an operator ruled that it was not performed |
| Restarts.TimelyRestartsAreSane | src/cognition/ResearchPlanExecutionApplicationService.py:1649-1669 | where no stale document lands every restart finds a sane record |
| Restarts.RestartRepeatsIffUnanswered | src/cognition/ResearchPlanExecutionApplicationService.py:429-585 | a restart, a rebind and an advance repeat an unanswered dispatch if and only if the next step of the record found is such a step |
| AnyRuns.StepStaysTrue | src/cognition/ResearchPlanExecutionApplicationService.py:1252-1585 | each of the twenty atomic steps, the landing of a stale document included, leaves nothing that calls a step completed without a success or a record in the history to show for it, and no return without its dispatch |
| ProtocolTheorems.HonestCompletion | src/cognition/ResearchPlanExecutionApplicationService.py:1484-1528 | after any run at all, stale documents landed or not: whatever calls a step completed, live, restored, stored, on its way to the store or read by an attempt, that step was dispatched and later came back a success, or was proved by its own record |
| ProtocolTheorems.ClosedStaysClosed | src/cognition/ResearchPlanExecutionApplicationService.py:1587-1609 | after any run at all, once cancelled, failed or completed, no in-flight attempt, rollback, ruling or save of the process changes the state again, whatever documents land |
| ProtocolTheorems.CompletedStepsSurvive | src/cognition/ResearchPlanExecutionApplicationService.py:930-956 | after any run at all, through every interleaving of one process completed steps keep their record, whatever documents landed before or land meanwhile |
| ProtocolTheorems.SavedHistoryIsNeverDropped | src/cognition/ResearchPlanExecutionApplicationService.py:1769-1780 | as long as no overtaken document lands, no later save, of this process or the next, drops a saved execution, reopens a saved closing decision, or loses a saved completion or request identity, unless a mission start was taken back after a save had captured it |
| ProtocolSafety.StepKeepsInv | src/cognition/ResearchPlanExecutionApplicationService.py:1252-1585 | each of the twenty atomic steps keeps the protocol invariant, unless it lands a stale document |
| ProtocolTheorems.StepKeepsMemory | src/cognition/ResearchPlanExecutionApplicationService.py:1587-1609 | within one process what memory keeps does not depend on what the store holds: as if every save there is had just captured it |
| DurableHistory.StepKeepsChain | src/cognition/ResearchPlanExecutionApplicationService.py:1691-1780 | documents under way follow one another in the order of their capture, the store is followed by those it has not been overtaken by, and all of them by memory |
| ProtocolTheorems.OvertakenLandingKeepsHistoryIff | src/cognition/ResearchPlanExecutionApplicationService.py:1691-1710 | over every run in capture order, the first overtaken document to land keeps what the store held if and only if it lacks no completion, closing decision or identity of it |
| AcknowledgedRulings.LandedSaveHoldsTheDecision | src/cognition/ResearchPlanExecutionApplicationService.py:961-1095 | after any run at all, whatever but another such decision on that step happens between a ruling or recovery and the landing of a save that captured after it, in whatever order saves land, the store then holds the decision |
| AcknowledgedRulings.RefusedDecisionIsUndoneOrOutlived | src/cognition/ResearchPlanExecutionApplicationService.py:1003-1018 | whatever but a crash happens between a ruling or recovery and its being taken back, the live state is then the one before it or one committed by a step in between, and the allowance is what the steps in between made of it |
| Overlaps.LandingRepeatsIffUnanswered | src/cognition/ResearchPlanExecutionApplicationService.py:1691-1710 | for any reachable cell and any document under way: landing it, a crash, a rebind and an advance dispatch a step twice with no ruling if and only if the step it leaves next is unanswered for; then it was stale; and a step whose operation is under way is always such a step |
| Overlaps.LateSaveRepeatsADispatch | src/cognition/ResearchPlanExecutionApplicationService.py:1691-1710 | wherever an advance may begin, a save capturing before it and landing after its dispatch leads to a second dispatch of the step with no ruling and for a single charge |
| LateLandings.LateLandingCountsIff | src/cognition/ResearchPlanExecutionApplicationService.py:1691-1710 | for any document and whatever but a crash happens between its capture and its landing: the record it leaves still counts every operation if and only if the cost of what was dispatched since fits, each bound separately, into what had been paid ahead of use; and where exactly what was owed had been paid, if and only if nothing was dispatched since but the attempt already charged for |
| OverlappingAdvances.OverlappingAdvanceForgetsACharge | src/cognition/ResearchPlanExecutionApplicationService.py:1407-1418 | for every cell, second advance that loses the compare-and-set, and moves of the first between its read and its refund: what it puts back covers what is owed exactly when no other charge since the read stands |
| OverlappingAdvances.SecondAdvanceErasesADispatch | src/cognition/ResearchPlanExecutionApplicationService.py:1407-1418 | wherever an advance may begin, a second one can put back the allowance from before a dispatched operation |
| Overlaps.WithdrawnStartDropsASavedIdentity | src/cognition/ResearchPlanExecutionApplicationService.py:399-424 | for every reachable cell and whatever happens before the next landing: the save drops a saved identity if and only if the store held one when the mission start was taken back |
| Cancellations.CancellationSurvivesIffSaved | src/cognition/ResearchPlanExecutionApplicationService.py:930-956 | after any run and whatever but a crash follows, in whatever order documents land: a cancellation comes back after a restart if and only if the last document to land since was captured since |
| ExecutionStates.StartingKeepsWellFormed | src/research/ResearchPlanExecutionState.py:201-246 | beginning a step makes it the only open attempt and leaves every other step alone |
| ExecutionStates.CancelKeepsWellFormed | src/research/ResearchPlanExecutionState.py:638-673 | cancelling closes every unfinished step and leaves finished ones as they are |
| ExecutionStates.RulingsKeepWellFormed | src/research/ResearchPlanExecutionState.py:313-388 | a ruling touches only the interrupted step it names, and makes it pending exactly when it was ruled not performed |
| ExecutionStates.RecoveriesKeepWellFormed | src/research/ResearchPlanExecutionState.py:461-516 | a recovery touches only the blocked step it names and completes nothing |
| TransitionLaws.StartStepLaw | src/research/ResearchPlanExecutionState.py:201-246 | a step is begun if and only if the plan runs, no step does and it is the first pending one; it then runs under its operation, and a refusal or pause that named it is cleared |
| TransitionLaws.CompleteStepLaw | src/research/ResearchPlanExecutionState.py:248-274 | a running step is completed with a named operation and a short text; the plan is completed if and only if every other step was, and runs on otherwise |
| TransitionLaws.FailStepLaw | src/research/ResearchPlanExecutionState.py:276-311 | a failure fails the step and the whole plan, clears refusal and pause, and says whether work was done |
| TransitionLaws.BlockStepLaw | src/research/ResearchPlanExecutionState.py:598-636 | a pending or running step that cannot be performed is blocked, and the plan with it |
| TransitionLaws.SettingAsideLaw | src/research/ResearchPlanExecutionState.py:518-596 | a refusal and a pause name the first pending step, exclude each other, and change no step and no status |
| TransitionLaws.CancelLaw | src/research/ResearchPlanExecutionState.py:638-673 | anything but a closed plan can be cancelled; finished steps keep their whole record, every other one is cancelled and keeps what is known of its attempt |
| TransitionLaws.ResolveLaw | src/research/ResearchPlanExecutionState.py:313-388 | which rulings are accepted, and what each makes of its step and of the plan |
| TransitionLaws.RecoverLaw | src/research/ResearchPlanExecutionState.py:461-516 | a recovery is accepted if and only if plan and step are blocked, the ruling is that it was performed with an unknown result, and a supplied account is not empty; abandoning cancels the step and lets the plan run on, an account leaves both blocked; ruling, operation and work flag stay |
| TransitionLaws.FromRecordLaw | src/research/ResearchPlanExecutionState.py:390-432 | an unruled interrupted step is completed from its record; the plan stays interrupted, is completed or runs on as the other steps say |
| Snapshots.RestartRoundTrip | src/cognition/ResearchPlanExecutionApplicationService.py:429-585 | capture, restart and rebind bring back every step, the execution's own status, detail, refusal and pause, and the exact allowance; only an open attempt changes, to completed with the recorded result if and only if its own revalidation is on record, and to interrupted otherwise; disclosure never rises |
| RebindLaws.RebindLaw | src/cognition/ResearchPlanExecutionApplicationService.py:453-534 | said of what was live before the save: a rebind succeeds if and only if the execution could go on and had an allowance, the plan is acceptable and has the same steps with the same capabilities, a target-bound or revalidating plan and its run are the very same, and so is a mission with its disclosure, every pending step has its operation, and the result a cut-off step is completed from fits its record |
| RebindLaws.ReboundToItself | src/cognition/ResearchPlanExecutionApplicationService.py:453-513 | a target-bound, revalidating or mission execution is rebound only to exactly its own plan content and run |
| RebindLaws.ReboundCarries | src/cognition/ResearchPlanExecutionApplicationService.py:535-585 | a rebound execution has the plan and run it was given; a mission keeps its disclosure, digest and request identity, and nothing else carries any |
| RebindLaws.CapturedBeside | src/cognition/ResearchPlanExecutionApplicationService.py:1727-1767 | what a save writes of question, run, allowance, digests and request identity, and a restart leaves as it was |
| RebindLaws.StepKeepsFiled | src/cognition/ResearchPlanExecutionApplicationService.py:386-427 | every atomic step leaves a mission filed under the digest of its own plan, and nothing else under any |
| Snapshots.ReconcilingCompletesAtMostOneStep | src/cognition/ResearchPlanExecutionApplicationService.py:587-626 | reconciling changes nothing, or completes one cut-off step from its own record |
| Snapshots.ExactReturnIffNothingOpenOrRuled | src/cognition/ResearchPlanExecutionApplicationService.py:516-534 | the state comes back exactly as it was if and only if nothing was open, ruled or recovered and nothing was provable from the record |
| Snapshots.RulingLostByRebind | src/research/ResearchPlanStepState.py:26-32 | a concrete ruled step that comes back without its ruling |
| SequentialAdvance.AttemptIsARun | src/cognition/ResearchPlanExecutionApplicationService.py:1393-1528 | an undisturbed attempt is exactly this run of atomic steps |
| SequentialAdvance.AdvanceChargesWhatItDispatches | src/cognition/ResearchPlanExecutionApplicationService.py:1252-1456 | an advance dispatches exactly the next pending step once and charges exactly its cost, or dispatches nothing and leaves the allowance as it was |
| SequentialAdvance.AdvanceCompletesOnlySuccess | src/cognition/ResearchPlanExecutionApplicationService.py:1484-1528 | a step is completed after an advance if and only if it was before, or was dispatched in it and succeeded |
| AdvanceLaws.DispatchesIff | src/cognition/ResearchPlanExecutionApplicationService.py:1252-1456 | an advance dispatches a step, once, if and only if every gate is open, the step is the first pending one of a running execution in which no other is under way, its operation is registered, the mission's policy lets it proceed, its cost fits what is left or needs no approval, and the checkpoint lands |
| AdvanceLaws.AttemptSettles | src/cognition/ResearchPlanExecutionApplicationService.py:1463-1528 | after a dispatched attempt whose result can be recorded the execution is failed if the operation raised or performed and failed, blocked if it performed nothing, completed if it succeeded and every other step was, and running otherwise; its step says the same and no other changes |
| AdvanceLaws.OnlyRunningAdvances | src/cognition/ResearchPlanExecutionApplicationService.py:1252-1299 | an execution that does not run, a failed one among them, is left exactly as it is: nothing is dispatched and nothing charged |
| AdvanceLaws.ClosedGateChangesNothing | src/cognition/ResearchPlanExecutionApplicationService.py:1252-1303 | a gate that refuses, or no pending step, leaves the execution exactly as it is |
| AdvanceLaws.NotAttempted | src/cognition/ResearchPlanExecutionApplicationService.py:1782-1899 | why a step is not attempted decides what it leaves: blocked, untouched, noted as refused for its cost, or paused with the plan and run to ask for; what cannot be noted changes nothing |
| AdvanceLaws.AttemptAnswers | src/cognition/ResearchPlanExecutionApplicationService.py:1402-1528 | a checkpoint that does not land turns the attempt down and changes nothing; a recorded result is reported, and one that cannot be recorded raises |
| SequentialAdvance.AdvanceMovesOnlyTheNextStep | src/cognition/ResearchPlanExecutionApplicationService.py:1300-1440 | an advance changes no step but the next pending one and makes none pending |
| SequentialAdvance.SettingAsideMeans | src/cognition/ResearchPlanExecutionApplicationService.py:1782-1899 | a step that cannot be performed blocks the whole execution; one refused for its cost or lacking authority stays the next pending step of a running execution |
| SequentialAdvance.StepLeftRunningIff | src/cognition/ResearchPlanExecutionApplicationService.py:1440-1528 | from an execution with no step running, an advance leaves one running if and only if its operation was dispatched and the result escaped, has more than 500 characters of text, or performed something under no name |
| SequentialDecisions.StartingIsSound | src/cognition/ResearchPlanExecutionApplicationService.py:386-427 | a start, made durable or taken back, keeps every promise of the protocol |
| Continuations.OneFurther | src/cognition/ResearchPlanExecutionApplicationService.py:1130-1158 | one more advance of a continuation attempts exactly the step that left pending, in plan order |
| PlanExecutionService.Service.constructor | src/cognition/ResearchPlanExecutionApplicationService.py:1649-1669 | a new process, whatever the last one was in the middle of, holds nothing live and exactly the saved records, cut off where they were running, and every execution is as well backed by its approval as it was |
| PlanExecutionService.Service.CommitOutcome | src/cognition/ResearchPlanExecutionApplicationService.py:1587-1609 | the successor replaces the state if and only if the expected one still stands |
| PlanExecutionService.Service.Persist | src/cognition/ResearchPlanExecutionApplicationService.py:1691-1710 | the whole document is in the store, or the store is as it was |
| PlanExecutionService.Service.ProcessStart | src/cognition/ResearchPlanExecutionApplicationService.py:222-322 | an authored start goes through if and only if an approval for exactly this plan and run is recorded and permits it, nothing turns the start away and its consumption lands, or, where none is required, the plan has no target and nothing turns it away; it spends exactly that approval and takes its budget as the allowance, or has none |
| PlanExecutionService.Service.StartForPlan | src/cognition/ResearchPlanExecutionApplicationService.py:324-427 | an approval is spent if and only if the identity is free, a mission can be resolved, there is room, the request is usable, the named approval is recorded, is for exactly this plan, run, capabilities and restrictions, unspent and unexpired, and the write that spends it lands; the execution starts if and only if in addition it is no mission or its first checkpoint lands; it is then backed by exactly that approval, and a refused start leaves no entry |
| PlanExecutionService.Service.RebindRestored | src/cognition/ResearchPlanExecutionApplicationService.py:429-585 | a rebind succeeds exactly when the checks of `RebindLaws.RebindLaw` pass, and yields exactly the recorded execution; a refused one changes nothing |
| PlanExecutionService.Service.Reconcile | src/cognition/ResearchPlanExecutionApplicationService.py:587-626 | the loop over the recorded steps computes the reconciled state |
| PlanExecutionService.Service.ProcessAdvance | src/cognition/ResearchPlanExecutionApplicationService.py:1252-1585 | one call moves its execution by exactly one advance, of which `AdvanceLaws` says when it dispatches and what it leaves, and every other execution by the saves of that advance |
| PlanExecutionService.Service.ProcessContinue | src/cognition/ResearchPlanExecutionApplicationService.py:1100-1177 | ends in the state of some number of advances within the bound, none from a halting state; attempted are exactly the steps that left pending, in plan order; the reason is true of the final state; report and number of advances are exactly those of the pass from the state it found |
| PlanExecutionService.Service.ProcessCancel | src/cognition/ResearchPlanExecutionApplicationService.py:930-956 | an open execution is cancelled, whether or not the save lands, its finished steps keeping their record; anything else is untouched |
| PlanExecutionService.Service.ProcessResolve | src/cognition/ResearchPlanExecutionApplicationService.py:961-1024 | a ruling is accepted exactly on an interrupted step that may be ruled on; success means what it makes of step and plan is in memory and in the store; refusal means both are as before |
| PlanExecutionService.Service.ProcessRecover | src/cognition/ResearchPlanExecutionApplicationService.py:1029-1095 | a recovery is accepted exactly on a step blocked as performed with an unknown result; abandoning it lets the plan run on, an account leaves it blocked, in memory and in the store; refusal means both are as before |
| PlanExecutionService.Service.SpendIsApproved | src/cognition/ResearchPlanExecutionApplicationService.py:375-397 | after any requests, everything dispatched for an execution is within the budget of the one approval spent on it |
| PlanExecutionService.Service.AllowanceIsApproved | src/cognition/ResearchPlanExecutionApplicationService.py:297-310 | every live or stored execution that carries an allowance is named by exactly one durably spent approval, which granted that budget |
| PlanExecutionService.Service.StaysBacked | src/cognition/ResearchPlanAuthorizationApplicationService.py:458-501 | advancing, continuing, cancelling, ruling and rebinding leave every execution as approved as it was |
| PlanExecutionService.Service.AllowanceStaysApproved | src/cognition/ResearchPlanExecutionApplicationService.py:370-402 | what an execution's allowance has spent fits the budget of the one approval spent on it |
| PlanExecutionService.Service.HistoryIsKept | src/cognition/ResearchPlanExecutionApplicationService.py:1769-1780 | live and restored identities stay apart, and the next save keeps every saved execution |
| PlanExecutionService.Service.StepsAreHonest | src/cognition/ResearchPlanExecutionApplicationService.py:1290-1299 | after any requests, completed steps were seen to succeed and pending ones have nothing to answer for |
| Approvals.ApprovalsAreLinear | src/cognition/ResearchPlanAuthorizationApplicationService.py:458-501 | over every run of approvals, starts, failed saves and restarts, a permitting answer names a durably spent approval, none permits twice, and what is spent stays spent |
| Approvals.ConsumingNamesOnlyTheAsker | src/cognition/ResearchPlanAuthorizationApplicationService.py:476-501 | spending an approval writes only that approval, naming the asking execution |
| Approvals.JudgeLaw | src/research/ResearchPlanAuthorizationVerifier.py:39-75 | a request is valid if and only if the approval it names is recorded and permits it; every other answer is given exactly when it names the first thing that is wrong, in the order of the code |
| OverlappingStarts.OverlappingConsumptionPermitsTwice | src/cognition/ResearchPlanAuthorizationApplicationService.py:474-501 | over every run of approvals, checks, marks, captures, writes that land or fail in any order, and restarts: of two executions permitted on one approval the second to mark had checked before the first marked or after that mark was overwritten; and the store names every permitted execution whose mark nothing was under way across |
| OverlappingStarts.NamedIffLastLandedNamed | src/cognition/ResearchPlanAuthorizationApplicationService.py:624-632 | over every such run, disturbed or not: the store names a start if and only if the last document to land was captured while memory named it |
| OverlappingStarts.MemoryNamesUntil | src/cognition/ResearchPlanAuthorizationApplicationService.py:488-499 | memory names a start from its mark until another start of that approval marks or is rolled back, or the process restarts |
| OverlappingStarts.BothPendingMayBePermitted | src/cognition/ResearchPlanAuthorizationApplicationService.py:474-501 | any two starts that have passed their check on one approval can still both be permitted |
| OverlappingStarts.FailedStartForgetsAPermit | src/cognition/ResearchPlanAuthorizationApplicationService.py:490-499 | wherever two starts of one approval are past their check: one can be permitted between the mark of the other and its rollback, and any request valid before is then permitted too, though it checked after the first one marked |
| OverlappingStarts.LateRecordingErasesASpend | src/cognition/ResearchPlanAuthorizationApplicationService.py:624-632 | wherever a start is past its check: it can be permitted and yet the store, and memory after a restart, say what memory said before its mark |
| JointStarts.NoExecutionOnAnUnspentApproval | src/cognition/ResearchPlanExecutionApplicationService.py:370-427 | over every run of both stores, with overlapping, late and failing writes of either and crashes anywhere: whatever budget an execution holds, live, stored, restored, being saved or read by an attempt, exactly one start has its identity, it was permitted on an approval of that budget, and exactly one approval of that budget is durably spent on it if and only if the last approvals to land were captured while memory said so, which is so when nothing was under way across its mark |
| JointStarts.RegisterLaw | src/cognition/ResearchPlanExecutionApplicationService.py:386-427 | exactly a permitted start can be registered; its execution is then live with the plan it was asked for and the run, disclosure and budget it was approved with, nothing spent |
| JointStarts.CrashLeavesASpentApproval | src/cognition/ResearchPlanExecutionApplicationService.py:370-402 | a crash between a landed consumption and the first save leaves the approval spent on an execution that exists nowhere |
| JointStarts.SpentWithNoExecutionAnywhere | src/cognition/ResearchPlanExecutionApplicationService.py:370-402 | from nothing, for any plan and approval of it, six steps lead to a spent approval and no execution at all |
| Approvals.SufficientAffordsACleanPass | src/cognition/ResearchPlanAuthorizationApplicationService.py:266-278 | a sufficient budget affords each authored step in turn |
| Approvals.InsufficientFailsACleanPass | src/cognition/ResearchPlanAuthorizationApplicationService.py:266-278 | a budget that is not sufficient cannot pay for one attempt at every step |
| Allowances.CostTable | src/research/ResearchCapabilityCost.py:18-42 | the source and semantic operations cost one network call each, only the semantic ones one model call, and nothing else costs any |
| AuthorizationService.Service.Preview | src/cognition/ResearchPlanAuthorizationApplicationService.py:140-245 | previews exactly the approval that could be confirmed, writing nothing |
| AuthorizationService.Service.Confirm | src/cognition/ResearchPlanAuthorizationApplicationService.py:342-448 | records exactly the previewed approval with the budget now chosen, or refuses and records nothing, each answer exactly when its own condition holds; a comparison plan whose budget or disclosure changed loses its preview |
| AuthorizationService.Service.RecordForPlan | src/cognition/ResearchPlanAuthorizationApplicationService.py:280-340 | an approval is returned if and only if it is in the store |
| AuthorizationService.Service.ConsumeForExecution | src/cognition/ResearchPlanAuthorizationApplicationService.py:458-501 | the answer is permitting if and only if the recorded approval permits the request and the write lands, and then the store holds it as spent on that execution; otherwise nothing changed |
| AuthorizationService.Service.AuthorizationForExecution | src/cognition/ResearchPlanAuthorizationApplicationService.py:247-264 | finds an approval spent on exactly that execution if there is one |
| Autonomy.OneRoundMore | src/cognition/ResearchAutonomyApplicationService.py:111-144 | one more advance, refused or not, leaves the run's ledger an upper bound of the execution's and its count of completions exact |
| Autonomy.OneStepMoved | src/cognition/ResearchAutonomyApplicationService.py:142-144 | completing one step raises the number of completed steps by one |
| Autonomy.StopLaw | src/cognition/ResearchAutonomyApplicationService.py:146-183 | each stop reason is given exactly when it is the first that holds: cancelled, a failed, blocked or interrupted step, a closed execution, nothing pending, delivered, no steps, no time, no network, no model calls left |
| Autonomy.RunIgnoresTheStore | src/cognition/ResearchAutonomyApplicationService.py:70-144 | what a run comes to does not depend on what the store holds of the execution |
| AutonomyService.Runner.CostIsCharged | src/cognition/ResearchAutonomyApplicationService.py:185-198 | the cost the run counts is the cost the execution charges |
| AutonomyService.Runner.ProcessRun | src/cognition/ResearchAutonomyApplicationService.py:70-144 | a run ends; report, number of advances and ledger are those of the run from the state it found, and every execution is as after those advances; its counters stay within its budget and bound the growth of the allowance, also when an advance raises, which is exactly when the run raises; performed is the growth of completed steps; the stop reason is true |
| Scheduling.ClaimsAreExclusive | src/cognition/BackgroundResearchSchedulerApplicationService.py:260-294 | no two workers hold one task, and what a worker holds is still queued as claimed, or cancelled |
| Scheduling.CapacityHolds | src/cognition/BackgroundResearchSchedulerApplicationService.py:157-174 | open tasks never exceed the capacity, in memory or in the store |
| Scheduling.NoTaskIsLostOrReopened | src/cognition/BackgroundResearchSchedulerApplicationService.py:315-368 | within a process tasks are never removed and a closed task never changes again |
| Scheduling.TaskAsksWithinItsBudgets | src/cognition/BackgroundResearchSchedulerApplicationService.py:296-349 | a task is claimed at most once more than its retries allow, and its runs together ask for at most one of its budgets per claim |
| Scheduling.QueueDrains | src/cognition/BackgroundResearchSchedulerApplicationService.py:220-239 | with nothing created or resumed, claims are bounded by the runs left, under any interleaving, and using them all empties the queue |
| Scheduling.ClaimLaw | src/cognition/BackgroundResearchSchedulerApplicationService.py:260-294 | a free worker claims a pending task if and only if none is due before it, or it is the exact one asked for; it then runs, in the queue and in the worker's hands |
| Scheduling.FinishLaw | src/cognition/BackgroundResearchSchedulerApplicationService.py:315-368 | a result is committed only while the task is still exactly as claimed; either way the worker lets go |
| Tasks.LeftMovesWithOne | src/research/BackgroundResearchTask.py:88-138 | replacing a task moves the total of runs left by exactly what that task moves |
| Tasks.BeforeIsAnOrder | src/cognition/BackgroundResearchSchedulerApplicationService.py:384 | creation time and then identifier order tasks totally |
| Tasks.OldestCameFirst | src/cognition/BackgroundResearchSchedulerApplicationService.py:370-384 | the task taken was created first of all pending ones, and among those of one moment has the identifier that is smaller where they first differ |
| Tasks.RunEndsTask | src/research/BackgroundTaskOutcome.py:39-59 | stop by stop: a task is completed if and only if its run stopped because the execution was closed, had nothing pending or had delivered, cancelled if and only if the run was, pending again if and only if the run's budget ran out and a retry is left, and failed otherwise; and which outcome is recorded for each stop |
| Tasks.RulingsOnTasks | src/research/BackgroundResearchTask.py:92-176 | only a pending task is begun or paused, only a paused one resumed, any that is not closed cancelled, and nothing else of it changes |
| SchedulerService.Scheduler.NextRunnable | src/cognition/BackgroundResearchSchedulerApplicationService.py:370-384 | finds the oldest pending task, or there is none |
| SchedulerService.Scheduler.ClaimNextRunnable | src/cognition/BackgroundResearchSchedulerApplicationService.py:260-276 | claims exactly the oldest runnable task |
| SchedulerService.Scheduler.Run | src/cognition/BackgroundResearchSchedulerApplicationService.py:296-349 | commits onto exactly the claim it made what its own run came to, the run of the claimed execution as it stood, and leaves the task as claimed exactly when that run raised; the execution spent no more than the ledger the queue counts for the task, and stays backed by its approval |
| SchedulerService.Scheduler.ProcessCreate | src/cognition/BackgroundResearchSchedulerApplicationService.py:146-205 | queues a task exactly when its execution can move and there is room |
| SchedulerService.Scheduler.Transition | src/cognition/BackgroundResearchSchedulerApplicationService.py:402-426 | pauses, resumes or cancels exactly when the task allows it |
| SchedulerService.Scheduler.ProcessWorkerCycle | src/cognition/BackgroundResearchSchedulerApplicationService.py:220-239 | task for task, the cycle completes what the oldest pending task's own run makes of it, until it is full or cancelled, a run raises or nothing is pending; all retries of an older task come before any younger, one run left is used up per claim, nothing is reopened, and a claimed task stays running exactly when its run raised; no execution spends more than its runs in the cycle asked, each task has asked for at most one of its budgets per claim, and what each execution has spent in all stays within its one approval |
| MissionRequests.StartingAdds | src/cognition/ResearchGoalStartApplicationService.py:677-692 | a started goal carries its trimmed identity when it is a durable mission and none otherwise, so identities stay apart if and only if no execution carries that one already |
| MissionRequests.RestartStaysUnique | src/cognition/ResearchGoalStartApplicationService.py:76-79 | after a restart exactly the identities carried before are carried, and they are apart if and only if they were |
| MissionRequests.TrimmedIsTheMiddle | src/cognition/ResearchPlanExecutionApplicationService.py:1910-1920 | a stored identity is the middle of the one sent, neither beginning nor ending blank, with only blanks cut off |
| MissionRequests.AcceptableLaw | src/cognition/ResearchGoalStartApplicationService.py:624-635 | a request identity is accepted exactly when it is not all blank, has at most 200 characters and was not sent before, up to 50 of them |
| GoalIntake.UniqueIffNoneRepeats | src/cognition/ResearchGoalStartApplicationService.py:583-704 | over every run of accepted and refused goals, starts that are no goals, other requests and restarts: the identities carried are apart at the end if and only if they were at the start and no mission was accepted and started whose trimmed identity one carried already |
| GoalIntake.NewIffTrimmedFormIsUnknown | src/cognition/ResearchGoalStartApplicationService.py:624-635 | after any such run a request is new to every goal accepted in this process and every mission if and only if its trimmed form is not one of the trimmed forms known |
| GoalIntake.TrimmedRequestsStayApart | src/cognition/ResearchGoalStartApplicationService.py:624-635 | as long as every request is sent trimmed none starts two missions, across restarts too |
| GoalIntake.TwoFormsStartTwoMissions | src/cognition/ResearchGoalStartApplicationService.py:677-692 | any two acceptable forms of one identity, whichever comes first, start two missions that carry it |
| GoalIntake.PaddedRequestIsADuplicate | src/cognition/ResearchPlanExecutionApplicationService.py:1910-1920 | one identity accepted twice, once with a blank before it, in either order |
| GoalService.GoalStarter.constructor | src/cognition/ResearchGoalStartApplicationService.py:55-79 | a new process knows exactly the identities restored, which are all that executions carry |
| GoalService.GoalStarter.StartGoal | src/cognition/ResearchGoalStartApplicationService.py:583-704 | a goal runs if and only if its services are there, its identity is usable and not known, its budget affords one clean pass, nothing turns its start away, and the saves that record and spend its approval, and a mission's first checkpoint, land; the report is that of the run it then makes within exactly that budget; identities stay apart if and only if it did not start a mission under a trimmed identity carried already |
| GoalService.GoalStarter.Launch | src/cognition/ResearchGoalStartApplicationService.py:677-692 | an execution starts, and its identity counts as used, exactly when the approval permits it and the saves land; a started mission already holds its identity durably, and identities stay apart if and only if no other execution carries its trimmed form |
| GoalService.GoalStarter.ResumeRestored | src/cognition/ResearchGoalStartApplicationService.py:232-310 | recovery runs at most once per process and resumes exactly the missions that may be resumed, each rebuilt with its recorded digest, once and within what its allowance has left; each is reported with the run it makes on its own, all but those whose run raised a `ResearchError`; the pass raises if and only if a run of one raises what nobody foresaw |
| GoalService.MissionResumesIff | src/cognition/ResearchGoalStartApplicationService.py:529-581 | said of what was live before the restart: a mission may be resumed if and only if nobody cancelled, its destination is the recorded one, it could go on and had a run and an allowance, the plan rebuilt is the very same, its policy is its disclosure and a resolver takes it, and every pending step can run |
| GoalService.RemainingLaw | src/cognition/ResearchGoalStartApplicationService.py:280-285 | a run keeps to what an allowance has left if and only if it and what was spent together keep to the approved budget |
| CuriosityService.Curiosity.StartAuthorizedProposal | src/cognition/CuriosityApplicationService.py:267-324 | a proposal starts if and only if the plan derived again is the one shown, the approval permits it and the saves land; what starts is the plan the spent approval names, with its budget, and no step has begun |
| CuriosityService.Curiosity.ResumeExecution | src/cognition/CuriosityApplicationService.py:326-393 | an execution is resumed if and only if it was restored, an approval durably spent on it names the digest of the rebuilt plan, and the rebind accepts it; no approval is touched |
| Kali.FoundIffAuthorized | src/research/ResearchKaliOperationAuthorizationConsumption.py:36-91 | the gate finds an approval exactly when a stored one authorizes this preview now |
| Kali.GatesInOrder | src/cognition/KaliToolGateway.py:68-119 | a request fails at the first gate that does not open: opt-in, identity and digest; scope, policy and support; a stored, matching, unexpired approval; readiness; the consumption; and at none only when all do |
| Kali.RunLaw | src/cognition/KaliToolGateway.py:68-138 | a run dispatches exactly past every gate, and then its approval and no other has left the store; past any other gate nothing has happened |
| Kali.ExcludingTakesOneOut | src/research/ResearchKaliOperationAuthorizationConsumption.py:77-91 | consuming takes one approval out of the list and leaves the others in their order |
| Kali.ApprovalsAreConserved | src/cognition/KaliToolGateway.py:68-119 | over every sequence of approvals and runs with failing saves, stored approvals are the issued ones less the consumed ones, and each dispatch has its own consumption |
| Kali.SpentStaysSpent | src/cognition/KaliOperationAuthorizationApplicationService.py:65-90 | whatever is approved or run later, a spent approval does not return |
| Kali.OverlappingApprovalRevives | src/cognition/KaliOperationAuthorizationApplicationService.py:74-90 | for every store, loaded document and run in between: the approver's save stores a consumed approval again if and only if something it loaded was consumed since; approvals stay conserved if and only if the store holds what it loaded |
| Kali.RevivedApprovalRunsAgain | src/cognition/KaliOperationAuthorizationApplicationService.py:74-90 | a request that could run at the load can run again after the save, however often it ran in between |
| KaliOverlaps.DispatchedTwiceIffOverlapped | src/cognition/KaliToolGateway.py:68-119 | over every run of loads, saves, failed saves and approvals: of two runs that dispatched one approval, the second loaded before the first saved, or a save that had loaded before the first saved landed before the second loaded |
| KaliOverlaps.ApartIsOnce | src/cognition/KaliToolGateway.py:68-119 | as long as no two saves overlap, no approval is dispatched twice |
| KaliOverlaps.BothLoadedMayDispatch | src/cognition/KaliToolGateway.py:91-107 | any two runs that have both loaded one approval can both dispatch it |
| KaliOverlaps.AnotherRunBringsItBack | src/cognition/KaliToolGateway.py:104-107 | a run of another approval that had loaded a consumed one stores it again |
| Kali.Gateway.Run | src/cognition/KaliToolGateway.py:68-138 | the outcome names the first gate that fails; a dispatch follows its durable consumption |
| Kali.Approver.Authorize | src/cognition/KaliOperationAuthorizationApplicationService.py:65-107 | adds exactly the new approval to the durable ones, however stale the cache was, or changes nothing |
| Relevance.RankedFacts | src/cognition/KnowledgeRelevanceSearch.py:118-139 | ranking is a permutation, most matches first, ties in their original order |
| Relevance.RankedByTermsFacts | src/cognition/KnowledgeRelevanceSearch.py:118-139 | a chunk is ranked exactly when it contains a significant term, and one containing more never comes after one containing fewer |
| Relevance.SignificantAfter | src/cognition/KnowledgeRelevanceSearch.py:142-151 | exactly the distinct significant terms |
| Relevance.SelectionCovers | src/cognition/KnowledgeRelevanceSearch.py:63-115 | a non-empty selection covers every term, each excerpt adds one, and it is no larger than asked for nor than the number of terms |
| Relevance.FullCoverIsEnough | src/cognition/KnowledgeRelevanceSearch.py:100-115 | if some chunk covers everything the selection is just the first such chunk |
| Relevance.SelectionIsTheAdders | src/cognition/KnowledgeRelevanceSearch.py:100-115 | over the ranking, the selection is every chunk that matches a term nothing before it matches, in rank order, when each term is matched by some chunk and there is room for all of those; otherwise it is empty |
| Relevance.GroundedIffEveryTermStands | src/cognition/KnowledgeRelevanceSearch.py:63-115 | with room for as many excerpts as there are terms, something is returned if and only if each term stands alone in the excerpt of some chunk |
| Relevance.EachExcerptGrounds | src/cognition/KnowledgeRelevanceSearch.py:104-112 | each excerpt returned holds, standing alone, some term that none before it holds so |
| Relevance.RankingIsOne | src/cognition/KnowledgeRelevanceSearch.py:100-102 | there is one ranking: most matches first, ties as they came, none that matches nothing |
| Relevance.WholeTermLaw | src/cognition/KnowledgeRelevanceSearch.py:86-99 | a term stands alone where no word character comes right before or right after it |
| Relevance.ResidualTerms | src/cognition/KnowledgeRelevanceSearch.py:82-85 | the terms asked about, each once: no stop word, no filler, and technical or of at least three characters |
| Relevance.Select | src/cognition/KnowledgeRelevanceSearch.py:104-112 | the loop computes the greedy pass |
| Relevance.RankChunksForConversation | src/cognition/KnowledgeRelevanceSearch.py:63-115 | the whole computation is the selection over the residual terms |
| AssetInventory.UnknownAreTheNewOnes | src/cognition/ResearchAssetInventoryApplicationService.py:290-339 | the assets a preview marks unknown are exactly the named ones not yet observed |
| AssetInventory.PreviewShows | src/cognition/ResearchAssetInventoryApplicationService.py:290-339 | of each asset and each resolution a preview says exactly whether the document holds it |
| AssetInventory.OnlyItsProgramGrows | src/cognition/ResearchAssetInventoryApplicationService.py:208-269 | an ingestion grows only its program, by exactly the unknown assets, and leaves none unknown |
| AssetInventory.RelatingKeepsValid | src/cognition/ResearchAssetInventoryApplicationService.py:143-206 | a recorded relation joins assets observed in its own program |
| AssetInventory.Inventory.RecordObservation | src/cognition/ResearchAssetInventoryApplicationService.py:101-141 | appends one observation, or changes nothing |
| AssetInventory.Inventory.RecordRelation | src/cognition/ResearchAssetInventoryApplicationService.py:143-206 | appends one relation between observed assets, or changes nothing |
| AssetInventory.Inventory.RecordDnsIngestion | src/cognition/ResearchAssetInventoryApplicationService.py:208-269 | an ingestion succeeds if and only if every save lands and the document would take everything the run yields, and then exactly that is appended; otherwise a beginning of it is; derived assets grow by exactly the distinct ones the preview marked unknown |
| HttpEvidence.ReplayFindsTheRecord | src/cognition/ResearchHttpEvidenceApplicationService.py:121-167 | whatever was ingested in between, the same run finds its first record and writes nothing |
| HttpEvidence.IngestLaw | src/cognition/ResearchHttpEvidenceApplicationService.py:121-167 | a readable run in scope is ingested when its event is in the log, and then nothing is written, or when there is room and the save lands, and then exactly its own record is appended |
| HttpEvidence.IngestAllExtends | src/cognition/ResearchHttpEvidenceApplicationService.py:121-167 | the log is append-only and never holds an event twice |
| HttpEvidence.EvidenceService.Preview | src/cognition/ResearchHttpEvidenceApplicationService.py:95-119 | says already recorded exactly when the event is in the log |
| HttpEvidence.EvidenceService.RecordIngestion | src/cognition/ResearchHttpEvidenceApplicationService.py:121-167 | agrees with the preview and appends at most the new event |

## Left out

- Wall-clock bounds: elapsed time is charged after an attempt and can overshoot by one attempt (`src/cognition/ResearchPlanExecutionApplicationService.py:1671-1681`), so seconds are tracked but not bounded; they are reals, and rounding is not modelled.
- A service without a store, which answers every save with yes (`src/cognition/ResearchPlanExecutionApplicationService.py:1702-1703`).
- PlanExecutionService.Service.ProcessStart: the plan arrives built; drafting it from step drafts, its restriction conflicts and its scope check are one input.
- PlanExecutionService.Service.ProcessAdvance: the mission resolver and its follow-up policy, the delivery check and the target scope are inputs; what they compute is not modelled.
- PlanExecutionService.Service.RebindRestored: runs as one act; in the code its writes are partly outside the lock.
- PlanExecutionService.Service.Reconcile: goes through the recorded steps, the code through the steps of the plan; since at most one step can be completed the order does not matter.
- AuthorizationService.Service.Confirm: the rules for semantic comparison plans are one input.
- SchedulerService.Scheduler.ProcessWorkerCycle: one worker; several workers are in `Scheduling`. Saves of the queue may fail silently there too, so tasks may be lost with the process.
- SchedulerService.Scheduler.ClaimNextRunnable: the deferred eligibility rules of `_deferred_runnable` are not modelled; an exact claim is a step of `Scheduling`.
- GoalService.GoalStarter.StartGoal: building the mission plan, the research run and the teaching report are left out; blanks are space, tab and line ends only.
- Mission stop reasons, recovery refusals and recovery reports: bookkeeping for display.
- Kali.Gateway.Run: command plans, transports and the runtime probe are inputs.
- Relevance.RankChunksForConversation: tokenizing, case folding, the excerpt bound and the closed word lists are inputs.
- Relevance.Selection: the pass takes the ranking as it is; a smaller cover it misses is not looked for, by the code or here.
- AssetInventory and HttpEvidence: canonical forms, notes, provenance and recording times of assets, and live scope resolution.
- Who ruled and when, beyond a moment that a durable record does not keep.
- Events, message text, response composers, previews of sources and semantic proposals.
- `CognitiveEngine.process`, `BrainRouter`, phrase detectors, Curiosity gap detection and question storage, and read-only reports: long chains of string tests, or code with easy properties.
- JSON codecs, hashing, identifier factories and providers.
