# Verification of the durable test-execution engine

This project models the parts of the repository that decide what happens next and must not lose
track of it: the crash-safe dispatcher, the mission engine, the defect lifecycle and the small
algorithms underneath. `dafny verify dfyconfig.toml` checks all of it.

## How it is built

Each state machine comes in three layers. The *plan* functions say which durable writes an
operation makes, in order, and how it ends. Because a process that dies during an operation
leaves a prefix of its writes, runs are sequences of operations each of which may stop after any
number of writes. The *invariant* and *theorem* lemmas speak about all such runs. A *class* whose
methods work step by step, with the source's loops, keeps a journal of its transactions (for the
dispatcher, the event stream itself); every operation is proved to append exactly the writes of its
plan to it, in order, so what is proved of plans, their prefixes and whole runs holds of the class.

| files | what they model |
|---|---|
| `EventStream`, `EventStreamInvariants` | the event stream: tasks, sessions, attempts, bindings and human gates, the guards of their command handlers, and what every accepted fact keeps |
| `Dispatcher`, `DispatcherInvariants`, `DispatcherService` | dispatch, provisioning, rotation, completion and outcome reports |
| `Repair`, `CrashConvergence`, `StuckRun` | what the next dispatch repairs after a crash, exactly when it does not, and runs in which it does not |
| `RunnableSlot`, `TaskOutcomes`, `AttemptNames` | the single runnable slot, unique outcomes, attempt ids |
| `Mission`, `MissionInvariants`, `MissionEngine` | plans, cursor, execute and evaluate, preflight, gates, human tasks, capability audit |
| `MissionSoundness`, `MissionPlans`, `MissionProgress`, `MissionHuman`, `MissionAdmission`, `MissionRuns` | completion, frozen plans, progress, suspend and resume, preflight and execution |
| `Defects`, `DefectInvariants`, `DefectTheorems`, `DefectCoverage`, `DefectRetest`, `DefectRuns`, `DefectTracker` | observations, correlation, confirmation, fixes, coverage by obligations, retests, closure |
| `Json`, `ContractMatch`, `ContractChains`, `JsonText`, `JsonRoundTrip`, `CanonicalJson` | JSON values, the contract matcher, canonical texts and command fingerprints |
| `PdfLiteral`, `PdfStandard`, `Knowledge`, `Ledger`, `Supervisor` | PDF string literals as decoded and as standardised, knowledge supersession, run accounting, the control-loop process |

## What does not hold as its documentation suggests

Each of these is a property the code or its documentation suggests and that fails on some inputs.
The model follows the code; the lemmas named give the exact condition and a run or an input.

* "A later call can deterministically repair the ACTIVE Task" (docstring of
  `_provision_active_task_session`). It cannot after a crash between opening a successor session
  and resuming the attempt: the retry creates another successor id, which the durable command
  refuses from then on. Nor can it after a refused binding, whose refusal is stored under the
  binding's fixed command id. `CrashConvergence.CrashThenDispatch` is exact and `StuckForever` shows
  it is final; `StuckRun.CrashInRotationSticks` and `RefusedBindingSticks` are runs from the start.
* A gate that was rejected, cancelled or has expired counts as completed for the dispatcher
  (`RunnableSlot.BlockingGateStillResumes`; run `StuckRun.RejectedGateGoesOn`).
* COMPLETED and ABORTED have no successors in the transition table, yet a preflight evaluation
  reopens a mission from both (`MissionSoundness.ClosedUnlessPreflight`; run
  `MissionRuns.ReopenedRun`).
* The table lets an approving H3 decision take a BLOCKED mission to EXECUTING past a failed or
  missing preflight. `MissionAdmission.AdmittedIffNoBypass` says exactly when executing implies a
  clean preflight of the current plan; `BypassRun` does it to a mission that has no plan at all.
* Replanning with default step ids always fails (`MissionPlans.DefaultIdsCollide`).
* A human task refused in VERIFYING stays open and can later send an executing mission to
  VERIFYING (`MissionHuman.OrphanMisdirects`; `MissionRuns.MisledRun` has a step judged that was
  never executed).
* A mission can wait for a human with no task open: over whole runs exactly when the completion of
  the last open task died half-way (`MissionHuman.AttendedIffNoStranding`; run
  `MissionRuns.StrandedRun`).
* Contract matching is not transitive through null or an empty object, because an outcome with a
  false `ok` fails only those; `ContractChains.ChainsIffCarries` says for which contracts it is.
* Results recorded for an earlier fix count for a later one, unless a retest is dispatched in
  between (`DefectRetest.OldResultsCount`, `RetestRenews`; run `DefectRuns.ClosedOnOldRun`).
* Deciding CONFIRM on a terminal defect, or recording a result on one, can make two defects of a
  signature open (`DefectTheorems.UniqueUnlessRevived`; runs `DefectRuns.TwoOpenRun` and
  `RevivedByResult`).
* A fix without deployment cannot be registered again with one: only a decision about the defect,
  or a concluding result where it has obligations of an earlier fix, leaves WAITING_DEPLOYMENT
  (`DefectTheorems.WaitingLeftIff`; run `DefectRuns.UndeployedRun`).
* A crash among the insertions of a fix's obligations leaves the missing layers out until another
  fix is registered (`DefectCoverage.PartialObligationsStay`), and the defect can be closed without
  them (run `DefectRuns.UncoveredRun`). An observation merged after the fix can bring a layer that
  no obligation covers either (`CoverageLostBy`).
* "PID reuse must never make the package kill or adopt an unrelated process" (docstring of
  `_heartbeat_owned`). It can, when the process exits and its id is used again after its last
  heartbeat; `Supervisor.VictimIsOwn` and `AdoptedIsOwn` are exact, `SignalGoesAstray` is a run.
* The decoder of PDF string literals departs from section 7.3.4.2 of ISO 32000-1 in three ways: an
  octal escape above `\377` raises instead of dropping its high-order bit; a backslash before an end
  of line drops only the backslash; an unescaped carriage return, with or without a line feed after
  it, is kept instead of being read as one line feed. `PdfStandard.StandardIffConforming` says that
  these are all, and `ReturnKept`, `MarkerKept`, `EscapedLineKept`, `EscapedMarkerKept` and
  `BigOctalRefused` give an input for each.

## Model

| member | source | states |
|---|---|---|
| `DispatcherInvariants.RunConsistent` | workspace-template/ai-test/runtime/aitest_runtime/autonomous_orchestration.py:923-1306 | after any mix of dispatches, rotations, reports, completions, gates and plan revisions, with a crash after any durable write: attempt chains, one binding per root, gates inside their lineage, one runnable task, rotations only for the next attempt |
| `EventStreamInvariants.FactKeepsConsistent` | workspace-template/ai-test/runtime/aitest_runtime/execution_resume/handlers.py:154-209 | every fact its handler accepts under the dispatcher's rule keeps all of that |
| `TaskOutcomes.OneChainPerTask` | workspace-template/ai-test/runtime/aitest_runtime/execution_resume/handlers.py:166-192 | a task's attempts have ordinals 1, 2, 3, ..., each resumed from the one before, one root; ids and sessions of all attempts differ |
| `AttemptNames.NamesInjective` | workspace-template/ai-test/runtime/aitest_runtime/autonomous_orchestration.py:873-873 | the text ids of attempts (first and resumed) are equal only for the same task and ordinal, whatever the task ids contain |
| `AttemptNames.AttemptTextsDistinct` | workspace-template/ai-test/runtime/aitest_runtime/autonomous_orchestration.py:1228-1228 | in every run two attempts on record never share a text id |
| `Repair.BindAccepted` | workspace-template/ai-test/runtime/aitest_runtime/r2_5/service.py:221-260 | the first binding of a lineage is accepted exactly when its session is open |
| `Repair.RotationReplaces` | workspace-template/ai-test/runtime/aitest_runtime/r2_5/service.py:541-620 | a replaceable session is replaced by the provider's new one in up to three writes |
| `Repair.LaunchConverges` | workspace-template/ai-test/runtime/aitest_runtime/autonomous_orchestration.py:999-1064 | a task without an attempt ends with its first attempt, an open session and one binding, whether or not an earlier launch left a session behind |
| `Repair.RepairConverges` | workspace-template/ai-test/runtime/aitest_runtime/autonomous_orchestration.py:946-997 | a task with an attempt is provisioned by a working provider if and only if its lineage is repairable, and keeps its root |
| `Repair.ProvisionConverges` | workspace-template/ai-test/runtime/aitest_runtime/autonomous_orchestration.py:923-1064 | both cases together |
| `CrashConvergence.DispatchConverges` | workspace-template/ai-test/runtime/aitest_runtime/autonomous_orchestration.py:1071-1120 | in every consistent state with an owner of the slot: a dispatch with a working provider provisions it if and only if it is repairable, activates nothing and keeps the root |
| `CrashConvergence.DispatchCrash` | workspace-template/ai-test/runtime/aitest_runtime/autonomous_orchestration.py:1071-1202 | whatever write a dispatch died after, the slot belongs to the task it worked on, which is repairable unless the last write opened a successor session or refused a binding |
| `CrashConvergence.CrashThenDispatch` | workspace-template/ai-test/runtime/aitest_runtime/autonomous_orchestration.py:931-937 | crash convergence: after a crash at any write the next dispatch with a working provider activates no task and provisions the same one, exactly when the last surviving write is not one of those two |
| `CrashConvergence.ActivatedOwnsSlot` | workspace-template/ai-test/runtime/aitest_runtime/autonomous_orchestration.py:1181-1200 | a freshly activated task owns the runnable slot |
| `CrashConvergence.StuckForever` | workspace-template/ai-test/runtime/aitest_runtime/r2_5/service.py:560-564 | a task that is not repairable stays so over any number of dispatches, crashed or not |
| `StuckRun.CrashInRotationSticks` | workspace-template/ai-test/runtime/aitest_runtime/r2_5/service.py:560-564 | a run from the start, for any names, in which a crash between opening the successor and resuming leaves a task no later dispatch provisions |
| `StuckRun.RefusedBindingSticks` | workspace-template/ai-test/runtime/aitest_runtime/r2_5/service.py:221-260 | a run from the start, for any names, in which a crash before the binding and an ended session leave a refused binding and a task no later dispatch provisions |
| `RunnableSlot.SingleRunnableSlot` | workspace-template/ai-test/runtime/aitest_runtime/autonomous_orchestration.py:1086-1115 | in every reachable state at most one ACTIVE task of the current revision has no exact gate history |
| `RunnableSlot.ActivationOnlyBehindGates` | workspace-template/ai-test/runtime/aitest_runtime/autonomous_orchestration.py:1085-1191 | whatever operation activates a task, every ACTIVE task waits for a human at that moment |
| `RunnableSlot.ResumeNeverPreempts` | workspace-template/ai-test/runtime/aitest_runtime/autonomous_orchestration.py:1108-1121 | while a task runs, every write of a dispatch concerns that task |
| `RunnableSlot.IdleMeansWaiting` | workspace-template/ai-test/runtime/aitest_runtime/autonomous_orchestration.py:1096-1117 | the slot is free exactly when every ACTIVE task waits for a human |
| `RunnableSlot.SelectedIsFirst` | workspace-template/ai-test/runtime/aitest_runtime/r2_4/readiness.py:340-356 | the serial policy takes the first READY task of the report, and none only if none is READY |
| `RunnableSlot.LaunchReuses` | workspace-template/ai-test/runtime/aitest_runtime/autonomous_orchestration.py:999-1004 | of the sessions opened for the task and still open, the newest is used again, and a new one is opened only if there is none |
| `RunnableSlot.BlockingGateStillResumes` | workspace-template/ai-test/runtime/aitest_runtime/r2_6/contracts.py:302-303 | a gate settled without permission makes its branch resume-ready, while no new gate of the task can be opened |
| `StuckRun.RejectedGateGoesOn` | workspace-template/ai-test/runtime/aitest_runtime/r2_6/contracts.py:302-303 | a run from the start, for any names, in which the dispatcher goes on with the branch of a rejected gate |
| `TaskOutcomes.RotatedAwayRejected` | workspace-template/ai-test/runtime/aitest_runtime/autonomous_orchestration.py:1284-1292 | a report naming a rotated-away attempt or its session is refused and writes nothing |
| `TaskOutcomes.AcceptedReportNamesLatest` | workspace-template/ai-test/runtime/aitest_runtime/autonomous_orchestration.py:1281-1295 | a report that records anything names the latest attempt and its session, and finishes the ACTIVE task as it says |
| `TaskOutcomes.OneAcceptedReport` | workspace-template/ai-test/runtime/aitest_runtime/autonomous_orchestration.py:1267-1306 | over a whole run a task accepts at most one report |
| `TaskOutcomes.OutcomeUnique` | workspace-template/ai-test/runtime/aitest_runtime/autonomous_orchestration.py:1359-1410 | in the journal of any run a task is finished at most once, by whatever means |
| `TaskOutcomes.CompletionCloses` | workspace-template/ai-test/runtime/aitest_runtime/autonomous_orchestration.py:1359-1435 | a completion gives the task its outcome and closes its latest live session; no other task or session changes |
| `DispatcherService.Service.BindLogicalAgent` | workspace-template/ai-test/runtime/aitest_runtime/r2_5/service.py:221-260 | appends exactly the writes of the binding plan, the refusal included |
| `DispatcherService.Service.RotateSession` | workspace-template/ai-test/runtime/aitest_runtime/autonomous_orchestration.py:1204-1265 | appends exactly the writes of the rotation plan and ends as it says |
| `DispatcherService.Service.Launch` | workspace-template/ai-test/runtime/aitest_runtime/autonomous_orchestration.py:999-1064 | appends exactly the writes of the launch plan |
| `DispatcherService.Service.Repair` | workspace-template/ai-test/runtime/aitest_runtime/autonomous_orchestration.py:946-997 | appends exactly the writes of the repair plan |
| `DispatcherService.Service.SlotOwner` | workspace-template/ai-test/runtime/aitest_runtime/autonomous_orchestration.py:1094-1117 | the loop that sorts ACTIVE tasks finds the owner of the slot that the priority rule names |
| `DispatcherService.Service.SelectReady` | workspace-template/ai-test/runtime/aitest_runtime/r2_4/readiness.py:340-356 | the loop selects the first READY task of the report |
| `DispatcherService.Service.DispatchNext` | workspace-template/ai-test/runtime/aitest_runtime/autonomous_orchestration.py:1071-1202 | appends exactly the writes of the dispatch plan and ends as it says |
| `DispatcherService.Service.CompleteTask` | workspace-template/ai-test/runtime/aitest_runtime/autonomous_orchestration.py:1359-1444 | appends the outcome and then the closing of the session |
| `DispatcherService.Service.ReportTaskOutcome` | workspace-template/ai-test/runtime/aitest_runtime/autonomous_orchestration.py:1267-1306 | appends the outcome and the following dispatch, or nothing |
| `MissionInvariants.CursorPrefix` | workspace-template/ai-test/runtime/aitest_runtime/quality.py:171-268 | under any interleaving, table and forced transitions and crashes between commits included: steps before the cursor are PASS, steps after it untouched, without a cursor all are PASS |
| `MissionInvariants.WriteKeepsConsistent` | workspace-template/ai-test/runtime/aitest_runtime/mission.py:129-164 | each kind of commit, made under its guard, keeps that |
| `MissionSoundness.CompletionSound` | workspace-template/ai-test/runtime/aitest_runtime/quality.py:221-280 | without hand-made transitions WAITING_H4 and COMPLETED imply no cursor and every step of the current plan PASS |
| `MissionSoundness.CompletedOnlyByFinalize` | workspace-template/ai-test/runtime/aitest_runtime/quality.py:271-280 | COMPLETED is entered only by finalizing a mission that waits for H4, with an approving decision |
| `MissionAdmission.ExecutesOnlyBy` | workspace-template/ai-test/runtime/aitest_runtime/quality.py:150-245 | a mission starts executing exactly by an approving H3 decision in a state the table lets out, by a step that passed with another to follow, or by the completion of the last task it was suspended for |
| `MissionAdmission.WaitsForH3OnlyBy` | workspace-template/ai-test/runtime/aitest_runtime/quality.py:86-147 | it comes to wait for H3 exactly by a stored preflight without a blocker |
| `MissionAdmission.AdmittedIffNoBypass` | workspace-template/ai-test/runtime/aitest_runtime/quality.py:139-157 | over a whole run, waiting for H3, executing, verifying and being suspended imply a clean preflight of the current plan exactly when no H3 decision approved a blocked mission without one |
| `MissionAdmission.BypassRun` | workspace-template/ai-test/runtime/aitest_runtime/quality.py:150-157 | whatever blocks the preflight of a new mission, the next approving decision puts it into EXECUTING |
| `MissionSoundness.ClosedUnlessPreflight` | workspace-template/ai-test/runtime/aitest_runtime/quality.py:139-147 | a completed or aborted mission stays closed exactly as long as no preflight evaluation is stored |
| `MissionRuns.ReopenedRun` | workspace-template/ai-test/runtime/aitest_runtime/quality.py:139-147 | a run of a new mission, for any names, to COMPLETED, which any later preflight reopens |
| `MissionPlans.AcceptedPlan` | workspace-template/ai-test/runtime/aitest_runtime/mission.py:129-164 | an accepted plan raises the version by one, keeps earlier rows, adds dense ordinals 1..n, falsy inputs and expected values as empty objects, none started, cursor on the first |
| `MissionPlans.PlansStayFrozen` | workspace-template/ai-test/runtime/aitest_runtime/mission.py:150-163 | no operation, crash or forced transition changes a step's place, capability, input or expected value |
| `MissionPlans.DefaultIdsCollide` | workspace-template/ai-test/runtime/aitest_runtime/mission.py:136-138 | once an accepted plan had no own step ids, a later one without any clashes with its first row and is refused, by a planner in a planning state for exactly that reason, and leaves nothing behind |
| `MissionPlans.AllowedInvocations` | workspace-template/ai-test/runtime/aitest_runtime/capability.py:44-62 | every allowed executor invocation is made while executing, on the cursor's step, with its frozen capability when it names one |
| `MissionPlans.ClaimedOnce` | workspace-template/ai-test/runtime/aitest_runtime/mission.py:209-226 | a claimed step cannot be claimed again, and claiming changes that row only |
| `MissionPlans.PassMeansMatched` | workspace-template/ai-test/runtime/aitest_runtime/quality.py:221-245 | unless an evaluator overrules it, every PASS means that the step's output satisfies its frozen contract, in every plan version |
| `MissionProgress.ReachesH4` | workspace-template/ai-test/runtime/aitest_runtime/quality.py:186-246 | when outputs match, n steps left take exactly 2n calls to WAITING_H4, every call lowering the measure by one |
| `MissionProgress.EveryCallCounts` | workspace-template/ai-test/runtime/aitest_runtime/quality.py:186-246 | after k calls exactly 2n - k remain and the walk is still on track |
| `MissionHuman.WaitingHasOpenTask` | workspace-template/ai-test/runtime/aitest_runtime/human.py:12-36 | without hand-made transitions and crashes WAITING_HUMAN implies an open task |
| `MissionHuman.AttendedIffNoStranding` | workspace-template/ai-test/runtime/aitest_runtime/human.py:12-91 | over a whole run with crashes anywhere, WAITING_HUMAN always implies an open task exactly when no completion of the last open task died between its first and its last commit |
| `MissionRuns.StrandedRun` | workspace-template/ai-test/runtime/aitest_runtime/human.py:77-91 | a run of a new mission, for any names, that ends waiting for nobody |
| `MissionHuman.CompletingResumes` | workspace-template/ai-test/runtime/aitest_runtime/human.py:71-91 | completing a task resumes the mission exactly when no other is open, into the state recorded with the task; the cursor stays |
| `MissionHuman.ResumesWhereSuspended` | workspace-template/ai-test/runtime/aitest_runtime/human.py:71-91 | when every creation returned normally, that is the state the mission was suspended from |
| `MissionHuman.OrphanMisdirects` | workspace-template/ai-test/runtime/aitest_runtime/human.py:26-35 | over any run, the resumed state differs from the suspended one exactly when the last task was created while the mission was VERIFYING |
| `MissionHuman.RejectedCreationLeavesTask` | workspace-template/ai-test/runtime/aitest_runtime/human.py:28-35 | a creation refused in VERIFYING leaves its open task behind |
| `MissionHuman.OrphanRun` | workspace-template/ai-test/runtime/aitest_runtime/human.py:12-91 | from any state that is verifying with a step to follow, five operations resume an executing mission into VERIFYING |
| `MissionRuns.MisledRun` | workspace-template/ai-test/runtime/aitest_runtime/human.py:12-91 | a run of a new mission, for any names, that ends verifying a step that was never executed |
| `MissionHuman.CrashStrands` | workspace-template/ai-test/runtime/aitest_runtime/human.py:77-91 | a crash while the last open task is completed strands the mission exactly when it hits between the first and the last commit |
| `MissionEngine.Engine.Transition` | workspace-template/ai-test/runtime/aitest_runtime/mission.py:108-126 | the table check and the resume state |
| `MissionEngine.Engine.SubmitPlan` | workspace-template/ai-test/runtime/aitest_runtime/mission.py:129-164 | numbers the steps in a loop and freezes the version in one transaction, or leaves everything as it was |
| `MissionEngine.Engine.FreezePlan` | workspace-template/ai-test/runtime/aitest_runtime/mission.py:150-163 | the loop inserts the version's rows one by one |
| `MissionEngine.Engine.ClaimStep` | workspace-template/ai-test/runtime/aitest_runtime/mission.py:209-226 | only the cursor's step, only from PENDING, READY or BLOCKED |
| `MissionEngine.Engine.EvaluatePreflight` | workspace-template/ai-test/runtime/aitest_runtime/quality.py:86-147 | writes WAITING_H3 or BLOCKED whatever the state was |
| `MissionEngine.Engine.AuthorizeExecution` | workspace-template/ai-test/runtime/aitest_runtime/quality.py:150-157 | the gate is committed before the transition is tried, in this order in the journal |
| `MissionEngine.Engine.Invoke` | workspace-template/ai-test/runtime/aitest_runtime/capability.py:177-190 | one audit row per decision |
| `MissionEngine.Engine.ExecuteCurrentStep` | workspace-template/ai-test/runtime/aitest_runtime/quality.py:171-205 | appends exactly the transactions of the execution plan to the journal, in order |
| `MissionEngine.Engine.EvaluateCurrentStep` | workspace-template/ai-test/runtime/aitest_runtime/quality.py:221-268 | appends exactly the transaction of the evaluation plan |
| `MissionEngine.Engine.FinalizeMission` | workspace-template/ai-test/runtime/aitest_runtime/quality.py:271-280 | commits the gate first, then COMPLETED or BLOCKED |
| `MissionEngine.Engine.CreateTask` | workspace-template/ai-test/runtime/aitest_runtime/human.py:12-36 | commits the task row first, then the suspension |
| `MissionEngine.Engine.CompleteTask` | workspace-template/ai-test/runtime/aitest_runtime/human.py:71-91 | commits the task row, the parked step and the resumption, in this order |
| `ContractMatch.MatchReflexive` | workspace-template/ai-test/runtime/aitest_runtime/quality.py:208-218 | every value satisfies itself |
| `ContractMatch.MatchTransitive` | workspace-template/ai-test/runtime/aitest_runtime/quality.py:208-218 | contracts chain when the left one has no null and no empty object at any depth |
| `ContractChains.ChainsIffCarries` | workspace-template/ai-test/runtime/aitest_runtime/quality.py:208-218 | for every well-formed contract: whatever satisfies an output that satisfies it satisfies it too, exactly when it carries itself, a condition read off the contract |
| `ContractChains.ChainsToIffCarries` | workspace-template/ai-test/runtime/aitest_runtime/quality.py:208-218 | the same from one contract to another |
| `DefectTheorems.ClosureSound` | workspace-template/ai-test/runtime/aitest_runtime/defects.py:301-311 | whenever a defect can be closed it was confirmed, a deployed fix was registered, and its obligations exist and have a PASS no later retest dispatch followed |
| `DefectTheorems.UndecidedIsTriaged` | workspace-template/ai-test/runtime/aitest_runtime/defects.py:150-166 | without a confirmer a defect is HUMAN_CONFIRM, TRIAGED and has no obligations |
| `DefectTheorems.OnlyCertainIsAutomatic` | workspace-template/ai-test/runtime/aitest_runtime/defects.py:125-130 | a new defect is confirmed by the machine exactly when it is certain, not severe and not in a sensitive dimension |
| `DefectTheorems.IndexAgreement` | workspace-template/ai-test/runtime/aitest_runtime/defects.py:133-173 | observations of a defect share its signature, all five fields of it, and its layers are exactly theirs |
| `DefectCoverage.OneDimension` | workspace-template/ai-test/runtime/aitest_runtime/defects.py:36-43 | over any run the observations of a defect share their dimension, so the set of dimensions a fix is retested in has one element |
| `DefectCoverage.AutomaticIsHarmless` | workspace-template/ai-test/runtime/aitest_runtime/defects.py:125-172 | over any run a defect the machine confirmed has no observation of a SECURITY or PERFORMANCE dimension, merged ones included |
| `DefectTheorems.UniqueUnlessRevived` | workspace-template/ai-test/runtime/aitest_runtime/defects.py:200-209 | one open defect per signature survives a commit exactly when it brings no terminal defect back beside another open one |
| `DefectRuns.TwoOpenRun` | workspace-template/ai-test/runtime/aitest_runtime/defects.py:133-209 | a run from the start, for any names, with two open defects of one signature |
| `DefectRuns.RevivedByResult` | workspace-template/ai-test/runtime/aitest_runtime/defects.py:281-298 | the same by a failed result recorded for a defect set aside as a duplicate |
| `DefectTheorems.OneOpenPerSignature` | workspace-template/ai-test/runtime/aitest_runtime/defects.py:146-149 | in runs without such revivals there is at most one open defect per signature |
| `DefectCoverage.FixCovers` | workspace-template/ai-test/runtime/aitest_runtime/defects.py:224-259 | a deployed fix leaves exactly one obligation of the defect for every required layer and none for any other, whatever the layers are called, and touches no existing one |
| `DefectCoverage.KeysOfLayers` | workspace-template/ai-test/runtime/aitest_runtime/defects.py:243-243 | the ids of a defect's obligations tell its layers apart |
| `DefectCoverage.CoverageLostBy` | workspace-template/ai-test/runtime/aitest_runtime/defects.py:152-158 | once complete, that coverage is lost exactly by an observation merged into the defect with a layer it did not need before |
| `DefectCoverage.PartialObligationsStay` | workspace-template/ai-test/runtime/aitest_runtime/defects.py:224-278 | when a process dies after k commits of a defect's first fix and the retest is dispatched, the i-th required layer has its obligation exactly when k is 1 or it was committed |
| `DefectRuns.UncoveredRun` | workspace-template/ai-test/runtime/aitest_runtime/defects.py:224-311 | a run from the start, for any names, that closes a defect with a required layer never retested |
| `DefectTheorems.WaitingLeftIff` | workspace-template/ai-test/runtime/aitest_runtime/defects.py:194-298 | whatever the step and wherever it dies, it takes a defect out of WAITING_DEPLOYMENT exactly when it commits a decision about it or a result of it together with a conclusion |
| `DefectTheorems.WaitingDeploymentSticks` | workspace-template/ai-test/runtime/aitest_runtime/defects.py:212-221 | without obligations only a decision does, over any run |
| `DefectRuns.UndeployedRun` | workspace-template/ai-test/runtime/aitest_runtime/defects.py:212-221 | a run from the start, for any names, to such a defect |
| `DefectRetest.OldResultsCount` | workspace-template/ai-test/runtime/aitest_runtime/defects.py:212-311 | after a fix some continuation without another fix closes the defect on a PASS recorded before it, exactly when it then has a PASS and another obligation |
| `DefectRetest.RetestRenews` | workspace-template/ai-test/runtime/aitest_runtime/defects.py:262-311 | after a dispatched retest a defect is closed only on results younger than the dispatch |
| `DefectRuns.ClosedOnOldRun` | workspace-template/ai-test/runtime/aitest_runtime/defects.py:133-311 | a run from the start, for any names, that closes a defect on a PASS of its first fix after the second |
| `DefectInvariants.WriteKeepsHistory` | workspace-template/ai-test/runtime/aitest_runtime/defects.py:281-298 | every commit keeps the link between a defect's status and what its past must contain |
| `DefectTracker.Tracker.Observe` | workspace-template/ai-test/runtime/aitest_runtime/defects.py:20-49 | commits the observation, or refuses an id that is taken |
| `DefectTracker.Tracker.Diagnose` | workspace-template/ai-test/runtime/aitest_runtime/defects.py:62-113 | commits the diagnosis of an observation on record |
| `DefectTracker.Tracker.Confirm` | workspace-template/ai-test/runtime/aitest_runtime/defects.py:200-209 | commits a valid decision, whatever the status was |
| `DefectTracker.Tracker.Correlate` | workspace-template/ai-test/runtime/aitest_runtime/defects.py:133-173 | merges into an open defect of the signature or opens a new one |
| `DefectTracker.Tracker.RegisterFix` | workspace-template/ai-test/runtime/aitest_runtime/defects.py:212-221 | commits the fix and then the obligations one by one |
| `DefectTracker.Tracker.CreateObligations` | workspace-template/ai-test/runtime/aitest_runtime/defects.py:224-259 | the nested loops insert one obligation per layer and dimension |
| `DefectTracker.Tracker.DispatchRetest` | workspace-template/ai-test/runtime/aitest_runtime/defects.py:262-278 | commits the obligations one by one, then RETESTING |
| `DefectTracker.Tracker.RecordRetestResult` | workspace-template/ai-test/runtime/aitest_runtime/defects.py:281-298 | commits the result, then VERIFIED or REOPENED or neither |
| `DefectTracker.Tracker.Close` | workspace-template/ai-test/runtime/aitest_runtime/defects.py:301-311 | closes only a verified defect whose obligations exist and all passed |
| `JsonRoundTrip.ParseWrite` | workspace-template/ai-test/runtime/aitest_runtime/durable_core/canonical.py:27-28 | a reader for RFC 8259 recovers every value from its compact text |
| `CanonicalJson.ParseCanonical` | workspace-template/ai-test/runtime/aitest_runtime/durable_core/canonical.py:27-28 | parsing the canonical text gives the value with its members in key order |
| `CanonicalJson.NormalSame` | workspace-template/ai-test/runtime/aitest_runtime/durable_core/canonical.py:13-24 | putting members in key order does not change the value |
| `CanonicalJson.SameTextIffSameValue` | workspace-template/ai-test/runtime/aitest_runtime/durable_core/canonical.py:13-28 | two values have the same canonical text if and only if they are equal up to insertion order |
| `CanonicalJson.SamePreimage` | workspace-template/ai-test/runtime/aitest_runtime/durable_core/canonical.py:35-46 | two commands share a fingerprint preimage exactly when the seven covered fields agree |
| `PdfLiteral.DecodeLiteral` | workspace-template/ai-test/runtime/aitest_runtime/artifacts.py:47-69 | the byte loop computes the specified decoding, or the error of an octal value above 255 |
| `PdfLiteral.DecodeEncoded` | workspace-template/ai-test/runtime/aitest_runtime/artifacts.py:53-67 | whichever escaped form is chosen for each byte, decoding returns the original bytes |
| `PdfLiteral.FailsIffBigOctal` | workspace-template/ai-test/runtime/aitest_runtime/artifacts.py:58-64 | decoding fails exactly when an unescaped backslash precedes three octal digits above octal 377 |
| `PdfLiteral.NeverLonger` | workspace-template/ai-test/runtime/aitest_runtime/artifacts.py:47-69 | no more bytes come out than went in |
| `PdfStandard.StandardIffConforming` | workspace-template/ai-test/runtime/aitest_runtime/artifacts.py:47-69 | for every literal, decoding gives the bytes of section 7.3.4.2 of ISO 32000-1 exactly when it has no octal escape above \377, no unescaped carriage return and no escaped end of line |
| `PdfStandard.ReturnKept` | workspace-template/ai-test/runtime/aitest_runtime/artifacts.py:67-68 | a carriage return is kept, where the standard reads a line feed |
| `PdfStandard.MarkerKept` | workspace-template/ai-test/runtime/aitest_runtime/artifacts.py:67-68 | a carriage return and line feed are both kept, where the standard reads one line feed |
| `PdfStandard.EscapedLineKept` | workspace-template/ai-test/runtime/aitest_runtime/artifacts.py:65-66 | a backslash before a one-byte end of line drops the backslash only |
| `PdfStandard.EscapedMarkerKept` | workspace-template/ai-test/runtime/aitest_runtime/artifacts.py:65-68 | a backslash before a two-byte end of line drops the backslash only |
| `PdfStandard.BigOctalRefused` | workspace-template/ai-test/runtime/aitest_runtime/artifacts.py:58-64 | \400 is an error, where the standard reads a zero byte |
| `PdfStandard.NotShorter` | workspace-template/ai-test/runtime/aitest_runtime/artifacts.py:47-69 | the decoder never loses a byte the standard keeps |
| `Knowledge.AtMostOneVerified` | workspace-template/ai-test/runtime/aitest_runtime/knowledge.py:63-80 | in every reachable state at most one record of a key is verified |
| `Knowledge.VerifyEffect` | workspace-template/ai-test/runtime/aitest_runtime/knowledge.py:63-80 | verification lowers exactly the other verified records of the key |
| `Knowledge.RetiredForever` | workspace-template/ai-test/runtime/aitest_runtime/knowledge.py:68-69 | a superseded or invalidated record is never verified again |
| `Knowledge.ReasonStored` | workspace-template/ai-test/runtime/aitest_runtime/knowledge.py:83-90 | an invalidated object says why and keeps its other members |
| `Knowledge.ResolveExact` | workspace-template/ai-test/runtime/aitest_runtime/knowledge.py:98-127 | exactly the eligible records whose scope matches are returned |
| `Knowledge.ResolveInOrder` | workspace-template/ai-test/runtime/aitest_runtime/knowledge.py:115-115 | in the order of the query |
| `Knowledge.ResolveDistinctKeys` | workspace-template/ai-test/runtime/aitest_runtime/knowledge.py:98-127 | without candidates no two results share a key |
| `Knowledge.ResolveMonotone` | workspace-template/ai-test/runtime/aitest_runtime/knowledge.py:120-123 | a context that gains keys never loses a result |
| `Knowledge.KnowledgeBase.VerifyRecord` | workspace-template/ai-test/runtime/aitest_runtime/knowledge.py:63-80 | the update in place supersedes and verifies in one step |
| `Knowledge.KnowledgeBase.ResolveAll` | workspace-template/ai-test/runtime/aitest_runtime/knowledge.py:98-127 | the loop builds the specified result |
| `Ledger.CountsAreHistogram` | workspace-template/ai-test/runtime/aitest_runtime/ledger.py:33-56 | the counts are the histogram of the last status per case, the rows the distinct cases |
| `Ledger.StatusesPartition` | workspace-template/ai-test/runtime/aitest_runtime/ledger.py:57-62 | the status classes add up to the rows |
| `Ledger.GateIffAllAccounted` | workspace-template/ai-test/runtime/aitest_runtime/ledger.py:60-72 | the accounting gate passes exactly when no total was designed or it is the number of distinct recorded cases |
| `Ledger.RunLedger.Summarize` | workspace-template/ai-test/runtime/aitest_runtime/ledger.py:52-74 | the loop counts every status; the summary is ok exactly when the total is the number of rows |
| `Ledger.RunLedger.Record` | workspace-template/ai-test/runtime/aitest_runtime/ledger.py:33-43 | inserts or overwrites the case's row; the rows stay what all recorded results add up to |
| `Ledger.RunLedger.Complete` | workspace-template/ai-test/runtime/aitest_runtime/ledger.py:77-84 | after any sequence of recorded results: completes exactly when the run exists and the designed total, if given, is the number of distinct cases, with FAIL exactly when a case was last recorded as failed or blocked |
| `Supervisor.AlwaysSupervised` | workspace-template/pfc-field-validation/pfc_control_loop_process.py:176-276 | over any calls and any environment: every living process it started is the recorded one, and every signal was backed by a fresh heartbeat of that process id |
| `Supervisor.OneAlive` | workspace-template/pfc-field-validation/pfc_control_loop_process.py:176-232 | at most one process of its own is alive between calls |
| `Supervisor.StopSignals` | workspace-template/pfc-field-validation/pfc_control_loop_process.py:246-276 | a stop signals only the recorded process id, SIGTERM and then at most SIGKILL |
| `Supervisor.StoppedIsGone` | workspace-template/pfc-field-validation/pfc_control_loop_process.py:246-276 | a stop that reports success leaves nobody under that id |
| `Supervisor.StartedIsRecorded` | workspace-template/pfc-field-validation/pfc_control_loop_process.py:207-227 | a start that reports STARTED recorded the new process and saw its own passing heartbeat |
| `Supervisor.UnownedUntouched` | workspace-template/pfc-field-validation/pfc_control_loop_process.py:181-186 | without a fresh heartbeat a running process is neither signalled nor replaced |
| `Supervisor.VictimIsOwn` | workspace-template/pfc-field-validation/pfc_control_loop_process.py:61-66 | over any calls and any environment a signal reaches an own process exactly when the one last started under the id had not exited before it |
| `Supervisor.AdoptedIsOwn` | workspace-template/pfc-field-validation/pfc_control_loop_process.py:187-188 | so does an ALREADY_RUNNING answer speak of an own process |
| `Supervisor.SignalGoesAstray` | workspace-template/pfc-field-validation/pfc_control_loop_process.py:254-264 | a run, for any process id, in which a stop signals a process that took over the id after the heartbeat was read |
| `Supervisor.ControlLoopProcess.StopProcess` | workspace-template/pfc-field-validation/pfc_control_loop_process.py:246-276 | the polling loops end and leave the specified world |
| `Supervisor.ControlLoopProcess.StartProcess` | workspace-template/pfc-field-validation/pfc_control_loop_process.py:176-232 | starting leaves the specified world and result |

## Left out

* Concurrent writers. Every operation reads and writes without another one in between; the
  compare-and-set on the stream's head therefore never fails except where a rotation is retried
  after an event. A command refused for any other reason than the modelled guards, a paused or
  ended mission among them, is not modelled.
* One mission per model. Step ids taken by other missions are a parameter of plan submission;
  human tasks and observations that point into other missions are not followed.
* Activations outside the dispatcher: `dispatch_existing_child` of R2.5 and the serial orchestrator of
  R2.4 also activate tasks, without its rule about gates. The runs of the dispatcher exclude them, so
  the single runnable slot is proved of streams in which only the dispatcher activates.
* Session providers, health probes, adapters, baselines, applicability, HTTP, browsers and the clock
  are parameters: what they answer is chosen freely. A provider that returns a session id already on
  record is treated as a failure to create one.
* Agent name validation, titles, summaries, blockers, timestamps, evidence rows, audit texts, event
  rows of the mission tables and the redaction of secrets. Whether a step's input holds a plaintext
  secret is one Boolean, because the regular expressions decide it.
* `propose_plan`, planning sessions, mission intake, `observe_session` thresholds and
  `continue_mission`, which read or lead to operations that are modelled.
* The binding that R2.5 can make during a rotation when asked to; the dispatcher never asks.
* `complete_step` and `cancel_task`: they break the stated invariants by design and are not on the
  execute and evaluate path. Hand-made transitions are modelled and excluded where a property says so.
* How a diagnosis is classified, CAT queries, retest missions and the human task of a candidate
  defect. Python's arbitrary order of a set of dimensions is the order of first observation here.
* The statuses ASSIGNED and FIX_IN_PROGRESS are never written by the modelled code; the guard that
  mentions them is kept.
* Hashes: texts and preimages are compared instead, for command fingerprints and for the signatures of
  observations. JSON values have no floats, and `_plain` is the
  identity on the plain values that remain. Lone surrogates cannot occur in the strings.
* The Windows branch of the supervisor, `status()`, zombie reaping, the log file and a crash inside
  `start` before its state file is written; processes that have exited free their id at once.
* DefectCoverage.FixCovers: assumes defect ids of one length, as the id generator makes them, because ids
  are a parameter here and a longer id could swallow a layer.
* DefectCoverage.CoverageLostBy: assumes the same.
* DefectCoverage.PartialObligationsStay: assumes the same.
