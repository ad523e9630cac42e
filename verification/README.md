# AxonLLM verification

Dafny models of the parts of AxonLLM whose correctness depends on order, interleaving or interruption, with
proofs of what they promise. `dafny verify dfyconfig.toml` checks everything.

## What is modelled

**The two-plane recovery** (`Recovery*.dfy`). An operator moves the AgentCore runtime and the control plane,
two independently deployed stacks, from one state table to another and back. Three records can disagree after
a crash: the phase in the state file, the runtime's selector, and the control plane's selector with its
service.

- `RecoveryModel` and `RecoveryTraces` give each command as the worlds it passes through, one per remote or
  file write, when it starts on settled stacks. A command that dies leaves some world of its trace.
- `RecoveryRuns`, `RecoveryProgress` and `RecoveryHistory` prove, over every run of such commands in any order:
  safety, recoverability with a rank, retry as refinement, the pinned and vetted target, and the round trips.
- `RecoveryGuards` checks the guards that each stack runs for itself: they refuse none of these updates.
- `RecoveryInFlight` drops the assumption that stacks are settled. An update may stay in flight after its
  command died and land or roll back at any later moment, also while another command runs.
- `RecoveryCourses` is every command of a recovery, action by action, on stacks with updates in flight, and
  `RecoveryAgreement` checks it against the traces. `RecoveryStanding` and `RecoverySessions` prove what holds
  over sessions of commands, `RecoveryHarm` and `RecoveryVerdict` which update strands which command,
  `RecoveryEndings` when a completed abort has done its work, `RecoveryRemains` what dead commands leave.
- `RecoveryCloud`, `RecoveryPlans` and `RecoveryOperator` are the commands as programs over mutable stacks and
  a mutable state file, with polling loops and a possible death between any two actions. Whatever is in flight
  when a command starts, every world on the way is safe; when it starts on settled stacks, it follows its
  trace, however tasks and counts move meanwhile, and a retry whose changes have landed issues no selector
  update. Tables may come, change and go at any moment.

Assumptions: one state file is live at a time; commands run one after another, possibly cut short; only these
commands change selectors or a suspended service. Where a theorem says that something completes, updates
succeed and endpoints become ready, which the class calls `reliable`. `undisturbed` says that nothing but a
command moves tasks and counts; only the counts of a service that is not suspended, and the last command of a
whole recovery, which waits for such counts, depend on it. `tablesStay` says that no table changes while a
command runs, but by cleanup; following a trace depends on it, safety does not.

One promise does not hold as it stands. Before validation a recovery can be undone from every world that a
dead command leaves on settled stacks (`AbortRecovers`), but not from every one that it leaves with an update
in flight, although both guards admitted that update (`OverlapIsAdmitted`, `OverlappedQuiesceStrands`,
`OverlappedSelectStrands`). Nor is abort the only command that suffers. Each command trusts what it read, and
for three commands there are updates that make what they read wrong:

| command | update in flight as it begins | how it can end |
|---|---|---|
| abort | quiesce's update of the runtime | abort reads it as normal, issues nothing and reports success; then nothing serves |
| abort | select's update of the control plane | abort finds it blocked and reports success; then resume refuses the two tables forever |
| abort | select's update of the runtime, beside a control plane | abort takes the control plane back; then every command refuses the selected runtime, and the guard what abort has left to do (`OverlappedAbortIsRefused`) |
| select | abort's return of the runtime, beside a control plane | select moves the control plane; then the runtime is back on the original table and every command refuses (`SelectOverDeadReturn`) |
| select | abort's reversal of the control plane | select reports success; then nothing serves (`SelectOverDeadReversal`) |
| resume | quiesce's update of the control plane | resume reports success; then the control plane is stopped (`ResumeOverDeadStop`) |

Those are all. A command that starts can leave the settled stacks where every command refuses, wherever it stops
and whatever lands or rolls back meanwhile, exactly if such an update is in flight as it begins
(`StrandsExactlyWhenHarmful`); quiesce, start and promote have none, and cleanup touches no selector. So over
every session of any commands, each begun without an update harmful to it, on whatever a dead command left
behind, some command can always go on once the stacks settle, or only a recorded count of zero refuses resume
(`SessionsGoOn`). A completed abort has recovered exactly if neither of the first two updates was in flight
(`AbortRecoversUnlessOvertaken`): an abort that races the third may fail, but never reports a success that is
none. All these conditions can be read off the two stacks' status and parameters before the call. Harmful or
not, the two planes never serve different tables (`GuardedIsSafe`, `Operate`).

**The launch coordinator** (`Launch*.dfy`): any number of executions of the fenced dispatcher over one lease
row, interleaved at every service call, and the authorizations they file. The given interleaving is arbitrary.
An acquisition or a transaction may take effect although its reply is lost; a mark step fails exactly when its
condition does not hold.

**The Ostiari adapter** (`Ostiari.dfy`, `OstiariUsage.dfy`). Each method is split where it awaits the host, and
resumptions interleave freely. Digests are opaque values. A refresh that was waiting while the adapter was
closed still adopts its snapshot when the router is not owned, and then raises: `FinishRefresh` states this as
the code has it. Costs are not negative, and a provider that raises is taken to have charged nothing.
Conservation of cost has two exceptions, also as the code has them. A call cancelled while it reports failed
accounting raises no error that would carry its cost, because `_emit_telemetry` lets a cancellation through. And
a record that takes effect and then raises leaves its cost in the ledger and in the error. So a charged call is
counted once exactly if it is not one of two kinds (`CountedOnce`): twice, if its record took effect and raised
and the emission was not cancelled; not at all, if its record raised without taking effect and the emission was
cancelled. Totals differ from what was charged by exactly the charges of those two kinds (`BooksBalance`), and may
balance although single calls do not (`BalanceHides`).

**The routing benchmark** (`Tallies`, `Resampling`, `ConfusionMatrices`, `FamilyBootstrap`, `Corpus`,
`Checkpoint`): the paired family bootstrap against naive resampling, the split and validation of the corpus,
and resumable runs. Draws are arbitrary, so every statement holds for every seed.

A checkpoint may end in a record without its newline; such a record still reads, but the next run appends to
the same line and finishes over a file that no later start can read. `ReadableUnlessHarmed` says exactly when a
later start can read the checkpoint, `UnterminatedTailHarms` is the example.

**The Fargate guard** (`FargateGuard`). The guard looks before the service is rewritten, and a task that an
operator scales up in between is left on the old table (`ScalingBetweenMixesTables`). Tasks stay on one table
throughout exactly if the table is never rewritten under a task (`OneTableThroughout`), and it never is while
nobody scales up in between (`RunsUseOneTable`).

**Key rotation** (`KeyRotation`). The calls follow a script: each answers, raises, or has a cancellation thrown
into it, and may have taken effect all the same. Both rollbacks sit under `except Exception`, so a cancellation
leaves every issued key alive (`CancelledProvision`: none lived before). `Provision` says exactly for which
scripts a failed provisioning gives the initial live keys back: nothing had been issued, or an ordinary
exception was raised and the rollback's revocations took effect.

**The scenario player** (`Playback`): playback state under any order of user actions and late callbacks.

## Model

| member | source | states |
|---|---|---|
| `RecoveryModel.Landing` | scripts/operations/agentcore_recovery.py:697-698 | writing a table as a stack parameter (blank for the primary) and reading it back gives the same table |
| `RecoveryRuns.RunsAreSafe` | scripts/operations/agentcore_recovery.py:739-1674 | over every run of commands, each cut short after any write and in any order, a serving runtime and a control plane with any task select the same table |
| `RecoveryRuns.StepKeepsConsistent` | scripts/operations/agentcore_recovery.py:739-1674 | the invariant relating phase, both selectors, service and record survives every command stopped anywhere, task drift and table changes |
| `RecoveryRuns.QuiesceStays` | scripts/operations/agentcore_recovery.py:739-968 | every prefix of quiesce leaves a consistent world |
| `RecoveryRuns.SelectStays` | scripts/operations/agentcore_recovery.py:971-1145 | every prefix of select leaves a consistent world |
| `RecoveryRuns.StartStays` | scripts/operations/agentcore_recovery.py:1148-1240 | every prefix of start leaves a consistent world |
| `RecoveryRuns.PromoteStays` | scripts/operations/agentcore_recovery.py:1243-1340 | every prefix of promote leaves a consistent world |
| `RecoveryRuns.AbortStays` | scripts/operations/agentcore_recovery.py:1343-1540 | every prefix of abort leaves a consistent world |
| `RecoveryRuns.ResumeStays` | scripts/operations/agentcore_recovery.py:1543-1674 | every prefix of resume leaves a consistent world |
| `RecoveryProgress.OnlyFiveOrderings` | scripts/operations/agentcore_recovery.py:1436-1449 | before validation the pair of modes of any reachable world is one of the five safe orderings |
| `RecoveryProgress.EveryOrderingOccurs` | scripts/operations/agentcore_recovery.py:1436-1449 | each of the five orderings is reached by an explicit run from any initial world with a control plane and a usable target |
| `RecoveryProgress.SelectIsNeverTurnedAway` | scripts/operations/agentcore_recovery.py:1039-1064 | once select's first checks pass, its later check of the control plane, ordering included, never rejects a reachable world |
| `RecoveryProgress.AbortRefusedOnlyByValidation` | scripts/operations/agentcore_recovery.py:1357-1452 | in the phases that allow abort, a reachable world refuses it exactly when the runtime is in validation |
| `RecoveryProgress.AbortRecovers` | scripts/operations/agentcore_recovery.py:1343-1540 | on settled stacks a completed abort leaves the runtime normal on the original table and approval, with the control plane still stopped |
| `RecoveryProgress.AbortWritesDescend` | scripts/operations/agentcore_recovery.py:1343-1540 | each write of abort strictly lowers a rank over phase, modes and service, or changes nothing |
| `RecoveryProgress.AbortAttemptsAreBounded` | scripts/operations/agentcore_recovery.py:1343-1540 | however often abort dies, and whatever tasks and counts do in between, it stays acceptable, and at most seven attempts can make progress |
| `RecoveryProgress.ResumeRefusedOnlyByCount` | scripts/operations/agentcore_recovery.py:1561-1614 | after promote or abort a reachable world refuses resume exactly when the recorded desired count is below one |
| `RecoveryProgress.ForwardAdvances` | scripts/operations/agentcore_recovery.py:1148-1674 | past the start of validation, until the recovery is over, the next forward command is accepted and strictly lowers the phase rank, with or without a control plane |
| `RecoveryProgress.ForwardCompletes` | scripts/operations/agentcore_recovery.py:1148-1674 | start, promote and resume from there end the recovery on the target, and a control plane gets its count and scaling back as recorded |
| `RecoveryProgress.RetryEndsTheSame` | scripts/operations/agentcore_recovery.py:753-1674 | any command that dies after any write is accepted again and ends where the uninterrupted command ends |
| `RecoveryProgress.QuiesceRetryEndsTheSame` | scripts/operations/agentcore_recovery.py:753-968 | the same for quiesce, whose retry finds the file it wrote |
| `RecoveryProgress.SelectRetryEndsTheSame` | scripts/operations/agentcore_recovery.py:1010-1145 | the same for select |
| `RecoveryProgress.AbortRetryEndsTheSame` | scripts/operations/agentcore_recovery.py:1357-1540 | the same for abort |
| `RecoveryProgress.ResumeRetryEndsTheSame` | scripts/operations/agentcore_recovery.py:1554-1674 | the same for resume |
| `RecoveryProgress.DriftEndsTheSame` | scripts/operations/agentcore_recovery.py:753-1674 | task churn and autoscaling between attempts do not change where a command ends |
| `RecoveryProgress.TasksEndTheSame` | scripts/operations/agentcore_recovery.py:753-1674 | a command ends in one and the same world from any two worlds that differ in task counts only |
| `RecoveryProgress.InterruptionsEndTheSame` | scripts/operations/agentcore_recovery.py:753-1674 | any number of interrupted attempts followed by one that completes, with tasks moving during and between them, refine a single uninterrupted run |
| `RecoveryProgress.RollbackEndsTheSame` | src/gateway/deployment/infra/control_plane_stack.py:2414-2468 | a command whose update was rolled back, with what the template makes of the service then, is accepted again and ends where the uninterrupted command ends |
| `RecoveryProgress.RetryHasNothingToIssue` | scripts/operations/agentcore_recovery.py:893-968 | once a command's selector changes have landed, its retry has no selector change left |
| `RecoveryHistory.TargetIsPinned` | scripts/operations/agentcore_recovery.py:997-1038 | from the recording of a target until the next recovery begins, no command changes it |
| `RecoveryHistory.TargetsWereVetted` | scripts/operations/agentcore_recovery.py:622-694 | every recorded target passed all table checks earlier in the run, while both planes were blocked on the original table |
| `RecoveryHistory.OnlyRecordedTables` | scripts/operations/agentcore_recovery.py:1164-1170 | during a recovery each plane selects the original table or the recorded target, nothing else |
| `RecoveryHistory.RunsRestoreSettings` | scripts/operations/agentcore_recovery.py:803-839 | over any number of recoveries, each completion has the capacity range and suspension flags the run started with |
| `RecoveryHistory.ResumeRestoresCount` | scripts/operations/agentcore_recovery.py:1604-1665 | however often quiesce was retried after zeroing the service, resume brings back the count recorded first |
| `RecoveryHistory.RunsKeepTables` | scripts/operations/agentcore_recovery.py:1719-1807 | cleanup, anywhere in a run, never deletes a table that is selected or that an abort would return to |
| `RecoveryHistory.FullRecovery` | scripts/operations/agentcore_recovery.py:739-1674 | the five commands in order are each accepted and leave both planes normal on the target with the service as before |
| `RecoveryHistory.ThereAndBack` | scripts/operations/agentcore_recovery.py:697-698 | a recovery to a restored table followed by one back returns the original selection, count and settings |
| `RecoveryGuards.GuardsAdmitEveryUpdate` | src/gateway/deployment/infra/agentcore_stack.py:128-505 | neither stack's own guard refuses any selector update of a command that started on settled stacks |
| `RecoveryGuards.QuiesceIsAdmitted` | src/gateway/deployment/infra/control_plane_stack.py:112-385 | the guards admit both updates of quiesce |
| `RecoveryGuards.SelectIsAdmitted` | src/gateway/deployment/infra/control_plane_stack.py:112-385 | the guards admit both updates of select, in its order |
| `RecoveryGuards.AbortIsAdmitted` | src/gateway/deployment/infra/agentcore_stack.py:128-505 | the guards admit all three updates of abort, in its order |
| `RecoveryGuards.ResumeIsAdmitted` | src/gateway/deployment/infra/control_plane_stack.py:112-385 | the guard admits the update of resume |
| `RecoveryGuards.OverlapIsAdmitted` | scripts/operations/agentcore_recovery.py:1343-1540 | an abort that overlaps select's update in flight has both guards' consent |
| `RecoveryGuards.OverlappedAbortStrands` | scripts/operations/agentcore_recovery.py:1436-1452 | after that overlap no command gets past its checks and nothing serves, from every world where select can run |
| `RecoveryGuards.OverlappedAbortIsRefused` | src/gateway/deployment/infra/agentcore_stack.py:128-505 | the overlapping abort cannot finish either: the guard refuses its last update |
| `RecoveryGuards.OverlappedQuiesceStrands` | scripts/operations/agentcore_recovery.py:1343-1540 | after a quiesce that died with its runtime update in flight, abort issues no update and completes; then the runtime lands quiesced and no command gets past its checks |
| `RecoveryGuards.OverlappedSelectStrands` | scripts/operations/agentcore_recovery.py:1475-1527 | after a select that died with its control-plane update in flight, abort completes; then the control plane lands on the target and no command gets past its checks |
| `RecoveryGuards.SettledAbortRecovers` | scripts/operations/agentcore_recovery.py:1343-1540 | from where that select died, letting the update land or roll back before abort is enough to recover |
| `RecoveryStanding.StandingElapses` | scripts/operations/agentcore_recovery.py:152-182 | where the planes stand between any two actions, and where what is in flight may take them, stays so whatever lands, is refused by its guard or rolls back |
| `RecoveryStanding.StandingGoesOn` | scripts/operations/agentcore_recovery.py:739-1674 | from every such place, once settled, a named command is accepted, or resume is refused for a recorded count of zero only |
| `RecoverySessions.MovingIsSound` | scripts/operations/agentcore_recovery.py:739-1674 | one action of any command, time passing, or the death of a command keeps where the planes stand and what the command knows of them |
| `RecoverySessions.SessionIsSound` | scripts/operations/agentcore_recovery.py:739-1674 | over every session of commands, none begun with an update harmful to it in flight, that holds at every point |
| `RecoverySessions.SessionsNeverStrand` | scripts/operations/agentcore_recovery.py:739-1674 | so no settled stacks of such a session are stranded, before validation or after |
| `RecoverySessions.HarmlessNeverStrands` | scripts/operations/agentcore_recovery.py:739-1674 | a command begun without an update harmful to it never leaves the settled stacks stranded |
| `RecoveryVerdict.StrandsExactlyWhenHarmful` | scripts/operations/agentcore_recovery.py:739-1674 | for every command and whatever was left behind: wherever it stops and whatever lands, the settled stacks are not stranded, exactly if no update harmful to it was in flight as it began |
| `RecoveryVerdict.AbortOverBlocking` | scripts/operations/agentcore_recovery.py:1528-1540 | with a runtime update to quiesced in flight, an abort that completes can end stranded with nothing serving |
| `RecoveryVerdict.AbortOverMoving` | scripts/operations/agentcore_recovery.py:1475-1527 | with a control-plane update to selected in flight, an abort that completes can end stranded |
| `RecoveryVerdict.AbortOverSelection` | scripts/operations/agentcore_recovery.py:1436-1513 | with a runtime update to selected in flight beside a control plane, abort can end stranded |
| `RecoveryVerdict.SelectOverReturn` | scripts/operations/agentcore_recovery.py:1039-1107 | with a runtime update back to normal in flight beside a control plane, select can end stranded |
| `RecoveryVerdict.SelectOverReversal` | scripts/operations/agentcore_recovery.py:1039-1138 | with a control-plane update back to quiesced in flight, a select that completes can end stranded with nothing serving |
| `RecoveryVerdict.ResumeOverStop` | scripts/operations/agentcore_recovery.py:1590-1674 | with a control-plane update from normal to quiesced in flight, a resume that completes can end stranded |
| `RecoveryEndings.AbortRecoversUnlessOvertaken` | scripts/operations/agentcore_recovery.py:1343-1540 | whatever was left behind: every completed abort has recovered, with resume open, exactly if neither the update to a quiesced runtime nor the one to a selected control plane was in flight |
| `RecoveryEndings.RacingRecovers` | scripts/operations/agentcore_recovery.py:1515-1540 | an abort that races the update to a selected runtime may fail, but if it completes it has recovered |
| `RecoveryRemains.LeftStands` | scripts/operations/agentcore_recovery.py:185-243 | every stack that a dead command leaves, in any phase and with its last update in flight or not, is one the theorems on sessions start from |
| `RecoveryRemains.SessionsGoOn` | scripts/operations/agentcore_recovery.py:739-1674 | on what a dead command left, a session of commands begun without harmful updates is safe at every point, and some command can go on once the stacks settle |
| `RecoveryRemains.AbortStrandsOnlyForward` | scripts/operations/agentcore_recovery.py:1343-1540 | on what a dead command left, abort strands exactly over the three forward updates of quiesce and select, and recovers exactly without the first two |
| `RecoveryRemains.SelectOverDeadReturn` | scripts/operations/agentcore_recovery.py:1039-1107 | from every world where select can run beside a control plane, a dead abort can leave its return of the runtime in flight; running abort again is harmless, while select is accepted, has the guard's consent and can end stranded |
| `RecoveryRemains.SelectOverDeadReversal` | scripts/operations/agentcore_recovery.py:1039-1138 | likewise a dead abort can leave its reversal of the control plane in flight; select is accepted, has the guard's consent and can complete, and then nothing serves and every command refuses |
| `RecoveryRemains.ResumeOverDeadStop` | scripts/operations/agentcore_recovery.py:1543-1674 | from every world where a serving service can be quiesced, a dead quiesce and a completed abort can leave an update in flight over which resume ends stranded |
| `RecoveryAgreement.CompletesAsTraced` | scripts/operations/agentcore_recovery.py:739-1674 | on settled stacks the actions of every command lead through its trace to its end |
| `RecoveryInFlight.GuardedIsSafe` | scripts/operations/agentcore_recovery.py:739-1674 | the invariant of overlapping runs implies that a serving runtime and an active control plane agree on the table |
| `RecoveryInFlight.EvolvingKeepsGuarded` | scripts/operations/agentcore_recovery.py:152-182 | updates in flight may land or roll back at any moment without breaking that invariant |
| `RecoveryInFlight.StartMayValidate` | scripts/operations/agentcore_recovery.py:1173-1205 | what start read before suffices to issue the validation update, although time has passed since each read |
| `RecoveryInFlight.OrderingExcludesTrial` | scripts/operations/agentcore_recovery.py:1436-1452 | the ordering check rules out a validation update still in flight behind a normal runtime |
| `RecoveryInFlight.AbortMayReverse` | scripts/operations/agentcore_recovery.py:1475-1513 | reversing the control plane from abort's stale view of the runtime is safe |
| `RecoveryInFlight.AbortMayUndo` | scripts/operations/agentcore_recovery.py:1515-1527 | returning the runtime to normal from abort's stale view of the control plane is safe |
| `RecoveryInFlight.AbortMayFinish` | scripts/operations/agentcore_recovery.py:1528-1536 | recording the abort is safe whatever is still in flight on the control plane |
| `RecoveryInFlight.ResumeMayServe` | scripts/operations/agentcore_recovery.py:1638-1663 | bringing tasks back is safe once the control plane was seen or made normal on the runtime's table |
| `RecoveryCloud.Cloud.Pass` | src/gateway/deployment/infra/control_plane_stack.py:2414-2468 | while time passes updates land where their guard lets them or roll back, with the template's side effects either way, tables may change, and a stopped suspended service stays stopped |
| `RecoveryOperator.Operator.Interlude` | scripts/operations/agentcore_recovery.py:152-182 | between two actions only the environment moves; the invariant holds and every world is recorded |
| `RecoveryOperator.Operator.WriteState` | scripts/operations/agentcore_recovery.py:562-578 | replaces the state file and nothing else, keeping the invariant |
| `RecoveryOperator.Operator.WriteService` | scripts/operations/agentcore_recovery.py:383-425 | changes the service and nothing else, keeping the invariant |
| `RecoveryOperator.Operator.UpdateRuntime` | scripts/operations/agentcore_recovery.py:185-243 | issues one selector update and polls; success means it landed, a busy stack is refused, otherwise it may still be in flight |
| `RecoveryOperator.Operator.UpdateControl` | scripts/operations/agentcore_recovery.py:185-243 | the same for the control plane, with its template's side effects |
| `RecoveryOperator.Operator.WaitStable` | scripts/operations/agentcore_recovery.py:351-373 | polls until the service runs exactly the wanted count; success means it does |
| `RecoveryOperator.Operator.StopControlPlane` | scripts/operations/agentcore_recovery.py:466-497 | suspends scaling, zeroes the count and waits; cut short it is at one of the three writes, and success means that nothing is desired, pending or running |
| `RecoveryOperator.Operator.Quiesce` | scripts/operations/agentcore_recovery.py:739-968 | follows its trace but for moving tasks: ends at one of its worlds or with the update to the next in flight, the last one, with nothing desired or running, when it returns; writes nothing when refused; keeps every world safe whatever was in flight before |
| `RecoveryOperator.Operator.QuiesceNew` | scripts/operations/agentcore_recovery.py:774-840 | the first run of quiesce, which records the control plane before touching it |
| `RecoveryOperator.Operator.QuiesceAgain` | scripts/operations/agentcore_recovery.py:753-773 | a retry of quiesce, which keeps the first record |
| `RecoveryOperator.Operator.QuiesceControl` | scripts/operations/agentcore_recovery.py:841-906 | stops the control plane and blocks its selector, then records it |
| `RecoveryOperator.Operator.QuiesceRuntime` | scripts/operations/agentcore_recovery.py:907-968 | blocks the runtime's selector, then records it |
| `RecoveryOperator.Operator.Select` | scripts/operations/agentcore_recovery.py:971-1145 | the same guarantee for select; a retry whose changes landed issues no update |
| `RecoveryOperator.Operator.CheckSelection` | scripts/operations/agentcore_recovery.py:985-1009 | admits exactly the worlds select accepts and changes nothing |
| `RecoveryOperator.Operator.SelectControl` | scripts/operations/agentcore_recovery.py:1039-1107 | moves the control plane to the target before the runtime, and stays on the trace wherever it stops |
| `RecoveryOperator.Operator.SelectRuntime` | scripts/operations/agentcore_recovery.py:1108-1145 | moves the runtime to the target, then records it |
| `RecoveryOperator.Operator.Start` | scripts/operations/agentcore_recovery.py:1148-1240 | the same guarantee for start |
| `RecoveryOperator.Operator.Promote` | scripts/operations/agentcore_recovery.py:1243-1340 | the same guarantee for promote |
| `RecoveryOperator.Operator.Abort` | scripts/operations/agentcore_recovery.py:1343-1540 | the same guarantee for abort, with nothing desired or running when it returns; refused worlds are left untouched |
| `RecoveryOperator.Operator.Undo` | scripts/operations/agentcore_recovery.py:1454-1473 | takes a selected runtime back while blocked, before anything else is undone |
| `RecoveryOperator.Operator.UndoControl` | scripts/operations/agentcore_recovery.py:1475-1513 | takes a selected control plane back while blocked |
| `RecoveryOperator.Operator.UndoRuntime` | scripts/operations/agentcore_recovery.py:1515-1540 | returns the runtime to normal on the original table and records the abort |
| `RecoveryOperator.Operator.Resume` | scripts/operations/agentcore_recovery.py:1543-1674 | the same guarantee for resume |
| `RecoveryOperator.Operator.CheckResumption` | scripts/operations/agentcore_recovery.py:1554-1614 | admits exactly the worlds resume accepts and changes nothing |
| `RecoveryOperator.Operator.RestoreCount` | scripts/operations/agentcore_recovery.py:1639-1653 | asks for the recorded count and succeeds only once that many tasks run |
| `RecoveryOperator.Operator.Cleanup` | scripts/operations/agentcore_recovery.py:1719-1807 | the same guarantee for cleanup, with the wait until deletion protection is off |
| `RecoveryOperator.Operator.Unprotect` | scripts/operations/agentcore_recovery.py:1770-1796 | takes the deletion protection off once and polls until the table shows it; success only then |
| `RecoveryOperator.Operator.Operate` | scripts/operations/agentcore_recovery.py:739-1807 | any commands in any order, on whatever earlier ones left in flight: no world along the way is unsafe |
| `RecoveryOperator.Operator.Recover` | scripts/operations/agentcore_recovery.py:739-1674 | on stacks that behave and tasks that stay put, the five commands all return and both planes end normal on the new table, service as before |
| `LaunchAuthorizations.LastColonSplits` | infra/release_foundation_stack.py:3472-3480 | a text splits at its last colon in only one way |
| `LaunchAuthorizations.IdsAreInjective` | infra/release_foundation_stack.py:3472-3480 | two authorization identifiers are equal only if owner, fence and edge are, even with colons in owners |
| `LaunchLease.RunsKeep` | infra/release_foundation_stack.py:3624-3772 | over all interleavings of any number of executions the lease row, fences and releases agree |
| `LaunchLease.FencesAreUnique` | infra/release_foundation_stack.py:3635-3640 | no two executions ever hold the same fence |
| `LaunchLease.StepRaisesFence` | infra/release_foundation_stack.py:3624-3667 | an acquisition gets a fence above every earlier one, and an active or failed lease goes only to the same owner and key |
| `LaunchLease.FenceNeverFalls` | infra/release_foundation_stack.py:3635-3640 | the acquisitions of a run are a prefix of those of every continuation |
| `LaunchLease.OnlyTheHolderReleases` | infra/release_foundation_stack.py:3713-3762 | only the execution holding the current fence takes the lease out of active |
| `LaunchLease.ConcludedLetsGo` | infra/release_foundation_stack.py:3692-3772 | an acquirer that concludes by itself released its fence the way it ended, or was superseded by a higher one |
| `LaunchLease.UnheardLeaseStays` | infra/release_foundation_stack.py:3654-3667 | an execution rejected without having heard of its acquisition leaves the lease active, for exactly its own owner and key to acquire again, or was superseded |
| `LaunchLease.HandoverNeedsCompletion` | infra/release_foundation_stack.py:3624-3667 | between acquisitions by different holders some acquisition completed |
| `LaunchFiling.RunsKeep` | infra/release_foundation_stack.py:3450-3534 | every authorization is filed under its own identifier for an acquisition past that step, also when the transaction took effect unheard |
| `LaunchFiling.WorkersAreAuthorized` | infra/release_foundation_stack.py:3668-3698 | a worker of a selector operation runs only with all edges of its list authorized under its owner and fence |
| `LaunchFiling.SixRecords` | infra/release_foundation_stack.py:3537-3558 | each of the three selector operations has six edges with six different identifiers |
| `LaunchFiling.NothingOverwritten` | infra/release_foundation_stack.py:3511-3534 | a transaction never writes an identifier already on file |
| `LaunchFiling.AuthorizationsAreForever` | infra/release_foundation_stack.py:3511-3534 | over any continuation of a run an authorization stays as written |
| `Ostiari.Adapter.constructor` | axonllm/ostiari.py:120-144 | an adapter starts neither started nor closed, with nothing adopted |
| `Ostiari.Adapter.AdoptSnapshot` | axonllm/ostiari.py:470-496 | adopts exactly trusted snapshots that are newer or repeat the active digest, in adapter and router together; otherwise changes nothing |
| `Ostiari.Adapter.BeginStart` | axonllm/ostiari.py:164-170 | a closed adapter raises, a started one returns, any other waits for the host |
| `Ostiari.Adapter.HostStartReturns` | axonllm/ostiari.py:171-189 | a failed host start needs no cleanup; a successful one is counted once |
| `Ostiari.Adapter.FirstSnapshotLoads` | axonllm/ostiari.py:173-189 | the adapter becomes ready exactly when the first snapshot is adopted, else it cleans up with nothing adopted |
| `Ostiari.Adapter.CleanupReturns` | axonllm/ostiari.py:177-187 | after the cleanup the host is balanced again |
| `Ostiari.Adapter.BeginClose` | axonllm/ostiari.py:441-450 | closing makes the adapter not ready at once and closes an owned router |
| `Ostiari.Adapter.RouterCloseReturns` | axonllm/ostiari.py:446-456 | the host is closed even if the router's close raised |
| `Ostiari.Adapter.HostCloseReturns` | axonllm/ostiari.py:451-458 | after the close the host is balanced |
| `Ostiari.Adapter.FinishRefresh` | axonllm/ostiari.py:195-200 | a refresh returns exactly when its snapshot was adopted and the adapter is still ready; a rejected one changes nothing |
| `Ostiari.Adapter.BeginPublish` | axonllm/ostiari.py:202-221 | a publish proceeds exactly when ready, at the expected revision and with a valid candidate |
| `Ostiari.Adapter.FinishPublish` | axonllm/ostiari.py:222-231 | a publish that returns has its snapshot active and in the router at that moment; one that raises changed nothing |
| `Ostiari.Interleave` | axonllm/ostiari.py:164-231 | over any interleaving revisions never fall, no revision shows two digests, the router matches, closed stays closed, and host starts and closes balance |
| `OstiariUsage.Routing.Dispatch` | axonllm/ostiari.py:303-345 | a dispatched call owes nothing and has emitted nothing |
| `OstiariUsage.Routing.ProviderRaises` | axonllm/ostiari.py:376-391 | a failed call emits one event and carries no cost |
| `OstiariUsage.Routing.ProviderReturns` | axonllm/ostiari.py:393-402 | the provider's charge is owed until it is recorded or carried |
| `OstiariUsage.Routing.RecordReturns` | axonllm/ostiari.py:421-434 | the cost is in the ledger exactly if the record took effect, and the call is about to carry it in its error exactly if the record raised; one event either way |
| `OstiariUsage.Routing.EmitReturns` | axonllm/ostiari.py:636-643 | a sink error changes nothing; a cancellation while emitting a failed accounting keeps its cost from being carried |
| `OstiariUsage.BooksBalance` | axonllm/ostiari.py:359-439 | over every interleaving of calls, once all have finished, recorded plus carried plus the charges of the calls not counted is the total charged plus the charges of the calls counted twice |
| `OstiariUsage.EventsExplain` | axonllm/ostiari.py:359-439 | the events of a call determine what became of it and of its cost |
| `OstiariUsage.OneCallLoses` | axonllm/ostiari.py:421-434 | one call whose record raises without taking effect and whose emission is cancelled leaves its cost neither recorded nor carried |
| `OstiariUsage.OneCallDoubles` | axonllm/ostiari.py:421-434 | one call whose record takes effect and then raises leaves its cost in the ledger and in its error |
| `OstiariUsage.BalanceHides` | axonllm/ostiari.py:421-434 | totals can balance over one call counted twice and one not counted |
| `OstiariUsage.CountedOnce` | axonllm/ostiari.py:421-434 | a finished call is counted once exactly if its record did not both take effect and raise with its error raised, and did not raise without effect with its error cancelled; else twice or not at all |
| `OstiariUsage.DifferencesHaveCalls` | axonllm/ostiari.py:421-434 | the totals hold a doubled, or a missing, charge exactly if there is such a call |
| `OstiariUsage.Interleave` | axonllm/ostiari.py:359-439 | over any interleaving the ledgers are the sums over the calls, each finished call has emitted once and is counted once exactly if it is of neither kind, and the totals differ by the charges of the two kinds |
| `Tallies.TallyWeighs` | benchmarks/routing/analyze.py:61-66 | weighing a counter's distinct keys by their counts equals summing over the draws one by one |
| `Resampling.SparseIsNaive` | benchmarks/routing/analyze.py:61-66 | the sparse weighted count of a cell equals counting the drawn families case by case |
| `Resampling.AddWeighted` | benchmarks/routing/analyze.py:65-66 | adds weight times each stored count to a matrix row |
| `Resampling.FillFamily` | benchmarks/routing/analyze.py:62-66 | adds one drawn family to every candidate's row |
| `Resampling.FillRows` | benchmarks/routing/analyze.py:60-66 | each candidate's row of one label is the confusion counted over the drawn cases |
| `ConfusionMatrices.Measure` | benchmarks/routing/analyze.py:67-76 | accuracy, macro F1 and recall per label of a matrix, with no division by zero |
| `ConfusionMatrices.RowAddsUp` | benchmarks/routing/analyze.py:72-75 | a label's row sums to its number of cases |
| `ConfusionMatrices.Score` | benchmarks/routing/regex_revision.py:61-77 | scores a prediction from the case-by-case confusion matrix, also when a label has no case |
| `FamilyBootstrap.GroupRows` | benchmarks/routing/analyze.py:31-33 | groups the rows by label and family, losing and adding none |
| `FamilyBootstrap.SortFamilies` | benchmarks/routing/analyze.py:47-49 | lists every family of a label once, in ascending order |
| `FamilyBootstrap.Encode` | benchmarks/routing/analyze.py:46-54 | stores every family's sparse counts for every candidate |
| `FamilyBootstrap.Choices` | benchmarks/routing/analyze.py:61-61 | draws as many families as there are, with replacement |
| `FamilyBootstrap.Draw` | benchmarks/routing/analyze.py:59-66 | for every choice of draws, each candidate's matrix is the one counted over the concatenated families |
| `FamilyBootstrap.Resample` | benchmarks/routing/analyze.py:58-76 | measures every candidate over the same draws |
| `FamilyBootstrap.Bootstrap` | benchmarks/routing/analyze.py:21-76 | raises exactly the first failing check, otherwise every sample is the measure of a naive resample |
| `FamilyBootstrap.EachOnceIsTheScore` | benchmarks/routing/regex_revision.py:61-77 | drawing every family once reproduces the direct scoring |
| `FamilyBootstrap.RowsAreTheClassSizes` | benchmarks/routing/analyze.py:69-75 | in every resample each row sums to the label's size in the corpus, which is positive |
| `FamilyBootstrap.ClassesMakeTheCorpus` | benchmarks/routing/analyze.py:69-69 | the label sizes add up to the number of rows, so accuracy divides by the right total |
| `FamilyBootstrap.DominanceSurvivesResampling` | benchmarks/routing/analyze.py:91-98 | a candidate right wherever the baseline is has a non-negative difference in every resample |
| `FargateGuard.TableChangeNeedsQuiet` | infra/stack.py:53-120 | a table change is admitted exactly when one end is in cutover mode and the service is suspended and empty |
| `FargateGuard.ReverseIsAdmitted` | infra/stack.py:53-120 | the reverse of an admitted table change is admitted from the same service |
| `FargateGuard.TableChangeBeginsEmpty` | infra/stack.py:1465-1491 | the guard lets a table change begin only with nothing desired, pending or running |
| `FargateGuard.RunsUseOneTable` | infra/stack.py:1465-1491 | over any run in which nobody scales up between the guard's look and the rewrite, the tasks alive at one time use one table |
| `FargateGuard.OneTableBreaksOnlyUnderTasks` | infra/stack.py:1465-1491 | a step leaves all tasks on one table exactly if it does not rewrite the table under a task |
| `FargateGuard.OneTableThroughout` | infra/stack.py:1465-1491 | over any run, all tasks are on one table at every moment exactly if no event rewrites the table under a task |
| `FargateGuard.ScalingBetweenMixesTables` | infra/stack.py:1465-1491 | a task started between the look and the rewrite is left on the old table |
| `FargateGuard.ThereAndBack` | infra/stack.py:1481-1491 | a table change in cutover mode can be taken back at once |
| `KeyRotation.PersonasFromSeed` | scripts/bootstrap_demo_access.py:115-147 | accepts exactly complete seeds of at least two tenants, none twice |
| `KeyRotation.KeyService.IssueKey` | scripts/bootstrap_demo_access.py:179-186 | a new live key under a fresh identifier whenever the call takes effect, though only an answer tells which |
| `KeyRotation.KeyService.RevokeKey` | scripts/bootstrap_demo_access.py:224-231 | revokes one live key of the tenant whenever the call takes effect, and only when every watched persona keeps a live key |
| `KeyRotation.ListedWasFirst` | scripts/bootstrap_demo_access.py:171-178 | with distinct tenants, the keys remembered for a persona are those it had at first |
| `KeyRotation.IssueAll` | scripts/bootstrap_demo_access.py:160-187 | adds one live key per persona and remembers the old ones, changing none; a failure says at which call, and whether a key nobody knows of is left |
| `KeyRotation.RollBack` | scripts/bootstrap_demo_access.py:188-195 | revokes the issued keys in order and all of them exactly if the revocations take effect, the last possibly without an answer |
| `KeyRotation.RevokePrevious` | scripts/bootstrap_demo_access.py:223-231 | revokes every remembered key and no new one |
| `KeyRotation.OnlyTheNewLives` | scripts/bootstrap_demo_access.py:223-231 | afterwards a persona's live key of that name is the new one |
| `KeyRotation.Provision` | scripts/bootstrap_demo_access.py:150-245 | new keys only if every call answers; a failed provisioning gives the initial live keys back exactly for the scripts where nothing was issued or an ordinary exception was followed by revocations that took effect; never a moment without a live key for a persona that had one |
| `KeyRotation.GiveUp` | scripts/bootstrap_demo_access.py:188-221 | an ordinary exception is followed by the rollback, a cancellation by nothing, and the script decides whether the initial live keys are back |
| `KeyRotation.CancelledProvision` | scripts/bootstrap_demo_access.py:160-195 | from a service without any key, a cancellation thrown into the second persona's first call makes the provisioning fail and leaves a new key alive |
| `Checkpoint.Directory.Run` | benchmarks/routing/run_expanded.py:70-141 | refuses a mismatch or an unreadable file without writing, appends exactly what it answered, and has answered the exact sequence when it finishes |
| `Checkpoint.Directory.Append` | benchmarks/routing/run_expanded.py:105-139 | appends answers to the next requests in order, the last possibly cut, with a metadata segment first |
| `Checkpoint.Attempts` | benchmarks/routing/run_expanded.py:89-139 | over any number of interrupted attempts the file can be read exactly if none harmed it, and is then a matching prefix |
| `Checkpoint.ReadableWhenWritten` | benchmarks/routing/run_expanded.py:89-139 | what one attempt appends can be read exactly if the file ended in a newline and no record was cut in the middle |
| `Checkpoint.ReadableUnlessHarmed` | benchmarks/routing/run_expanded.py:89-139 | over any number of attempts a later start can read the file exactly if no record was cut in the middle and none that lost its newline was written after |
| `Checkpoint.UnterminatedTailHarms` | benchmarks/routing/run_expanded.py:89-139 | a record that lost only its newline still reads, and finishing the run over it makes the file unreadable |
| `Corpus.Flatten` | benchmarks/routing/corpus.py:198-221 | accepts exactly five families of all four variants with non-blank prompts |
| `Corpus.Collect` | benchmarks/routing/corpus.py:241-246 | accepts exactly a complete set of acceptable documents, and lists their cases label by label and domain by domain |
| `Corpus.SplitCases` | benchmarks/routing/corpus.py:450-459 | partitions the cases, every family whole on one side |
| `Corpus.SplitSizes` | benchmarks/routing/corpus.py:450-459 | for every draw and any order, 240 development and 960 test cases, forty and a hundred and sixty of each label |
| `Corpus.CountOfPermutation` | benchmarks/routing/corpus.py:455-455 | sorting the cases does not change the counts |
| `Corpus.ValidateCases` | benchmarks/routing/corpus.py:423-447 | accepts exactly the corpora that pass every check |
| `Corpus.AcceptedIsBalanced` | benchmarks/routing/corpus.py:423-447 | acceptance implies a quarter as many families as cases and a twenty-fourth for each label |
| `Playback.Flow.SetStep` | site/architecture-flow.js:330-333 | clamps to the scenario's path |
| `Playback.Flow.ClearPlayback` | site/architecture-flow.js:392-405 | makes every earlier callback stale and cancels the timer |
| `Playback.Flow.ScheduleSilentAdvance` | site/architecture-flow.js:407-415 | sets a timer only while playing, under the current token and with none pending |
| `Playback.Flow.PlayCurrentNarration` | site/architecture-flow.js:417-457 | a new token, with a timer exactly when muted |
| `Playback.Flow.Advance` | site/architecture-flow.js:459-468 | one step forward, or completion on the last step, and always a new token |
| `Playback.Flow.TimerFires` | site/architecture-flow.js:411-414 | a pending timer is current, so it advances once |
| `Playback.Flow.OnEnded` | site/architecture-flow.js:445-447 | moves playback only under the current token |
| `Playback.Flow.OnFailed` | site/architecture-flow.js:448-456 | never moves the step; at most sets the timer |
| `Playback.Flow.Play` | site/architecture-flow.js:470-477 | starts over when at the end |
| `Playback.Flow.Pause` | site/architecture-flow.js:479-487 | stops and makes callbacks stale |
| `Playback.Flow.ToggleAudio` | site/architecture-flow.js:489-494 | keeps the step; a muted playback has a timer |
| `Playback.Flow.GoTo` | site/architecture-flow.js:322-327 | stops on the clicked step |
| `Playback.Flow.Next` | site/architecture-flow.js:240-243 | stops on the next step, or stays on the last |
| `Playback.Flow.SelectScenario` | site/architecture-flow.js:270-287 | stops at the first step of the clamped scenario |
| `Playback.Interact` | site/architecture-flow.js:392-494 | under any order of user actions and stale or repeated callbacks the step stays in range and no token advances twice |
| `Playback.PlayOut` | site/architecture-flow.js:407-468 | left alone, playback completes in path length minus step advances |

## Left out

- Recovery: AWS identity checks (stack identifiers, ARNs, names, regions), timestamps, the syntax of approval identifiers, file permissions and JSON.
- Recovery: the publication and removal of endpoints and the quiescence interval the AgentCore guard waits for; a ready endpoint is an input of the model.
- Recovery: two state files at once, or cleanup beside a running recovery; nothing in the code excludes either.
- Recovery: `status`, which only reads.
- RecoveryOperator.Operator.Quiesce: which world it ends in is stated for settled starts and tables that stay; on overlapping starts it keeps the invariant and with it safety, the same as the other commands. `RecoveryVerdict` says from where such a start can strand them.
- RecoveryOperator.Operator.WaitStable: the service's deployment and rollout states are not modelled, only its counts.
- RecoveryOperator.Operator.Recover: takes tasks and counts to stay put, because autoscaling may keep a resumed service from ever showing the recorded count.
- RecoveryGuards.GuardsAdmitEveryUpdate: the guards' checks of endpoints and of the minimum quiescence interval are not modelled, the same as for the other lemmas on admission.
- RecoveryGuards.QuiesceIsAdmitted: the check that no runtime endpoint remains is not modelled.
- RecoveryGuards.SelectIsAdmitted: the minimum quiescence interval is not modelled.
- RecoveryGuards.AbortIsAdmitted: the check that no runtime endpoint remains is not modelled.
- RecoveryVerdict.StrandsExactlyWhenHarmful: says nothing of stacks on which a command already began with an update harmful to it in flight. A guard's refusal by modes is modelled; any other refusal is one of the ways an update rolls back.
- RecoveryGuards.OverlappedAbortStrands: states that the commands refuse the stranded world, not how an operator repairs it by hand.
- RecoveryHistory.RunsKeepTables: tables disappear only through cleanup.
- LaunchLease.StepRaisesFence: the row starts absent; the cleanup worker's own edits of it are not part of this model.
- LaunchLease.ConcludedLetsGo: says nothing of an execution that is stopped or times out, which may leave the lease active; a mark step is taken to raise only when its condition does not hold.
- LaunchFiling.AuthorizationsAreForever: use and expiry of authorizations by other services are not modelled, and a superseded execution may still file its own.
- Ostiari.Adapter.CleanupReturns: a host close that raises more than an ordinary exception during a failed start would leave the lifecycle flag set; the model takes it to raise only those.
- OstiariUsage.Routing.ProviderReturns: building the result and pricing it are taken not to raise, and a provider that raises is taken to have charged nothing.
- Ostiari: provider routes, credential resolution, and the smart and ensemble strategies behind a routed call.
- FamilyBootstrap.Bootstrap: percentile intervals and the report around the samples; reals stand for floating point.
- ConfusionMatrices.Score: the slices per task and variant.
- Corpus.Collect: repairs, which rewrite prompts and rationales only, and the stored rationale, concept and tags.
- Corpus.SplitCases: takes the cases in the order of their identifiers and does not model the digest that makes them, only that families with equal names are equal.
- Checkpoint.Directory.Run: panel selection, warm-up and timing; one router, since each has its own file; the configuration and metadata files are taken to be written whole.
- KeyRotation.KeyService.RevokeKey: caching and attribution.
- Playback: rendering, the audio element's position and the captions.
- Demo recording, narration, authoring and review calls, infrastructure construction and policies.
