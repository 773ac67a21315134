# taskledger: a verified model

taskledger is a durable ledger for staged work: tasks move through planning, implementation and
validation, each stage run under a lock, and whole ledgers can be exported and merged into others.
This project models its two stateful protocols and the kernels around them, and proves what they keep.

**Runs, locks and handoffs.** `Records` has the records of a task's directory. `Protocol` specifies every
command as a function from a directory to a directory and an outcome, refusals included, together with
the commands around them: planning, plan approval, validation, lock loss, cancel, uncancel, archive,
handoffs. `TaskStore` has the commands of the implementation stage and of handoffs as methods of a
class that check, read and write one record after another, each proved against its specification. `Shapes`,
`Agreement`, `Evidence` and `Handoffs` say what kind of change each command is and what such a change
keeps. `Lifecycle`, `Runs`, `Transfers`, `History`, `Recording` and `Recovery` draw the conclusions over whole
sequences of commands, `Commands` says when each surrounding command succeeds and what it enables, `Progress`
shows that the commands can carry a task to its end, and `Reached` which odd states they can reach on the way.
`Policies` has the decision functions.

No command creates a handoff that names a run or asks for the lock to be transferred or released: such handoffs come
with imported or hand-written records. The model has them arrive as a step of its own, `ReceiveHandoffStep`.

**Import and renumbering.** `Renumbering` builds the id map, `Payloads` and `Rewriting` rename references,
`Ledger` is the whole import, `Writing` says from the guards where it stops and what it writes, `Numbering` is about
the counter over the life of a ledger, `LedgerStore` has the operations as methods of a class with a ghost history of
ids, `Transplant` says what ends up in the folders, `Imports` all that a successful or a stopped import leaves, `ImportResume` joins both protocols: export in the middle of an
implementation, import, resume; and `Ownership` shows that what the commands lead to can be exported.

**Kernels.** `Transcripts`, `Utf8`, `Search`, `ArchiveMembers`, `Codecs` with `RecordCodecs` and `PlanCodecs`,
and `FileLinks`.

`dafny verify dfyconfig.toml` checks everything.

## What does not hold

Some laws one would expect are false of the code. For each there is a lemma that says exactly when it holds, in terms of
what can be checked beforehand, and a lemma with a family of states or inputs for which it does not.

- A refused command changes nothing: exactly not for finishing without a lock and for a repairing resume whose
  dependencies are not done (`Recovery.RefusalLeavesTracesIff`; `Reached.FinishLeavesTraces`, `Reached.VerdictLeavesTraces`,
  `Reached.ResumeLeavesTraces`).
- `implementing` if and only if an implementation is running: broken exactly by cancelling in the middle
  (`Runs.ImplementingExactIff`; `Reached.FinishRevives`). Uncancelling can then lead to `failed_validation` with the implementation
  still running, where start, restart and resume refuse (`Recovery.UncancelDeadEnd`, `Recovery.ParkedInFailedValidation`),
  while cancel, uncancel to `approved` and resume succeed, and finish leads out although refused (`Recovery.WaysOut`).
- One history entry for each transfer: broken exactly by taking a lock under the id of a transferred one
  (`Transfers.TransfersConservedIff`; `Reached.LockIdHandedOutAgain`).
- Every broken lock stays on file: exactly until another is filed under the same time stamp
  (`History.BrokenLockKeptIff`; `Reached.SecondBreakOverwrites`).
- The counter is above every id there ever was, so that none is reused: exactly as long as no import stops having
  written a folder beyond the counter (`Numbering.CounterAheadIff`, `Numbering.ReissuedIff`; `Numbering.PartialImportReuses`,
  `Numbering.SameArchiveTwice`).
- A merge leaves existing tasks alone: exactly if it writes no record into their folders that is not there already, and no
  lock (`Transplant.MergeKeepsTaskIff`; `Transplant.OutsideRecordOverwrites`). For payloads closed under reference that is
  always so (`Transplant.MergeKeepsTasks`).
- A replacing import replaces what is there: exactly if no id of the archive is in use, otherwise it is refused
  (`Ledger.ReplaceNeedsDisjoint`).
- Renaming keeps the graph of references: exactly if nothing outside the map is captured (`Rewriting.SameGraphIff`;
  `Transplant.ImportCaptures`). For payloads closed under reference that is always so (`Transplant.ImportKeepsGraph`).
- A search gives the first `limit` matches: for every limit of at least one (`Search.SearchProject`), and for others exactly
  if there is no file or the first path does not match (`Search.BelowOne`).
- The stages `planning` and `validating` are declared but no command stores them: a task being planned stays in `draft` or
  `plan_review`, and what is under way is derived from lock and run. The model follows the code.

## Model

| member | source | states |
|---|---|---|
| `Runs.AlwaysGood` | taskledger/services/implementation_flow.py:77-552 | After every sequence of the 24 commands, refused ones included, and of handoffs that arrive from outside, stage, run, lock, plan, evidence lists, resume links and handoffs of a task agree |
| `Runs.ImplementingExactIff` | taskledger/services/implementation_flow.py:77-552 | Over every sequence of commands: the task is at every point `implementing` if and only if an implementation run is running, if and only if no command cancels an implementation under way; and a running implementation run is in any case the latest one, the only running run of any kind, and the one that any lock names, as an implementing lock |
| `Runs.StepExactIff` | taskledger/services/task_lifecycle.py:789-828 | From a state where that holds, one command keeps it if and only if it does not cancel an implementation under way: cancelling drops the lock and leaves the run running |
| `Runs.EvidenceListed` | taskledger/services/change_tracking.py:65-106 | After every sequence of commands the change log lists every change once in order of number; cut down to one run it is that run's `change_refs`, in the same order; and the `check_refs` of a run list exactly its checks, once and in order |
| `Runs.ResumeChainEnds` | taskledger/services/implementation_flow.py:165-206 | After every sequence of commands, following `resumes_run_id` from any run goes through implementation runs, meets none twice and ends at a run that resumes none |
| `Evidence.ResumeChain` | taskledger/services/implementation_flow.py:193-206 | The chain itself: consecutive links of stored runs with strictly falling numbers, ending where no link goes on |
| `Progress.LifeCompletes` | taskledger/services/implementation_flow.py:124-234 | For every number of failed validations a new task has a life with that many restarts: the chain of resumed runs is then one longer than that number, and a passing verdict brings the task to `done` with nothing under way |
| `Progress.RoundRestarts` | taskledger/services/implementation_flow.py:124-234 | Finish, validation, failing verdict and restart lead from one implementation under way to the next, which resumes it |
| `Progress.ChainKept` | taskledger/services/implementation_flow.py:193-206 | Later commands never alter the chain of runs behind a run |
| `Lifecycle.StepAdvances` | taskledger/services/implementation_flow.py:77-552 | Each command keeps the whole invariant, only a cancel can leave an implementation running outside `implementing`, and it conserves transfers if and only if it does not hand out the id of an already transferred lock |
| `Agreement.BeginsKeeps` | taskledger/services/tasks.py:1571-1617 | Starting a run of any kind, which needs that no lock exists and no run is running, keeps stage, run and lock in agreement |
| `Agreement.EndsKeeps` | taskledger/services/implementation_flow.py:497-552 | Ending the running run leaves no implementation running and no lock behind, and keeps the agreement |
| `Evidence.GainsChangeKeepsEvidence` | taskledger/services/change_tracking.py:34-106 | Recording a change keeps the change log, the lists of every run and the resume links right |
| `Evidence.GainsCheckKeepsEvidence` | taskledger/services/check_tracking.py:23-100 | Recording a check keeps the lists of every run right |
| `History.NothingLost` | taskledger/services/implementation_flow.py:77-552 | Over every sequence of commands no run, change or check disappears or is altered; lists of a run and the change log only get longer; a run that has ended never changes again |
| `History.BrokenLockKeptIff` | taskledger/services/task_events.py:63-68 | A filed broken lock survives a command if and only if the command does not file another lock under the same time stamp |
| `History.BrokenLocksKept` | taskledger/services/task_events.py:63-68 | Over every sequence of commands none of which files a lock under its time stamp, a filed lock stays |
| `Recording.LogStays` | taskledger/services/implementation_flow.py:357-376 | A message is logged if and only if an unexpired implementing lock is held on a visible task; it goes to the end of the worklog of the run that the lock names, nothing else changes, and after any further commands it is still at its place |
| `Recording.DeviationStays` | taskledger/services/implementation_flow.py:379-401 | The same for a deviation from the plan |
| `Recording.ArtifactStays` | taskledger/services/implementation_flow.py:404-429 | The same for an artifact |
| `Recording.ChangedIff` | taskledger/services/change_tracking.py:34-106 | A change is recorded if and only if an unexpired implementing lock is held on a visible task; the new record has kind, path and stripped summary as given, the id goes to the end of the change log and of the run's list, nothing else changes, and the record stays over all further commands |
| `Recording.CheckedIff` | taskledger/services/check_tracking.py:23-100 | A check is recorded if and only if recording is enabled; the new record has the command and exit code given, it is passed exactly for exit code 0 and unknown exactly without one, the id goes to the end of the run's list, and the record stays over all further commands |
| `Commands.StartedIff` | taskledger/services/implementation_flow.py:77-121 | An implementation starts if and only if the task is visible, `approved` or `failed_validation`, has an accepted plan, its dependencies are done and nothing is under way; then the new run is the only one running, has the plan as basis and resumes nothing, the lock is for it with a lease of two hours, and task, lock and run are told in full; refused, nothing changes |
| `Commands.RestartedIff` | taskledger/services/implementation_flow.py:124-234 | An implementation restarts if and only if in addition the task is in `failed_validation`, the latest validation ended failed or blocked with such a result, there is an earlier implementation to resume and a summary; the new run resumes that one and its worklog begins with the summary and with which validation had failed |
| `Commands.ResumedIff` | taskledger/services/implementation_flow.py:237-329 | A resume succeeds if and only if reason, stage, plan, dependencies and a running implementation are there and the lock is missing or, for a repair, expired and for that same run; then the run has a new lock with that reason, and an expired one is on file |
| `Commands.FinishedIff` | taskledger/services/implementation_flow.py:497-552 | In every state in which stage, run and lock agree, as they always do, an implementation is finished if and only if the task is visible, its mandatory todos are done and an implementing lock is held, expired or not; its run ends with the stripped summary, the lock goes, nothing else changes, and validation can start |
| `Commands.PlanningStartsIff` | taskledger/services/planning_flow.py:30-72 | Planning starts if and only if the task is visible, in `draft` or `plan_review`, and nothing is under way; the one new run is then the only one running, and a plan can be proposed until the lock expires |
| `Commands.ProposedIff` | taskledger/services/planning_flow.py:75-173 | A plan is proposed if and only if the latest planning run holds an unexpired lock and its text is well-formed; its version is above all others, no other plan changes, the run ends with the summary of the text, nothing stays under way, and it can be approved |
| `Commands.ApprovedIff` | taskledger/services/planning_flow.py:343-545 | A plan is approved if and only if it is a proposed one of a visible task in `plan_review` with nothing under way and the gates are passed; it is then the only accepted one, rejected ones stay, all others are superseded, and work can start |
| `Commands.RepairedIff` | taskledger/services/task_repair.py:78-153 | An orphaned planning run is ended, with a summary that gives the reason, if and only if a reason is given, the selected run is a running planning run and no lock is held; nothing is under way afterwards |
| `Commands.ValidationStartsIff` | taskledger/services/validation_flow.py:39-90 | Validation starts if and only if the task is visible and implemented by a finished latest run, the workspace is current and nothing is under way; the one new run is based on that implementation |
| `Commands.JudgedIff` | taskledger/services/validation_flow.py:260-335 | A verdict is accepted if and only if the latest validation run holds its lock and a passing one has its gates passed; run status, result and stage then all say the verdict, and nothing is under way |
| `Commands.UncancelledIff` | taskledger/services/task_lifecycle.py:831-903 | Uncancelling succeeds if and only if the task is visible, cancelled and unlocked, a reason is given, the actor may, and a stage asked for is supported by the records; without one a stage is always found; only the stage changes |
| `Commands.InferredIsValid` | taskledger/services/task_lifecycle.py:162-245 | The stage that is inferred always passes the check of stages that are asked for |
| `Commands.InferredIsFurthest` | taskledger/services/task_lifecycle.py:162-245 | The stage inferred is supported by plan and runs, and no supported stage is further on: failed validation, implemented, approved, plan review, draft |
| `Commands.CancelledIff` | taskledger/services/task_lifecycle.py:789-828 | Cancelling succeeds if and only if the task is visible and not at an end; the lock goes, runs stay as they are, and the agreement is kept |
| `Commands.BrokenIff` | taskledger/services/run_store.py:56-105 | A lock is broken if and only if there is one; it is filed under the time of breaking, the files of other times stay, and nothing else changes |
| `Commands.ArchivedIff` | taskledger/services/task_archive.py:31-112 | Archiving succeeds if and only if a reason is given and the task is archived already, or has no live lock, is not in `planning`, `implementing` or `validating`, and is at an end or forced; only the flag changes |
| `Commands.UnarchivedIff` | taskledger/services/task_archive.py:118-200 | Unarchiving succeeds if and only if a reason is given and, from a stage in which work could go on, reopening is asked for; the stage changes if and only if an implemented task is reopened |
| `Commands.ArchivingUndone` | taskledger/services/task_archive.py:31-200 | Unarchiving undoes archiving if and only if the stage is none in which work could go on, or it is reopened and was not implemented |
| `Commands.CreatedHandoffKeepsLock` | taskledger/api/handoff.py:27-106 | A handoff is created if and only if it is directed by a mode or a worker; it is new and open, nothing else changes, and claiming it never touches the lock |
| `Commands.ClaimedIff` | taskledger/services/handoff_lifecycle.py:20-100 | A handoff is claimed if and only if it is there and open and meant for the claimer: its kind and name, where given, are those of the claimer, and its harness, where given and not `any`, is his; then the handoff names claimer, harness, run and any lock passed on, a transferred lock has the new holder, actor, harness and date, a released one the date, and any other lock is left alone; refused, nothing changes |
| `Commands.ClosedIff` | taskledger/services/handoff_lifecycle.py:103-154 | Closing succeeds if and only if the handoff is there and open or claimed, cancelling if and only if it is open; the status is then closed or cancelled, a reason that is given replaces the summary, and nothing else changes |
| `Commands.LockInTheWay` | taskledger/services/tasks.py:1687-1740 | Where all else allows it, a start of any kind and uncancelling are refused for a lock, as stale exactly if it has expired |
| `Commands.RunInTheWay` | taskledger/services/tasks.py:1571-1623 | Without a lock a start of any kind is refused for a run that is still running |
| `Recovery.RecordingEnabledIff` | taskledger/services/implementation_flow.py:332-354 | In every state where stage, run and lock agree, work can be recorded if and only if the task is not archived and an unexpired implementing lock is held, and it is recorded on the run the lock names |
| `Recovery.ResumeNeverDisplaces` | taskledger/services/implementation_flow.py:237-329 | In any state at all, resume refuses and changes nothing while a live lock is held; it replaces a lock only when asked to repair, and then only an expired implementing lock of the run it resumes |
| `Recovery.RefusalLeavesTracesIff` | taskledger/services/implementation_flow.py:497-552 | A refused command leaves the directory as it was, except if and only if it is a finish of either kind whose lock is not there to release, or a repairing resume that drops an expired lock before a later check refuses |
| `Recovery.FinishRevivesCancelled` | taskledger/services/implementation_flow.py:510-552 | Finishing the run of a cancelled task is refused, but the task is `implemented` afterwards |
| `Recovery.CancelIsUndone` | taskledger/services/task_lifecycle.py:789-903 | Cancel, uncancel to `approved` and resume bring back the same runs and task, with a lock on the same run |
| `Recovery.ParkedInFailedValidation` | taskledger/services/implementation_flow.py:77-329 | In `failed_validation` with an implementation still running, start, restart and resume all refuse and change nothing |
| `Recovery.LostLockResumes` | taskledger/services/implementation_flow.py:255-329 | A good state that is `implementing`, without a lock, or with an expired one that is to be repaired: resume succeeds if and only if a reason is given and the dependencies are done; then recording is possible on the same run, and an expired lock is filed |
| `Recovery.LockLossRecoverable` | taskledger/services/implementation_flow.py:237-329 | The same after every sequence of commands, whatever lost the lock and however long ago it expired |
| `Recovery.UncancelDeadEnd` | taskledger/services/task_lifecycle.py:162-245 | Cancelling a restarted implementation and uncancelling without naming a stage always leads into that state |
| `Recovery.WaysOut` | taskledger/services/task_lifecycle.py:789-903 | What leads out of it: cancel, uncancel to `approved` and resume, for the same run; or finish, which is refused and yet leaves the task `implemented` with nothing running |
| `Reached.FinishLeavesTraces` | taskledger/services/implementation_flow.py:510-552 | Reached after any number of failed validations: the lock is broken, finishing is refused, and the task is `implemented` |
| `Reached.VerdictLeavesTraces` | taskledger/services/validation_flow.py:260-335 | Reached likewise: the lock of a validation is broken, any verdict is refused, and the task is in the stage the verdict leads to |
| `Reached.ResumeLeavesTraces` | taskledger/services/implementation_flow.py:255-285 | Reached likewise: a repairing resume is refused for its dependencies, and the expired lock is gone |
| `Reached.FinishRevives` | taskledger/services/implementation_flow.py:510-552 | Reached likewise: the task is cancelled, finishing is refused, and the task is `implemented` |
| `Reached.SecondBreakOverwrites` | taskledger/services/task_events.py:63-68 | Reached likewise: break, resume and break with equal time stamps lose the first broken lock |
| `Reached.LockIdHandedOutAgain` | taskledger/services/tasks.py:2421-2430 | Reached likewise, with a handoff from outside: after its claim, finish and a validation start in the second in which the lock was taken, the lock has the old id, an empty history, and one handoff that names it |
| `Transfers.TransfersConservedIff` | taskledger/services/handoff_lifecycle.py:20-154 | Over every sequence of commands: the length of the lock's transfer history is always the number of `transfer` handoffs whose released lock it is, if and only if no lock is taken under an id that handoffs name as transferred; and the history is in any case a chain from holder to holder ending at the current one |
| `Transfers.TransfersConserved` | taskledger/services/handoff_lifecycle.py:20-154 | In particular it always is if each lock that is taken has an id of its own; ids given to refused commands do not matter |
| `Transfers.ConservedIff` | taskledger/services/tasks.py:2421-2430 | One command conserves this count if and only if it does not meet all guards of taking a lock while given the id of a lock that was transferred |
| `Transfers.NewLockIff` | taskledger/services/tasks.py:1687-1740 | A task gets a new lock, under the id given, if and only if the guards of a start, restart, resume, planning start or validation start are met, which is also when that command succeeds |
| `Transfers.CommandsTransferNothing` | taskledger/api/handoff.py:69-106 | Without handoffs from outside no lock is ever transferred: the handoffs that the commands create never ask for it |
| `Transfers.SameSecondReuse` | taskledger/services/tasks.py:2421-2430 | From any good state with a transferred implementing lock: finish and a validation start in the same second give the same lock id with an empty history |
| `Transfers.SecondsSeparate` | taskledger/services/tasks.py:2421-2430 | Locks taken in different seconds never share an id |
| `Transfers.LockIdIs` | taskledger/services/tasks.py:2421-2430 | A lock id is the time stamp, a dash and one more than the number of stored and filed lock ids that begin with the stamp, in at least four digits |
| `Transfers.LeaseSurvivesHandoffs` | taskledger/services/phase5_lock_transfer.py:13-96 | Over every sequence of handoff commands lock id, task, run, stage, start, expiry and reason stay, the history grows as a chain, and task and runs are untouched |
| `Transfers.ClaimedOnce` | taskledger/services/handoff_lifecycle.py:20-154 | Over every sequence of commands a handoff only moves onward: it is claimed at most once, keeps what its claim recorded, and closed and cancelled are final |
| `Handoffs.TransferKeepsChain` | taskledger/services/phase5_lock_transfer.py:29-57 | A transfer appends one entry from the old holder to the new one, leaves the lease alone and keeps the chain |
| `Handoffs.ClaimTransfers` | taskledger/services/handoff_lifecycle.py:55-100 | A claim joins those that transferred the lock if and only if its policy is transfer and it reaches the lock |
| `Handoffs.ClaimKeeps` | taskledger/services/handoff_lifecycle.py:20-100 | A claim keeps the chain and the conservation of transfers |
| `TaskStore.TaskDirectory.constructor` | taskledger/services/task_lifecycle.py:287-322 | A new task directory holds the draft task and nothing else |
| `TaskStore.TaskDirectory.RunningRuns` | taskledger/services/tasks.py:1620-1623 | Finds a running run if and only if there is one |
| `TaskStore.TaskDirectory.AcquireLock` | taskledger/services/tasks.py:1687-1740 | Takes the lock when there is none; a lock that is there stays, and is accepted only for the same run and unexpired |
| `TaskStore.TaskDirectory.StartRun` | taskledger/services/tasks.py:1571-1617 | The steps of a start, one write after another, refine the specification on which the theorems are proved; the run is fresh |
| `TaskStore.TaskDirectory.ReleaseLock` | taskledger/services/tasks.py:1743-1781 | Removes exactly the lock of that stage and run, or refuses |
| `TaskStore.TaskDirectory.ReleaseExpiredLock` | taskledger/services/tasks.py:1784-1812 | Files the expired lock among the broken ones and removes it |
| `TaskStore.TaskDirectory.StartImplementation` | taskledger/services/implementation_flow.py:77-121 | The checks made one after another, then run, lock and task written in the order of the command, refine the specification |
| `TaskStore.TaskDirectory.RestartImplementation` | taskledger/services/implementation_flow.py:124-234 | Likewise for a restart after a failed validation, with its checks of both earlier runs and its link |
| `TaskStore.TaskDirectory.ResumeImplementation` | taskledger/services/implementation_flow.py:237-329 | Likewise for a resume, including the lock dropped before a refusal |
| `TaskStore.TaskDirectory.AddChange` | taskledger/services/change_tracking.py:34-106 | Likewise: the change record, the run and the change log, written one after another |
| `TaskStore.TaskDirectory.AddCheck` | taskledger/services/check_tracking.py:23-100 | Likewise: the check record and the run |
| `TaskStore.TaskDirectory.FinishImplementation` | taskledger/services/implementation_flow.py:497-552 | Likewise: run and stage are written before the lock is released, so a missing lock refuses after both |
| `TaskStore.TaskDirectory.TransferLock` | taskledger/services/phase5_lock_transfer.py:13-57 | The stored lock is replaced by the transferred one if its id is the one asked for, otherwise nothing changes |
| `TaskStore.TaskDirectory.StampRelease` | taskledger/services/phase5_lock_transfer.py:60-96 | A release stamps the stored lock and does not remove it |
| `TaskStore.TaskDirectory.ClaimHandoff` | taskledger/services/handoff_lifecycle.py:20-100 | The checks of status and intent made one after another, then the lock rewritten before the handoff, refine the specification |
| `TaskStore.TaskDirectory.CloseHandoff` | taskledger/services/handoff_lifecycle.py:103-127 | Refines the specification: open and claimed handoffs close, others refuse unchanged |
| `TaskStore.TaskDirectory.CancelHandoff` | taskledger/services/handoff_lifecycle.py:130-154 | Refines the specification: only an open handoff is cancelled, others refuse unchanged |
| `Policies.DeriveActiveStage` | taskledger/domain/policies.py:43-56 | The search finds a stage if and only if some running run has the lock's id and type, and it is then the lock's run type |
| `Policies.ActiveStageIff` | taskledger/domain/policies.py:43-56 | A stage is active exactly while a running run of the kind of the lock has the id the lock names, and it is the stage of that kind |
| `Policies.MutationDecisionsExact` | taskledger/domain/policies.py:336-527 | Each of the three mutation decisions allows if and only if stage, lock and running run agree on kind and run id |
| `Policies.PermissionsExclusive` | taskledger/domain/policies.py:88-216 | No two kinds of mutation are allowed at once, whatever runs are shown to them, and none together with a start of any kind, approval, revision or metadata edit |
| `Policies.PermissionsExact` | taskledger/domain/policies.py:88-216 | Approving, revising, editing and starting a run of each kind are allowed exactly in their stages, without any lock, and for an implementation with an accepted plan |
| `Policies.ExitCodes` | taskledger/domain/policies.py:88-527 | Approving, revising and editing are denied with exit code 4 for a lock alone; every other denial has 3 and every permission 0 |
| `Policies.LockCheckIff` | taskledger/domain/policies.py:530-564 | The lock check alone allows exactly if a lock of that stage is held, for that run if one is named; it denies with exit code 4 |
| `Policies.LockCheckNeverDenies` | taskledger/domain/policies.py:530-564 | Once the active stage matches, the closing lock check allows |
| `Ids.ParseFormat` | taskledger/ids.py:64-65 | Parsing a formatted id gives its number back, for every prefix and number, also past four digits |
| `Ids.FormatShape` | taskledger/ids.py:64-65 | An id is its prefix, a dash and the number in decimal, in at least four digits and with no more zeros in front than that takes |
| `Ids.NextIdFresh` | taskledger/ids.py:9-10 | The next id of a directory is not in use and numbers above all in use |
| `Ids.NextProjectId` | taskledger/ids.py:9-10 | The loop computes that id |
| `Ids.NextTaskNumberLeast` | taskledger/ids.py:13-26 | The number handed out is the configured one or the least above all in use, never one further on |
| `Ids.AllocateLedgerTaskId` | taskledger/ids.py:13-26 | The allocated id is unused, at or above the configured number and above every existing one, and the advanced counter is above it |
| `Renumbering.BuildTaskIdMap` | taskledger/exchange.py:460-486 | The loop over `allocated_ids`, `next_number` and `id_map` computes the specified map or refuses |
| `Renumbering.MapCorrect` | taskledger/exchange.py:460-486 | For every ledger, counter and list of incoming ids, repeated ones included, a map that is built is total on them, injective and disjoint from existing ids, and an id is changed only to a fresh number |
| `Renumbering.MapExistsIff` | taskledger/exchange.py:460-486 | Preserve and fail-on-conflict succeed if and only if no incoming id exists, renumbering always; ids that do not exist are kept |
| `Renumbering.MapExact` | taskledger/exchange.py:460-486 | An incoming id is kept exactly if it is not in use and no other incoming task is given it; a new one is the counter's or follows one in use or handed out, so that no number is skipped |
| `Renumbering.ChainShifts` | taskledger/exchange.py:474-486 | The chain in general: one existing task and any number of consecutive incoming ids starting with it shift every incoming id onto the next one |
| `Payloads.ReferencesMap` | taskledger/exchange.py:489-553 | Renaming a payload renames every reference where it stands, once |
| `Payloads.MapTwice` | taskledger/exchange.py:489-553 | One renaming after another is the renaming by the composition |
| `Rewriting.RewriteTaskIds` | taskledger/exchange.py:489-553 | The pass over tasks, records, locks, releases and the active task is the simultaneous renaming, chains included |
| `Rewriting.RewrittenExactly` | taskledger/exchange.py:489-553 | Place by place: ids the map knows are replaced and others stay, in tasks, parents, requirements, records, locks, sidecars, release boundaries and the active task; all else is as it was, but an archive of single tasks loses its active task |
| `Rewriting.SameGraphIff` | taskledger/exchange.py:489-553 | For an injective map: two references name the same task afterwards exactly when they did before, if and only if no reference from outside the map is an image; a payload closed under reference always qualifies |
| `Rewriting.RenamingUndone` | taskledger/exchange.py:489-553 | Renaming back gives the original payload |
| `Ledger.ImportMapCorrect` | taskledger/exchange.py:214-245 | The map of a whole import is total on the payload's tasks, injective and away from every existing task |
| `Ledger.OverwriteGuardUnreachable` | taskledger/exchange.py:556-564 | For every ledger, payload and option the overwrite guard never fires |
| `Ledger.ReplaceNeedsDisjoint` | taskledger/exchange.py:228-262 | A replacing import is refused, changing nothing, if and only if an incoming id already exists, because existing ids are read before the clear; otherwise nothing is renumbered |
| `Ledger.DryRunForetells` | taskledger/exchange.py:246-275 | A dry run changes nothing, reports what the real import from that state reports if it completes, and fails only where the real one refuses the ids |
| `Imports.IdsSettledIff` | taskledger/exchange.py:214-232 | The ids can be settled if and only if no task of the archive is in use, or the import merges and either may renumber or is of single tasks and was to preserve ids |
| `Imports.ReplacedExactly` | taskledger/exchange.py:198-292 | After a successful replacing import the releases are exactly those of the archive, the active task is the archive's or none, the folders are exactly those its tasks, records and locks name, and each holds these and nothing of before; no id is changed |
| `Imports.ImportedExactly` | taskledger/exchange.py:640-750 | After any successful import: the folders there are, in each the last task, the last record under each key and the locks as the policy asks over what a merge found, the releases added to those of before, and the active task |
| `Imports.StoppedExactly` | taskledger/exchange.py:640-750 | An import that stops partway leaves the tasks, the active task unless that is what is missing, the releases up to the refused one, and records only if it stopped at a lock; the counter is not repaired |
| `Imports.NameableIff` | taskledger/storage/task_store.py:893-905 | A release can be stored exactly under a version of letters, digits and `._+-` that begins with a letter or digit |
| `Imports.ReportExact` | taskledger/exchange.py:228-245 | The report maps exactly the ids of the archive, lists the new ids in the order of its tasks, and names those that were changed |
| `Imports.RepairLeast` | taskledger/exchange.py:567-595 | Repair leaves a counter that is above every folder alone, and moves any other to one above the largest |
| `Imports.ImportedCounter` | taskledger/exchange.py:275-292 | A successful import repairs the counter and does nothing else to it |
| `Imports.CreatedExactly` | taskledger/services/task_lifecycle.py:287-322 | A new task is a draft with nothing to it, under the least number that counter and tasks leave free; every other folder stays |
| `Writing.StopsIff` | taskledger/exchange.py:640-750 | Where the writing of an import stops, and for which reason, told before it begins: the active task or a boundary is neither there nor in the payload, a release cannot name a file or has a version that the ledger or an earlier one has, or a lock to be kept finds a lock or a second one for its task |
| `Writing.ReleasesStored` | taskledger/storage/task_store.py:382-388 | No stored release is ever overwritten; those of a payload are written up to the first that is refused, and nothing else is |
| `Writing.WrittenKeys` | taskledger/exchange.py:640-729 | Exactly which folders are there when it ends or stops |
| `Numbering.FailsPartwayIff` | taskledger/exchange.py:198-292 | An import fails after it has begun to write if and only if those guards say so |
| `Numbering.StepAheadIff` | taskledger/exchange.py:567-595 | From a counter ahead of its folders, any step keeps it ahead of the folders and never lowers it, if and only if it is not an import that stops having written a folder whose number the counter has not reached |
| `Numbering.CounterAheadIff` | taskledger/exchange.py:567-595 | Over every sequence of creations, imports, repairs and work: the counter is at every point above the number of every folder there ever was if and only if no step outruns it in that way |
| `Numbering.NeverReused` | README.md:310-312 | Then a new task never gets an id that was ever present, and its number is above all of them |
| `Numbering.ReissuedIff` | taskledger/ids.py:13-26 | And otherwise a number is issued again: the counter is behind some folder there has been if and only if, after an import that clears the ledger and some number of creations, the next task gets the number of a folder there was |
| `Numbering.RepairAhead` | taskledger/exchange.py:567-580 | A repair never lowers the counter and puts it above every folder, leaving the folders alone |
| `Numbering.PartialImportReuses` | taskledger/exchange.py:640-729 | A family in which it is issued again: for every counter, an archive whose active task is missing, then a replacing import of nothing |
| `Numbering.SameArchiveTwice` | taskledger/exchange.py:732-750 | Another, for every counter and every version: an archive with one task and a release is merged into a new ledger and merged again, which is refused after the task is written; after a replacing import of nothing the next task gets its number |
| `LedgerStore.MaxNumericTaskNumber` | taskledger/exchange.py:583-595 | None if and only if no folder name is numeric, otherwise the largest number |
| `LedgerStore.LedgerDirectory.constructor` | taskledger/ids.py:13-26 | An empty ledger with counter 1 |
| `LedgerStore.LedgerDirectory.CreateTask` | taskledger/ids.py:13-26 | The id was never present before, over the whole life of the ledger |
| `LedgerStore.LedgerDirectory.RepairNextTaskNumber` | taskledger/exchange.py:567-580 | The new counter is that of the specification, nothing else changes |
| `LedgerStore.LedgerDirectory.WriteReleases` | taskledger/exchange.py:732-750 | Nothing is written if a boundary task is missing; otherwise one release after another, up to the first whose version is stored already or cannot name a file |
| `LedgerStore.LedgerDirectory.ImportLocks` | taskledger/exchange.py:1139-1165 | Keep, quarantine and drop, including the lock file that already exists, as specified |
| `LedgerStore.LedgerDirectory.ImportPayload` | taskledger/exchange.py:640-729 | Tasks, records, active task, releases and locks in the order of the import |
| `LedgerStore.LedgerDirectory.ImportProject` | taskledger/exchange.py:198-292 | The whole import refines its specification, never lowers the counter, remembers every folder, and keeps the counter ahead of all of them if and only if it does not stop having written one beyond it |
| `Transplant.MergeLeavesIff` | taskledger/exchange.py:640-729 | For every payload: however a merge ends, it leaves a folder that is not a target of its map exactly as it was, if and only if it stops before records, or each of its records for that folder that is last under its key is there already, and no lock lands there |
| `Transplant.MergeKeepsTaskIff` | taskledger/exchange.py:198-292 | In particular that is when an existing task keeps its folder |
| `Transplant.MergeKeepsTasks` | taskledger/exchange.py:198-292 | For a payload closed under reference every existing task keeps its folder, records and lock |
| `Transplant.OutsideRecordOverwrites` | taskledger/exchange.py:640-729 | A family in which it does not: one record of an outside task replaces that task's record |
| `Transplant.ClosedImportIff` | taskledger/exchange.py:198-292 | For every ledger: an import of a closed payload succeeds if and only if the ids can be mapped, each of its releases is nameable and new and, when locks are kept, no task has two and no folder they go to is locked; it fails half-way exactly when only the latter fails |
| `Transplant.ImportKeepsGraph` | taskledger/exchange.py:214-245 | For every ledger and every closed payload, the ids that the import itself gives keep who refers to whom |
| `Transplant.ImportCaptures` | taskledger/exchange.py:474-553 | For a payload that is not closed they need not: into a new ledger with one created task, a task of the same number is merged whose parent is outside the payload, and it becomes its own parent |
| `Transplant.ExportThenImportOver` | taskledger/exchange.py:122-195 | For every target ledger: exporting folders and importing them puts into the mapped folder exactly the renamed task and records, and the lock live, quarantined or nowhere as the policy says, laid over what a folder of that name without a task held |
| `Transplant.ExportThenImport` | taskledger/exchange.py:122-195 | Exactly the renamed folder, if the ledger is replaced or has nothing under that name |
| `ImportResume.FolderIsRenamed` | taskledger/exchange.py:1139-1165 | The imported directory is the renamed original, with its lock live if and only if locks are kept |
| `ImportResume.RenameGood` | taskledger/exchange.py:489-553 | Everything that holds of a directory in every reachable state also holds of the renamed one, with and without its lock |
| `ImportResume.ResumeAfterImport` | taskledger/services/implementation_flow.py:255-329 | From any folder in order and in agreement: a task exported in the middle of an implementation and imported with quarantine or drop: no lock is live, no run data is lost, resume succeeds if and only if a reason is given and dependencies are done, and then the invariant holds on the renamed task, with the same run id, and work can be recorded |
| `ImportResume.KeptStage` | taskledger/domain/policies.py:43-56 | With locks kept the derived active stage of the imported task is that of the original, however the runs are listed |
| `Ownership.AlwaysOwned` | taskledger/services/change_tracking.py:56-106 | After every sequence of commands each run, change, check, handoff and lock of a directory belongs to its task and is stored under its own id |
| `Ownership.ReadBack` | taskledger/storage/task_store.py:446-640 | Reading the folder of a directory gives the directory back, apart from its broken locks, which no payload holds |
| `Ownership.LivedExports` | taskledger/exchange.py:122-195 | Whatever commands have done to the tasks of a ledger, its folders have an archive |
| `Ownership.ResumeAnywhere` | taskledger/services/implementation_flow.py:255-329 | After any sequence of commands that leaves a task `implementing`: exported, and imported with quarantine or drop, no lock is live, no run data is lost, and resume succeeds if and only if a reason is given and dependencies are done, with the same run under way, the whole invariant and recording possible |
| `Transcripts.LogicalRows` | taskledger/services/agent_transcripts.py:296-370 | Rows partition the log in order, and each tells of its records: failed exactly if an exit code is there and not 0, of either record in a pair, result `passed` exactly if not failed, a mismatch exactly if both codes are there and differ, the effective exit is the managed one if there is one, the text is that of the last record and the start that of the first |
| `Transcripts.InnerIs` | taskledger/services/agent_transcripts.py:481-484 | The inner command is what follows the first ` -- `, or the whole line without one |
| `Transcripts.NormalizeIs` | taskledger/services/agent_transcripts.py:468-489 | A command is compared by what follows ` -- `, if anything, with its words apart by single spaces |
| `Transcripts.StartsExactly` | taskledger/services/agent_transcripts.py:455-489 | A position starts a row if and only if its record is not absorbed by a wrapper just before it that matches it |
| `Transcripts.AbsorbedAbsorbsNot` | taskledger/services/agent_transcripts.py:455-484 | An absorbed record is no wrapper, so absorption never chains |
| `Transcripts.RetryMap` | taskledger/services/agent_transcripts.py:373-387 | The map marks exactly the failed rows, true if and only if the same command succeeds later |
| `Transcripts.FirstValidationFinish` | taskledger/services/agent_transcripts.py:390-399 | Index of the first row that finishes a validation, none if and only if there is none |
| `Utf8.TruncateLongestPrefix` | taskledger/services/agent_logging.py:553-560 | For every text and limit: it succeeds if and only if the text has no lone surrogate; the result is the longest code-point prefix whose UTF-8 form fits; it wastes at most three bytes; and it is the text itself if and only if that fits |
| `Utf8.RoundTrip` | taskledger/services/agent_logging.py:553-560 | Decoding with errors ignored undoes encoding (sections 3 and 4 of RFC 3629) |
| `Utf8.SequenceIff` | taskledger/services/agent_logging.py:553-560 | Bytes are decoded at a place exactly if the encoding of a code point that is no surrogate stands there, and then to it |
| `Utf8.EncodedForm` | taskledger/services/agent_logging.py:553-560 | The number of bytes goes by the size of the code point, and their bits put together give it |
| `Utf8.PartIgnored` | taskledger/services/agent_logging.py:553-560 | A proper part of the bytes of one code point decodes to nothing |
| `Search.SearchProject` | taskledger/search.py:94-140 | Refused if and only if the query is blank; for a limit of at least one, exactly the first `limit` of all matches (path, then at most three lines a file); for others, the path match of the first file |
| `Search.BelowOne` | taskledger/search.py:94-140 | For a limit below one the result is still the beginning of the whole, and is the first none of it if and only if there is no file or the first path does not match |
| `Search.GrepProject` | taskledger/search.py:143-175 | The first `limit` of all matching lines, at least one |
| `Search.SymbolsProject` | taskledger/search.py:178-211 | The first `limit` of all matching symbols, at least one |
| `Search.TakeMonotone` | taskledger/search.py:94-211 | A larger limit only appends |
| `Search.LinesFound` | taskledger/search.py:118-135 | Every matching line is told, in order, with repository, path, number from one and stripped text, and no other |
| `Search.SymbolsFound` | taskledger/search.py:178-211 | Every matching symbol is told, in order, with repository, path, line and name, and no other |
| `Search.FileFound` | taskledger/search.py:94-140 | A file gives its path, if that matches, and then its first three matching lines, or fewer; one that cannot be read gives neither lines nor symbols |
| `ArchiveMembers.ValidateArchiveMembers` | taskledger/exchange.py:1324-1373 | The loop with its running total and early exits computes the specified answer |
| `ArchiveMembers.CheckIff` | taskledger/exchange.py:1324-1373 | Accepted if and only if both required members are there, they are not too many, every member is sound by name, kind and size, and the artifact total is within its bound; the answer is then the artifact names in order |
| `ArchiveMembers.RefusedFor` | taskledger/exchange.py:1324-1373 | Which error an archive is refused with: a required member that is missing, too many, and then what is wrong with the first member that is not sound or takes the artifacts over their bound |
| `ArchiveMembers.OrderIrrelevant` | taskledger/exchange.py:1324-1373 | Acceptance and result do not depend on the order of members, in spite of the early exits |
| `ArchiveMembers.LastCheckUnreachable` | taskledger/exchange.py:1366-1373 | The closing check for missing members never fires |
| `ArchiveMembers.SafeIff` | taskledger/exchange.py:1338-1340 | The component walk refuses a name if and only if it is absolute or has a `..` component |
| `ArchiveMembers.SortOrdered` | taskledger/exchange.py:1366-1373 | The result is in order and has the same names |
| `Codecs.LockRoundTripIff` | taskledger/domain/lock.py:47-117 | A lock survives print-then-parse, with actors, harness and transfer history, if and only if it is normal |
| `Codecs.ReadingSettles` | taskledger/domain/lock.py:47-117 | Whatever is read, writing and reading it again gives the same lock |
| `Codecs.LockReadIff` | taskledger/domain/lock.py:75-117 | Exactly which objects can be read as a lock; a lease that is missing or zero is two hours |
| `Codecs.ReadHistory` | taskledger/domain/lock.py:75-117 | The loop keeps the entries of three, in order |
| `Codecs.PassedOver` | taskledger/domain/lock.py:81-87 | In lists of texts and in histories what is no text or no triple is passed over, and the rest keeps its order |
| `Codecs.StageRecovered` | taskledger/domain/_model_utils.py:90-101 | A record without its stage still names it by its run type |
| `Codecs.ActorRoundTripIff` | taskledger/domain/actor.py:39-80 | An actor survives if and only if type, role and scope are known and the name is not empty |
| `Codecs.ActorReadAs` | taskledger/domain/actor.py:55-80 | Exactly which values can be read as an actor, and what a missing type, name, role or scope is read as |
| `Codecs.HarnessRoundTrip` | taskledger/domain/actor.py:97-130 | A normal harness survives |
| `Codecs.HarnessReadAs` | taskledger/domain/actor.py:112-131 | Exactly which values can be read as a harness, and what a missing kind or time is read as |
| `Codecs.PlanIdsInverse` | taskledger/domain/_model_utils.py:71-87 | Version to id to version is the identity on naturals and fails on negatives; id to version to id is the identity if and only if there are no leading zeros |
| `Codecs.PlanRefSettles` | taskledger/domain/run.py:105-164 | Which plan a run names: writing and reading leaves it alone if and only if it is stored form, and once is enough to reach stored form |
| `RecordCodecs.RunNormalised` | taskledger/domain/run.py:67-158 | Writing and reading a run settles the plan it names and keeps every other field |
| `RecordCodecs.RunRoundTripIff` | taskledger/domain/run.py:67-158 | A run survives if and only if reading could have produced it and its plan is in stored form |
| `RecordCodecs.RunSettles` | taskledger/domain/run.py:67-158 | Print-then-parse is idempotent on whatever was read |
| `RecordCodecs.RunReadIff` | taskledger/domain/run.py:105-158 | Exactly which objects can be read as a run; a missing start is the time of reading |
| `RecordCodecs.PlanReadAs` | taskledger/domain/run.py:118-119 | The version of the plan of a run: its own, or a number in place of the id, or what the id tells |
| `PlanCodecs.PlanRoundTripIff` | taskledger/domain/plan.py:57-142 | A plan of any version, zero and negative ones included, survives if and only if it is normal: among others, if it refers to questions it is based on some |
| `PlanCodecs.PlanSettles` | taskledger/domain/plan.py:57-142 | Whatever is read, writing and reading it again gives the same plan |
| `PlanCodecs.PlanReadIff` | taskledger/domain/plan.py:95-142 | Exactly which objects can be read as a plan |
| `PlanCodecs.PlanVersionRead` | taskledger/domain/plan.py:95-146 | Version zero counts as absent in both version fields and is recovered from the plan id |
| `PlanCodecs.PlanVersionIs` | taskledger/domain/plan.py:97-103 | The plan version goes before the version and that before the id; zero counts as absent |
| `FileLinks.UnchangedIff` | taskledger/services/file_links.py:94-138 | Against a taken baseline: unchanged if and only if the path holds the same thing; new and deleted exactly on appearance and disappearance |
| `FileLinks.StatusExact` | taskledger/services/file_links.py:117-138 | When each status is reported, for any link and whatever is found: without a baseline, new, deleted, and modified for another type or, for a file, another hash or, where a hash is missing, another size |
| `FileLinks.BaselineIs` | taskledger/services/file_links.py:94-104 | What is found of the path is kept as the baseline of a link, which stays the same otherwise |
| `FileLinks.FileStatus` | taskledger/services/file_links.py:157-179 | Each counter counts the links of its status, so that together they count every link once |
| `FileLinks.LinkStore.RefreshBaseline` | taskledger/services/file_links.py:182-233 | Every link on the path gets the current baseline and reports `unchanged`, every other link stays; refused without change if and only if the reason is blank, the task archived or no link is on the path |

## Left out

- The command line, launcher, rendering, configuration, dashboards, agent command recording and redaction.
- Files, YAML and JSON text, tar streams, git and hashing: stored records are maps, a look at a path and a compiled
  pattern are function parameters, and an archive is the list of its members.
- Clock, actors, new lock ids and the state of dependencies are parameters of a command; approval gates, the
  gates of a passing verdict, the check of the validation snapshot, the rule who may uncancel and whether a handoff names
  a mode or worker that a context can be made for are truth values; the text of a plan is what parsing it comes to.
- Record fields that no modelled command looks at: time stamps other than those of locks, workspace snapshots,
  heartbeat and broken marks of locks in the protocol (they are in the codec).
- Events, indexes and agent logs, which the commands append and no modelled command reads.
- Questions, todos, links, code reviews, introductions and requirement sidecars of an import
  (`taskledger/exchange.py:598-637`), which are written beside the records modelled; references in requirements are renamed.
- Task ids that do not begin with `task-`: the store lists and clears only folders of that form, the model treats all alike.
- Digits outside ASCII, which the source's number patterns accept.
- The check that an archive is of the same project, slug conflicts, and lookup of archived tasks by reference.
- Rejecting a plan, regenerating one from answers, planning commands, recording a finished task after the fact, and
  `scan_changes`, which only calls `add_change` with data from git.
- Records of a payload that cannot be parsed: the payload of an import is already a value.
- Concurrent writers; lock creation is one exclusive step.
- The transition table of stages, the decisions for plan commands, questions and todos, `_next_log_id` and
  `classify_check_command`: they would add only easy members.
- Policies.MutationDecisionsExact: messages and blocking references of a decision are not modelled, only whether it
  allows, its code and its exit code.
- Numbering.CounterAheadIff: starts from any ledger whose counter is positive and ahead of its folders, as a new ledger's is;
  and its condition is about the kinds of record modelled and payloads that can be parsed. Sidecars of outside tasks
  (`taskledger/exchange.py:598-637`) and artifacts under `tasks/` (`taskledger/exchange.py:1283-1314`) may create folders too,
  and a record that cannot be parsed stops an import like the other guards.
- Transplant.MergeLeavesIff: for folders with a name, as a task without an id is refused when it is read; and about the
  kinds of record modelled, not sidecars, questions, code reviews or artifacts.
- Search.SearchProject: lower-casing is a parameter, any function on strings.
- Utf8.TruncateLongestPrefix: limits are not negative, as the configuration demands.
- RecordCodecs.RunRoundTripIff: the validation checks of a run are kept as JSON mappings, their own codec is not modelled.
- PlanCodecs.PlanRoundTripIff: criteria and todos of a plan are kept as JSON mappings, their own codecs are not modelled.
- Codecs.LockRoundTripIff: a JSON truth value read as a number becomes 0 or 1.
