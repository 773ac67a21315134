/** The policy decisions: which command a task, its lock and one of its runs permit. */
module Policies {
  import opened Common
  import opened Records

  datatype Code =
    | OK | POLICY_DENIED | TASK_NOT_PLANNABLE | TASK_NOT_APPROVED | TASK_NOT_IMPLEMENTED

  datatype Decision = Decision(allowed: bool, code: Code, exitCode: nat)

  const INVALID_TRANSITION: nat := 3
  const APPROVAL_REQUIRED: nat := 3
  const LOCK_CONFLICT: nat := 4

  datatype PolicyContext = PolicyContext(task: Task, lock: Option<Lock>, run: Option<Run>, activeStage: Option<RunType>)

  function Allow(): Decision { Decision(true, OK, 0) }

  function Deny(exitCode: nat): Decision { Decision(false, POLICY_DENIED, exitCode) }

  /** The run type of the first run that the lock names, that has the lock's type and is still running. */
  method DeriveActiveStage(lock: Option<Lock>, runs: seq<Run>) returns (active: Option<RunType>)
    ensures active.Some? <==> lock.Some? && exists i :: 0 <= i < |runs| && LockNames(lock.value, runs[i])
    ensures active.Some? ==> active.value == lock.value.RunType()
    ensures active == ActiveStageOf(lock, runs)
  {
    if lock == None {
      return None;
    }
    for i := 0 to |runs|
      invariant forall j :: 0 <= j < i ==> !LockNames(lock.value, runs[j])
    {
      if LockNames(lock.value, runs[i]) {
        return Some(runs[i].runType);
      }
    }
    active := None;
  }

  predicate LockNames(lock: Lock, run: Run) {
    run.runId == lock.runId && run.runType == lock.RunType() && run.status == Running
  }

  function ActiveStageOf(lock: Option<Lock>, runs: seq<Run>): Option<RunType> {
    if lock.Some? && exists i :: 0 <= i < |runs| && LockNames(lock.value, runs[i])
    then Some(lock.value.RunType())
    else None
  }

  predicate SameKind(stage: LockStage, kind: RunType) {
    || (stage == LockPlanning && kind == PlanningRun)
    || (stage == LockImplementing && kind == ImplementationRun)
    || (stage == LockValidating && kind == ValidationRun)
  }

  /** A stage is active exactly while a running run of the kind the lock is for has its id, and it is of that kind. */
  lemma ActiveStageIff(lock: Option<Lock>, runs: seq<Run>)
    ensures ActiveStageOf(lock, runs).Some? <==>
              && lock.Some?
              && exists i :: && 0 <= i < |runs| && runs[i].runId == lock.value.runId && runs[i].status == Running
                             && SameKind(lock.value.stage, runs[i].runType)
    ensures ActiveStageOf(lock, runs).Some? ==> SameKind(lock.value.stage, ActiveStageOf(lock, runs).value)
  {
  }

  function BuildContext(task: Task, lock: Option<Lock>, run: Option<Run>): PolicyContext {
    PolicyContext(task, lock, run,
      if lock == None then None
      else if run.Some? then ActiveStageOf(lock, [run.value])
      else Some(lock.value.RunType()))
  }

  function ActiveStageLockDecision(ctx: PolicyContext, expected: LockStage, runId: Option<string>): Decision {
    if ctx.lock == None then Deny(LOCK_CONFLICT)
    else if ctx.lock.value.RunType() != ExpectedRunType(expected) then Deny(LOCK_CONFLICT)
    else if runId.Some? && ctx.lock.value.runId != runId.value then Deny(LOCK_CONFLICT)
    else Allow()
  }

  /** The shape shared by the plan, implementation and validation mutations. */
  function MutationDecision(ctx: PolicyContext, stages: set<Stage>, expected: LockStage): Decision {
    if ctx.task.stage !in stages || ctx.activeStage != Some(ExpectedRunType(expected)) then Deny(INVALID_TRANSITION)
    else if ctx.run == None || ctx.run.value.runType != ExpectedRunType(expected) || ctx.run.value.status != Running
    then Deny(INVALID_TRANSITION)
    else ActiveStageLockDecision(ctx, expected, Some(ctx.run.value.runId))
  }

  /** The lock check allows exactly if a lock of this stage is held, for this run if one is named; else exit code 4. */
  lemma LockCheckIff(ctx: PolicyContext, expected: LockStage, runId: Option<string>)
    ensures var d := ActiveStageLockDecision(ctx, expected, runId);
      && (d.allowed <==> && ctx.lock.Some? && ctx.lock.value.stage == expected
                         && (runId.Some? ==> ctx.lock.value.runId == runId.value))
      && d.exitCode == if d.allowed then 0 else 4
  {
  }

  const PLANNING_STAGES: set<Stage> := {Draft, PlanReview}
  const IMPLEMENTATION_STAGES: set<Stage> := {Approved, FailedValidation, Implementing}
  const VALIDATION_STAGES: set<Stage> := {Implemented}

  function PlanProposeDecision(task: Task, lock: Option<Lock>, run: Option<Run>): Decision {
    MutationDecision(BuildContext(task, lock, run), PLANNING_STAGES, LockPlanning)
  }

  function ImplementationMutationDecision(task: Task, lock: Option<Lock>, run: Option<Run>): Decision {
    MutationDecision(BuildContext(task, lock, run), IMPLEMENTATION_STAGES, LockImplementing)
  }

  function ValidationCheckDecision(task: Task, lock: Option<Lock>, run: Option<Run>): Decision {
    MutationDecision(BuildContext(task, lock, run), VALIDATION_STAGES, LockValidating)
  }

  function PlanApproveDecision(task: Task, lock: Option<Lock>): Decision {
    var ctx := BuildContext(task, lock, None);
    if ctx.task.stage != PlanReview then Deny(APPROVAL_REQUIRED)
    else if ctx.activeStage.Some? then Deny(LOCK_CONFLICT)
    else Allow()
  }

  function PlanReviseDecision(task: Task, lock: Option<Lock>): Decision {
    var ctx := BuildContext(task, lock, None);
    if ctx.task.stage != PlanReview then Deny(INVALID_TRANSITION)
    else if ctx.activeStage.Some? then Deny(LOCK_CONFLICT)
    else Allow()
  }

  function MetadataEditDecision(task: Task, lock: Option<Lock>): Decision {
    var ctx := BuildContext(task, lock, None);
    if ctx.task.stage !in {Draft, PlanReview, Approved} then Deny(INVALID_TRANSITION)
    else if ctx.activeStage.Some? then Deny(LOCK_CONFLICT)
    else Allow()
  }

  function CanStartPlanning(task: Task, lock: Option<Lock>): Decision {
    var allowed := task.stage in {Draft, PlanReview} && lock == None;
    if allowed then Allow() else Decision(false, TASK_NOT_PLANNABLE, INVALID_TRANSITION)
  }

  function CanStartImplementation(task: Task, lock: Option<Lock>, acceptedPlan: bool): Decision {
    var allowed := task.stage in {Approved, FailedValidation} && acceptedPlan && lock == None;
    if allowed then Allow() else Decision(false, TASK_NOT_APPROVED, APPROVAL_REQUIRED)
  }

  function CanStartValidation(task: Task, lock: Option<Lock>): Decision {
    var allowed := task.stage == Implemented && lock == None;
    if allowed then Allow() else Decision(false, TASK_NOT_IMPLEMENTED, INVALID_TRANSITION)
  }

  // ---- what the decisions mean ----

  /** Stage, lock and run agree on one kind of work. */
  predicate Agree(task: Task, lock: Option<Lock>, run: Option<Run>, stages: set<Stage>, kind: LockStage) {
    && task.stage in stages
    && lock.Some? && lock.value.stage == kind
    && run.Some? && run.value.runType == lock.value.RunType() && run.value.status == Running
    && lock.value.runId == run.value.runId
  }

  lemma MutationAllowedIff(task: Task, lock: Option<Lock>, run: Option<Run>, stages: set<Stage>, kind: LockStage)
    ensures MutationDecision(BuildContext(task, lock, run), stages, kind).allowed
            <==> Agree(task, lock, run, stages, kind)
  {
    if run.Some? {
      assert [run.value][0] == run.value;
    }
  }

  /** Each mutation is allowed exactly when stage, lock and running run agree on kind and run id. */
  lemma MutationDecisionsExact(task: Task, lock: Option<Lock>, run: Option<Run>)
    ensures PlanProposeDecision(task, lock, run).allowed <==> Agree(task, lock, run, PLANNING_STAGES, LockPlanning)
    ensures ImplementationMutationDecision(task, lock, run).allowed
            <==> Agree(task, lock, run, IMPLEMENTATION_STAGES, LockImplementing)
    ensures ValidationCheckDecision(task, lock, run).allowed
            <==> Agree(task, lock, run, VALIDATION_STAGES, LockValidating)
  {
    MutationAllowedIff(task, lock, run, PLANNING_STAGES, LockPlanning);
    MutationAllowedIff(task, lock, run, IMPLEMENTATION_STAGES, LockImplementing);
    MutationAllowedIff(task, lock, run, VALIDATION_STAGES, LockValidating);
  }

  /** The other decisions depend on the stage, the accepted plan and whether there is a lock, live or not. */
  lemma PermissionsExact(task: Task, lock: Option<Lock>, accepted: bool)
    ensures PlanApproveDecision(task, lock).allowed <==> task.stage == PlanReview && lock == None
    ensures PlanReviseDecision(task, lock).allowed <==> task.stage == PlanReview && lock == None
    ensures MetadataEditDecision(task, lock).allowed
            <==> (task.stage == Draft || task.stage == PlanReview || task.stage == Approved) && lock == None
    ensures CanStartPlanning(task, lock).allowed <==> (task.stage == Draft || task.stage == PlanReview) && lock == None
    ensures CanStartImplementation(task, lock, accepted).allowed
            <==> (task.stage == Approved || task.stage == FailedValidation) && accepted && lock == None
    ensures CanStartValidation(task, lock).allowed <==> task.stage == Implemented && lock == None
  {
  }

  /** A denial for a lock alone has exit code 4, every other one 3, and permission is given with exit code 0. */
  lemma ExitCodes(task: Task, lock: Option<Lock>, run: Option<Run>, accepted: bool)
    ensures PlanApproveDecision(task, lock).exitCode
            == if task.stage != PlanReview then 3 else if lock.Some? then 4 else 0
    ensures PlanReviseDecision(task, lock).exitCode
            == if task.stage != PlanReview then 3 else if lock.Some? then 4 else 0
    ensures MetadataEditDecision(task, lock).exitCode
            == if task.stage !in {Draft, PlanReview, Approved} then 3 else if lock.Some? then 4 else 0
    ensures PlanProposeDecision(task, lock, run).exitCode
            == if PlanProposeDecision(task, lock, run).allowed then 0 else 3
    ensures ImplementationMutationDecision(task, lock, run).exitCode
            == if ImplementationMutationDecision(task, lock, run).allowed then 0 else 3
    ensures ValidationCheckDecision(task, lock, run).exitCode
            == if ValidationCheckDecision(task, lock, run).allowed then 0 else 3
    ensures CanStartPlanning(task, lock).exitCode == if CanStartPlanning(task, lock).allowed then 0 else 3
    ensures CanStartImplementation(task, lock, accepted).exitCode
            == if CanStartImplementation(task, lock, accepted).allowed then 0 else 3
    ensures CanStartValidation(task, lock).exitCode == if CanStartValidation(task, lock).allowed then 0 else 3
  {
    MutationDecisionsExact(task, lock, run);
    if run.Some? {
      assert [run.value][0] == run.value;
    }
  }

  /** Once the stage and run checks pass, the closing lock check cannot deny. */
  lemma LockCheckNeverDenies(task: Task, lock: Option<Lock>, run: Option<Run>, kind: LockStage)
    requires BuildContext(task, lock, run).activeStage == Some(ExpectedRunType(kind))
    requires run.Some?
    ensures ActiveStageLockDecision(BuildContext(task, lock, run), kind, Some(run.value.runId)).allowed
  {
    assert [run.value][0] == run.value;
  }

  /**
   Permissions of one task and lock, whatever runs they are asked about, exclude each other:
   at most one kind of mutation, and no mutation beside a start, approve, revise or metadata edit.
   */
  lemma PermissionsExclusive(
    task: Task, lock: Option<Lock>, r1: Option<Run>, r2: Option<Run>, r3: Option<Run>, accepted: bool)
    ensures !(PlanProposeDecision(task, lock, r1).allowed && ImplementationMutationDecision(task, lock, r2).allowed)
    ensures !(PlanProposeDecision(task, lock, r1).allowed && ValidationCheckDecision(task, lock, r3).allowed)
    ensures !(ImplementationMutationDecision(task, lock, r2).allowed && ValidationCheckDecision(task, lock, r3).allowed)
    ensures PlanProposeDecision(task, lock, r1).allowed
            || ImplementationMutationDecision(task, lock, r2).allowed
            || ValidationCheckDecision(task, lock, r3).allowed
            ==> !CanStartPlanning(task, lock).allowed && !CanStartImplementation(task, lock, accepted).allowed
                && !CanStartValidation(task, lock).allowed && !PlanApproveDecision(task, lock).allowed
                && !PlanReviseDecision(task, lock).allowed && !MetadataEditDecision(task, lock).allowed
  {
    MutationDecisionsExact(task, lock, r1);
    MutationDecisionsExact(task, lock, r2);
    MutationDecisionsExact(task, lock, r3);
  }
}
