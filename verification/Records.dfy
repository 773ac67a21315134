/** The records of one task directory, as far as the lifecycle reads or writes them. */
module Records {
  import opened Common

  datatype Stage =
    | Draft | Planning | PlanReview | Approved | Implementing
    | Implemented | Validating | Done | FailedValidation | Cancelled

  datatype RunType = PlanningRun | ImplementationRun | ValidationRun

  datatype RunStatus = Running | Paused | Finished | Passed | Failed | Blocked | Aborted

  datatype Verdict = VerdictPassed | VerdictFailed | VerdictBlocked

  datatype PlanStatus = DraftPlan | Proposed | Accepted | Superseded | Rejected

  datatype LockStage = LockPlanning | LockImplementing | LockValidating

  datatype HandoffStatus = Open | Claimed | Closed | CancelledHandoff

  datatype LockPolicy = NoPolicy | Retain | Release | Transfer

  datatype Actor = Actor(kind: string, name: string) {
    /** How a lock's transfer history spells an actor. */
    function Tag(): string {
      kind + ":" + name
    }
  }

  datatype Task = Task(
    id: string,
    stage: Stage,
    archived: bool,
    latestPlan: Option<nat>,
    acceptedPlan: Option<nat>,
    latestPlanningRun: Option<string>,
    latestImplementationRun: Option<string>,
    latestValidationRun: Option<string>,
    changeLog: seq<string>,
    parent: Option<string>,
    requirements: seq<string>
  )

  datatype Run = Run(
    runId: string,
    taskId: string,
    runType: RunType,
    status: RunStatus,
    actor: Actor,
    basedOnPlan: Option<nat>,
    basedOnImplementation: Option<string>,
    resumes: Option<string>,
    result: Option<Verdict>,
    summary: Option<string>,
    worklog: seq<string>,
    deviations: seq<string>,
    changeRefs: seq<string>,
    checkRefs: seq<string>,
    artifactRefs: seq<string>
  )

  datatype Change = Change(changeId: string, taskId: string, run: string, kind: string, path: string, summary: string)

  datatype CheckStatus = CheckPassed | CheckFailed | CheckUnknown

  datatype Check = Check(
    checkId: string, taskId: string, run: string, command: string, exitCode: Option<int>, status: CheckStatus)

  /** One entry of a lock's transfer history. */
  datatype TransferEntry = TransferEntry(lockId: string, source: string, target: string)

  function ExpectedRunType(stage: LockStage): RunType {
    match stage
    case LockPlanning => PlanningRun
    case LockImplementing => ImplementationRun
    case LockValidating => ValidationRun
  }

  datatype Lock = Lock(
    lockId: string,
    taskId: string,
    stage: LockStage,
    runId: string,
    createdAt: int,
    expiresAt: Option<int>,
    reason: string,
    holder: Actor,
    actor: Option<Actor>,
    harness: Option<string>,
    history: seq<TransferEntry>,
    transferDate: Option<int>
  ) {
    function RunType(): RunType {
      ExpectedRunType(stage)
    }

    /** A lock without an expiry never expires. */
    predicate Expired(now: int) {
      expiresAt.Some? && expiresAt.value < now
    }
  }

  datatype Handoff = Handoff(
    handoffId: string,
    taskId: string,
    status: HandoffStatus,
    lockPolicy: LockPolicy,
    intendedKind: Option<string>,
    intendedName: Option<string>,
    intendedHarness: Option<string>,
    sourceRun: Option<string>,
    claimRun: Option<string>,
    releasedLock: Option<string>,
    claimedBy: Option<Actor>,
    claimedIn: Option<string>,
    summary: Option<string>
  )

  /** Everything stored under one task's directory; a broken lock is filed under the time of its breaking. */
  datatype Bundle = Bundle(
    task: Task,
    runs: map<string, Run>,
    plans: map<nat, PlanStatus>,
    changes: map<string, Change>,
    checks: map<string, Check>,
    handoffs: map<string, Handoff>,
    lock: Option<Lock>,
    brokenLocks: map<int, Lock>
  )

  datatype Error =
    | ArchivedTask | InvalidTransition | ApprovalRequired | BadInput | LockConflict | StaleLock
    | RunningRunConflict | DependencyBlocked | Missing | TodosIncomplete | ValidationIncomplete
    | HandoffClosed | IntentMismatch

  datatype Outcome = Ok | Refused(error: Error)

  /** A task that has just been created: a draft with nothing recorded. */
  function NewBundle(id: string): Bundle {
    Bundle(Task(id, Draft, false, None, None, None, None, None, [], None, []),
           map[], map[], map[], map[], map[], None, map[])
  }
}
