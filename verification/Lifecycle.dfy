/**
 Everything that holds of a task's directory in every state its commands can reach, for every
 sequence of commands, refused ones included.
 */
module Lifecycle {
  import opened Common
  import opened Records
  import opened Protocol
  import opened Shapes
  import opened Agreement
  import opened Evidence
  import opened Handoffs

  /** The accepted plan of a task stays accepted, and work on a task presupposes one. */
  ghost predicate PlanHeld(b: Bundle) {
    && (b.task.acceptedPlan.Some? ==> HasAcceptedPlan(b))
    && (b.task.latestImplementationRun.Some? ==> b.task.acceptedPlan.Some?)
    && (b.task.stage == Implementing ==> !b.task.archived)
  }

  ghost predicate Good(b: Bundle) {
    Agrees(b) && PlanHeld(b) && Sound(b) && Transferable(b)
  }

  /** An implementation is running although the task is not `implementing`. */
  ghost predicate Parked(b: Bundle) {
    HasRunningImplementation(b) && b.task.stage != Implementing
  }

  /**
   What one command guarantees: the state stays good, only cancelling parks an implementation,
   and transfers are conserved unless a lock id is handed out again.
   */
  ghost predicate Advances(b: Bundle, post: Bundle) {
    && Good(post)
    && (Parked(post) ==> Parked(b) || Cancels(b, post))
    && (Conserved(b) ==> (Conserved(post) <==> !ReusesLockId(b, post)))
  }

  // ---- each kind of change ----

  lemma SameAdvances(b: Bundle)
    requires Good(b)
    ensures Advances(b, b)
  {
  }

  lemma BeginsAdvances(b: Bundle, stage: LockStage, run: Run, post: Bundle)
    requires Good(b) && Begins(b, stage, run, post)
    ensures Advances(b, post)
  {
    BeginsKeeps(b, stage, run, post);
    BeginsKeepsEvidence(b, stage, run, post);
    FreshKeeps(b, post);
  }

  lemma ResumesAdvances(b: Bundle, r: string, post: Bundle)
    requires Good(b) && Resumes(b, r, post)
    ensures Advances(b, post)
  {
    ResumesKeeps(b, r, post);
    UntouchedKeeps(b, post);
    FreshKeeps(b, post);
  }

  lemma NotesAdvances(b: Bundle, run: Run, post: Bundle)
    requires Good(b) && Notes(b, run, post)
    ensures Advances(b, post)
  {
    EditKeeps(b, run, post);
    EditUntouched(b, run, post);
    UntouchedKeeps(b, post);
    FreshKeeps(b, post);
  }

  lemma GainsChangeAdvances(b: Bundle, run: Run, change: Change, post: Bundle)
    requires Good(b) && GainsChange(b, run, change, post)
    ensures Advances(b, post)
  {
    EditKeeps(b, run, post);
    GainsChangeKeepsEvidence(b, run, change, post);
    FreshKeeps(b, post);
  }

  lemma GainsCheckAdvances(b: Bundle, run: Run, check: Check, post: Bundle)
    requires Good(b) && GainsCheck(b, run, check, post)
    ensures Advances(b, post)
  {
    EditKeeps(b, run, post);
    GainsCheckKeepsEvidence(b, run, check, post);
    FreshKeeps(b, post);
  }

  lemma EndsAdvances(b: Bundle, run: Run, kind: LockStage, post: Bundle)
    requires Good(b) && Ends(b, run, kind, post)
    ensures Advances(b, post)
  {
    EndsKeeps(b, run, kind, post);
    EditUntouched(b, run, post);
    UntouchedKeeps(b, post);
    FreshKeeps(b, post);
  }

  lemma MovesAdvances(b: Bundle, post: Bundle)
    requires Good(b)
    requires Approves(b, post) || LosesLock(b, post) || Cancels(b, post) || Files(b, post)
    ensures Advances(b, post)
  {
    MovesKeeps(b, post);
    UntouchedKeeps(b, post);
    FreshKeeps(b, post);
  }

  lemma RestoresAdvances(b: Bundle, post: Bundle)
    requires Good(b) && Restores(b, post)
    ensures Advances(b, post)
  {
    RestoresKeeps(b, post);
    UntouchedKeeps(b, post);
    FreshKeeps(b, post);
  }

  lemma HandsAdvances(b: Bundle, post: Bundle)
    requires Good(b) && Hands(b, post) && Transferable(post) && (Conserved(b) ==> Conserved(post))
    ensures Advances(b, post)
  {
    HandsKeeps(b, post);
    UntouchedKeeps(b, post);
  }

  // ---- each command: nothing happened, or one of the changes above did ----

  lemma BeginningAdvances(b: Bundle, stage: LockStage, run: Run, post: Bundle)
    requires Good(b) && (post == b || Begins(b, stage, run, post))
    ensures Advances(b, post)
  {
    SameAdvances(b);
    if post != b {
      BeginsAdvances(b, stage, run, post);
    }
  }

  lemma RestartAdvances(b: Bundle, summary: string, env: Env, post: Bundle)
    requires Good(b)
    requires post == RestartImplementation(b, summary, env).bundle
    ensures Advances(b, post)
  {
    RestartShape(b, summary, env);
    SameAdvances(b);
    if post != b {
      BeginsAdvances(b, LockImplementing, RestartedRun(b, summary, env), post);
    }
  }

  lemma ResumeAdvances(b: Bundle, runId: Option<string>, reason: string, repair: bool, env: Env, post: Bundle)
    requires Good(b)
    requires post == ResumeImplementation(b, runId, reason, repair, env).bundle
    ensures Advances(b, post)
  {
    SameAdvances(b);
    ResumeShape(b, runId, reason, repair, env);
    var post := post;
    if post != b {
      ResumesAdvances(b, SelectedRun(b, runId).value, post);
    }
  }

  lemma NotingAdvances(b: Bundle, post: Bundle)
    requires Good(b) && (post == b || exists run :: Notes(b, run, post))
    ensures Advances(b, post)
  {
    SameAdvances(b);
    if post != b {
      var run :| Notes(b, run, post);
      NotesAdvances(b, run, post);
    }
  }

  lemma ChangingAdvances(b: Bundle, post: Bundle)
    requires Good(b) && (post == b || exists run, change :: GainsChange(b, run, change, post))
    ensures Advances(b, post)
  {
    SameAdvances(b);
    if post != b {
      var run, change :| GainsChange(b, run, change, post);
      GainsChangeAdvances(b, run, change, post);
    }
  }

  lemma CheckingAdvances(b: Bundle, post: Bundle)
    requires Good(b) && (post == b || exists run, check :: GainsCheck(b, run, check, post))
    ensures Advances(b, post)
  {
    SameAdvances(b);
    if post != b {
      var run, check :| GainsCheck(b, run, check, post);
      GainsCheckAdvances(b, run, check, post);
    }
  }

  lemma EndingAdvances(b: Bundle, kind: LockStage, post: Bundle)
    requires Good(b) && (post == b || exists run :: Ends(b, run, kind, post))
    ensures Advances(b, post)
  {
    SameAdvances(b);
    if post != b {
      var run :| Ends(b, run, kind, post);
      EndsAdvances(b, run, kind, post);
    }
  }

  lemma MovingAdvances(b: Bundle, post: Bundle)
    requires Good(b)
    requires || post == b || Approves(b, post) || LosesLock(b, post) || Cancels(b, post) || Files(b, post)
             || Restores(b, post)
    ensures Advances(b, post)
  {
    SameAdvances(b);
    if Restores(b, post) {
      RestoresAdvances(b, post);
    } else if post != b {
      MovesAdvances(b, post);
    }
  }

  lemma ApproveAdvances(b: Bundle, version: nat, gates: bool, post: Bundle)
    requires Good(b)
    requires post == ApprovePlan(b, version, gates).bundle
    ensures Advances(b, post)
  {
    ApproveShape(b, version, gates);
    MovingAdvances(b, post);
  }

  lemma UncancelAdvances(b: Bundle, requested: Option<Stage>, reason: string, permitted: bool, now: int, post: Bundle)
    requires Good(b)
    requires post == UncancelTask(b, requested, reason, permitted, now).bundle
    ensures Advances(b, post)
  {
    UncancelShape(b, requested, reason, permitted, now);
    MovingAdvances(b, post);
  }

  lemma StartAdvances(b: Bundle, env: Env, post: Bundle)
    requires Good(b)
    requires post == StartImplementation(b, env).bundle
    ensures Advances(b, post)
  {
    StartShape(b, env);
    BeginningAdvances(b, LockImplementing, FreshRun(b, ImplementationRun, env), post);
  }

  lemma LogAdvances(b: Bundle, message: string, now: int, post: Bundle)
    requires Good(b)
    requires post == LogImplementation(b, message, now).bundle
    ensures Advances(b, post)
  {
    LogShape(b, message, now);
    NotingAdvances(b, post);
  }

  lemma DeviationAdvances(b: Bundle, message: string, now: int, post: Bundle)
    requires Good(b)
    requires post == AddDeviation(b, message, now).bundle
    ensures Advances(b, post)
  {
    DeviationShape(b, message, now);
    NotingAdvances(b, post);
  }

  lemma ArtifactAdvances(b: Bundle, path: string, summary: string, now: int, post: Bundle)
    requires Good(b)
    requires post == AddArtifact(b, path, summary, now).bundle
    ensures Advances(b, post)
  {
    ArtifactShape(b, path, summary, now);
    NotingAdvances(b, post);
  }

  lemma ChangeAdvances(
    b: Bundle, kind: string, path: string, summary: string, artifacts: seq<string>, now: int, post: Bundle)
    requires Good(b)
    requires post == AddChange(b, kind, path, summary, artifacts, now).bundle
    ensures Advances(b, post)
  {
    ChangeShape(b, kind, path, summary, artifacts, now);
    ChangingAdvances(b, post);
  }

  lemma CheckAdvances(b: Bundle, command: string, exitCode: Option<int>, artifacts: seq<string>, now: int, post: Bundle)
    requires Good(b)
    requires post == AddCheck(b, command, exitCode, artifacts, now).bundle
    ensures Advances(b, post)
  {
    CheckShape(b, command, exitCode, artifacts, now);
    CheckingAdvances(b, post);
  }

  lemma FinishAdvances(b: Bundle, summary: string, todosDone: bool, post: Bundle)
    requires Good(b)
    requires post == FinishImplementation(b, summary, todosDone).bundle
    ensures Advances(b, post)
  {
    FinishShape(b, summary, todosDone);
    EndingAdvances(b, LockImplementing, post);
  }

  lemma StartPlanningAdvances(b: Bundle, env: Env, post: Bundle)
    requires Good(b)
    requires post == StartPlanning(b, env).bundle
    ensures Advances(b, post)
  {
    StartPlanningShape(b, env);
    BeginningAdvances(b, LockPlanning, FreshRun(b, PlanningRun, env), post);
  }

  lemma ProposeAdvances(b: Bundle, input: PlanInput, now: int, post: Bundle)
    requires Good(b)
    requires post == ProposePlan(b, input, now).bundle
    ensures Advances(b, post)
  {
    ProposeShape(b, input, now);
    EndingAdvances(b, LockPlanning, post);
  }

  lemma RepairPlanningAdvances(b: Bundle, runId: Option<string>, reason: string, post: Bundle)
    requires Good(b)
    requires post == RepairPlanningRun(b, runId, reason).bundle
    ensures Advances(b, post)
  {
    RepairShape(b, runId, reason);
    EndingAdvances(b, LockPlanning, post);
  }

  lemma StartValidationAdvances(b: Bundle, current: bool, env: Env, post: Bundle)
    requires Good(b)
    requires post == StartValidation(b, current, env).bundle
    ensures Advances(b, post)
  {
    StartValidationShape(b, current, env);
    BeginningAdvances(b, LockValidating, ValidationStarted(b, env), post);
  }

  lemma FinishValidationAdvances(b: Bundle, verdict: Verdict, canPass: bool, summary: string, post: Bundle)
    requires Good(b)
    requires post == FinishValidation(b, verdict, canPass, summary).bundle
    ensures Advances(b, post)
  {
    FinishValidationShape(b, verdict, canPass, summary);
    EndingAdvances(b, LockValidating, post);
  }

  lemma ReceiveAdvances(b: Bundle, h: Handoff, post: Bundle)
    requires Good(b)
    requires post == ReceiveHandoff(b, h).bundle
    ensures Advances(b, post)
  {
    ReceiveHandoffShape(b, h, true);
    ReceiveKeeps(b, h);
    HandsAdvances(b, post);
  }

  lemma CreateAdvances(b: Bundle, h: Handoff, directed: bool, post: Bundle)
    requires Good(b)
    requires post == CreateHandoff(b, h, directed).bundle
    ensures Advances(b, post)
  {
    if directed {
      ReceiveAdvances(b, h.(lockPolicy := NoPolicy, sourceRun := None), post);
    } else {
      SameAdvances(b);
    }
  }

  lemma ClaimAdvances(
    b: Bundle, id: string, actor: Actor, harness: string, newRun: Option<string>, now: int, post: Bundle)
    requires Good(b)
    requires post == ClaimHandoff(b, id, actor, harness, newRun, now).bundle
    ensures Advances(b, post)
  {
    ClaimShape(b, id, actor, harness, newRun, now);
    ClaimKeeps(b, id, actor, harness, newRun, now);
    HandsAdvances(b, post);
  }

  lemma CloseAdvances(b: Bundle, id: string, note: Option<string>, post: Bundle)
    requires Good(b)
    requires post == CloseHandoff(b, id, note).bundle
    ensures Advances(b, post)
  {
    CloseHandoffShape(b, id, note);
    CloseKeeps(b, id, note);
    HandsAdvances(b, post);
  }

  lemma CancelHandoffAdvances(b: Bundle, id: string, note: Option<string>, post: Bundle)
    requires Good(b)
    requires post == CancelHandoff(b, id, note).bundle
    ensures Advances(b, post)
  {
    CloseHandoffShape(b, id, note);
    CancelKeeps(b, id, note);
    HandsAdvances(b, post);
  }

  lemma BreakAdvances(b: Bundle, now: int, post: Bundle)
    requires Good(b)
    requires post == BreakLock(b, now).bundle
    ensures Advances(b, post)
  {
    LockShape(b, now);
    MovingAdvances(b, post);
  }

  lemma CancelAdvances(b: Bundle, post: Bundle)
    requires Good(b)
    requires post == CancelTask(b).bundle
    ensures Advances(b, post)
  {
    LockShape(b, 0);
    MovingAdvances(b, post);
  }

  lemma ArchiveAdvances(b: Bundle, reason: string, force: bool, now: int, post: Bundle)
    requires Good(b)
    requires post == ArchiveTask(b, reason, force, now).bundle
    ensures Advances(b, post)
  {
    ArchiveShape(b, reason, force, now);
    MovingAdvances(b, post);
  }

  lemma UnarchiveAdvances(b: Bundle, reason: string, reopen: bool, post: Bundle)
    requires Good(b)
    requires post == UnarchiveTask(b, reason, reopen).bundle
    ensures Advances(b, post)
  {
    UnarchiveShape(b, reason, reopen);
    MovingAdvances(b, post);
  }

  // ---- all of them ----

  lemma BeginningStepAdvances(b: Bundle, step: Step, post: Bundle)
    requires Good(b) && post == Apply(b, step).bundle
    requires step.StartStep? || step.StartPlanningStep?
    ensures Advances(b, post)
  {
    match step
    case StartStep(env) => StartAdvances(b, env, post);
    case StartPlanningStep(env) => StartPlanningAdvances(b, env, post);
  }

  lemma ValidatingStepAdvances(b: Bundle, step: Step, post: Bundle)
    requires Good(b) && post == Apply(b, step).bundle && step.StartValidationStep?
    ensures Advances(b, post)
  {
    StartValidationAdvances(b, step.snapshotCurrent, step.env, post);
  }

  lemma ResumingStepAdvances(b: Bundle, step: Step, post: Bundle)
    requires Good(b) && post == Apply(b, step).bundle && (step.RestartStep? || step.ResumeStep?)
    ensures Advances(b, post)
  {
    match step
    case RestartStep(summary, env) => RestartAdvances(b, summary, env, post);
    case ResumeStep(runId, reason, repair, env) => ResumeAdvances(b, runId, reason, repair, env, post);
  }

  lemma RecordingStepAdvances(b: Bundle, step: Step, post: Bundle)
    requires Good(b) && post == Apply(b, step).bundle
    requires step.LogStep? || step.DeviationStep? || step.ArtifactStep? || step.ChangeStep? || step.CheckStep?
    ensures Advances(b, post)
  {
    match step
    case LogStep(message, now) => LogAdvances(b, message, now, post);
    case DeviationStep(message, now) => DeviationAdvances(b, message, now, post);
    case ArtifactStep(path, summary, now) => ArtifactAdvances(b, path, summary, now, post);
    case ChangeStep(kind, path, summary, artifacts, now) =>
      ChangeAdvances(b, kind, path, summary, artifacts, now, post);
    case CheckStep(command, exitCode, artifacts, now) => CheckAdvances(b, command, exitCode, artifacts, now, post);
  }

  lemma EndingStepAdvances(b: Bundle, step: Step, post: Bundle)
    requires Good(b) && post == Apply(b, step).bundle
    requires step.FinishStep? || step.FinishValidationStep?
    ensures Advances(b, post)
  {
    match step
    case FinishStep(summary, todosDone) => FinishAdvances(b, summary, todosDone, post);
    case FinishValidationStep(verdict, canPass, summary) =>
      FinishValidationAdvances(b, verdict, canPass, summary, post);
  }

  lemma PlannedStepAdvances(b: Bundle, step: Step, post: Bundle)
    requires Good(b) && post == Apply(b, step).bundle && (step.ProposeStep? || step.RepairPlanningStep?)
    ensures Advances(b, post)
  {
    match step
    case ProposeStep(input, now) => ProposeAdvances(b, input, now, post);
    case RepairPlanningStep(runId, reason) => RepairPlanningAdvances(b, runId, reason, post);
  }

  lemma HandoffStepAdvances(b: Bundle, step: Step, post: Bundle)
    requires Good(b) && post == Apply(b, step).bundle && IsHandoffStep(step)
    ensures Advances(b, post)
  {
    match step
    case CreateHandoffStep(h, directed) => CreateAdvances(b, h, directed, post);
    case ReceiveHandoffStep(h) => ReceiveAdvances(b, h, post);
    case ClaimStep(id, actor, harness, newRun, now) => ClaimAdvances(b, id, actor, harness, newRun, now, post);
    case CloseStep(id, note) => CloseAdvances(b, id, note, post);
    case CancelHandoffStep(id, note) => CancelHandoffAdvances(b, id, note, post);
  }

  lemma MovingStepAdvances(b: Bundle, step: Step, post: Bundle)
    requires Good(b) && post == Apply(b, step).bundle
    requires step.ApproveStep? || step.BreakLockStep? || step.CancelStep?
    ensures Advances(b, post)
  {
    match step
    case ApproveStep(version, gates) => ApproveAdvances(b, version, gates, post);
    case BreakLockStep(now) => BreakAdvances(b, now, post);
    case CancelStep => CancelAdvances(b, post);
  }

  lemma UncancelStepAdvances(b: Bundle, step: Step, post: Bundle)
    requires Good(b) && post == Apply(b, step).bundle && step.UncancelStep?
    ensures Advances(b, post)
  {
    UncancelAdvances(b, step.requested, step.reason, step.permitted, step.now, post);
  }

  lemma FilingStepAdvances(b: Bundle, step: Step, post: Bundle)
    requires Good(b) && post == Apply(b, step).bundle
    requires step.ArchiveStep? || step.UnarchiveStep?
    ensures Advances(b, post)
  {
    match step
    case ArchiveStep(reason, force, now) => ArchiveAdvances(b, reason, force, now, post);
    case UnarchiveStep(reason, reopen) => UnarchiveAdvances(b, reason, reopen, post);
  }

  lemma StepAdvancesTo(b: Bundle, step: Step, post: Bundle)
    requires Good(b) && post == Apply(b, step).bundle
    ensures Advances(b, post)
  {
    if IsHandoffStep(step) {
      HandoffStepAdvances(b, step, post);
    } else if step.LogStep? || step.DeviationStep? || step.ArtifactStep? || step.ChangeStep? || step.CheckStep? {
      RecordingStepAdvances(b, step, post);
    } else if step.FinishStep? || step.FinishValidationStep? {
      EndingStepAdvances(b, step, post);
    } else if step.ProposeStep? || step.RepairPlanningStep? {
      PlannedStepAdvances(b, step, post);
    } else if step.StartStep? || step.StartPlanningStep? {
      BeginningStepAdvances(b, step, post);
    } else if step.StartValidationStep? {
      ValidatingStepAdvances(b, step, post);
    } else if step.RestartStep? || step.ResumeStep? {
      ResumingStepAdvances(b, step, post);
    } else if step.ApproveStep? || step.BreakLockStep? || step.CancelStep? {
      MovingStepAdvances(b, step, post);
    } else if step.UncancelStep? {
      UncancelStepAdvances(b, step, post);
    } else {
      FilingStepAdvances(b, step, post);
    }
  }

  lemma StepAdvances(b: Bundle, step: Step)
    requires Good(b)
    ensures Advances(b, Apply(b, step).bundle)
  {
    StepAdvancesTo(b, step, Apply(b, step).bundle);
  }
}
