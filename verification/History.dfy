/** What was recorded stays recorded: the past of a task only ever grows. */
module History {
  import opened Common
  import opened Records
  import opened Policies
  import opened Protocol
  import opened Shapes
  import opened Lifecycle
  import opened Runs

  /** A later state of a run: what it is stays, its lists only grow, and once it has ended nothing changes. */
  predicate Continues(now: Run, later: Run) {
    && later.runId == now.runId && later.taskId == now.taskId && later.runType == now.runType
    && later.actor == now.actor && later.basedOnPlan == now.basedOnPlan && later.resumes == now.resumes
    && later.basedOnImplementation == now.basedOnImplementation
    && now.worklog <= later.worklog && now.deviations <= later.deviations && now.changeRefs <= later.changeRefs
    && now.checkRefs <= later.checkRefs && now.artifactRefs <= later.artifactRefs
    && (now.status != Running ==> later == now)
  }

  ghost predicate RunsContinue(b: Bundle, later: Bundle) {
    forall r :: r in b.runs ==> r in later.runs && Continues(b.runs[r], later.runs[r])
  }

  /** No run, change or check is lost or altered, and the change log only grows. */
  ghost predicate Grows(b: Bundle, later: Bundle) {
    && later.task.id == b.task.id
    && RunsContinue(b, later)
    && b.task.changeLog <= later.task.changeLog
    && (forall c :: c in b.changes ==> c in later.changes && later.changes[c] == b.changes[c])
    && (forall c :: c in b.checks ==> c in later.checks && later.checks[c] == b.checks[c])
  }

  lemma GrowsTwice(a: Bundle, b: Bundle, c: Bundle)
    requires Grows(a, b) && Grows(b, c)
    ensures Grows(a, c)
  {
    forall r | r in a.runs
      ensures r in c.runs && Continues(a.runs[r], c.runs[r])
    {
      assert Continues(b.runs[r], c.runs[r]);
    }
  }

  /** One run is rewritten, as a continuation of itself, and nothing else that is recorded changes. */
  ghost predicate Rewrites(b: Bundle, r: string, later: Bundle) {
    && r in b.runs && r in later.runs && later.runs == b.runs[r := later.runs[r]] && Continues(b.runs[r], later.runs[r])
    && later.task.id == b.task.id && later.task.changeLog == b.task.changeLog && later.changes == b.changes
    && later.checks == b.checks
  }

  ghost predicate RewritesOne(b: Bundle, later: Bundle) {
    later == b || exists r :: Rewrites(b, r, later)
  }

  lemma RewritingGrows(b: Bundle, later: Bundle)
    requires RewritesOne(b, later)
    ensures Grows(b, later)
  {
    if later != b {
      var r :| Rewrites(b, r, later);
    }
  }

  lemma SameRunsGrow(b: Bundle, later: Bundle)
    requires later.runs == b.runs && later.task.id == b.task.id && later.task.changeLog == b.task.changeLog
    requires later.changes == b.changes && later.checks == b.checks
    ensures Grows(b, later)
  {
  }

  // ---- each command ----

  lemma BeginningGrows(b: Bundle, stage: LockStage, run: Run, later: Bundle)
    requires later == b || Begins(b, stage, run, later)
    ensures Grows(b, later)
  {
    if later == b {
      SameRunsGrow(b, later);
    } else {
      Ids.NextIdFresh("run", b.runs.Keys);
    }
  }

  lemma LogRewrites(b: Bundle, message: string, now: int)
    requires Keyed(b)
    ensures RewritesOne(b, LogImplementation(b, message, now).bundle)
  {
    if MutableImplementation(b, now).Success? {
      assert Rewrites(b, b.task.latestImplementationRun.value, LogImplementation(b, message, now).bundle);
    }
  }

  lemma DeviationRewrites(b: Bundle, message: string, now: int)
    requires Keyed(b)
    ensures RewritesOne(b, AddDeviation(b, message, now).bundle)
  {
    if MutableImplementation(b, now).Success? {
      assert Rewrites(b, b.task.latestImplementationRun.value, AddDeviation(b, message, now).bundle);
    }
  }

  lemma ArtifactRewrites(b: Bundle, path: string, summary: string, now: int)
    requires Keyed(b)
    ensures RewritesOne(b, AddArtifact(b, path, summary, now).bundle)
  {
    if MutableImplementation(b, now).Success? {
      assert Rewrites(b, b.task.latestImplementationRun.value, AddArtifact(b, path, summary, now).bundle);
    }
  }

  lemma FinishedContinues(run: Run, summary: string)
    requires run.status == Running
    ensures Continues(run, run.(status := Finished, summary := Some(Text.Strip(summary))))
  {
  }

  lemma FinishRewrites(b: Bundle, summary: string, todosDone: bool)
    requires Keyed(b)
    ensures RewritesOne(b, FinishImplementation(b, summary, todosDone).bundle)
  {
    var later := FinishImplementation(b, summary, todosDone).bundle;
    if later != b {
      var r := b.task.latestImplementationRun.value;
      FinishedContinues(b.runs[r], summary);
      assert later.runs == b.runs[r := later.runs[r]];
      assert Rewrites(b, r, later);
    }
  }

  /** The run as the verdict leaves it. */
  lemma VerdictContinues(run: Run, verdict: Verdict, summary: string)
    requires run.status == Running
    ensures Continues(run, run.(status := VerdictStatus(verdict), result := Some(verdict), summary := Some(summary)))
  {
  }

  lemma FinishValidationRewrites(b: Bundle, verdict: Verdict, canPass: bool, summary: string)
    requires Keyed(b)
    ensures RewritesOne(b, FinishValidation(b, verdict, canPass, summary).bundle)
  {
    var later := FinishValidation(b, verdict, canPass, summary).bundle;
    if later != b {
      var r := b.task.latestValidationRun.value;
      VerdictContinues(b.runs[r], verdict, Text.Strip(summary));
      assert Rewrites(b, r, later);
    }
  }

  lemma ProposeRewrites(b: Bundle, input: PlanInput, now: int)
    requires Keyed(b)
    ensures RewritesOne(b, ProposePlan(b, input, now).bundle)
  {
    var later := ProposePlan(b, input, now).bundle;
    if later != b {
      MutationDecisionsExact(b.task, b.lock, Some(b.runs[b.task.latestPlanningRun.value]));
      assert Rewrites(b, b.task.latestPlanningRun.value, later);
    }
  }

  lemma RepairRewrites(b: Bundle, runId: Option<string>, reason: string)
    requires Keyed(b)
    ensures RewritesOne(b, RepairPlanningRun(b, runId, reason).bundle)
  {
    var later := RepairPlanningRun(b, runId, reason).bundle;
    if later != b {
      assert Rewrites(b, if Truthy(runId) then runId.value else b.task.latestPlanningRun.value, later);
    }
  }

  lemma ChangeRewrites(b: Bundle, kind: string, path: string, summary: string, artifacts: seq<string>, now: int)
    requires Keyed(b) && MutableImplementation(b, now).Success?
    ensures var later := AddChange(b, kind, path, summary, artifacts, now).bundle;
      Rewrites(b, b.task.latestImplementationRun.value, later.(changes := b.changes, task := b.task))
  {
  }

  lemma ChangeGrows(b: Bundle, kind: string, path: string, summary: string, artifacts: seq<string>, now: int)
    requires Keyed(b)
    ensures Grows(b, AddChange(b, kind, path, summary, artifacts, now).bundle)
  {
    if MutableImplementation(b, now).Success? {
      ChangeRewrites(b, kind, path, summary, artifacts, now);
      Ids.NextIdFresh("change", b.changes.Keys);
      var later := AddChange(b, kind, path, summary, artifacts, now).bundle;
      RewritingGrows(b, later.(changes := b.changes, task := b.task));
    } else {
      RewritingGrows(b, b);
    }
  }

  lemma CheckRewrites(b: Bundle, command: string, exitCode: Option<int>, artifacts: seq<string>, now: int)
    requires Keyed(b) && MutableImplementation(b, now).Success?
    ensures var later := AddCheck(b, command, exitCode, artifacts, now).bundle;
      Rewrites(b, b.task.latestImplementationRun.value, later.(checks := b.checks))
  {
  }

  lemma CheckGrows(b: Bundle, command: string, exitCode: Option<int>, artifacts: seq<string>, now: int)
    requires Keyed(b)
    ensures Grows(b, AddCheck(b, command, exitCode, artifacts, now).bundle)
  {
    if MutableImplementation(b, now).Success? {
      CheckRewrites(b, command, exitCode, artifacts, now);
      Ids.NextIdFresh("check", b.checks.Keys);
      RewritingGrows(b, AddCheck(b, command, exitCode, artifacts, now).bundle.(checks := b.checks));
    } else {
      RewritingGrows(b, b);
    }
  }

  lemma ResumeGrows(b: Bundle, runId: Option<string>, reason: string, repair: bool, env: Env)
    ensures Grows(b, ResumeImplementation(b, runId, reason, repair, env).bundle)
  {
    SameRunsGrow(b, ResumeImplementation(b, runId, reason, repair, env).bundle);
  }

  lemma RestartGrows(b: Bundle, summary: string, env: Env)
    requires Keyed(b)
    ensures Grows(b, RestartImplementation(b, summary, env).bundle)
  {
    RestartShape(b, summary, env);
    var later := RestartImplementation(b, summary, env).bundle;
    if later == b {
      SameRunsGrow(b, later);
    } else {
      BeginningGrows(b, LockImplementing, RestartedRun(b, summary, env), later);
    }
  }

  lemma HandsGrow(b: Bundle, later: Bundle)
    requires Hands(b, later)
    ensures Grows(b, later)
  {
    SameRunsGrow(b, later);
  }

  lemma HandingGrows(b: Bundle, step: Step)
    requires IsHandoffStep(step)
    ensures Grows(b, Apply(b, step).bundle)
  {
    match step {
      case CreateHandoffStep(h, directed) => ReceiveHandoffShape(b, h, directed);
      case ReceiveHandoffStep(h) => ReceiveHandoffShape(b, h, true);
      case ClaimStep(id, actor, harness, newRun, now) => ClaimShape(b, id, actor, harness, newRun, now);
      case CloseStep(id, note) => CloseHandoffShape(b, id, note);
      case CancelHandoffStep(id, note) => CloseHandoffShape(b, id, note);
    }
    HandsGrow(b, Apply(b, step).bundle);
  }

  lemma ApproveGrows(b: Bundle, version: nat, gates: bool)
    ensures Grows(b, ApprovePlan(b, version, gates).bundle)
  {
    SameRunsGrow(b, ApprovePlan(b, version, gates).bundle);
  }

  lemma BreakGrows(b: Bundle, now: int)
    ensures Grows(b, BreakLock(b, now).bundle)
  {
    SameRunsGrow(b, BreakLock(b, now).bundle);
  }

  lemma CancelGrows(b: Bundle)
    ensures Grows(b, CancelTask(b).bundle)
  {
    SameRunsGrow(b, CancelTask(b).bundle);
  }

  lemma ArchiveGrows(b: Bundle, reason: string, force: bool, now: int)
    ensures Grows(b, ArchiveTask(b, reason, force, now).bundle)
  {
    SameRunsGrow(b, ArchiveTask(b, reason, force, now).bundle);
  }

  lemma UnarchiveGrows(b: Bundle, reason: string, reopen: bool)
    ensures Grows(b, UnarchiveTask(b, reason, reopen).bundle)
  {
    SameRunsGrow(b, UnarchiveTask(b, reason, reopen).bundle);
  }

  lemma UncancelGrows(b: Bundle, requested: Option<Stage>, reason: string, permitted: bool, now: int)
    ensures Grows(b, UncancelTask(b, requested, reason, permitted, now).bundle)
  {
    SameRunsGrow(b, UncancelTask(b, requested, reason, permitted, now).bundle);
  }

  lemma WorkGrows(b: Bundle, step: Step)
    requires Keyed(b)
    requires step.LogStep? || step.DeviationStep? || step.ArtifactStep? || step.FinishStep?
          || step.FinishValidationStep?
          || step.ProposeStep? || step.RepairPlanningStep?
    ensures Grows(b, Apply(b, step).bundle)
  {
    match step {
      case LogStep(message, now) => LogRewrites(b, message, now);
      case DeviationStep(message, now) => DeviationRewrites(b, message, now);
      case ArtifactStep(path, summary, now) => ArtifactRewrites(b, path, summary, now);
      case FinishStep(summary, todosDone) => FinishRewrites(b, summary, todosDone);
      case FinishValidationStep(verdict, canPass, summary) => FinishValidationRewrites(b, verdict, canPass, summary);
      case ProposeStep(input, now) => ProposeRewrites(b, input, now);
      case RepairPlanningStep(runId, reason) => RepairRewrites(b, runId, reason);
    }
    RewritingGrows(b, Apply(b, step).bundle);
  }

  lemma StartGrows(b: Bundle, env: Env)
    ensures Grows(b, StartImplementation(b, env).bundle)
  {
    StartShape(b, env);
    BeginningGrows(b, LockImplementing, FreshRun(b, ImplementationRun, env), StartImplementation(b, env).bundle);
  }

  lemma StartPlanningGrows(b: Bundle, env: Env)
    ensures Grows(b, StartPlanning(b, env).bundle)
  {
    StartPlanningShape(b, env);
    BeginningGrows(b, LockPlanning, FreshRun(b, PlanningRun, env), StartPlanning(b, env).bundle);
  }

  lemma StartValidationGrows(b: Bundle, current: bool, env: Env)
    ensures Grows(b, StartValidation(b, current, env).bundle)
  {
    StartValidationShape(b, current, env);
    BeginningGrows(b, LockValidating, ValidationStarted(b, env), StartValidation(b, current, env).bundle);
  }

  lemma StartingGrows(b: Bundle, step: Step)
    requires Keyed(b) && StartsWork(step)
    ensures Grows(b, Apply(b, step).bundle)
  {
    match step
    case StartStep(env) => StartGrows(b, env);
    case RestartStep(summary, env) => RestartGrows(b, summary, env);
    case ResumeStep(runId, reason, repair, env) => ResumeGrows(b, runId, reason, repair, env);
    case StartPlanningStep(env) => StartPlanningGrows(b, env);
    case StartValidationStep(current, env) => StartValidationGrows(b, current, env);
  }

  lemma FilingGrows(b: Bundle, step: Step)
    requires step.ArchiveStep? || step.UnarchiveStep?
    ensures Grows(b, Apply(b, step).bundle)
  {
    match step
    case ArchiveStep(reason, force, now) => ArchiveGrows(b, reason, force, now);
    case UnarchiveStep(reason, reopen) => UnarchiveGrows(b, reason, reopen);
  }

  lemma MovingGrows(b: Bundle, step: Step)
    requires step.ApproveStep? || step.BreakLockStep? || step.CancelStep?
    ensures Grows(b, Apply(b, step).bundle)
  {
    match step
    case ApproveStep(version, gates) => ApproveGrows(b, version, gates);
    case BreakLockStep(now) => BreakGrows(b, now);
    case CancelStep => CancelGrows(b);
  }

  lemma OtherGrows(b: Bundle, step: Step)
    requires Keyed(b) && !StartsWork(step) && !IsHandoffStep(step)
    requires !step.ChangeStep? && !step.CheckStep? && !step.UncancelStep?
    ensures Grows(b, Apply(b, step).bundle)
  {
    if step.ApproveStep? || step.BreakLockStep? || step.CancelStep? {
      MovingGrows(b, step);
    } else if step.ArchiveStep? || step.UnarchiveStep? {
      FilingGrows(b, step);
    } else {
      WorkGrows(b, step);
    }
  }

  lemma StepGrows(b: Bundle, step: Step)
    requires Keyed(b)
    ensures Grows(b, Apply(b, step).bundle)
  {
    match step
    case ChangeStep(kind, path, summary, artifacts, now) => ChangeGrows(b, kind, path, summary, artifacts, now);
    case CheckStep(command, exitCode, artifacts, now) => CheckGrows(b, command, exitCode, artifacts, now);
    case UncancelStep(requested, reason, permitted, now) => UncancelGrows(b, requested, reason, permitted, now);
    case _ =>
      if StartsWork(step) {
        StartingGrows(b, step);
      } else if IsHandoffStep(step) {
        HandingGrows(b, step);
      } else {
        OtherGrows(b, step);
      }
  }

  /**
   Over every sequence of commands from any reachable state: no run disappears, a run keeps what it is and
   its lists only grow, an ended run never changes again, and no change or check is lost.
   */
  lemma {:induction false} NothingLost(b: Bundle, steps: seq<Step>)
    requires Good(b)
    ensures Good(After(b, steps)) && Grows(b, After(b, steps))
  {
    if steps == [] {
      SameRunsGrow(b, b);
    } else {
      var before := After(b, steps[..|steps| - 1]);
      NothingLost(b, steps[..|steps| - 1]);
      StepAdvances(before, steps[|steps| - 1]);
      StepGrows(before, steps[|steps| - 1]);
      GrowsTwice(b, before, After(b, steps));
    }
  }

  // ---- broken locks ----

  /** The time under which a command files a broken lock: breaking one, and repairing an expired one. */
  function FilesAt(b: Bundle, step: Step): Option<int> {
    match step
    case BreakLockStep(now) => if b.lock.Some? then Some(now) else None
    case ResumeStep(runId, reason, repair, env) =>
      if b.lock.Some? && ResumeRefusal(b, runId, reason, repair, env) == None then Some(env.now) else None
    case _ => None
  }

  lemma BeginningFilesNone(b: Bundle, stage: LockStage, run: Run, env: Env)
    ensures BeginRun(b, stage, run, env).bundle.brokenLocks == b.brokenLocks
  {
  }

  lemma StartFilesNone(b: Bundle, step: Step)
    requires StartsWork(step) && !step.ResumeStep?
    ensures Apply(b, step).bundle.brokenLocks == b.brokenLocks
  {
    match step
    case StartStep(env) => BeginningFilesNone(b, LockImplementing, FreshRun(b, ImplementationRun, env), env);
    case RestartStep(summary, env) =>
      if RestartRefusal(b, summary, env) == None {
        BeginningFilesNone(b, LockImplementing, RestartedRun(b, summary, env), env);
      }
    case StartPlanningStep(env) => BeginningFilesNone(b, LockPlanning, FreshRun(b, PlanningRun, env), env);
    case StartValidationStep(_, env) => BeginningFilesNone(b, LockValidating, ValidationStarted(b, env), env);
  }

  lemma HandoffFilesNone(b: Bundle, step: Step)
    requires IsHandoffStep(step)
    ensures Apply(b, step).bundle.brokenLocks == b.brokenLocks
  {
  }

  lemma RecordingFilesNone(b: Bundle, step: Step)
    requires step.LogStep? || step.DeviationStep? || step.ArtifactStep? || step.ChangeStep? || step.CheckStep?
    ensures Apply(b, step).bundle.brokenLocks == b.brokenLocks
  {
  }

  lemma EndingFilesNone(b: Bundle, step: Step)
    requires step.FinishStep? || step.FinishValidationStep?
    ensures Apply(b, step).bundle.brokenLocks == b.brokenLocks
  {
  }

  lemma PlanningFilesNone(b: Bundle, step: Step)
    requires step.ProposeStep? || step.RepairPlanningStep?
    ensures Apply(b, step).bundle.brokenLocks == b.brokenLocks
  {
  }

  lemma MovingFilesNone(b: Bundle, step: Step)
    requires step.ApproveStep? || step.CancelStep? || step.UncancelStep? || step.ArchiveStep? || step.UnarchiveStep?
    ensures Apply(b, step).bundle.brokenLocks == b.brokenLocks
  {
  }

  lemma BrokenLocksAfter(b: Bundle, step: Step)
    ensures Apply(b, step).bundle.brokenLocks
            == if FilesAt(b, step).Some? then b.brokenLocks[FilesAt(b, step).value := b.lock.value] else b.brokenLocks
  {
    if IsHandoffStep(step) {
      HandoffFilesNone(b, step);
    } else if StartsWork(step) && !step.ResumeStep? {
      StartFilesNone(b, step);
    } else if step.LogStep? || step.DeviationStep? || step.ArtifactStep? || step.ChangeStep? || step.CheckStep? {
      RecordingFilesNone(b, step);
    } else if step.FinishStep? || step.FinishValidationStep? {
      EndingFilesNone(b, step);
    } else if step.ProposeStep? || step.RepairPlanningStep? {
      PlanningFilesNone(b, step);
    } else if !step.ResumeStep? && !step.BreakLockStep? {
      MovingFilesNone(b, step);
    }
  }

  /** A filed lock survives a command exactly when the command does not file another lock under the same time. */
  lemma BrokenLockKeptIff(b: Bundle, step: Step, t: int)
    requires t in b.brokenLocks
    ensures var after := Apply(b, step).bundle.brokenLocks;
      && t in after
      && (after[t] == b.brokenLocks[t] <==> !(FilesAt(b, step) == Some(t) && b.lock.value != b.brokenLocks[t]))
  {
    BrokenLocksAfter(b, step);
  }

  lemma {:induction false} BrokenLocksKept(b: Bundle, steps: seq<Step>, t: int)
    requires t in b.brokenLocks
    requires forall i :: 0 <= i < |steps| ==> FilesAt(After(b, steps[..i]), steps[i]) != Some(t)
    ensures var after := After(b, steps).brokenLocks; t in after && after[t] == b.brokenLocks[t]
  {
    if steps != [] {
      var before := steps[..|steps| - 1];
      forall i | 0 <= i < |before|
        ensures FilesAt(After(b, before[..i]), before[i]) != Some(t)
      {
        assert before[..i] == steps[..i];
      }
      BrokenLocksKept(b, before, t);
      BrokenLockKeptIff(After(b, before), steps[|steps| - 1], t);
    }
  }
}
