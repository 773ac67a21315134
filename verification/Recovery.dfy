/**
 What the invariants buy: when recording and resuming work is possible, what a refused command
 may have changed, and what cancelling in the middle of an implementation does.
 */
module Recovery {
  import opened Common
  import opened Records
  import opened Policies
  import opened Protocol
  import opened Shapes
  import opened Agreement
  import opened Lifecycle
  import opened Runs

  // ---- recording work ----

  /**
   In a state commands can reach, every check of the recording gate but three is redundant:
   work can be recorded exactly while an unexpired implementing lock is held on a visible task.
   */
  lemma RecordingEnabledIff(b: Bundle, now: int)
    requires Agrees(b)
    ensures MutableImplementation(b, now).Success?
            <==> && !b.task.archived && b.lock.Some? && b.lock.value.stage == LockImplementing
                 && !b.lock.value.Expired(now)
    ensures MutableImplementation(b, now).Success? ==>
              MutableImplementation(b, now).value == b.runs[b.lock.value.runId]
  {
    if b.lock.Some? && b.lock.value.stage == LockImplementing {
      assert RunsImplementation(b, b.lock.value.runId);
      MutationDecisionsExact(b.task, b.lock, Some(b.runs[b.lock.value.runId]));
    }
    if RequireRunning(b, b.task.latestImplementationRun, ImplementationRun).Success? {
      MutationDecisionsExact(b.task, b.lock, Some(b.runs[b.task.latestImplementationRun.value]));
    }
  }

  // ---- resuming ----

  /** Whatever the state, a resume takes over at most an expired implementing lock of the run it resumes. */
  lemma ResumeNeverDisplaces(b: Bundle, runId: Option<string>, reason: string, repair: bool, env: Env)
    ensures var p := ResumeImplementation(b, runId, reason, repair, env);
      && (b.lock.Some? && !b.lock.value.Expired(env.now) ==> p.outcome.Refused? && p.bundle == b)
      && (b.lock.Some? && p.bundle.lock != b.lock ==>
            && repair && b.lock.value.Expired(env.now) && b.lock.value.stage == LockImplementing
            && FindRun(b, SelectedRun(b, runId)).Success?
            && FindRun(b, SelectedRun(b, runId)).value.runId == b.lock.value.runId)
  {
  }

  /** The lock is gone, or has expired and is to be repaired. */
  predicate LockLost(b: Bundle, repair: bool, now: int) {
    b.lock == None || (repair && b.lock.value.Expired(now))
  }

  /** A task that is being implemented and has lost its lock, or let it expire, in any state that can be reached. */
  lemma LostLockResumes(b: Bundle, reason: string, repair: bool, env: Env)
    requires Good(b) && b.task.stage == Implementing && LockLost(b, repair, env.now)
    ensures var p := ResumeImplementation(b, None, reason, repair, env);
      && (p.outcome == Ok <==> Text.Strip(reason) != "" && env.depsDone)
      && (p.outcome == Ok ==>
            && Good(p.bundle) && p.bundle.runs == b.runs && p.bundle.task == b.task
            && p.bundle.lock.Some? && p.bundle.lock.value.runId == b.task.latestImplementationRun.value
            && RunsImplementation(b, p.bundle.lock.value.runId)
            && (b.lock.Some? ==> env.now in p.bundle.brokenLocks && p.bundle.brokenLocks[env.now] == b.lock.value)
            && MutableImplementation(p.bundle, env.now).Success?)
  {
    var p := ResumeImplementation(b, None, reason, repair, env);
    OnlyRunning(b, b.task.latestImplementationRun.value);
    assert ResumeRefusal(b, None, reason, repair, env) == None <==> Text.Strip(reason) != "";
    if p.outcome == Ok {
      assert Good(p.bundle) by {
        ResumeAdvances(b, None, reason, repair, env, p.bundle);
      }
      RecordingEnabledIff(p.bundle, env.now);
    }
  }

  /**
   Over every sequence of commands: whatever took the lock away from an implementation, and however long ago it
   expired, a resume brings it back, for the same run, as soon as a reason is given and the dependencies are done.
   */
  lemma LockLossRecoverable(id: string, steps: seq<Step>, reason: string, repair: bool, env: Env)
    requires After(NewBundle(id), steps).task.stage == Implementing
    requires LockLost(After(NewBundle(id), steps), repair, env.now)
    ensures var b := After(NewBundle(id), steps);
      var p := ResumeImplementation(b, None, reason, repair, env);
      && (p.outcome == Ok <==> Text.Strip(reason) != "" && env.depsDone)
      && (p.outcome == Ok ==>
            && p.bundle.runs == b.runs && p.bundle.task == b.task
            && p.bundle.lock.Some? && RunsImplementation(b, p.bundle.lock.value.runId)
            && MutableImplementation(p.bundle, env.now).Success?)
  {
    AlwaysGood(id, steps);
    LostLockResumes(After(NewBundle(id), steps), reason, repair, env);
  }

  // ---- what a refused command may have written ----

  /** The three commands that write before their last check, and when that check then fails. */
  predicate LeavesTraces(b: Bundle, step: Step) {
    match step
    case FinishStep(_, todosDone) =>
      && !b.task.archived && todosDone && b.lock == None
      && RequireRunning(b, b.task.latestImplementationRun, ImplementationRun).Success?
    case FinishValidationStep(verdict, canPass, _) =>
      && !b.task.archived && (verdict == VerdictPassed ==> canPass) && b.lock == None
      && RequireRunning(b, b.task.latestValidationRun, ValidationRun).Success?
    case ResumeStep(runId, reason, repair, env) =>
      && !b.task.archived && Text.Strip(reason) != "" && b.task.stage == Implementing && HasAcceptedPlan(b)
      && RequireRunning(b, SelectedRun(b, runId), ImplementationRun).Success?
      && repair && b.lock.Some? && b.lock.value.Expired(env.now) && !env.depsDone
    case _ => false
  }

  lemma FinishTracesIff(b: Bundle, summary: string, todosDone: bool)
    requires Agrees(b)
    ensures var p := FinishImplementation(b, summary, todosDone);
      p.outcome.Refused? && p.bundle != b <==> LeavesTraces(b, FinishStep(summary, todosDone))
  {
    var r := RequireRunning(b, b.task.latestImplementationRun, ImplementationRun);
    if r.Success? {
      OnlyRunning(b, b.task.latestImplementationRun.value);
      assert SaveRun(b, r.value.(status := Finished,
          summary := Some(Text.Strip(summary)))).runs[r.value.runId].status == Finished;
    }
  }

  lemma FinishValidationTracesIff(b: Bundle, verdict: Verdict, canPass: bool, summary: string)
    requires Agrees(b)
    ensures var p := FinishValidation(b, verdict, canPass, summary);
      p.outcome.Refused? && p.bundle != b <==> LeavesTraces(b, FinishValidationStep(verdict, canPass, summary))
  {
    var r := RequireRunning(b, b.task.latestValidationRun, ValidationRun);
    if r.Success? {
      OnlyRunning(b, b.task.latestValidationRun.value);
      assert VerdictStatus(verdict) != Running;
    }
  }

  lemma ResumeTracesIff(b: Bundle, runId: Option<string>, reason: string, repair: bool, env: Env)
    requires Agrees(b)
    ensures var p := ResumeImplementation(b, runId, reason, repair, env);
      p.outcome.Refused? && p.bundle != b <==> LeavesTraces(b, ResumeStep(runId, reason, repair, env))
  {
    if RequireRunning(b, SelectedRun(b, runId), ImplementationRun).Success? {
      OnlyRunning(b, SelectedRun(b, runId).value);
    }
  }

  lemma ProposeRefusalClean(b: Bundle, input: PlanInput, now: int)
    requires Agrees(b)
    ensures ProposePlan(b, input, now).outcome.Refused? ==> ProposePlan(b, input, now).bundle == b
  {
    if b.task.latestPlanningRun.Some? && b.task.latestPlanningRun.value in b.runs {
      MutationDecisionsExact(b.task, b.lock, Some(b.runs[b.task.latestPlanningRun.value]));
    }
  }

  lemma StartRefusalClean(b: Bundle, step: Step)
    requires StartsWork(step) && !step.ResumeStep?
    ensures Apply(b, step).outcome.Refused? ==> Apply(b, step).bundle == b
  {
  }

  lemma OtherRefusalClean(b: Bundle, step: Step)
    requires !StartsWork(step) && !step.FinishStep? && !step.FinishValidationStep? && !step.ProposeStep?
    ensures Apply(b, step).outcome.Refused? ==> Apply(b, step).bundle == b
  {
  }

  /**
   A refused command has changed nothing, except: finishing an implementation or a validation whose
   lock is gone (the verdict is stored all the same), and a repairing resume with open dependencies
   (the expired lock is dropped all the same).
   */
  lemma RefusalLeavesTracesIff(b: Bundle, step: Step)
    requires Agrees(b)
    ensures Apply(b, step).outcome.Refused? && Apply(b, step).bundle != b <==> LeavesTraces(b, step)
  {
    match step
    case FinishStep(summary, todosDone) => FinishTracesIff(b, summary, todosDone);
    case FinishValidationStep(verdict, canPass, summary) => FinishValidationTracesIff(b, verdict, canPass, summary);
    case ResumeStep(runId, reason, repair, env) => ResumeTracesIff(b, runId, reason, repair, env);
    case ProposeStep(input, now) => ProposeRefusalClean(b, input, now);
    case _ =>
      if StartsWork(step) {
        StartRefusalClean(b, step);
      } else {
        OtherRefusalClean(b, step);
      }
  }

  // ---- cancelling in the middle of an implementation ----

  /** A cancelled task that was being implemented comes back to life when its implementation is finished. */
  lemma FinishRevivesCancelled(b: Bundle, summary: string)
    requires Agrees(b) && b.task.stage == Cancelled && HasRunningImplementation(b) && !b.task.archived
    ensures FinishImplementation(b, summary, true).outcome.Refused?
    ensures FinishImplementation(b, summary, true).bundle.task.stage == Implemented
  {
    var r :| RunsImplementation(b, r);
  }

  lemma CancelThenApprove(b: Bundle, reason: string, now: int)
    requires Good(b) && b.task.stage == Implementing && Text.Strip(reason) != ""
    ensures UncancelTask(CancelTask(b).bundle, Some(Approved), reason, true, now)
            == Post(b.(lock := None, task := b.task.(stage := Approved)), Ok)
  {
  }

  /** Cancel, uncancel to `approved`, resume: the same run is under way again. */
  lemma CancelIsUndone(b: Bundle, reason: string, env: Env)
    requires Good(b) && b.task.stage == Implementing
    requires Text.Strip(reason) != "" && env.depsDone
    ensures var cancelled := CancelTask(b).bundle;
      var back := UncancelTask(cancelled, Some(Approved), reason, true, env.now).bundle;
      var p := ResumeImplementation(back, None, reason, false, env);
      && p.outcome == Ok && p.bundle.runs == b.runs && p.bundle.task == b.task
      && p.bundle.lock.Some? && p.bundle.lock.value.runId == b.task.latestImplementationRun.value
  {
    CancelThenApprove(b, reason, env.now);
  }

  /** In `failed_validation` with an implementation still running, start, restart and resume all refuse. */
  lemma ParkedInFailedValidation(
    b: Bundle, summary: string, env: Env, runId: Option<string>, reason: string, repair: bool)
    requires Agrees(b) && b.task.stage == FailedValidation && HasRunningImplementation(b)
    ensures StartImplementation(b, env).outcome.Refused? && StartImplementation(b, env).bundle == b
    ensures RestartImplementation(b, summary, env).outcome.Refused?
        && RestartImplementation(b, summary, env).bundle == b
    ensures ResumeImplementation(b, runId, reason, repair, env).outcome.Refused?
    ensures ResumeImplementation(b, runId, reason, repair, env).bundle == b
  {
    var r :| RunsImplementation(b, r);
    assert HasRunning(b);
  }

  /** Two ways lead out: cancel, uncancel to `approved` and resume; or finish, which is refused and yet ends it. */
  lemma WaysOut(b: Bundle, summary: string, reason: string, env: Env)
    requires Good(b) && b.task.stage == FailedValidation && HasRunningImplementation(b) && !b.task.archived
    requires Text.Strip(reason) != "" && env.depsDone
    ensures var back := UncancelTask(CancelTask(b).bundle, Some(Approved), reason, true, env.now).bundle;
      var p := ResumeImplementation(back, None, reason, false, env);
      && p.outcome == Ok && p.bundle.task.stage == Implementing && p.bundle.runs == b.runs
      && p.bundle.lock.Some? && RunsImplementation(b, p.bundle.lock.value.runId)
    ensures var p := FinishImplementation(b, summary, true);
      p.outcome.Refused? && p.bundle.task.stage == Implemented && !HasRunning(p.bundle)
  {
    var r :| RunsImplementation(b, r);
    OnlyRunning(b, r);
    var cancelled := CancelTask(b).bundle;
    assert UncancelTask(cancelled, Some(Approved), reason, true, env.now)
           == Post(b.(lock := None, task := b.task.(stage := Approved)), Ok);
    var post := FinishImplementation(b, summary, true).bundle;
    forall s | s in post.runs
      ensures post.runs[s].status != Running
    {
      assert post.runs[s].status == Running ==> IsRunning(b, s);
    }
  }

  lemma UncancelInfersFailed(b: Bundle, reason: string, now: int)
    requires b.task.stage == Cancelled && !b.task.archived && b.lock == None && Text.Strip(reason) != ""
    requires LatestIsFailedValidation(b) && HasAcceptedPlan(b)
    ensures UncancelTask(b, None, reason, true, now) == Post(b.(task := b.task.(stage := FailedValidation)), Ok)
  {
    assert InferUncancelTarget(b) == FailedValidation;
  }

  lemma RestartedState(b: Bundle, summary: string, env: Env)
    requires Good(b) && RestartImplementation(b, summary, env).outcome == Ok
    ensures var post := RestartImplementation(b, summary, env).bundle;
      post.task.stage == Implementing && LatestIsFailedValidation(post) && HasAcceptedPlan(post)
  {
    RestartShape(b, summary, env);
    Ids.NextIdFresh("run", b.runs.Keys);
    var post := RestartImplementation(b, summary, env).bundle;
    assert b.task.latestValidationRun.value != RestartedRun(b, summary, env).runId;
    assert FindRun(post, post.task.latestValidationRun) == FindRun(b, b.task.latestValidationRun);
  }

  lemma CancelledState(b: Bundle)
    requires Good(b) && b.task.stage == Implementing && LatestIsFailedValidation(b) && HasAcceptedPlan(b)
    ensures var cancelled := CancelTask(b).bundle;
      && Good(cancelled) && HasRunningImplementation(cancelled)
      && cancelled.task.stage == Cancelled && !cancelled.task.archived && cancelled.lock == None
      && LatestIsFailedValidation(cancelled) && HasAcceptedPlan(cancelled)
  {
    CancelAdvances(b, CancelTask(b).bundle);
    assert RunsImplementation(CancelTask(b).bundle, b.task.latestImplementationRun.value);
  }

  /** Uncancelling a cancelled restart without naming a stage leads exactly there. */
  lemma UncancelDeadEnd(b: Bundle, summary: string, env: Env, reason: string, now: int)
    requires Good(b) && RestartImplementation(b, summary, env).outcome == Ok && Text.Strip(reason) != ""
    ensures var cancelled := CancelTask(RestartImplementation(b, summary, env).bundle).bundle;
      var back := UncancelTask(cancelled, None, reason, true, now).bundle;
      back.task.stage == FailedValidation && HasRunningImplementation(back) && Good(back)
  {
    var restarted := RestartImplementation(b, summary, env).bundle;
    RestartAdvances(b, summary, env, RestartImplementation(b, summary, env).bundle);
    RestartedState(b, summary, env);
    CancelledState(restarted);
    var cancelled := CancelTask(restarted).bundle;
    UncancelInfersFailed(cancelled, reason, now);
    UncancelAdvances(cancelled, None, reason, true, now, UncancelTask(cancelled, None, reason, true, now).bundle);
    var r :| RunsImplementation(cancelled, r);
    assert RunsImplementation(UncancelTask(cancelled, None, reason, true, now).bundle, r);
  }
}
