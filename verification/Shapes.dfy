/**
 What kind of change each command makes to a task's directory. The invariants are proved over
 these kinds, so that each command is looked into only once.
 */
module Shapes {
  import opened Common
  import opened Records
  import opened Policies
  import opened Protocol
  import Ids

  /** Every run is stored under its own id. */
  ghost predicate Keyed(b: Bundle) {
    forall r :: r in b.runs ==> b.runs[r].runId == r
  }

  predicate IsRunning(b: Bundle, r: string) {
    r in b.runs && b.runs[r].status == Running
  }

  /** What a run was recorded with, apart from its status and its notes. */
  predicate SameEvidence(a: Run, b: Run) {
    && a.runId == b.runId && a.runType == b.runType && a.resumes == b.resumes
    && a.changeRefs == b.changeRefs && a.checkRefs == b.checkRefs
  }

  /** Two states of one lock: same id, task, run, stage, start and expiry. */
  predicate SameLease(a: Lock, b: Lock) {
    && a.lockId == b.lockId && a.taskId == b.taskId && a.runId == b.runId && a.stage == b.stage
    && a.createdAt == b.createdAt && a.expiresAt == b.expiresAt && a.reason == b.reason
  }

  /** A lock nobody has handed over yet. */
  predicate Takes(lock: Option<Lock>, taskId: string, stage: LockStage, runId: string) {
    lock.Some? && lock.value.taskId == taskId && lock.value.stage == stage && lock.value.runId == runId
        && lock.value.history == []
  }

  /** A new run, with nothing recorded for it, becomes the running one under a new lock. */
  ghost predicate Begins(b: Bundle, stage: LockStage, run: Run, post: Bundle) {
    && b.lock == None && !HasRunning(b) && !b.task.archived
    && (stage == LockPlanning ==> b.task.stage in {Draft, PlanReview})
    && (stage == LockImplementing ==> HasAcceptedPlan(b))
    && (stage == LockValidating ==> b.task.stage == Implemented)
    && run.runId == Ids.NextId("run", b.runs.Keys) && run.runType == ExpectedRunType(stage) && run.status == Running
    && run.changeRefs == [] && run.checkRefs == []
    && (run.resumes.Some? ==>
          && run.resumes.value in b.runs && run.runType == ImplementationRun
          && b.runs[run.resumes.value].runType == ImplementationRun)
    && post == b.(runs := b.runs[run.runId := run], lock := post.lock, task := BegunTask(b.task, stage, run.runId))
    && Takes(post.lock, b.task.id, stage, run.runId)
  }

  /** The running implementation run under way is picked up again, or only its expired lock dropped. */
  ghost predicate Resumes(b: Bundle, r: string, post: Bundle) {
    && IsRunning(b, r) && b.runs[r].runType == ImplementationRun && !b.task.archived && HasAcceptedPlan(b)
    && post.runs == b.runs && post.plans == b.plans && post.changes == b.changes && post.checks == b.checks
    && post.handoffs == b.handoffs
    && (|| (post.lock == None && post.task == b.task)
        || (&& post.task == BegunTask(b.task, LockImplementing, b.runs[r].runId)
            && Takes(post.lock, b.task.id, LockImplementing, b.runs[r].runId)
            && (b.lock.Some? ==> !SameLease(post.lock.value, b.lock.value))))
  }

  /** One run is rewritten without changing what it is or whether it runs. */
  ghost predicate Notes(b: Bundle, run: Run, post: Bundle) {
    && run.runId in b.runs && SameEvidence(run, b.runs[run.runId]) && run.status == b.runs[run.runId].status
    && post == b.(runs := b.runs[run.runId := run])
  }

  /** A change is recorded for a run: in the change log, in the run and as a record. */
  ghost predicate GainsChange(b: Bundle, run: Run, change: Change, post: Bundle) {
    var id := Ids.NextId("change", b.changes.Keys);
    && run.runId in b.runs && change.run == run.runId && change.changeId == id
    && run.changeRefs == b.runs[run.runId].changeRefs + [id]
    && SameEvidence(run.(changeRefs := b.runs[run.runId].changeRefs), b.runs[run.runId])
    && run.status == b.runs[run.runId].status
    && post == b.(runs := b.runs[run.runId := run], changes := b.changes[id := change],
                  task := b.task.(changeLog := b.task.changeLog + [id]))
  }

  ghost predicate GainsCheck(b: Bundle, run: Run, check: Check, post: Bundle) {
    var id := Ids.NextId("check", b.checks.Keys);
    && run.runId in b.runs && check.run == run.runId && check.checkId == id
    && run.checkRefs == b.runs[run.runId].checkRefs + [id]
    && SameEvidence(run.(checkRefs := b.runs[run.runId].checkRefs), b.runs[run.runId])
    && run.status == b.runs[run.runId].status
    && post == b.(runs := b.runs[run.runId := run], checks := b.checks[id := check])
  }

  /** A running run ends; its lock goes with it if the lock is for that run. */
  ghost predicate Ends(b: Bundle, run: Run, kind: LockStage, post: Bundle) {
    && IsRunning(b, run.runId) && SameEvidence(run, b.runs[run.runId]) && run.status != Running
    && run.runType == ExpectedRunType(kind)
    && post.runs == b.runs[run.runId := run] && post.changes == b.changes && post.checks == b.checks
    && post.handoffs == b.handoffs
    && post.lock == (if LockIsFor(b.lock, kind, run.runId) then None else b.lock)
    && post.task == b.task.(stage := post.task.stage, latestPlan := post.task.latestPlan)
    && (post.task.stage == b.task.stage || post.task.stage in {PlanReview, Implemented, Done, FailedValidation})
    && (kind != LockPlanning ==> post.task.stage in {Implemented, Done, FailedValidation})
    && (forall v :: v in b.plans ==> v in post.plans && post.plans[v] == b.plans[v])
  }

  /** Runs and records stay; the stage, the archive flag, the lock or the plans may move. */
  ghost predicate Moves(b: Bundle, post: Bundle) {
    && post.runs == b.runs && post.changes == b.changes && post.checks == b.checks && post.handoffs == b.handoffs
    && post.task == b.task.(stage := post.task.stage, archived := post.task.archived,
       acceptedPlan := post.task.acceptedPlan)
    && (post.lock == b.lock || post.lock == None)
    && ((post.task.acceptedPlan == b.task.acceptedPlan && post.plans == b.plans) || HasAcceptedPlan(post))
  }

  ghost predicate Approves(b: Bundle, post: Bundle) {
    Moves(b, post) && !HasRunning(b) && b.lock == None && post.task.stage == Approved
        && post.task.archived == b.task.archived
  }

  ghost predicate LosesLock(b: Bundle, post: Bundle) {
    Moves(b, post) && post.task == b.task && post.plans == b.plans && post.lock == None
  }

  ghost predicate Cancels(b: Bundle, post: Bundle) {
    Moves(b, post) && !b.task.archived && post.task == b.task.(stage := Cancelled) && post.plans == b.plans
        && post.lock == None
  }

  ghost predicate Restores(b: Bundle, post: Bundle) {
    && Moves(b, post) && b.task.stage == Cancelled && b.lock == None && post.plans == b.plans
    && post.task == b.task.(stage := post.task.stage)
    && post.task.stage in {Draft, PlanReview, Approved, Implemented, FailedValidation}
    && (post.task.stage == Implemented ==> LatestIsFinishedImplementation(b))
  }

  /** Archiving or unarchiving: an active stage is never archived, and `implemented` may reopen as failed. */
  ghost predicate Files(b: Bundle, post: Bundle) {
    && Moves(b, post) && post.plans == b.plans && post.lock == b.lock
    && post.task == b.task.(stage := post.task.stage, archived := post.task.archived)
    && (post.task.stage == b.task.stage || (b.task.stage == Implemented && post.task.stage == FailedValidation))
    && (b.task.stage == Implementing ==> post.task.archived ==> b.task.archived)
  }

  /** Only the handoffs, and the holder of the lock. */
  ghost predicate Hands(b: Bundle, post: Bundle) {
    && post == b.(handoffs := post.handoffs, lock := post.lock)
    && (post.lock.Some? <==> b.lock.Some?)
    && (post.lock.Some? ==> SameLease(post.lock.value, b.lock.value))
  }

  predicate IsHandoffStep(step: Step) {
    step.CreateHandoffStep? || step.ReceiveHandoffStep? || step.ClaimStep? || step.CloseStep? || step.CancelHandoffStep?
  }

  // ---- one lemma for each command ----

  lemma BeginShape(b: Bundle, stage: LockStage, run: Run, env: Env)
    requires run.runId == Ids.NextId("run", b.runs.Keys)
    ensures var p := BeginRun(b, stage, run, env);
      || p.bundle == b
      || (b.lock == None && !HasRunning(b)
          && p.bundle == b.(runs := b.runs[run.runId := run],
                            lock := Some(NewLock(b.task.id, stage, run.runId, StartReason(stage), env)),
                            task := BegunTask(b.task, stage, run.runId)))
  {
    assert b.runs[run.runId := FreshRun(b, ExpectedRunType(stage), env)][run.runId := run] == b.runs[run.runId := run];
  }

  lemma StartShape(b: Bundle, env: Env)
    ensures var post := StartImplementation(b, env).bundle;
      post == b || Begins(b, LockImplementing, FreshRun(b, ImplementationRun, env), post)
  {
    BeginShape(b, LockImplementing, FreshRun(b, ImplementationRun, env), env);
  }

  lemma RestartShape(b: Bundle, summary: string, env: Env)
    requires Keyed(b)
    ensures var post := RestartImplementation(b, summary, env).bundle;
      || post == b
      || (RestartRefusal(b, summary, env) == None && Begins(b, LockImplementing, RestartedRun(b, summary, env), post))
  {
    if RestartRefusal(b, summary, env) == None {
      BeginShape(b, LockImplementing, RestartedRun(b, summary, env), env);
    }
  }

  lemma StartPlanningShape(b: Bundle, env: Env)
    ensures var post := StartPlanning(b, env).bundle;
      post == b || Begins(b, LockPlanning, FreshRun(b, PlanningRun, env), post)
  {
    BeginShape(b, LockPlanning, FreshRun(b, PlanningRun, env), env);
  }

  lemma StartValidationShape(b: Bundle, current: bool, env: Env)
    ensures var post := StartValidation(b, current, env).bundle;
      post == b || Begins(b, LockValidating, ValidationStarted(b, env), post)
  {
    BeginShape(b, LockValidating, ValidationStarted(b, env), env);
  }

  lemma ResumeShape(b: Bundle, runId: Option<string>, reason: string, repair: bool, env: Env)
    ensures var post := ResumeImplementation(b, runId, reason, repair, env).bundle;
      post == b || (SelectedRun(b, runId).Some? && Resumes(b, SelectedRun(b, runId).value, post))
  {
  }

  lemma LogShape(b: Bundle, message: string, now: int)
    requires Keyed(b)
    ensures var post := LogImplementation(b, message, now).bundle;
      post == b || exists run :: Notes(b, run, post)
  {
    var post := LogImplementation(b, message, now).bundle;
    if post != b {
      assert Notes(b, post.runs[b.task.latestImplementationRun.value], post);
    }
  }

  lemma DeviationShape(b: Bundle, message: string, now: int)
    requires Keyed(b)
    ensures var post := AddDeviation(b, message, now).bundle;
      post == b || exists run :: Notes(b, run, post)
  {
    var post := AddDeviation(b, message, now).bundle;
    if post != b {
      assert Notes(b, post.runs[b.task.latestImplementationRun.value], post);
    }
  }

  lemma ArtifactShape(b: Bundle, path: string, summary: string, now: int)
    requires Keyed(b)
    ensures var post := AddArtifact(b, path, summary, now).bundle;
      post == b || exists run :: Notes(b, run, post)
  {
    var post := AddArtifact(b, path, summary, now).bundle;
    if post != b {
      assert Notes(b, post.runs[b.task.latestImplementationRun.value], post);
    }
  }

  lemma ChangeShape(b: Bundle, kind: string, path: string, summary: string, artifacts: seq<string>, now: int)
    requires Keyed(b)
    ensures var post := AddChange(b, kind, path, summary, artifacts, now).bundle;
      post == b || exists run, change :: GainsChange(b, run, change, post)
  {
    var post := AddChange(b, kind, path, summary, artifacts, now).bundle;
    if post != b {
      var id := Ids.NextId("change", b.changes.Keys);
      assert GainsChange(b, post.runs[b.task.latestImplementationRun.value], post.changes[id], post);
    }
  }

  lemma CheckShape(b: Bundle, command: string, exitCode: Option<int>, artifacts: seq<string>, now: int)
    requires Keyed(b)
    ensures var post := AddCheck(b, command, exitCode, artifacts, now).bundle;
      post == b || exists run, check :: GainsCheck(b, run, check, post)
  {
    var post := AddCheck(b, command, exitCode, artifacts, now).bundle;
    if post != b {
      var id := Ids.NextId("check", b.checks.Keys);
      assert GainsCheck(b, post.runs[b.task.latestImplementationRun.value], post.checks[id], post);
    }
  }

  lemma FinishShape(b: Bundle, summary: string, todosDone: bool)
    requires Keyed(b)
    ensures var post := FinishImplementation(b, summary, todosDone).bundle;
      post == b || exists run :: Ends(b, run, LockImplementing, post)
  {
    var post := FinishImplementation(b, summary, todosDone).bundle;
    if post != b {
      var run := post.runs[b.task.latestImplementationRun.value];
      assert SameEvidence(run, b.runs[run.runId]) && run.status != Running;
      assert Ends(b, run, LockImplementing, post);
    }
  }

  lemma FinishValidationShape(b: Bundle, verdict: Verdict, canPass: bool, summary: string)
    requires Keyed(b)
    ensures var post := FinishValidation(b, verdict, canPass, summary).bundle;
      post == b || exists run :: Ends(b, run, LockValidating, post)
  {
    var post := FinishValidation(b, verdict, canPass, summary).bundle;
    if post != b {
      var r := b.task.latestValidationRun.value;
      var run := b.runs[r].(status := VerdictStatus(verdict), result := Some(verdict),
          summary := Some(Text.Strip(summary)));
      assert post.runs == b.runs[r := run];
      assert Ends(b, run, LockValidating, post);
    }
  }

  lemma ProposeShape(b: Bundle, input: PlanInput, now: int)
    requires Keyed(b)
    ensures var post := ProposePlan(b, input, now).bundle;
      post == b || exists run :: Ends(b, run, LockPlanning, post)
  {
    var post := ProposePlan(b, input, now).bundle;
    if post != b {
      MutationDecisionsExact(b.task, b.lock, Some(b.runs[b.task.latestPlanningRun.value]));
      assert Ends(b, post.runs[b.task.latestPlanningRun.value], LockPlanning, post);
    }
  }

  lemma RepairShape(b: Bundle, runId: Option<string>, reason: string)
    requires Keyed(b)
    ensures var post := RepairPlanningRun(b, runId, reason).bundle;
      post == b || exists run :: Ends(b, run, LockPlanning, post)
  {
    var post := RepairPlanningRun(b, runId, reason).bundle;
    if post != b {
      var r := if Truthy(runId) then runId.value else b.task.latestPlanningRun.value;
      assert Ends(b, post.runs[r], LockPlanning, post);
    }
  }

  lemma ApproveShape(b: Bundle, version: nat, gates: bool)
    ensures var post := ApprovePlan(b, version, gates).bundle; post == b || Approves(b, post)
  {
  }

  lemma UncancelShape(b: Bundle, requested: Option<Stage>, reason: string, permitted: bool, now: int)
    ensures var post := UncancelTask(b, requested, reason, permitted, now).bundle; post == b || Restores(b, post)
  {
  }

  lemma LockShape(b: Bundle, now: int)
    ensures BreakLock(b, now).bundle == b || LosesLock(b, BreakLock(b, now).bundle)
    ensures CancelTask(b).bundle == b || Cancels(b, CancelTask(b).bundle)
  {
  }

  lemma ArchiveShape(b: Bundle, reason: string, force: bool, now: int)
    ensures var post := ArchiveTask(b, reason, force, now).bundle; post == b || Files(b, post)
  {
  }

  lemma UnarchiveShape(b: Bundle, reason: string, reopen: bool)
    ensures var post := UnarchiveTask(b, reason, reopen).bundle; post == b || Files(b, post)
  {
  }

  lemma ReceiveHandoffShape(b: Bundle, h: Handoff, directed: bool)
    ensures Hands(b, ReceiveHandoff(b, h).bundle)
    ensures Hands(b, CreateHandoff(b, h, directed).bundle)
  {
  }

  lemma ClaimShape(b: Bundle, id: string, actor: Actor, harness: string, newRun: Option<string>, now: int)
    ensures Hands(b, ClaimHandoff(b, id, actor, harness, newRun, now).bundle)
  {
  }

  lemma CloseHandoffShape(b: Bundle, id: string, note: Option<string>)
    ensures Hands(b, CloseHandoff(b, id, note).bundle)
    ensures Hands(b, CancelHandoff(b, id, note).bundle)
  {
  }
}
