/** The commands around the implementation: exactly when each succeeds, what it leaves, and what it makes possible. */
module Commands {
  import opened Common
  import opened Records
  import opened Policies
  import opened Protocol
  import opened Shapes
  import opened Agreement
  import opened Transfers
  import opened Progress
  import opened Handoffs

  /** A refused command changed nothing. */
  ghost predicate AllOrNothing(b: Bundle, p: Post, allowed: bool) {
    (p.outcome == Ok <==> allowed) && (!allowed ==> p.bundle == b)
  }

  lemma NoneStillRunning(b: Bundle, run: Run, post: Bundle)
    requires Agrees(b) && IsRunning(b, run.runId) && run.status != Running && post.runs == b.runs[run.runId := run]
    ensures !HasRunning(post)
  {
    forall s | s in post.runs
      ensures post.runs[s].status != Running
    {
      assert post.runs[s].status == Running ==> IsRunning(b, s);
    }
  }

  // ---- what a start leaves ----

  /** The lock as a command takes it: for two hours, and not handed over yet. */
  ghost predicate TookLockFor(
    lock: Option<Lock>, taskId: string, kind: LockStage, r: string, reason: string, env: Env) {
    && lock.Some? && lock.value.lockId == env.lockId && lock.value.taskId == taskId && lock.value.runId == r
    && lock.value.stage == kind && lock.value.reason == reason
    && lock.value.createdAt == env.now && lock.value.expiresAt == Some(env.now + 7200)
    && lock.value.holder == env.actor && lock.value.actor == Some(env.actor) && lock.value.harness == env.harness
    && lock.value.history == [] && lock.value.transferDate == None
  }

  /** A run with nothing recorded yet, based on the accepted plan or else the latest; version zero counts as none. */
  ghost predicate NewRun(b: Bundle, run: Run, runType: RunType, env: Env) {
    && run.taskId == b.task.id && run.runType == runType && run.status == Running && run.actor == env.actor
    && (b.task.acceptedPlan.Some? && b.task.acceptedPlan.value != 0 ==> run.basedOnPlan == b.task.acceptedPlan)
    && (b.task.acceptedPlan.None? || b.task.acceptedPlan.value == 0 ==> run.basedOnPlan == b.task.latestPlan)
    && run.result == None && run.summary == None && run.deviations == [] && run.changeRefs == [] && run.checkRefs == []
    && run.artifactRefs == []
  }

  /** One new run, with the number after the highest, under a new lock; apart from the task nothing else changes. */
  ghost predicate BeganUnder(b: Bundle, post: Bundle, r: string, kind: LockStage, reason: string, env: Env) {
    && r !in b.runs && r in post.runs && post.runs[r].runId == r
    && (forall s :: s in b.runs ==> Ids.NumberOf("run", s) < Ids.NumberOf("run", r))
    && NewRun(b, post.runs[r], if kind == LockPlanning then PlanningRun
                               else if kind == LockImplementing then ImplementationRun else ValidationRun, env)
    && TookLockFor(post.lock, b.task.id, kind, r, reason, env)
    && post == b.(runs := b.runs[r := post.runs[r]], lock := post.lock, task := post.task)
  }

  lemma BeginsUnder(b: Bundle, kind: LockStage, run: Run, env: Env)
    requires Unoccupied(b) && run.runId == Ids.NextId("run", b.runs.Keys) && NewRun(b, run, ExpectedRunType(kind), env)
    ensures var p := BeginRun(b, kind, run, env);
      && p.outcome == Ok && BeganUnder(b, p.bundle, run.runId, kind, StartReason(kind), env)
      && p.bundle.runs[run.runId] == run
  {
    BeginShape(b, kind, run, env);
    BeginTakes(b, kind, run, env);
    Ids.NextIdFresh("run", b.runs.Keys);
  }

  // ---- implementation ----

  /** The task has an accepted plan that is stored as accepted. */
  predicate PlanAccepted(b: Bundle) {
    && b.task.acceptedPlan.Some? && b.task.acceptedPlan.value in b.plans
    && b.plans[b.task.acceptedPlan.value] == Accepted
  }

  /** Nothing is under way: no lock, no running run. */
  ghost predicate Free(b: Bundle) {
    b.lock == None && forall r :: r in b.runs ==> b.runs[r].status != Running
  }

  /**
   An implementation starts exactly on a visible task that is approved or has failed validation, has an accepted plan,
   whose dependencies are done and of which nothing is under way. It is one new run that resumes none.
   */
  lemma StartedIff(b: Bundle, env: Env)
    ensures var p := StartImplementation(b, env);
      && AllOrNothing(b, p, && !b.task.archived && (b.task.stage == Approved || b.task.stage == FailedValidation)
                            && PlanAccepted(b) && env.depsDone && Free(b))
      && (p.outcome == Ok ==>
            && p.bundle.task.latestImplementationRun.Some?
            && var r := p.bundle.task.latestImplementationRun.value;
               && BeganUnder(b, p.bundle, r, LockImplementing, "implement approved plan", env)
               && p.bundle.runs[r].resumes == None && p.bundle.runs[r].worklog == []
               && p.bundle.task == b.task.(latestImplementationRun := Some(r), stage := Implementing))
  {
    StartTakes(b, env);
    if TakesLock(b, StartStep(env)) {
      BeginsUnder(b, LockImplementing, FreshRun(b, ImplementationRun, env), env);
    }
  }

  /** A lock in the way of a start or of uncancelling is reported as stale if it has expired, and else as a conflict. */
  lemma LockInTheWay(b: Bundle, current: bool, requested: Option<Stage>, reason: string, env: Env)
    requires b.lock.Some? && !b.task.archived
    ensures var expired := b.lock.value.expiresAt.Some? && b.lock.value.expiresAt.value < env.now;
      var refused := Post(b, Refused(if expired then StaleLock else LockConflict));
      && (b.task.stage in {Draft, PlanReview} ==> StartPlanning(b, env) == refused)
      && (b.task.stage in {Approved, FailedValidation} && PlanAccepted(b) && env.depsDone ==>
            StartImplementation(b, env) == refused)
      && (b.task.stage == Implemented && LatestIsFinishedImplementation(b) && current ==>
            StartValidation(b, current, env) == refused)
      && (b.task.stage == Cancelled ==> UncancelTask(b, requested, reason, true, env.now) == refused)
  {
  }

  /** Without a lock a run that is still running is in the way. */
  lemma RunInTheWay(b: Bundle, current: bool, env: Env, r: string)
    requires b.lock == None && !b.task.archived && r in b.runs && b.runs[r].status == Running
    ensures var refused := Post(b, Refused(RunningRunConflict));
      && (b.task.stage in {Draft, PlanReview} ==> StartPlanning(b, env) == refused)
      && (b.task.stage in {Approved, FailedValidation} && PlanAccepted(b) && env.depsDone ==>
            StartImplementation(b, env) == refused)
      && (b.task.stage == Implemented && LatestIsFinishedImplementation(b) && current ==>
            StartValidation(b, current, env) == refused)
  {
  }

  /** The latest validation ended in a failed or blocked verdict. */
  predicate FailedLately(b: Bundle) {
    && b.task.latestValidationRun.Some? && b.task.latestValidationRun.value in b.runs
    && var run := b.runs[b.task.latestValidationRun.value];
       && run.runType == ValidationRun && (run.status == Failed || run.status == Blocked)
       && (run.result == Some(VerdictFailed) || run.result == Some(VerdictBlocked))
  }

  predicate ImplementedBefore(b: Bundle) {
    && b.task.latestImplementationRun.Some? && b.task.latestImplementationRun.value in b.runs
    && b.runs[b.task.latestImplementationRun.value].runType == ImplementationRun
  }

  /**
   A restart needs a failed validation, an earlier implementation and a summary besides. The new run resumes the
   earlier one, and its log begins with the summary and the verdict.
   */
  lemma RestartedIff(b: Bundle, summary: string, env: Env)
    ensures var p := RestartImplementation(b, summary, env);
      && AllOrNothing(b, p, && !b.task.archived && b.task.stage == FailedValidation && PlanAccepted(b)
                            && FailedLately(b) && ImplementedBefore(b) && Text.Strip(summary) != ""
                            && env.depsDone && Free(b))
      && (p.outcome == Ok ==>
            && p.bundle.task.latestImplementationRun.Some?
            && var r := p.bundle.task.latestImplementationRun.value;
               var validation := b.runs[b.task.latestValidationRun.value];
               && BeganUnder(b, p.bundle, r, LockImplementing, "implement approved plan", env)
               && p.bundle.runs[r].resumes == Some(b.runs[b.task.latestImplementationRun.value].runId)
               && p.bundle.runs[r].worklog == [
                    "Restart summary: " + Text.Strip(summary),
                    "Restarted after validation run " + validation.runId + " ("
                    + (if validation.result == Some(VerdictFailed) then "failed" else "blocked") + ")."]
               && p.bundle.task == b.task.(latestImplementationRun := Some(r), stage := Implementing))
  {
    RestartTakes(b, summary, env);
    if TakesLock(b, RestartStep(summary, env)) {
      BeginsUnder(b, LockImplementing, RestartedRun(b, summary, env), env);
    }
  }

  /** The run that is asked for, or the latest implementation. */
  function AskedFor(b: Bundle, runId: Option<string>): Option<string> {
    if runId.Some? && runId.value != "" then runId else b.task.latestImplementationRun
  }

  predicate RunningImplementation(b: Bundle, r: Option<string>) {
    r.Some? && r.value in b.runs && b.runs[r.value].runType == ImplementationRun && b.runs[r.value].status == Running
  }

  /** There is no lock, or an expired one of this run that is to be repaired. */
  predicate LockYields(lock: Option<Lock>, runId: string, repair: bool, now: int) {
    lock.Some? ==>
      && repair && lock.value.expiresAt.Some? && lock.value.expiresAt.value < now
      && lock.value.runId == runId && lock.value.stage == LockImplementing
  }

  /**
   A resume succeeds exactly on a visible task that is approved or being implemented, with an accepted plan, a running
   implementation run, a reason, done dependencies and no lock in the way. No run changes.
   */
  lemma ResumedIff(b: Bundle, runId: Option<string>, reason: string, repair: bool, env: Env)
    ensures var p := ResumeImplementation(b, runId, reason, repair, env);
      var r := AskedFor(b, runId);
      && (p.outcome == Ok <==>
            && !b.task.archived && Text.Strip(reason) != ""
            && (b.task.stage == Approved || b.task.stage == Implementing) && PlanAccepted(b)
            && RunningImplementation(b, r) && env.depsDone
            && LockYields(b.lock, b.runs[r.value].runId, repair, env.now))
      && (p.outcome == Ok ==>
            && TookLockFor(p.bundle.lock, b.task.id, LockImplementing, b.runs[r.value].runId, Text.Strip(reason), env)
            && p.bundle.task == b.task.(stage := Implementing, latestImplementationRun := Some(b.runs[r.value].runId))
            && p.bundle.brokenLocks == (if b.lock.Some? then b.brokenLocks[env.now := b.lock.value] else b.brokenLocks)
            && p.bundle == b.(lock := p.bundle.lock, task := p.bundle.task, brokenLocks := p.bundle.brokenLocks))
  {
  }

  /**
   The work is finished exactly while the implementing lock is held on a visible task and the mandatory todos are done;
   an expired lock will do. The run ends with the summary, its lock goes, and validation can start.
   */
  lemma FinishedIff(b: Bundle, summary: string, todosDone: bool, env: Env)
    requires Agrees(b)
    ensures var p := FinishImplementation(b, summary, todosDone);
      && (p.outcome == Ok <==> !b.task.archived && todosDone && b.lock.Some? && b.lock.value.stage == LockImplementing)
      && (p.outcome == Ok ==>
            var r := b.lock.value.runId;
            && p.bundle == b.(runs := b.runs[r := b.runs[r].(status := Finished, summary := Some(Text.Strip(summary)))],
                              task := b.task.(stage := Implemented), lock := None)
            && TakesLock(p.bundle, StartValidationStep(true, env)))
  {
    var p := FinishImplementation(b, summary, todosDone);
    if b.lock.Some? && b.lock.value.stage == LockImplementing {
      assert RunsImplementation(b, b.lock.value.runId);
      OnlyRunning(b, b.lock.value.runId);
    }
    if p.outcome == Ok {
      var r := b.lock.value.runId;
      NoneStillRunning(b, b.runs[r].(status := Finished, summary := Some(Text.Strip(summary))), p.bundle);
    }
  }

  // ---- planning ----

  /**
   Planning starts exactly in `draft` or `plan_review` with nothing under way. It begins one new run, which then is the
   only one running, and until the lock expires a plan can be proposed.
   */
  lemma PlanningStartsIff(b: Bundle, env: Env, now: int)
    requires Agrees(b)
    ensures var p := StartPlanning(b, env);
      && AllOrNothing(b, p, !b.task.archived && b.task.stage in {Draft, PlanReview} && Unoccupied(b))
      && (p.outcome == Ok ==>
            && p.bundle.task.latestPlanningRun.Some?
            && var r := p.bundle.task.latestPlanningRun.value;
               && BeganUnder(b, p.bundle, r, LockPlanning, "plan task", env) && UnderWay(p.bundle, LockPlanning, r)
               && p.bundle.task == b.task.(latestPlanningRun := Some(r))
               && (now <= env.now + LEASE_SECONDS ==> CanPropose(p.bundle, now)))
  {
    PlanningTakes(b, env);
    if TakesLock(b, StartPlanningStep(env)) {
      Begun(b, LockPlanning, FreshRun(b, PlanningRun, env), env);
      BeginsUnder(b, LockPlanning, FreshRun(b, PlanningRun, env), env);
    }
  }

  /** The latest planning run is under way under a lock that has not expired. */
  predicate CanPropose(b: Bundle, now: int) {
    && !b.task.archived && b.lock.Some? && b.lock.value.stage == LockPlanning && !b.lock.value.Expired(now)
    && b.task.latestPlanningRun == Some(b.lock.value.runId)
  }

  lemma ProposeAllowed(b: Bundle, input: PlanInput, now: int)
    requires Agrees(b)
    ensures AllOrNothing(b, ProposePlan(b, input, now), CanPropose(b, now) && input.Parsed?)
  {
    if FindRun(b, b.task.latestPlanningRun).Success? {
      MutationDecisionsExact(b.task, b.lock, Some(b.runs[b.task.latestPlanningRun.value]));
    }
  }

  /**
   A plan is proposed exactly while the latest planning run holds its lock, if its text is well-formed. Its version is
   above every other, no other plan changes, the run ends with its summary, and the plan can be approved.
   */
  lemma ProposedIff(b: Bundle, input: PlanInput, now: int)
    requires Agrees(b)
    ensures var p := ProposePlan(b, input, now);
      && AllOrNothing(b, p, CanPropose(b, now) && input.Parsed?)
      && (p.outcome == Ok ==>
            && p.bundle.task.latestPlan.Some?
            && var v, r := p.bundle.task.latestPlan.value, b.lock.value.runId;
               && (forall u :: u in b.plans ==> u < v) && p.bundle.plans == b.plans[v := Proposed]
               && p.bundle.runs == b.runs[r := b.runs[r].(status := Finished, summary := input.summary)]
               && CanApprove(p.bundle, v))
  {
    ProposeAllowed(b, input, now);
    if CanPropose(b, now) && input.Parsed? {
      var r := b.runs[b.lock.value.runId];
      NoneStillRunning(b, r.(status := Finished, summary := input.summary), ProposePlan(b, input, now).bundle);
    }
  }

  ghost predicate CanApprove(b: Bundle, version: nat) {
    && !b.task.archived && b.task.stage == PlanReview && Unoccupied(b)
    && version in b.plans && b.plans[version] == Proposed
  }

  /**
   A plan is approved exactly if it is a proposed one, in `plan_review`, with nothing under way, and the gates are
   passed. It is then the only accepted plan; rejected ones stay so, all others are superseded; and work can start.
   */
  lemma ApprovedIff(b: Bundle, version: nat, gates: bool, env: Env)
    ensures var p := ApprovePlan(b, version, gates);
      && AllOrNothing(b, p, CanApprove(b, version) && gates)
      && (p.outcome == Ok ==>
            && p.bundle.plans.Keys == b.plans.Keys
            && (forall v :: v in b.plans ==> (p.bundle.plans[v] == Accepted <==> v == version))
            && (forall v :: v in b.plans && v != version ==>
                  p.bundle.plans[v] == if b.plans[v] == Rejected then Rejected else Superseded)
            && p.bundle == b.(plans := p.bundle.plans,
                              task := b.task.(acceptedPlan := Some(version), stage := Approved))
            && (env.depsDone ==> TakesLock(p.bundle, StartStep(env))))
  {
  }

  /** The run as the repair leaves it. */
  function Repaired(run: Run, reason: string): Run {
    run.(status := Finished, summary := Some("Repaired orphaned planning run: " + Text.Strip(reason)))
  }

  /**
   An orphaned planning run is ended exactly if a reason is given, the run selected is a running planning run and no
   lock is held. After that nothing is under way.
   */
  lemma RepairedIff(b: Bundle, runId: Option<string>, reason: string)
    requires Agrees(b)
    ensures var p := RepairPlanningRun(b, runId, reason);
      var selected := if Truthy(runId) then runId else b.task.latestPlanningRun;
      && AllOrNothing(b, p, Text.Strip(reason) != "" && b.lock == None && selected.Some? && IsRunning(b, selected.value)
                            && b.runs[selected.value].runType == PlanningRun)
      && (p.outcome == Ok ==>
            && Unoccupied(p.bundle) && p.bundle == b.(runs := p.bundle.runs)
            && p.bundle.runs == b.runs[selected.value := Repaired(b.runs[selected.value], reason)])
  {
    var selected := if Truthy(runId) then runId else b.task.latestPlanningRun;
    if RepairPlanningRun(b, runId, reason).outcome == Ok {
      NoneStillRunning(b, Repaired(b.runs[selected.value], reason), RepairPlanningRun(b, runId, reason).bundle);
    }
  }

  // ---- validation ----

  /**
   Validation starts exactly on a visible implemented task whose latest implementation is finished and whose workspace
   is as it was left, with nothing under way. It begins one new run, based on that implementation.
   */
  lemma ValidationStartsIff(b: Bundle, current: bool, env: Env)
    requires Agrees(b)
    ensures var p := StartValidation(b, current, env);
      && AllOrNothing(b, p, !b.task.archived && b.task.stage == Implemented && LatestIsFinishedImplementation(b)
                            && current && Unoccupied(b))
      && (p.outcome == Ok ==>
            && p.bundle.task.latestValidationRun.Some?
            && var r := p.bundle.task.latestValidationRun.value;
               && BeganUnder(b, p.bundle, r, LockValidating, "validate implementation", env)
               && UnderWay(p.bundle, LockValidating, r) && p.bundle.task == b.task.(latestValidationRun := Some(r))
               && p.bundle.runs[r].basedOnImplementation == b.task.latestImplementationRun
               && CanJudge(p.bundle))
  {
    ValidationTakes(b, current, env);
    if TakesLock(b, StartValidationStep(current, env)) {
      Begun(b, LockValidating, ValidationStarted(b, env), env);
      BeginsUnder(b, LockValidating, ValidationStarted(b, env), env);
    }
  }

  predicate CanJudge(b: Bundle) {
    && !b.task.archived && b.lock.Some? && b.lock.value.stage == LockValidating
    && b.task.latestValidationRun == Some(b.lock.value.runId)
  }

  /**
   A verdict is accepted exactly while the latest validation run holds its lock, and a passing one only if its gates
   are passed. Stage and run then say the same: `done` for a passing verdict, `failed_validation` for the others.
   */
  lemma JudgedIff(b: Bundle, verdict: Verdict, canPass: bool, summary: string)
    requires Agrees(b)
    ensures var p := FinishValidation(b, verdict, canPass, summary);
      && (p.outcome == Ok <==> CanJudge(b) && (verdict == VerdictPassed ==> canPass))
      && (p.outcome == Ok ==>
            var r := b.lock.value.runId;
            var status := if verdict == VerdictPassed then Finished
                          else if verdict == VerdictFailed then Failed else Blocked;
            && p.bundle.runs == b.runs[r := b.runs[r].(status := status, result := Some(verdict),
                                                       summary := Some(Text.Strip(summary)))]
            && (p.bundle.task.stage == Done <==> verdict == VerdictPassed)
            && (p.bundle.task.stage == FailedValidation <==> verdict != VerdictPassed)
            && (LatestIsFailedValidation(p.bundle) <==> verdict != VerdictPassed)
            && Unoccupied(p.bundle) && p.bundle.plans == b.plans && p.bundle.changes == b.changes)
  {
    var p := FinishValidation(b, verdict, canPass, summary);
    if p.outcome == Ok {
      NoneStillRunning(b, p.bundle.runs[b.lock.value.runId], p.bundle);
    }
  }

  // ---- cancelling and archiving ----

  const UNCANCELLED: set<Stage> := {Draft, PlanReview, Approved, Implemented, FailedValidation}

  /** Whatever stage is inferred, it is one that may be asked for. */
  lemma InferredIsValid(b: Bundle)
    ensures InferUncancelTarget(b) in UNCANCELLED && UncancelTargetValid(b, InferUncancelTarget(b))
  {
  }

  /** How far a task has come that uncancelling may bring back. */
  function Progressed(stage: Stage): nat {
    match stage
    case FailedValidation => 4
    case Implemented => 3
    case Approved => 2
    case PlanReview => 1
    case _ => 0
  }

  /** The records that support a stage. */
  ghost predicate Supported(b: Bundle, stage: Stage) {
    || stage == Draft
    || (stage == PlanReview
        && exists v :: v in b.plans && b.plans[v] == Proposed && forall u :: u in b.plans ==> u <= v)
    || (stage == Approved && PlanAccepted(b))
    || (stage == Implemented && ImplementedBefore(b)
        && b.runs[b.task.latestImplementationRun.value].status == Finished)
    || (stage == FailedValidation && PlanAccepted(b) && FailedLately(b))
  }

  lemma SupportedIff(b: Bundle, stage: Stage)
    ensures UncancelTargetValid(b, stage) <==> Supported(b, stage)
  {
    var last := LatestPlan(b.plans.Keys);
    if stage == PlanReview && Supported(b, stage) {
      var v :| v in b.plans && b.plans[v] == Proposed && forall u :: u in b.plans ==> u <= v;
      assert v in b.plans.Keys;
    }
  }

  /** The stage that is inferred is the furthest that the records support. */
  lemma InferredIsFurthest(b: Bundle, stage: Stage)
    ensures Supported(b, InferUncancelTarget(b))
    ensures Supported(b, stage) ==> Progressed(stage) <= Progressed(InferUncancelTarget(b))
  {
    InferredIsValid(b);
    SupportedIff(b, InferUncancelTarget(b));
    SupportedIff(b, stage);
  }

  /**
   A cancelled task comes back exactly if it is visible and unlocked, a reason is given, the actor may, and the stage
   asked for is supported by its records. Without a stage asked for, one is always found. Only the stage changes.
   */
  lemma UncancelledIff(b: Bundle, requested: Option<Stage>, reason: string, permitted: bool, now: int)
    ensures var p := UncancelTask(b, requested, reason, permitted, now);
      && AllOrNothing(b, p, && !b.task.archived && b.task.stage == Cancelled && b.lock == None
                            && Text.Strip(reason) != "" && permitted
                            && (requested.Some? ==> Supported(b, requested.value)))
      && (p.outcome == Ok ==>
            && p.bundle == b.(task := b.task.(stage := p.bundle.task.stage)) && p.bundle.task.stage in UNCANCELLED
            && (requested.Some? ==> p.bundle.task.stage == requested.value)
            && (requested.None? ==>
                  && Supported(b, p.bundle.task.stage)
                  && forall s :: Supported(b, s) ==> Progressed(s) <= Progressed(p.bundle.task.stage)))
  {
    InferredIsValid(b);
    if requested.Some? {
      SupportedIff(b, requested.value);
    }
    forall s
      ensures Supported(b, s) ==> Progressed(s) <= Progressed(InferUncancelTarget(b))
    {
      InferredIsFurthest(b, s);
    }
    InferredIsFurthest(b, Draft);
  }

  /** A visible task is cancelled from any stage but an end: its lock goes without being filed, its runs stay. */
  lemma CancelledIff(b: Bundle)
    requires Agrees(b)
    ensures var p := CancelTask(b);
      && AllOrNothing(b, p, !b.task.archived && b.task.stage !in {Done, Cancelled})
      && (p.outcome == Ok ==>
            && p.bundle == b.(lock := None, task := b.task.(stage := Cancelled)) && Agrees(p.bundle)
            && (HasRunning(p.bundle) <==> HasRunning(b)))
  {
    if CancelTask(b).outcome == Ok {
      MovesKeeps(b, CancelTask(b).bundle);
    }
  }

  /** A lock is broken exactly if there is one: it is filed under the time, and nothing else changes. */
  lemma BrokenIff(b: Bundle, now: int)
    ensures var p := BreakLock(b, now);
      && AllOrNothing(b, p, b.lock.Some?)
      && (p.outcome == Ok ==>
            && p.bundle.lock == None && p.bundle == b.(lock := None, brokenLocks := p.bundle.brokenLocks)
            && now in p.bundle.brokenLocks && p.bundle.brokenLocks[now] == b.lock.value
            && forall t :: t != now && t in b.brokenLocks ==>
                 t in p.bundle.brokenLocks && p.bundle.brokenLocks[t] == b.brokenLocks[t])
  {
  }

  /** What keeps a task from being archived: a live lock, work under way, or, unless forced, not being at an end. */
  predicate MayArchive(b: Bundle, force: bool, now: int) {
    && (b.lock.Some? ==> b.lock.value.Expired(now)) && b.task.stage !in {Planning, Implementing, Validating}
    && (force || b.task.stage in {Done, Cancelled})
  }

  lemma ArchivedIff(b: Bundle, reason: string, force: bool, now: int)
    ensures var p := ArchiveTask(b, reason, force, now);
      && AllOrNothing(b, p, Text.Strip(reason) != "" && (b.task.archived || MayArchive(b, force, now)))
      && (p.outcome == Ok ==> p.bundle == b.(task := b.task.(archived := true)))
  {
  }

  /**
   A task is brought back from the archive exactly if a reason is given and, from a stage in which work could go on, it
   is asked for. That undoes archiving; only an implemented task comes back as failed if it is to be reopened.
   */
  lemma UnarchivedIff(b: Bundle, reason: string, reopen: bool)
    ensures var p := UnarchiveTask(b, reason, reopen);
      && AllOrNothing(b, p, Text.Strip(reason) != ""
                            && (b.task.archived && b.task.stage in {Approved, Implemented, FailedValidation}
                                ==> reopen))
      && (p.outcome == Ok ==>
            p.bundle == b.(task := b.task.(archived := false, stage := p.bundle.task.stage))
            && (p.bundle.task.stage != b.task.stage <==> b.task.archived && reopen && b.task.stage == Implemented)
            && (p.bundle.task.stage != b.task.stage ==> p.bundle.task.stage == FailedValidation))
  {
  }

  /** Archiving and bringing back leave the task as it was, unless an implemented task is reopened. */
  lemma ArchivingUndone(b: Bundle, reason: string, force: bool, now: int, reopen: bool)
    requires !b.task.archived && Text.Strip(reason) != "" && MayArchive(b, force, now)
    ensures var archived := ArchiveTask(b, reason, force, now).bundle;
      var p := UnarchiveTask(archived, reason, reopen);
      p.outcome == Ok && p.bundle == b
      <==> if reopen then b.task.stage != Implemented else b.task.stage !in {Approved, Implemented, FailedValidation}
  {
    ArchivedIff(b, reason, force, now);
    UnarchivedIff(ArchiveTask(b, reason, force, now).bundle, reason, reopen);
  }

  // ---- handoffs ----

  /** Meant for this actor in this harness: an intention that is not given, or empty, excludes nobody. */
  predicate MeantFor(h: Handoff, actor: Actor, harness: string) {
    && (h.intendedKind.Some? && h.intendedKind.value != "" ==> h.intendedKind.value == actor.kind)
    && (h.intendedName.Some? && h.intendedName.value != "" ==> h.intendedName.value == actor.name)
    && (h.intendedHarness.Some? && h.intendedHarness.value != "" && h.intendedHarness.value != "any" ==>
          h.intendedHarness.value == harness)
  }

  /** The lock is held for the run the handoff names. */
  predicate AboutLock(h: Handoff, lock: Option<Lock>) {
    && h.sourceRun.Some? && h.sourceRun.value != "" && lock.Some? && lock.value.runId == h.sourceRun.value
  }

  /** What a claim makes of a lock that the handoff is about. */
  function LockClaimed(lock: Lock, policy: LockPolicy, actor: Actor, harness: string, now: int): Lock {
    if policy == Transfer then
      lock.(holder := actor, actor := Some(actor), harness := Some(harness), transferDate := Some(now),
            history := lock.history + [TransferEntry(lock.lockId, lock.holder.kind + ":" + lock.holder.name,
                                                     actor.kind + ":" + actor.name)])
    else if policy == Release then lock.(transferDate := Some(now))
    else lock
  }

  /**
   A handoff is claimed exactly if it is there, open and meant for the claimer. It then says by whom, where and for
   which run, and names the lock it moved; a transfer makes the claimer the holder, a release only stamps the lock.
   */
  lemma ClaimedIff(b: Bundle, id: string, actor: Actor, harness: string, newRun: Option<string>, now: int)
    requires HandoffsKeyed(b)
    ensures var p := ClaimHandoff(b, id, actor, harness, newRun, now);
      && AllOrNothing(b, p, && id in b.handoffs && b.handoffs[id].status == Open
                            && MeantFor(b.handoffs[id], actor, harness))
      && (p.outcome == Ok ==>
            var h := b.handoffs[id];
            var moves := AboutLock(h, b.lock) && (h.lockPolicy == Transfer || h.lockPolicy == Release);
            && p.bundle == b.(handoffs := p.bundle.handoffs, lock := p.bundle.lock)
            && p.bundle.handoffs
               == b.handoffs[id := h.(status := Claimed, claimRun := newRun, claimedBy := Some(actor),
                                      claimedIn := Some(harness),
                                      releasedLock := if moves then Some(b.lock.value.lockId) else None)]
            && p.bundle.lock
               == if moves then Some(LockClaimed(b.lock.value, h.lockPolicy, actor, harness, now)) else b.lock)
  {
  }

  /** An open or claimed handoff is closed, an open one cancelled; a reason that is not empty becomes the summary. */
  lemma ClosedIff(b: Bundle, id: string, reason: Option<string>)
    requires HandoffsKeyed(b)
    ensures var p := CloseHandoff(b, id, reason);
      && AllOrNothing(b, p, id in b.handoffs && (b.handoffs[id].status == Open || b.handoffs[id].status == Claimed))
      && (p.outcome == Ok ==>
            var h := b.handoffs[id];
            var summary := if reason.Some? && reason.value != "" then reason else h.summary;
            p.bundle == b.(handoffs := b.handoffs[id := h.(status := Closed, summary := summary)]))
    ensures var p := CancelHandoff(b, id, reason);
      && AllOrNothing(b, p, id in b.handoffs && b.handoffs[id].status == Open)
      && (p.outcome == Ok ==>
            var h := b.handoffs[id];
            var summary := if reason.Some? && reason.value != "" then reason else h.summary;
            p.bundle == b.(handoffs := b.handoffs[id := h.(status := CancelledHandoff, summary := summary)]))
  {
  }

  /** A handoff is created exactly if directed. It is new and open, and claiming it never touches the lock. */
  lemma CreatedHandoffKeepsLock(
    b: Bundle, h: Handoff, directed: bool, actor: Actor, harness: string, newRun: Option<string>, now: int)
    ensures var p := CreateHandoff(b, h, directed);
      var id := Ids.NextId("handoff", b.handoffs.Keys);
      && AllOrNothing(b, p, directed)
      && (p.outcome == Ok ==>
            && id !in b.handoffs && p.bundle == b.(handoffs := b.handoffs[id := p.bundle.handoffs[id]])
            && p.bundle.handoffs[id].status == Open && p.bundle.handoffs[id].handoffId == id
            && ClaimHandoff(p.bundle, id, actor, harness, newRun, now).bundle.lock == b.lock)
  {
    Ids.NextIdFresh("handoff", b.handoffs.Keys);
  }
}
