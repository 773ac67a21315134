/** Agreement of stage, run and lock of a task, and why each kind of change keeps it. */
module Agreement {
  import opened Common
  import opened Records
  import opened Policies
  import opened Shapes

  predicate RunsImplementation(b: Bundle, r: string) {
    IsRunning(b, r) && b.runs[r].runType == ImplementationRun
  }

  ghost predicate HasRunningImplementation(b: Bundle) {
    exists r :: RunsImplementation(b, r)
  }

  /** The stages a task may be in while a lock of this kind is held. */
  function StagesUnder(kind: LockStage): set<Stage> {
    match kind
    case LockPlanning => {Draft, PlanReview}
    case LockImplementing => {Implementing}
    case LockValidating => {Implemented, FailedValidation}
  }

  /** A lock names a running run of its own kind and fixes the stage. */
  predicate LockAgrees(b: Bundle) {
    b.lock.Some? ==>
      && b.lock.value.runId in b.runs
      && LockNames(b.lock.value, b.runs[b.lock.value.runId])
      && b.task.stage in StagesUnder(b.lock.value.stage)
      && b.lock.value.taskId == b.task.id
  }

  /** Stages in which no implementation run can be running. */
  const SETTLED: set<Stage> := {Planning, Implemented, Validating, Done}

  ghost predicate Agrees(b: Bundle) {
    && Keyed(b)
    && (forall r, s :: IsRunning(b, r) && IsRunning(b, s) ==> r == s)
    && LockAgrees(b)
    && b.task.stage !in {Planning, Validating}
    && (b.task.stage == Implementing ==>
          b.task.latestImplementationRun.Some? && RunsImplementation(b, b.task.latestImplementationRun.value))
    && (forall r :: RunsImplementation(b, r) ==>
          b.task.latestImplementationRun == Some(r) && b.task.stage !in SETTLED)
  }

  /** Whatever names a running run names this one. */
  lemma OnlyRunning(b: Bundle, r: string)
    requires Agrees(b) && IsRunning(b, r)
    ensures b.lock.Some? ==> b.lock.value.runId == r && b.lock.value.RunType() == b.runs[r].runType
    ensures b.task.stage == Implementing ==> b.task.latestImplementationRun == Some(r) && RunsImplementation(b, r)
  {
    assert b.lock.Some? ==> IsRunning(b, b.lock.value.runId);
    assert b.task.stage == Implementing ==> IsRunning(b, b.task.latestImplementationRun.value);
  }

  // ---- each kind of change keeps agreement ----

  lemma BeginsRuns(b: Bundle, stage: LockStage, run: Run, post: Bundle)
    requires Begins(b, stage, run, post)
    ensures run.runId !in b.runs && forall s :: IsRunning(post, s) <==> s == run.runId
  {
    Ids.NextIdFresh("run", b.runs.Keys);
    assert forall s :: s in b.runs ==> b.runs[s].status != Running;
  }

  lemma BeginsKeeps(b: Bundle, stage: LockStage, run: Run, post: Bundle)
    requires Agrees(b) && Begins(b, stage, run, post)
    ensures Agrees(post)
    ensures HasRunningImplementation(post) ==> post.task.stage == Implementing
  {
    BeginsRuns(b, stage, run, post);
  }

  /** Rewriting a run without touching its id, type or status changes nothing that matters here. */
  lemma EditKeeps(b: Bundle, run: Run, post: Bundle)
    requires Agrees(b) && run.runId in b.runs
    requires run.runType == b.runs[run.runId].runType && run.status == b.runs[run.runId].status
    requires post.runs == b.runs[run.runId := run] && post.lock == b.lock
    requires post.task == b.task.(changeLog := post.task.changeLog)
    ensures Agrees(post)
    ensures HasRunningImplementation(post) <==> HasRunningImplementation(b)
  {
    assert forall s :: IsRunning(post, s) <==> IsRunning(b, s);
    assert forall s :: RunsImplementation(post, s) <==> RunsImplementation(b, s);
  }

  /** Ending the one running run leaves none running, and its lock goes with it. */
  lemma EndsKeeps(b: Bundle, run: Run, kind: LockStage, post: Bundle)
    requires Agrees(b) && Ends(b, run, kind, post)
    ensures Agrees(post) && !HasRunningImplementation(post) && post.lock == None
  {
    OnlyRunning(b, run.runId);
    forall s
      ensures !IsRunning(post, s)
    {
      assert IsRunning(post, s) ==> IsRunning(b, s);
    }
  }

  /** Commands that leave the runs alone: only the stage and the lock are at stake. */
  lemma SameRunsKeeps(b: Bundle, post: Bundle)
    requires Agrees(b)
    requires post.runs == b.runs && post.task.id == b.task.id
    requires post.task.latestImplementationRun == b.task.latestImplementationRun
    requires LockAgrees(post)
    requires post.task.stage !in {Planning, Validating}
    requires post.task.stage == Implementing ==> HasRunningImplementation(b)
    requires HasRunningImplementation(b) ==> post.task.stage !in SETTLED
    ensures Agrees(post)
    ensures HasRunningImplementation(post) <==> HasRunningImplementation(b)
  {
    assert forall s :: IsRunning(post, s) <==> IsRunning(b, s);
    assert forall s :: RunsImplementation(post, s) <==> RunsImplementation(b, s);
  }

  lemma ImplementingRuns(b: Bundle)
    requires Agrees(b)
    ensures b.task.stage == Implementing ==> HasRunningImplementation(b)
  {
    assert b.task.stage == Implementing ==> RunsImplementation(b, b.task.latestImplementationRun.value);
  }

  lemma ResumesKeeps(b: Bundle, r: string, post: Bundle)
    requires Agrees(b) && Resumes(b, r, post)
    ensures Agrees(post)
    ensures HasRunningImplementation(post) <==> HasRunningImplementation(b)
  {
    assert RunsImplementation(b, r);
    SameRunsKeeps(b, post);
  }

  /** A finished implementation contradicts a running one: the latest run would be both. */
  lemma RestoresKeeps(b: Bundle, post: Bundle)
    requires Agrees(b) && Restores(b, post)
    ensures Agrees(post)
    ensures HasRunningImplementation(post) <==> HasRunningImplementation(b)
  {
    SameRunsKeeps(b, post);
  }

  lemma MovesKeeps(b: Bundle, post: Bundle)
    requires Agrees(b)
    requires Approves(b, post) || LosesLock(b, post) || Cancels(b, post) || Files(b, post)
    ensures Agrees(post)
    ensures HasRunningImplementation(post) <==> HasRunningImplementation(b)
  {
    ImplementingRuns(b);
    SameRunsKeeps(b, post);
  }

  lemma HandsKeeps(b: Bundle, post: Bundle)
    requires Agrees(b) && Hands(b, post)
    ensures Agrees(post)
    ensures HasRunningImplementation(post) <==> HasRunningImplementation(b)
  {
    ImplementingRuns(b);
    SameRunsKeeps(b, post);
  }
}
