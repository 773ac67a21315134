/** Every record in a task's directory is the task's own, under its own name; so the directory can be exported. */
module Ownership {
  import opened Common
  import opened Records
  import opened Protocol
  import opened Shapes
  import opened Handoffs
  import opened Lifecycle
  import opened Runs
  import opened Recovery
  import opened Payloads
  import opened Rewriting
  import opened Ledger
  import opened Transplant
  import opened ImportResume
  import opened Agreement

  ghost predicate Owned(b: Bundle) {
    && (forall r :: r in b.runs ==> b.runs[r].runId == r && b.runs[r].taskId == b.task.id)
    && (forall c :: c in b.changes ==> b.changes[c].changeId == c && b.changes[c].taskId == b.task.id)
    && (forall c :: c in b.checks ==> b.checks[c].checkId == c && b.checks[c].taskId == b.task.id)
    && (forall h :: h in b.handoffs ==> b.handoffs[h].handoffId == h && b.handoffs[h].taskId == b.task.id)
    && (b.lock.Some? ==> b.lock.value.taskId == b.task.id)
  }

  // ---- every command keeps it ----

  ghost predicate Keeps(b: Bundle, post: Bundle) {
    Owned(post) && post.task.id == b.task.id
  }

  lemma BeginOwns(b: Bundle, stage: LockStage, run: Run, env: Env)
    requires Owned(b) && run.taskId == b.task.id
    ensures Keeps(b, BeginRun(b, stage, run, env).bundle)
  {
  }

  lemma StartOwns(b: Bundle, env: Env, post: Bundle)
    requires Owned(b)
    requires post == StartImplementation(b, env).bundle
    ensures Keeps(b, post)
  {
    BeginOwns(b, LockImplementing, FreshRun(b, ImplementationRun, env), env);
  }

  lemma RestartOwns(b: Bundle, summary: string, env: Env, post: Bundle)
    requires Owned(b)
    requires post == RestartImplementation(b, summary, env).bundle
    ensures Keeps(b, post)
  {
    if RestartRefusal(b, summary, env) == None {
      BeginOwns(b, LockImplementing, RestartedRun(b, summary, env), env);
    }
  }

  lemma StartPlanningOwns(b: Bundle, env: Env, post: Bundle)
    requires Owned(b)
    requires post == StartPlanning(b, env).bundle
    ensures Keeps(b, post)
  {
    BeginOwns(b, LockPlanning, FreshRun(b, PlanningRun, env), env);
  }

  lemma StartValidationOwns(b: Bundle, current: bool, env: Env, post: Bundle)
    requires Owned(b)
    requires post == StartValidation(b, current, env).bundle
    ensures Keeps(b, post)
  {
    BeginOwns(b, LockValidating, ValidationStarted(b, env), env);
  }

  lemma ResumeOwns(b: Bundle, runId: Option<string>, reason: string, repair: bool, env: Env, post: Bundle)
    requires Owned(b)
    requires post == ResumeImplementation(b, runId, reason, repair, env).bundle
    ensures Keeps(b, post)
  {
  }

  lemma LogOwns(b: Bundle, message: string, now: int, post: Bundle)
    requires Owned(b)
    requires post == LogImplementation(b, message, now).bundle
    ensures Keeps(b, post)
  {
  }

  lemma DeviationOwns(b: Bundle, message: string, now: int, post: Bundle)
    requires Owned(b)
    requires post == AddDeviation(b, message, now).bundle
    ensures Keeps(b, post)
  {
  }

  lemma ArtifactOwns(b: Bundle, path: string, summary: string, now: int, post: Bundle)
    requires Owned(b)
    requires post == AddArtifact(b, path, summary, now).bundle
    ensures Keeps(b, post)
  {
  }

  lemma ChangeOwns(
    b: Bundle, kind: string, path: string, summary: string, artifacts: seq<string>, now: int, post: Bundle)
    requires Owned(b)
    requires post == AddChange(b, kind, path, summary, artifacts, now).bundle
    ensures Keeps(b, post)
  {
  }

  lemma CheckedOwns(b: Bundle, run: Run, check: Check, post: Bundle)
    requires Owned(b) && run.taskId == b.task.id && check.taskId == b.task.id
    requires post == b.(runs := b.runs[run.runId := run], checks := b.checks[check.checkId := check])
    ensures Keeps(b, post)
  {
  }

  lemma CheckOwns(b: Bundle, command: string, exitCode: Option<int>, artifacts: seq<string>, now: int, post: Bundle)
    requires Owned(b)
    requires post == AddCheck(b, command, exitCode, artifacts, now).bundle
    ensures Keeps(b, post)
  {
    var r := MutableImplementation(b, now);
    if r.Success? {
      var id := Ids.NextId("check", b.checks.Keys);
      var run := r.value.(checkRefs := r.value.checkRefs + [id], artifactRefs := r.value.artifactRefs + artifacts);
      CheckedOwns(b, run, Check(id, b.task.id, run.runId, command, exitCode, StatusOfExit(exitCode)), post);
    }
  }

  /** One run is rewritten, and the lock may go. */
  lemma EndedOwns(b: Bundle, run: Run, post: Bundle)
    requires Owned(b) && run.runId in b.runs && run.taskId == b.task.id && post.runs == b.runs[run.runId := run]
    requires post.changes == b.changes && post.checks == b.checks && post.handoffs == b.handoffs
    requires post.task.id == b.task.id && (post.lock == b.lock || post.lock == None)
    ensures Keeps(b, post)
  {
  }

  lemma FinishOwns(b: Bundle, summary: string, todosDone: bool, post: Bundle)
    requires Owned(b)
    requires post == FinishImplementation(b, summary, todosDone).bundle
    ensures Keeps(b, post)
  {
    if post != b {
      var run := b.runs[b.task.latestImplementationRun.value];
      EndedOwns(b, run.(status := Finished, summary := Some(Text.Strip(summary))), post);
    }
  }

  lemma FinishValidationOwns(b: Bundle, verdict: Verdict, canPass: bool, summary: string, post: Bundle)
    requires Owned(b)
    requires post == FinishValidation(b, verdict, canPass, summary).bundle
    ensures Keeps(b, post)
  {
    if post != b {
      var run := b.runs[b.task.latestValidationRun.value];
      EndedOwns(b, run.(status := VerdictStatus(verdict), result := Some(verdict),
                        summary := Some(Text.Strip(summary))), post);
    }
  }

  lemma ProposeOwns(b: Bundle, input: PlanInput, now: int, post: Bundle)
    requires Owned(b)
    requires post == ProposePlan(b, input, now).bundle
    ensures Keeps(b, post)
  {
    if post != b {
      var run := b.runs[b.task.latestPlanningRun.value];
      EndedOwns(b, run.(status := Finished, summary := input.summary), post);
    }
  }

  lemma RepairOwns(b: Bundle, runId: Option<string>, reason: string, post: Bundle)
    requires Owned(b)
    requires post == RepairPlanningRun(b, runId, reason).bundle
    ensures Keeps(b, post)
  {
  }

  lemma ReceiveOwns(b: Bundle, h: Handoff, post: Bundle)
    requires Owned(b)
    requires post == ReceiveHandoff(b, h).bundle
    ensures Keeps(b, post)
  {
  }

  lemma CreateOwns(b: Bundle, h: Handoff, directed: bool, post: Bundle)
    requires Owned(b)
    requires post == CreateHandoff(b, h, directed).bundle
    ensures Keeps(b, post)
  {
    if directed {
      ReceiveOwns(b, h.(lockPolicy := NoPolicy, sourceRun := None), post);
    }
  }

  lemma ClaimOwns(b: Bundle, id: string, actor: Actor, harness: string, newRun: Option<string>, now: int, post: Bundle)
    requires Owned(b)
    requires post == ClaimHandoff(b, id, actor, harness, newRun, now).bundle
    ensures Keeps(b, post)
  {
  }

  lemma CloseOwns(b: Bundle, id: string, note: Option<string>, post: Bundle)
    requires Owned(b)
    requires post == CloseHandoff(b, id, note).bundle
    ensures Keeps(b, post)
  {
  }

  lemma CancelHandoffOwns(b: Bundle, id: string, note: Option<string>, post: Bundle)
    requires Owned(b)
    requires post == CancelHandoff(b, id, note).bundle
    ensures Keeps(b, post)
  {
  }

  /** The stage, the archive flag, the lock or the plans may move; the records stay. */
  lemma MovedOwns(b: Bundle, post: Bundle)
    requires Owned(b) && (post == b || Moves(b, post))
    ensures Keeps(b, post)
  {
  }

  lemma ApproveOwns(b: Bundle, version: nat, gates: bool, post: Bundle)
    requires Owned(b)
    requires post == ApprovePlan(b, version, gates).bundle
    ensures Keeps(b, post)
  {
    ApproveShape(b, version, gates);
    MovedOwns(b, post);
  }

  lemma BreakOwns(b: Bundle, now: int, post: Bundle)
    requires Owned(b) && post == BreakLock(b, now).bundle
    ensures Keeps(b, post)
  {
    LockShape(b, now);
    MovedOwns(b, post);
  }

  lemma CancelOwns(b: Bundle, post: Bundle)
    requires Owned(b) && post == CancelTask(b).bundle
    ensures Keeps(b, post)
  {
    LockShape(b, 0);
    MovedOwns(b, post);
  }

  lemma UncancelOwns(b: Bundle, requested: Option<Stage>, reason: string, permitted: bool, now: int, post: Bundle)
    requires Owned(b)
    requires post == UncancelTask(b, requested, reason, permitted, now).bundle
    ensures Keeps(b, post)
  {
    UncancelShape(b, requested, reason, permitted, now);
    MovedOwns(b, post);
  }

  lemma ArchiveOwns(b: Bundle, reason: string, force: bool, now: int, post: Bundle)
    requires Owned(b)
    requires post == ArchiveTask(b, reason, force, now).bundle
    ensures Keeps(b, post)
  {
    ArchiveShape(b, reason, force, now);
    MovedOwns(b, post);
  }

  lemma UnarchiveOwns(b: Bundle, reason: string, reopen: bool, post: Bundle)
    requires Owned(b)
    requires post == UnarchiveTask(b, reason, reopen).bundle
    ensures Keeps(b, post)
  {
    UnarchiveShape(b, reason, reopen);
    MovedOwns(b, post);
  }

  lemma StarterOwns(b: Bundle, step: Step, post: Bundle)
    requires Owned(b) && post == Apply(b, step).bundle && StartsWork(step)
    ensures Keeps(b, post)
  {
    match step
    case StartStep(env) => StartOwns(b, env, post);
    case RestartStep(summary, env) => RestartOwns(b, summary, env, post);
    case StartPlanningStep(env) => StartPlanningOwns(b, env, post);
    case StartValidationStep(current, env) => StartValidationOwns(b, current, env, post);
    case ResumeStep(runId, reason, repair, env) => ResumeOwns(b, runId, reason, repair, env, post);
  }

  lemma RecordingOwns(b: Bundle, step: Step, post: Bundle)
    requires Owned(b) && post == Apply(b, step).bundle
    requires step.LogStep? || step.DeviationStep? || step.ArtifactStep? || step.ChangeStep? || step.CheckStep?
    ensures Keeps(b, post)
  {
    match step
    case LogStep(message, now) => LogOwns(b, message, now, post);
    case DeviationStep(message, now) => DeviationOwns(b, message, now, post);
    case ArtifactStep(path, summary, now) => ArtifactOwns(b, path, summary, now, post);
    case ChangeStep(kind, path, summary, artifacts, now) => ChangeOwns(b, kind, path, summary, artifacts, now, post);
    case CheckStep(command, exitCode, artifacts, now) => CheckOwns(b, command, exitCode, artifacts, now, post);
  }

  lemma EndingOwns(b: Bundle, step: Step, post: Bundle)
    requires Owned(b) && post == Apply(b, step).bundle
    requires step.FinishStep? || step.ProposeStep? || step.RepairPlanningStep? || step.FinishValidationStep?
    ensures Keeps(b, post)
  {
    match step
    case FinishStep(summary, todosDone) => FinishOwns(b, summary, todosDone, post);
    case ProposeStep(input, now) => ProposeOwns(b, input, now, post);
    case RepairPlanningStep(runId, reason) => RepairOwns(b, runId, reason, post);
    case FinishValidationStep(verdict, canPass, summary) => FinishValidationOwns(b, verdict, canPass, summary, post);
  }

  lemma HandoffOwns(b: Bundle, step: Step, post: Bundle)
    requires Owned(b) && post == Apply(b, step).bundle && IsHandoffStep(step)
    ensures Keeps(b, post)
  {
    match step
    case CreateHandoffStep(h, directed) => CreateOwns(b, h, directed, post);
    case ReceiveHandoffStep(h) => ReceiveOwns(b, h, post);
    case ClaimStep(id, actor, harness, newRun, now) => ClaimOwns(b, id, actor, harness, newRun, now, post);
    case CloseStep(id, note) => CloseOwns(b, id, note, post);
    case CancelHandoffStep(id, note) => CancelHandoffOwns(b, id, note, post);
  }

  lemma MovingOwns(b: Bundle, step: Step, post: Bundle)
    requires Owned(b) && post == Apply(b, step).bundle && (step.ApproveStep? || step.BreakLockStep? || step.CancelStep?)
    ensures Keeps(b, post)
  {
    match step
    case ApproveStep(version, gates) => ApproveOwns(b, version, gates, post);
    case BreakLockStep(now) => BreakOwns(b, now, post);
    case CancelStep => CancelOwns(b, post);
  }

  lemma FilingOwns(b: Bundle, step: Step, post: Bundle)
    requires Owned(b) && post == Apply(b, step).bundle
    requires step.UncancelStep? || step.ArchiveStep? || step.UnarchiveStep?
    ensures Keeps(b, post)
  {
    match step
    case UncancelStep(requested, reason, permitted, now) => UncancelOwns(b, requested, reason, permitted, now, post);
    case ArchiveStep(reason, force, now) => ArchiveOwns(b, reason, force, now, post);
    case UnarchiveStep(reason, reopen) => UnarchiveOwns(b, reason, reopen, post);
  }

  lemma StepOwns(b: Bundle, step: Step, post: Bundle)
    requires Owned(b) && post == Apply(b, step).bundle
    ensures Keeps(b, post)
  {
    if StartsWork(step) {
      StarterOwns(b, step, post);
    } else if IsHandoffStep(step) {
      HandoffOwns(b, step, post);
    } else if step.LogStep? || step.DeviationStep? || step.ArtifactStep? || step.ChangeStep? || step.CheckStep? {
      RecordingOwns(b, step, post);
    } else if step.FinishStep? || step.ProposeStep? || step.RepairPlanningStep? || step.FinishValidationStep? {
      EndingOwns(b, step, post);
    } else if step.ApproveStep? || step.BreakLockStep? || step.CancelStep? {
      MovingOwns(b, step, post);
    } else {
      FilingOwns(b, step, post);
    }
  }

  /** After every sequence of commands. */
  lemma {:induction false} AlwaysOwned(id: string, steps: seq<Step>)
    ensures Owned(After(NewBundle(id), steps)) && After(NewBundle(id), steps).task.id == id
  {
    if steps != [] {
      AlwaysOwned(id, steps[..|steps| - 1]);
      StepOwns(After(NewBundle(id), steps[..|steps| - 1]), steps[|steps| - 1], After(NewBundle(id), steps));
    }
  }

  // ---- the folder of a directory ----

  ghost function RecordOf(b: Bundle, k: RecordKey): Option<Record> {
    match k
    case PlanKey(v) => if v in b.plans then Some(PlanRecord(b.task.id, v, b.plans[v])) else None
    case RunKey(r) => if r in b.runs then Some(RunRecord(b.runs[r])) else None
    case ChangeKey(c) => if c in b.changes then Some(ChangeRecord(b.changes[c])) else None
    case CheckKey(c) => if c in b.checks then Some(CheckRecord(b.checks[c])) else None
    case HandoffKey(h) => if h in b.handoffs then Some(HandoffRecord(b.handoffs[h])) else None
  }

  ghost function KeysOf(b: Bundle): set<RecordKey> {
    (set v | v in b.plans :: PlanKey(v)) + (set r | r in b.runs :: RunKey(r)) + (set c | c in b.changes :: ChangeKey(c))
    + (set c | c in b.checks :: CheckKey(c)) + (set h | h in b.handoffs :: HandoffKey(h))
  }

  lemma KeysAre(b: Bundle, k: RecordKey)
    ensures k in KeysOf(b) <==> RecordOf(b, k).Some?
  {
  }

  /** How the directory lies on disk. */
  ghost function FolderFrom(b: Bundle): Folder {
    Folder(Some(b.task), map k | k in KeysOf(b) && RecordOf(b, k).Some? :: RecordOf(b, k).value, b.lock, map[])
  }

  lemma FolderHolds(b: Bundle, k: RecordKey)
    ensures k in FolderFrom(b).records <==> RecordOf(b, k).Some?
    ensures k in FolderFrom(b).records ==> FolderFrom(b).records[k] == RecordOf(b, k).value
  {
    KeysAre(b, k);
  }

  /** The folder holds the records of the directory under their keys. */
  ghost predicate HoldsRecords(f: Folder, b: Bundle) {
    forall k :: (k in f.records <==> RecordOf(b, k).Some?) && (k in f.records ==> f.records[k] == RecordOf(b, k).value)
  }

  lemma FolderHoldsAll(b: Bundle)
    ensures HoldsRecords(FolderFrom(b), b)
  {
    forall k
      ensures k in FolderFrom(b).records <==> RecordOf(b, k).Some?
      ensures k in FolderFrom(b).records ==> FolderFrom(b).records[k] == RecordOf(b, k).value
    {
      FolderHolds(b, k);
    }
  }

  /** Reading the folder gives the directory back. */
  lemma ReadBack(b: Bundle)
    ensures BundleOf(FolderFrom(b)) == b.(brokenLocks := map[])
  {
    var f := FolderFrom(b);
    FolderHoldsAll(b);
    RunsReadBack(f, b);
    PlansReadBack(f, b);
    ChangesReadBack(f, b);
    ChecksReadBack(f, b);
    HandoffsReadBack(f, b);
  }

  lemma RunsReadBack(f: Folder, b: Bundle)
    requires HoldsRecords(f, b)
    ensures RunsOf(f) == b.runs
  {
    forall x
      ensures x in RunsOf(f) <==> x in b.runs
      ensures x in RunsOf(f) ==> RunsOf(f)[x] == b.runs[x]
    {
      RunAt(f, x);
      assert RunKey(x) in f.records <==> RecordOf(b, RunKey(x)).Some?;
    }
  }

  lemma PlansReadBack(f: Folder, b: Bundle)
    requires HoldsRecords(f, b)
    ensures PlansOf(f) == b.plans
  {
    forall x
      ensures x in PlansOf(f) <==> x in b.plans
      ensures x in PlansOf(f) ==> PlansOf(f)[x] == b.plans[x]
    {
      assert x in PlansOf(f) <==> PlanKey(x) in f.records && f.records[PlanKey(x)].PlanRecord?;
      assert PlanKey(x) in f.records <==> RecordOf(b, PlanKey(x)).Some?;
    }
  }

  lemma ChangesReadBack(f: Folder, b: Bundle)
    requires HoldsRecords(f, b)
    ensures ChangesIn(f) == b.changes
  {
    forall x
      ensures x in ChangesIn(f) <==> x in b.changes
      ensures x in ChangesIn(f) ==> ChangesIn(f)[x] == b.changes[x]
    {
      ChangeAt(f, x);
      assert ChangeKey(x) in f.records <==> RecordOf(b, ChangeKey(x)).Some?;
    }
  }

  lemma ChecksReadBack(f: Folder, b: Bundle)
    requires HoldsRecords(f, b)
    ensures ChecksIn(f) == b.checks
  {
    forall x
      ensures x in ChecksIn(f) <==> x in b.checks
      ensures x in ChecksIn(f) ==> ChecksIn(f)[x] == b.checks[x]
    {
      CheckAt(f, x);
      assert CheckKey(x) in f.records <==> RecordOf(b, CheckKey(x)).Some?;
    }
  }

  lemma HandoffsReadBack(f: Folder, b: Bundle)
    requires HoldsRecords(f, b)
    ensures HandoffsIn(f) == b.handoffs
  {
    forall x
      ensures x in HandoffsIn(f) <==> x in b.handoffs
      ensures x in HandoffsIn(f) ==> HandoffsIn(f)[x] == b.handoffs[x]
    {
      HandoffAt(f, x);
      assert HandoffKey(x) in f.records <==> RecordOf(b, HandoffKey(x)).Some?;
    }
  }

  lemma OwnedIsWellFiled(b: Bundle)
    requires Owned(b)
    ensures WellFiled(b.task.id, FolderFrom(b))
  {
    forall k | k in FolderFrom(b).records
      ensures KeyOf(FolderFrom(b).records[k]) == k && FolderFrom(b).records[k].Owner() == b.task.id
    {
      FolderHolds(b, k);
    }
  }

  // ---- the archive of some directories ----

  ghost function AsSeq<T>(s: set<T>): (r: seq<T>)
    ensures Elements(r) == s
  {
    if s == {} then []
    else
      var x :| x in s;
      assert s == (s - {x}) + {x};
      AsSeq(s - {x}) + [x]
  }

  ghost function ArchiveOf(src: Folders): Payload {
    var tasks := set id | id in src && src[id].task.Some? :: src[id].task.value;
    var records := set id, k | id in src && k in src[id].records :: src[id].records[k];
    var locks := set id | id in src && src[id].lock.Some? :: src[id].lock.value;
    Payload(AsSeq(tasks), AsSeq(records), AsSeq(locks), [], [], None)
  }

  lemma ArchiveHolds(src: Folders)
    ensures var p := ArchiveOf(src);
      && (forall t :: t in p.tasks <==> exists id :: id in src && src[id].task == Some(t))
      && (forall r :: r in p.records <==> exists id, k :: id in src && k in src[id].records && src[id].records[k] == r)
      && (forall l :: l in p.locks <==> exists id :: id in src && src[id].lock == Some(l))
  {
    var p := ArchiveOf(src);
    assert forall t :: t in p.tasks <==> t in Elements(p.tasks);
    assert forall r :: r in p.records <==> r in Elements(p.records);
    assert forall l :: l in p.locks <==> l in Elements(p.locks);
  }

  /** Folders that are in order can be exported. */
  lemma ArchiveExports(src: Folders)
    requires forall id :: id in src ==> id != "" && WellFiled(id, src[id])
    ensures Exported(src, ArchiveOf(src))
  {
    var p := ArchiveOf(src);
    ArchiveHolds(src);
    forall t | t in p.tasks
      ensures t.id in src && src[t.id].task == Some(t)
    {
    }
    forall r | r in p.records
      ensures InFolder(src, r)
    {
      var id, k :| id in src && k in src[id].records && src[id].records[k] == r;
    }
    forall l | l in p.locks
      ensures l.taskId in src && src[l.taskId].lock == Some(l)
    {
    }
  }

  /** Each folder is that of a directory which commands can lead to. */
  ghost predicate Lived(src: Folders) {
    forall id :: id in src ==> id != "" && exists steps :: src[id] == FolderFrom(After(NewBundle(id), steps))
  }

  /** So whatever the commands have done to the tasks of a ledger, they can be exported. */
  lemma LivedExports(src: Folders)
    requires Lived(src)
    ensures Exported(src, ArchiveOf(src))
  {
    forall id | id in src
      ensures id != "" && WellFiled(id, src[id])
    {
      var steps :| src[id] == FolderFrom(After(NewBundle(id), steps));
      AlwaysOwned(id, steps);
      OwnedIsWellFiled(After(NewBundle(id), steps));
    }
    ArchiveExports(src);
  }

  lemma UnbrokenGood(b: Bundle)
    requires Good(b)
    ensures Good(b.(brokenLocks := map[]))
  {
    MovesAdvances(b, b.(brokenLocks := map[]));
  }

  /**
   After any commands that leave a task being implemented: exported, and imported with its lock dropped or set aside, it
   is the renamed directory without a live lock; a resume succeeds exactly when a reason is given and the dependencies
   are done, and then the same run is under way, everything that holds of a reachable directory holds of it, and work
   can be recorded.
   */
  lemma ResumeAnywhere(
    d: Disk, src: Folders, p: Payload, o: Options, id: string, steps: seq<Step>, reason: string, repair: bool, env: Env)
    requires Exported(src, p) && id in src && src[id] == FolderFrom(After(NewBundle(id), steps))
    requires After(NewBundle(id), steps).task.stage == Implementing
    requires !o.dryRun && o.lockPolicy != Keep && NameFree(d, p, o, id) && Import(d, p, o).result.Success?
    ensures ImportMap(d, p, o).Some? && id in ImportMap(d, p, o).value
    ensures var m := ImportMap(d, p, o).value;
      var before := After(NewBundle(id), steps).(brokenLocks := map[]);
      && m[id] in Import(d, p, o).disk.folders && Import(d, p, o).disk.folders[m[id]].task.Some?
      && before.task.latestImplementationRun.Some?
      && ResumesAs(BundleOf(Import(d, p, o).disk.folders[m[id]]), before, Renaming(m), reason, repair, env)
  {
    var b := After(NewBundle(id), steps);
    AlwaysGood(id, steps);
    UnbrokenGood(b);
    ReadBack(b);
    ResumeAfterImport(d, src, p, o, id, reason, repair, env);
  }
}
