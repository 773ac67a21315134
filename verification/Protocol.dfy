/**
 The lifecycle of one task directory as functions on its contents: what each command
 leaves behind and whether it reports success. The commands read a clock, an actor and
 facts about other records; those arrive as arguments.
 */
module Protocol {
  import opened Common
  import opened Records
  import opened Policies
  import Ids
  import Text

  const LEASE_SECONDS := 7200

  /** What a command that starts work is given from outside the task's directory. */
  datatype Env = Env(now: int, lockId: string, actor: Actor, harness: Option<string>, depsDone: bool)

  /** The directory a command leaves behind and what it reports. */
  datatype Post = Post(bundle: Bundle, outcome: Outcome)

  function Refuse(b: Bundle, error: Error): Post {
    Post(b, Refused(error))
  }

  // ---- helpers shared by the commands ----

  predicate HasRunning(b: Bundle) {
    exists r :: r in b.runs && b.runs[r].status == Running
  }

  predicate HasAcceptedPlan(b: Bundle) {
    && b.task.acceptedPlan.Some?
    && b.task.acceptedPlan.value in b.plans
    && b.plans[b.task.acceptedPlan.value] == Accepted
  }

  /** `accepted or latest`: version 0 counts as absent. */
  function PlanBasis(t: Task): Option<nat> {
    if t.acceptedPlan.Some? && t.acceptedPlan.value != 0 then t.acceptedPlan else t.latestPlan
  }

  function FindRun(b: Bundle, runId: Option<string>): Result<Run, Error> {
    if runId == None || runId.value !in b.runs then Failure(Missing) else Success(b.runs[runId.value])
  }

  function RequireRunning(b: Bundle, runId: Option<string>, expected: RunType): Result<Run, Error> {
    var r := FindRun(b, runId);
    if r.Failure? then r
    else if r.value.runType != expected || r.value.status != Running then Failure(InvalidTransition)
    else r
  }

  function DecisionError(d: Decision): Error {
    if d.exitCode == LOCK_CONFLICT then LockConflict else InvalidTransition
  }

  /** The gate of every recording command: a running implementation the current lock is for. */
  function MutableImplementation(b: Bundle, now: int): Result<Run, Error> {
    if b.task.archived then Failure(ArchivedTask)
    else
      var r := RequireRunning(b, b.task.latestImplementationRun, ImplementationRun);
      if r.Failure? then r
      else if b.lock.Some? && b.lock.value.Expired(now) then Failure(StaleLock)
      else
        var d := ImplementationMutationDecision(b.task, b.lock, Some(r.value));
        if d.allowed then r else Failure(DecisionError(d))
  }

  function SaveRun(b: Bundle, run: Run): Bundle {
    b.(runs := b.runs[run.runId := run])
  }

  ghost function FreshRun(b: Bundle, runType: RunType, env: Env): Run {
    Run(Ids.NextId("run", b.runs.Keys), b.task.id, runType, Running, env.actor, PlanBasis(b.task),
        None, None, None, None, [], [], [], [], [])
  }

  function NewLock(taskId: string, stage: LockStage, runId: string, reason: string, env: Env): Lock {
    Lock(env.lockId, taskId, stage, runId, env.now, Some(env.now + LEASE_SECONDS), reason,
         env.actor, Some(env.actor), env.harness, [], None)
  }

  function StartReason(stage: LockStage): string {
    match stage
    case LockPlanning => "plan task"
    case LockImplementing => "implement approved plan"
    case LockValidating => "validate implementation"
  }

  function HeldError(lock: Lock, now: int): Error {
    if lock.Expired(now) then StaleLock else LockConflict
  }

  ghost function StartRun(b: Bundle, stage: LockStage, env: Env): Post {
    if b.lock.Some? then Refuse(b, HeldError(b.lock.value, env.now))
    else if HasRunning(b) then Refuse(b, RunningRunConflict)
    else
      var run := FreshRun(b, ExpectedRunType(stage), env);
      Post(SaveRun(b, run).(lock := Some(NewLock(b.task.id, stage, run.runId, StartReason(stage), env))), Ok)
  }

  predicate LockIsFor(lock: Option<Lock>, stage: LockStage, runId: string) {
    lock.Some? && lock.value.stage == stage && lock.value.runId == runId
  }

  /** Refused when there is no lock or it is for something else; nothing already written is taken back. */
  function ReleaseLock(b: Bundle, stage: LockStage, runId: string): Post {
    if LockIsFor(b.lock, stage, runId) then Post(b.(lock := None), Ok) else Refuse(b, LockConflict)
  }

  // ---- implementation ----

  function StartRefusal(b: Bundle, env: Env): Option<Error> {
    if b.task.archived then Some(ArchivedTask)
    else if b.task.stage !in {Approved, FailedValidation} then Some(InvalidTransition)
    else if !HasAcceptedPlan(b) then Some(ApprovalRequired)
    else if !env.depsDone then Some(DependencyBlocked)
    else None
  }

  /** The task once a run of this kind is under way. */
  function BegunTask(t: Task, stage: LockStage, runId: string): Task {
    match stage
    case LockPlanning => t.(latestPlanningRun := Some(runId))
    case LockImplementing => t.(latestImplementationRun := Some(runId), stage := Implementing)
    case LockValidating => t.(latestValidationRun := Some(runId))
  }

  /** Create the run, take the lock, then store the run again as the command completes it, and the task. */
  ghost function BeginRun(b: Bundle, stage: LockStage, run: Run, env: Env): Post {
    var started := StartRun(b, stage, env);
    if started.outcome != Ok then started
    else Post(SaveRun(started.bundle, run).(task := BegunTask(b.task, stage, run.runId)), Ok)
  }

  ghost function StartImplementation(b: Bundle, env: Env): Post {
    var refusal := StartRefusal(b, env);
    if refusal.Some? then Refuse(b, refusal.value)
    else BeginRun(b, LockImplementing, FreshRun(b, ImplementationRun, env), env)
  }

  /** The latest validation run, provided it ended in a failed or blocked verdict. */
  predicate IsFailedValidation(run: Run) {
    && run.runType == ValidationRun
    && run.status in {Failed, Blocked}
    && (run.result == Some(VerdictFailed) || run.result == Some(VerdictBlocked))
  }

  function VerdictText(v: Option<Verdict>): string {
    match v
    case Some(VerdictPassed) => "passed"
    case Some(VerdictFailed) => "failed"
    case Some(VerdictBlocked) => "blocked"
    case None => "None"
  }

  function RestartLog(summary: string, validation: Run): seq<string> {
    ["Restart summary: " + summary,
     "Restarted after validation run " + validation.runId + " (" + VerdictText(validation.result) + ")."]
  }

  /** The checks of a restart before a run is created, in order. */
  function RestartRefusal(b: Bundle, summary: string, env: Env): Option<Error> {
    if b.task.archived then Some(ArchivedTask)
    else if b.task.stage != FailedValidation then Some(InvalidTransition)
    else if !HasAcceptedPlan(b) then Some(ApprovalRequired)
    else if b.task.latestValidationRun == None then Some(InvalidTransition)
    else if FindRun(b, b.task.latestValidationRun).Failure? then Some(Missing)
    else if !IsFailedValidation(FindRun(b, b.task.latestValidationRun).value) then Some(InvalidTransition)
    else if b.task.latestImplementationRun == None then Some(InvalidTransition)
    else if FindRun(b, b.task.latestImplementationRun).Failure? then Some(Missing)
    else if FindRun(b, b.task.latestImplementationRun).value.runType != ImplementationRun then Some(InvalidTransition)
    else if Text.Strip(summary) == "" then Some(BadInput)
    else if !env.depsDone then Some(DependencyBlocked)
    else None
  }

  /** The run a restart records: it resumes the latest implementation run. */
  ghost function RestartedRun(b: Bundle, summary: string, env: Env): Run
    requires RestartRefusal(b, summary, env) == None
  {
    FreshRun(b, ImplementationRun, env).(
      resumes := Some(b.runs[b.task.latestImplementationRun.value].runId),
      worklog := RestartLog(Text.Strip(summary), b.runs[b.task.latestValidationRun.value]))
  }

  ghost function RestartImplementation(b: Bundle, summary: string, env: Env): Post {
    var refusal := RestartRefusal(b, summary, env);
    if refusal.Some? then Refuse(b, refusal.value)
    else BeginRun(b, LockImplementing, RestartedRun(b, summary, env), env)
  }

  function SelectedRun(b: Bundle, runId: Option<string>): Option<string> {
    if Truthy(runId) then runId else b.task.latestImplementationRun
  }

  /** The checks of a resume up to and including the lock, in order. */
  function ResumeRefusal(b: Bundle, runId: Option<string>, reason: string, repair: bool, env: Env): Option<Error> {
    if b.task.archived then Some(ArchivedTask)
    else if Text.Strip(reason) == "" then Some(BadInput)
    else if b.task.stage !in {Approved, Implementing} then Some(InvalidTransition)
    else if !HasAcceptedPlan(b) then Some(ApprovalRequired)
    else
      var found := RequireRunning(b, SelectedRun(b, runId), ImplementationRun);
      if found.Failure? then Some(found.error)
      else if b.lock == None then None
      else if !(repair && b.lock.value.Expired(env.now)) then Some(HeldError(b.lock.value, env.now))
      else if b.lock.value.runId != found.value.runId || b.lock.value.stage != LockImplementing then Some(LockConflict)
      else None
  }

  /** The lock is filed among the broken ones, in the place of one broken at the same time. */
  function DropLock(b: Bundle, now: int): Bundle {
    if b.lock.Some? then b.(lock := None, brokenLocks := b.brokenLocks[now := b.lock.value]) else b
  }

  /** An expired lock is already gone when the dependencies are checked. */
  function ResumeImplementation(b: Bundle, runId: Option<string>, reason: string, repair: bool, env: Env): Post {
    var refusal := ResumeRefusal(b, runId, reason, repair, env);
    if refusal.Some? then Refuse(b, refusal.value)
    else if !env.depsDone then Refuse(DropLock(b, env.now), DependencyBlocked)
    else
      var run := b.runs[SelectedRun(b, runId).value];
      Post(DropLock(b, env.now).(lock := Some(NewLock(b.task.id, LockImplementing, run.runId, Text.Strip(reason), env)),
                                 task := BegunTask(b.task, LockImplementing, run.runId)), Ok)
  }

  function LogImplementation(b: Bundle, message: string, now: int): Post {
    var r := MutableImplementation(b, now);
    if r.Failure? then Refuse(b, r.error)
    else Post(SaveRun(b, r.value.(worklog := r.value.worklog + [Text.Strip(message)])), Ok)
  }

  function AddDeviation(b: Bundle, message: string, now: int): Post {
    var r := MutableImplementation(b, now);
    if r.Failure? then Refuse(b, r.error)
    else Post(SaveRun(b, r.value.(deviations := r.value.deviations + [Text.Strip(message)])), Ok)
  }

  function AddArtifact(b: Bundle, path: string, summary: string, now: int): Post {
    var r := MutableImplementation(b, now);
    if r.Failure? then Refuse(b, r.error)
    else Post(SaveRun(b, r.value.(artifactRefs := r.value.artifactRefs + [path + ": " + Text.Strip(summary)])), Ok)
  }

  ghost function AddChange(
    b: Bundle, kind: string, path: string, summary: string, artifacts: seq<string>, now: int): Post {
    var r := MutableImplementation(b, now);
    if r.Failure? then Refuse(b, r.error)
    else
      var id := Ids.NextId("change", b.changes.Keys);
      var change := Change(id, b.task.id, r.value.runId, kind, path, Text.Strip(summary));
      var run := r.value.(changeRefs := r.value.changeRefs + [id], artifactRefs := r.value.artifactRefs + artifacts);
      Post(SaveRun(b, run).(changes := b.changes[id := change],
                            task := b.task.(changeLog := b.task.changeLog + [id])), Ok)
  }

  function StatusOfExit(exitCode: Option<int>): CheckStatus {
    if exitCode == Some(0) then CheckPassed else if exitCode.Some? then CheckFailed else CheckUnknown
  }

  ghost function AddCheck(b: Bundle, command: string, exitCode: Option<int>, artifacts: seq<string>, now: int): Post {
    var r := MutableImplementation(b, now);
    if r.Failure? then Refuse(b, r.error)
    else
      var id := Ids.NextId("check", b.checks.Keys);
      var check := Check(id, b.task.id, r.value.runId, command, exitCode, StatusOfExit(exitCode));
      var run := r.value.(checkRefs := r.value.checkRefs + [id], artifactRefs := r.value.artifactRefs + artifacts);
      Post(SaveRun(b, run).(checks := b.checks[id := check]), Ok)
  }

  /** The run and the stage are written before the lock is looked at. */
  function FinishImplementation(b: Bundle, summary: string, todosDone: bool): Post {
    if b.task.archived then Refuse(b, ArchivedTask)
    else
      var r := RequireRunning(b, b.task.latestImplementationRun, ImplementationRun);
      if r.Failure? then Refuse(b, r.error)
      else if !todosDone then Refuse(b, TodosIncomplete)
      else
        var finished := r.value.(status := Finished, summary := Some(Text.Strip(summary)));
        ReleaseLock(SaveRun(b, finished).(task := b.task.(stage := Implemented)),
                    LockImplementing, r.value.runId)
  }

  // ---- handoffs and lock transfer ----

  function TransferLock(lock: Lock, to: Actor, harness: string, now: int): Lock {
    lock.(holder := to, actor := Some(to), harness := Some(harness),
          history := lock.history + [TransferEntry(lock.lockId, lock.holder.Tag(), to.Tag())],
          transferDate := Some(now))
  }

  /** Claiming a `release` handoff stamps the lock; it does not remove it. */
  function StampRelease(lock: Lock, now: int): Lock {
    lock.(transferDate := Some(now))
  }

  predicate Matches(intended: Option<string>, actual: string) {
    Truthy(intended) ==> intended.value == actual
  }

  predicate MatchesHarness(intended: Option<string>, actual: string) {
    Truthy(intended) && intended.value != "any" ==> intended.value == actual
  }

  /** The lock a claim acts on: held for the run the handoff was created from. */
  predicate ClaimReachesLock(b: Bundle, h: Handoff) {
    Truthy(h.sourceRun) && b.lock.Some? && b.lock.value.runId == h.sourceRun.value
  }

  function ClaimRefusal(b: Bundle, id: string, actor: Actor, harness: string): Option<Error> {
    if id !in b.handoffs then Some(Missing)
    else if b.handoffs[id].status != Open then Some(HandoffClosed)
    else if !Matches(b.handoffs[id].intendedKind, actor.kind) then Some(IntentMismatch)
    else if !Matches(b.handoffs[id].intendedName, actor.name) then Some(IntentMismatch)
    else if !MatchesHarness(b.handoffs[id].intendedHarness, harness) then Some(IntentMismatch)
    else None
  }

  function ClaimedLock(b: Bundle, h: Handoff, actor: Actor, harness: string, now: int): Option<Lock> {
    if h.lockPolicy == Transfer && ClaimReachesLock(b, h) then Some(TransferLock(b.lock.value, actor, harness, now))
    else if h.lockPolicy == Release && ClaimReachesLock(b, h) then Some(StampRelease(b.lock.value, now))
    else b.lock
  }

  function ClaimedHandoff(b: Bundle, h: Handoff, actor: Actor, harness: string, newRun: Option<string>): Handoff {
    h.(status := Claimed, claimRun := newRun, claimedBy := Some(actor), claimedIn := Some(harness),
       releasedLock := if h.lockPolicy in {Transfer, Release} && ClaimReachesLock(b, h)
                       then Some(b.lock.value.lockId) else h.releasedLock)
  }

  function ClaimHandoff(b: Bundle, id: string, actor: Actor, harness: string, newRun: Option<string>, now: int): Post {
    var refusal := ClaimRefusal(b, id, actor, harness);
    if refusal.Some? then Refuse(b, refusal.value)
    else
      var h := b.handoffs[id];
      Post(b.(lock := ClaimedLock(b, h, actor, harness, now),
              handoffs := b.handoffs[h.handoffId := ClaimedHandoff(b, h, actor, harness, newRun)]), Ok)
  }

  function ReasonOr(reason: Option<string>, previous: Option<string>): Option<string> {
    if Truthy(reason) then reason else previous
  }

  function CloseHandoff(b: Bundle, id: string, reason: Option<string>): Post {
    if id !in b.handoffs then Refuse(b, Missing)
    else
      var h := b.handoffs[id];
      if h.status !in {Open, Claimed} then Refuse(b, HandoffClosed)
      else
        var closed := h.(status := Closed, summary := ReasonOr(reason, h.summary));
        Post(b.(handoffs := b.handoffs[h.handoffId := closed]), Ok)
  }

  function CancelHandoff(b: Bundle, id: string, reason: Option<string>): Post {
    if id !in b.handoffs then Refuse(b, Missing)
    else
      var h := b.handoffs[id];
      if h.status != Open then Refuse(b, HandoffClosed)
      else
        var cancelled := h.(status := CancelledHandoff, summary := ReasonOr(reason, h.summary));
        Post(b.(handoffs := b.handoffs[h.handoffId := cancelled]), Ok)
  }

  /**
   An open handoff that no command created: it came with an import or was written by hand. Only such
   a handoff can name a run and ask for the lock to be transferred or released.
   */
  ghost function ReceiveHandoff(b: Bundle, h: Handoff): Post {
    var id := Ids.NextId("handoff", b.handoffs.Keys);
    Post(b.(handoffs := b.handoffs[id := h.(handoffId := id, taskId := b.task.id, status := Open, claimRun := None,
                                            releasedLock := None, claimedBy := None, claimedIn := None)]), Ok)
  }

  /**
   The command takes who the handoff is for and a summary; lock policy and source run keep their defaults. It is
   `directed` if it names a mode or a worker for which a context can be made.
   */
  ghost function CreateHandoff(b: Bundle, h: Handoff, directed: bool): Post {
    if !directed then Refuse(b, BadInput) else ReceiveHandoff(b, h.(lockPolicy := NoPolicy, sourceRun := None))
  }

  // ---- planning, validation and the rest of the lifecycle around it ----

  ghost function LatestPlan(plans: set<nat>): (v: Option<nat>)
    ensures v.None? <==> plans == {}
    ensures v.Some? ==> v.value in plans && forall p :: p in plans ==> p <= v.value
  {
    if plans == {} then None
    else
      var p :| p in plans;
      var rest := LatestPlan(plans - {p});
      assert plans == (plans - {p}) + {p};
      if rest.None? || rest.value < p then Some(p) else rest
  }

  ghost function StartPlanning(b: Bundle, env: Env): Post {
    if b.task.archived then Refuse(b, ArchivedTask)
    else if b.task.stage !in {Draft, PlanReview} then Refuse(b, InvalidTransition)
    else BeginRun(b, LockPlanning, FreshRun(b, PlanningRun, env), env)
  }

  /** What the text of a plan comes to: front matter, criteria or todos may be malformed, the body may be empty. */
  datatype PlanInput = Malformed | Parsed(summary: Option<string>)

  ghost function ProposePlan(b: Bundle, input: PlanInput, now: int): Post {
    if b.task.archived then Refuse(b, ArchivedTask)
    else
      var r := FindRun(b, b.task.latestPlanningRun);
      if r.Failure? then Refuse(b, r.error)
      else if b.lock.Some? && b.lock.value.Expired(now) then Refuse(b, StaleLock)
      else
        var d := PlanProposeDecision(b.task, b.lock, Some(r.value));
        if !d.allowed then Refuse(b, DecisionError(d))
        else if input.Malformed? then Refuse(b, BadInput)
        else
          var last := LatestPlan(b.plans.Keys);
          var version := if last.Some? then last.value + 1 else 1;
          ReleaseLock(SaveRun(b, r.value.(status := Finished, summary := input.summary)).(
                        plans := b.plans[version := Proposed],
                        task := b.task.(latestPlan := Some(version), stage := PlanReview)),
                      LockPlanning, r.value.runId)
  }

  /** `gates` stands for the question, criteria, todo and lint gates of plan approval. */
  function ApprovePlan(b: Bundle, version: nat, gates: bool): Post {
    if b.task.archived then Refuse(b, ArchivedTask)
    else
      var d := PlanApproveDecision(b.task, b.lock);
      if !d.allowed then Refuse(b, DecisionError(d))
      else if HasRunning(b) then Refuse(b, ApprovalRequired)
      else if version !in b.plans then Refuse(b, Missing)
      else if b.plans[version] != Proposed then Refuse(b, InvalidTransition)
      else if !gates then Refuse(b, ApprovalRequired)
      else
        Post(b.(plans := map v | v in b.plans ::
                           if v == version then Accepted else if b.plans[v] == Rejected then Rejected else Superseded,
                task := b.task.(acceptedPlan := Some(version), stage := Approved)), Ok)
  }

  function RepairSummary(reason: string): string {
    "Repaired orphaned planning run: " + Text.Strip(reason)
  }

  function RepairPlanningRun(b: Bundle, runId: Option<string>, reason: string): Post {
    if Text.Strip(reason) == "" then Refuse(b, BadInput)
    else
      var r := RequireRunning(b, if Truthy(runId) then runId else b.task.latestPlanningRun, PlanningRun);
      if r.Failure? then Refuse(b, r.error)
      else if b.lock.Some? then Refuse(b, LockConflict)
      else Post(SaveRun(b, r.value.(status := Finished, summary := Some(RepairSummary(reason)))), Ok)
  }

  function StartValidationRefusal(b: Bundle, snapshotCurrent: bool): Option<Error> {
    if b.task.archived then Some(ArchivedTask)
    else if b.task.stage != Implemented then Some(InvalidTransition)
    else
      var impl := FindRun(b, b.task.latestImplementationRun);
      if impl.Failure? then Some(impl.error)
      else if impl.value.runType != ImplementationRun || impl.value.status != Finished then Some(InvalidTransition)
      else if !snapshotCurrent then Some(InvalidTransition)
      else None
  }

  ghost function ValidationStarted(b: Bundle, env: Env): Run {
    FreshRun(b, ValidationRun, env).(basedOnImplementation := b.task.latestImplementationRun)
  }

  ghost function StartValidation(b: Bundle, snapshotCurrent: bool, env: Env): Post {
    var refusal := StartValidationRefusal(b, snapshotCurrent);
    if refusal.Some? then Refuse(b, refusal.value)
    else BeginRun(b, LockValidating, ValidationStarted(b, env), env)
  }

  function VerdictStage(v: Verdict): Stage {
    if v == VerdictPassed then Done else FailedValidation
  }

  function VerdictStatus(v: Verdict): RunStatus {
    match v
    case VerdictPassed => Finished
    case VerdictBlocked => Blocked
    case VerdictFailed => Failed
  }

  /** The run and the stage are written before the lock is looked at. */
  function FinishValidation(b: Bundle, verdict: Verdict, canPass: bool, summary: string): Post {
    if b.task.archived then Refuse(b, ArchivedTask)
    else
      var r := RequireRunning(b, b.task.latestValidationRun, ValidationRun);
      if r.Failure? then Refuse(b, r.error)
      else if verdict == VerdictPassed && !canPass then Refuse(b, ValidationIncomplete)
      else
        var finished := r.value.(status := VerdictStatus(verdict), result := Some(verdict),
            summary := Some(Text.Strip(summary)));
        ReleaseLock(SaveRun(b, finished).(task := b.task.(stage := VerdictStage(verdict))),
                    LockValidating, r.value.runId)
  }

  function BreakLock(b: Bundle, now: int): Post {
    if b.lock == None then Refuse(b, Missing) else Post(DropLock(b, now), Ok)
  }

  function CancelTask(b: Bundle): Post {
    if b.task.archived then Refuse(b, ArchivedTask)
    else if b.task.stage in {Done, Cancelled} then Refuse(b, InvalidTransition)
    else Post(b.(lock := None, task := b.task.(stage := Cancelled)), Ok)
  }

  predicate LatestIsFailedValidation(b: Bundle) {
    var v := FindRun(b, b.task.latestValidationRun);
    v.Success? && IsFailedValidation(v.value)
  }

  predicate LatestIsFinishedImplementation(b: Bundle) {
    var i := FindRun(b, b.task.latestImplementationRun);
    i.Success? && i.value.runType == ImplementationRun && i.value.status == Finished
  }

  ghost predicate LatestPlanProposed(b: Bundle) {
    var p := LatestPlan(b.plans.Keys);
    p.Some? && b.plans[p.value] == Proposed
  }

  ghost function InferUncancelTarget(b: Bundle): Stage {
    if LatestIsFailedValidation(b) && HasAcceptedPlan(b) then FailedValidation
    else if LatestIsFinishedImplementation(b) then Implemented
    else if HasAcceptedPlan(b) then Approved
    else if LatestPlanProposed(b) then PlanReview
    else Draft
  }

  ghost predicate UncancelTargetValid(b: Bundle, target: Stage) {
    match target
    case Draft => true
    case PlanReview => LatestPlanProposed(b)
    case Approved => HasAcceptedPlan(b)
    case Implemented => LatestIsFinishedImplementation(b)
    case FailedValidation => HasAcceptedPlan(b) && LatestIsFailedValidation(b)
    case _ => false
  }

  ghost function UncancelTarget(b: Bundle, requested: Option<Stage>): Stage {
    if requested.Some? then requested.value else InferUncancelTarget(b)
  }

  /** `permitted` stands for the actor rules of uncancelling. */
  ghost function UncancelRefusal(
    b: Bundle, requested: Option<Stage>, reason: string, permitted: bool, now: int): Option<Error> {
    if b.task.archived then Some(ArchivedTask)
    else if b.task.stage != Cancelled then Some(InvalidTransition)
    else if b.lock.Some? then Some(HeldError(b.lock.value, now))
    else if Text.Strip(reason) == "" then Some(BadInput)
    else if !permitted then Some(ApprovalRequired)
    else if UncancelTarget(b, requested) in {Planning, Implementing, Validating, Done, Cancelled} then Some(BadInput)
    else if !UncancelTargetValid(b, UncancelTarget(b, requested)) then Some(InvalidTransition)
    else None
  }

  ghost function UncancelTask(b: Bundle, requested: Option<Stage>, reason: string, permitted: bool, now: int): Post {
    var refusal := UncancelRefusal(b, requested, reason, permitted, now);
    if refusal.Some? then Refuse(b, refusal.value)
    else Post(b.(task := b.task.(stage := UncancelTarget(b, requested))), Ok)
  }

  function ArchiveTask(b: Bundle, reason: string, force: bool, now: int): Post {
    if Text.Strip(reason) == "" then Refuse(b, BadInput)
    else if b.task.archived then Post(b, Ok)
    else if b.lock.Some? && !b.lock.value.Expired(now) then Refuse(b, InvalidTransition)
    else if b.task.stage in {Planning, Implementing, Validating} then Refuse(b, InvalidTransition)
    else if b.task.stage !in {Done, Cancelled} && !force then Refuse(b, InvalidTransition)
    else Post(b.(task := b.task.(archived := true)), Ok)
  }

  function UnarchiveTask(b: Bundle, reason: string, reopen: bool): Post {
    if Text.Strip(reason) == "" then Refuse(b, BadInput)
    else if !b.task.archived then Post(b, Ok)
    else if b.task.stage in {Approved, Implemented, FailedValidation} && !reopen then Refuse(b, InvalidTransition)
    else
      Post(b.(task := b.task.(
                archived := false,
                stage := if reopen && b.task.stage == Implemented then FailedValidation else b.task.stage)), Ok)
  }

  // ---- runs of commands ----

  datatype Step =
    | StartStep(env: Env)
    | RestartStep(summary: string, env: Env)
    | ResumeStep(runId: Option<string>, reason: string, repair: bool, env: Env)
    | LogStep(message: string, now: int)
    | DeviationStep(message: string, now: int)
    | ArtifactStep(path: string, summary: string, now: int)
    | ChangeStep(kind: string, path: string, summary: string, artifacts: seq<string>, now: int)
    | CheckStep(command: string, exitCode: Option<int>, artifacts: seq<string>, now: int)
    | FinishStep(summary: string, todosDone: bool)
    | CreateHandoffStep(handoff: Handoff, directed: bool)
    | ReceiveHandoffStep(handoff: Handoff)
    | ClaimStep(id: string, actor: Actor, harness: string, newRun: Option<string>, now: int)
    | CloseStep(id: string, note: Option<string>)
    | CancelHandoffStep(id: string, note: Option<string>)
    | StartPlanningStep(env: Env)
    | ProposeStep(input: PlanInput, now: int)
    | ApproveStep(version: nat, gates: bool)
    | RepairPlanningStep(runId: Option<string>, reason: string)
    | StartValidationStep(snapshotCurrent: bool, env: Env)
    | FinishValidationStep(verdict: Verdict, canPass: bool, summary: string)
    | BreakLockStep(now: int)
    | CancelStep
    | UncancelStep(requested: Option<Stage>, reason: string, permitted: bool, now: int)
    | ArchiveStep(reason: string, force: bool, now: int)
    | UnarchiveStep(reason: string, reopen: bool)

  ghost function Apply(b: Bundle, step: Step): Post {
    match step
    case StartStep(env) => StartImplementation(b, env)
    case RestartStep(summary, env) => RestartImplementation(b, summary, env)
    case ResumeStep(runId, reason, repair, env) => ResumeImplementation(b, runId, reason, repair, env)
    case LogStep(message, now) => LogImplementation(b, message, now)
    case DeviationStep(message, now) => AddDeviation(b, message, now)
    case ArtifactStep(path, summary, now) => AddArtifact(b, path, summary, now)
    case ChangeStep(kind, path, summary, artifacts, now) => AddChange(b, kind, path, summary, artifacts, now)
    case CheckStep(command, exitCode, artifacts, now) => AddCheck(b, command, exitCode, artifacts, now)
    case FinishStep(summary, todosDone) => FinishImplementation(b, summary, todosDone)
    case CreateHandoffStep(handoff, directed) => CreateHandoff(b, handoff, directed)
    case ReceiveHandoffStep(handoff) => ReceiveHandoff(b, handoff)
    case ClaimStep(id, actor, harness, newRun, now) => ClaimHandoff(b, id, actor, harness, newRun, now)
    case CloseStep(id, note) => CloseHandoff(b, id, note)
    case CancelHandoffStep(id, note) => CancelHandoff(b, id, note)
    case StartPlanningStep(env) => StartPlanning(b, env)
    case ProposeStep(input, now) => ProposePlan(b, input, now)
    case ApproveStep(version, gates) => ApprovePlan(b, version, gates)
    case RepairPlanningStep(runId, reason) => RepairPlanningRun(b, runId, reason)
    case StartValidationStep(current, env) => StartValidation(b, current, env)
    case FinishValidationStep(verdict, canPass, summary) => FinishValidation(b, verdict, canPass, summary)
    case BreakLockStep(now) => BreakLock(b, now)
    case CancelStep => CancelTask(b)
    case UncancelStep(requested, reason, permitted, now) => UncancelTask(b, requested, reason, permitted, now)
    case ArchiveStep(reason, force, now) => ArchiveTask(b, reason, force, now)
    case UnarchiveStep(reason, reopen) => UnarchiveTask(b, reason, reopen)
  }

  /** The directory after a sequence of commands, refused ones included. */
  ghost function After(b: Bundle, steps: seq<Step>): Bundle {
    if steps == [] then b else Apply(After(b, steps[..|steps| - 1]), steps[|steps| - 1]).bundle
  }
}
