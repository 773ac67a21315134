/** Locks and handoffs over whole runs: where locks come from, what a transfer keeps, when transfers are conserved. */
module Transfers {
  import opened Common
  import opened Steps
  import opened Records
  import opened Protocol
  import opened Shapes
  import opened Handoffs
  import opened Lifecycle
  import opened Runs

  // ---- where a lock comes from ----

  /** The id under which a command would take a lock. */
  function LockIdOf(step: Step): Option<string> {
    match step
    case StartStep(env) => Some(env.lockId)
    case RestartStep(_, env) => Some(env.lockId)
    case ResumeStep(_, _, _, env) => Some(env.lockId)
    case StartPlanningStep(env) => Some(env.lockId)
    case StartValidationStep(_, env) => Some(env.lockId)
    case _ => None
  }

  /** The lock afterwards is not the one from before in a later state. */
  predicate NewlyLocked(b: Bundle, post: Bundle) {
    post.lock.Some? && !(b.lock.Some? && SameLease(post.lock.value, b.lock.value))
  }

  /** Nothing keeps a run from being started. */
  predicate Unoccupied(b: Bundle) {
    b.lock == None && !HasRunning(b)
  }

  /** The guards of the commands that take a lock, all met. */
  predicate TakesLock(b: Bundle, step: Step) {
    match step
    case StartStep(env) => StartRefusal(b, env) == None && Unoccupied(b)
    case RestartStep(summary, env) => RestartRefusal(b, summary, env) == None && Unoccupied(b)
    case ResumeStep(runId, reason, repair, env) => ResumeRefusal(b, runId, reason, repair, env) == None && env.depsDone
    case StartPlanningStep(env) => !b.task.archived && b.task.stage in {Draft, PlanReview} && Unoccupied(b)
    case StartValidationStep(current, env) => StartValidationRefusal(b, current) == None && Unoccupied(b)
    case _ => false
  }

  lemma BeginTakes(b: Bundle, stage: LockStage, run: Run, env: Env)
    ensures var p := BeginRun(b, stage, run, env);
      && (p.outcome == Ok <==> Unoccupied(b)) && (NewlyLocked(b, p.bundle) <==> Unoccupied(b))
      && (p.outcome == Ok ==> p.bundle.lock.value.lockId == env.lockId && p.bundle.lock.value.history == [])
      && (p.outcome != Ok ==> p.bundle == b) && p.bundle.handoffs == b.handoffs
  {
  }

  /** The command succeeded and its lock is a new one, or neither; a new lock has the id it was given. */
  ghost predicate TookLock(b: Bundle, p: Post, env: Env, taken: bool) {
    && (p.outcome == Ok <==> taken) && (NewlyLocked(b, p.bundle) <==> taken)
    && (taken ==> p.bundle.lock.value.lockId == env.lockId && p.bundle.lock.value.history == [])
    && p.bundle.handoffs == b.handoffs
  }

  lemma StartTakes(b: Bundle, env: Env)
    ensures TookLock(b, StartImplementation(b, env), env, TakesLock(b, StartStep(env)))
  {
    BeginTakes(b, LockImplementing, FreshRun(b, ImplementationRun, env), env);
  }

  lemma PlanningTakes(b: Bundle, env: Env)
    ensures TookLock(b, StartPlanning(b, env), env, TakesLock(b, StartPlanningStep(env)))
  {
    BeginTakes(b, LockPlanning, FreshRun(b, PlanningRun, env), env);
  }

  lemma RestartTakes(b: Bundle, summary: string, env: Env)
    ensures TookLock(b, RestartImplementation(b, summary, env), env, TakesLock(b, RestartStep(summary, env)))
  {
    if RestartRefusal(b, summary, env) == None {
      BeginTakes(b, LockImplementing, RestartedRun(b, summary, env), env);
    }
  }

  lemma ValidationTakes(b: Bundle, current: bool, env: Env)
    ensures TookLock(b, StartValidation(b, current, env), env, TakesLock(b, StartValidationStep(current, env)))
  {
    BeginTakes(b, LockValidating, ValidationStarted(b, env), env);
  }

  lemma ResumeTakes(b: Bundle, runId: Option<string>, reason: string, repair: bool, env: Env)
    ensures TookLock(b, ResumeImplementation(b, runId, reason, repair, env), env,
                     TakesLock(b, ResumeStep(runId, reason, repair, env)))
  {
  }

  predicate IsRecordingStep(step: Step) {
    step.LogStep? || step.DeviationStep? || step.ArtifactStep? || step.ChangeStep? || step.CheckStep?
  }

  lemma RecordingKeepsLock(b: Bundle, step: Step)
    requires IsRecordingStep(step)
    ensures Apply(b, step).bundle.lock == b.lock && Apply(b, step).bundle.handoffs == b.handoffs
  {
  }

  lemma OthersKeepLock(b: Bundle, step: Step)
    requires LockIdOf(step) == None && !IsHandoffStep(step)
    ensures Apply(b, step).bundle.lock == b.lock || Apply(b, step).bundle.lock == None
    ensures Apply(b, step).bundle.handoffs == b.handoffs
  {
    if IsRecordingStep(step) {
      RecordingKeepsLock(b, step);
    } else if step.FinishStep? || step.FinishValidationStep? {
      FinishKeepsLock(b, step);
    } else if step.ProposeStep? || step.RepairPlanningStep? {
      PlanningKeepsLock(b, step);
    } else if step.ApproveStep? || step.BreakLockStep? || step.CancelStep? {
      MovingKeepsLock(b, step);
    } else {
      FilingKeepsLock(b, step);
    }
  }

  lemma FinishKeepsLock(b: Bundle, step: Step)
    requires step.FinishStep? || step.FinishValidationStep?
    ensures Apply(b, step).bundle.lock == b.lock || Apply(b, step).bundle.lock == None
    ensures Apply(b, step).bundle.handoffs == b.handoffs
  {
  }

  lemma PlanningKeepsLock(b: Bundle, step: Step)
    requires step.ProposeStep? || step.RepairPlanningStep?
    ensures Apply(b, step).bundle.lock == b.lock || Apply(b, step).bundle.lock == None
    ensures Apply(b, step).bundle.handoffs == b.handoffs
  {
  }

  lemma MovingKeepsLock(b: Bundle, step: Step)
    requires step.ApproveStep? || step.BreakLockStep? || step.CancelStep?
    ensures Apply(b, step).bundle.lock == b.lock || Apply(b, step).bundle.lock == None
    ensures Apply(b, step).bundle.handoffs == b.handoffs
  {
  }

  lemma FilingKeepsLock(b: Bundle, step: Step)
    requires step.UncancelStep? || step.ArchiveStep? || step.UnarchiveStep?
    ensures Apply(b, step).bundle.lock == b.lock || Apply(b, step).bundle.lock == None
    ensures Apply(b, step).bundle.handoffs == b.handoffs
  {
  }

  lemma HandoffsKeepLease(b: Bundle, step: Step)
    requires IsHandoffStep(step)
    ensures Hands(b, Apply(b, step).bundle)
  {
    match step
    case CreateHandoffStep(h, directed) => ReceiveHandoffShape(b, h, directed);
    case ReceiveHandoffStep(h) => ReceiveHandoffShape(b, h, true);
    case ClaimStep(id, actor, harness, newRun, now) => ClaimShape(b, id, actor, harness, newRun, now);
    case CloseStep(id, note) => CloseHandoffShape(b, id, note);
    case CancelHandoffStep(id, note) => CloseHandoffShape(b, id, note);
  }

  lemma StarterTakes(b: Bundle, step: Step)
    requires LockIdOf(step).Some?
    ensures NewlyLocked(b, Apply(b, step).bundle) <==> TakesLock(b, step)
    ensures Apply(b, step).outcome == Ok <==> TakesLock(b, step)
    ensures TakesLock(b, step) ==>
              && Apply(b, step).bundle.lock.value.lockId == LockIdOf(step).value
              && Apply(b, step).bundle.lock.value.history == []
    ensures Apply(b, step).bundle.handoffs == b.handoffs
  {
    match step
    case StartStep(env) => StartTakes(b, env);
    case StartPlanningStep(env) => PlanningTakes(b, env);
    case RestartStep(summary, env) => RestartTakes(b, summary, env);
    case StartValidationStep(current, env) => ValidationTakes(b, current, env);
    case ResumeStep(runId, reason, repair, env) => ResumeTakes(b, runId, reason, repair, env);
  }

  /** A new lock comes exactly from a start, restart, resume, planning or validation start whose guards are met. */
  lemma NewLockIff(b: Bundle, step: Step)
    ensures NewlyLocked(b, Apply(b, step).bundle) <==> TakesLock(b, step)
    ensures LockIdOf(step).Some? ==> (Apply(b, step).outcome == Ok <==> TakesLock(b, step))
    ensures TakesLock(b, step) ==>
              && Apply(b, step).bundle.lock.value.lockId == LockIdOf(step).value
              && Apply(b, step).bundle.lock.value.history == []
    ensures IsHandoffStep(step) || Apply(b, step).bundle.handoffs == b.handoffs
  {
    if LockIdOf(step).Some? {
      StarterTakes(b, step);
    } else if IsHandoffStep(step) {
      HandoffsKeepLease(b, step);
    } else {
      OthersKeepLock(b, step);
    }
  }

  // ---- any number of transfers and releases ----

  lemma HandoffExtends(b: Bundle, step: Step)
    requires IsHandoffStep(step) && b.lock.Some?
    ensures Apply(b, step).bundle.lock.Some?
    ensures b.lock.value.history <= Apply(b, step).bundle.lock.value.history
  {
  }

  lemma HandoffStepKeeps(b: Bundle, step: Step)
    requires Good(b) && b.lock.Some? && IsHandoffStep(step)
    ensures var post := Apply(b, step).bundle;
      && Good(post) && post.lock.Some? && SameLease(post.lock.value, b.lock.value)
      && b.lock.value.history <= post.lock.value.history
      && post.runs == b.runs && post.task == b.task
  {
    StepAdvances(b, step);
    HandoffsKeepLease(b, step);
    HandoffExtends(b, step);
  }

  /** However often a lock is handed over, it stays the same lease, and its history only grows, as a chain. */
  lemma {:induction false} LeaseSurvivesHandoffs(b: Bundle, steps: seq<Step>)
    requires Good(b) && b.lock.Some? && forall i :: 0 <= i < |steps| ==> IsHandoffStep(steps[i])
    ensures var post := After(b, steps);
      && Good(post) && post.lock.Some? && SameLease(post.lock.value, b.lock.value)
      && b.lock.value.history <= post.lock.value.history && Chained(post.lock.value)
      && post.runs == b.runs && post.task == b.task
  {
    if steps != [] {
      LeaseSurvivesHandoffs(b, steps[..|steps| - 1]);
      HandoffStepKeeps(After(b, steps[..|steps| - 1]), steps[|steps| - 1]);
    }
  }

  // ---- a handoff is claimed at most once ----

  /** A handoff that has left `open` keeps its claim; once closed or cancelled it never changes. */
  predicate Onward(h: Handoff, later: Handoff) {
    && later.handoffId == h.handoffId && later.lockPolicy == h.lockPolicy && later.sourceRun == h.sourceRun
    && (h.status != Open ==>
          && later.status in {h.status, Closed}
          && later.claimRun == h.claimRun && later.claimedBy == h.claimedBy && later.claimedIn == h.claimedIn
          && later.releasedLock == h.releasedLock)
    && (h.status in {Closed, CancelledHandoff} ==> later == h)
  }

  lemma ClaimOnward(
    b: Bundle, claimed: string, actor: Actor, harness: string, newRun: Option<string>, now: int, id: string)
    requires HandoffsKeyed(b) && id in b.handoffs
    ensures var post := ClaimHandoff(b, claimed, actor, harness, newRun, now).bundle;
      id in post.handoffs && Onward(b.handoffs[id], post.handoffs[id])
  {
  }

  lemma CloseOnward(b: Bundle, closed: string, note: Option<string>, id: string)
    requires HandoffsKeyed(b) && id in b.handoffs
    ensures var post := CloseHandoff(b, closed, note).bundle;
      id in post.handoffs && Onward(b.handoffs[id], post.handoffs[id])
  {
  }

  lemma CancelOnward(b: Bundle, cancelled: string, note: Option<string>, id: string)
    requires HandoffsKeyed(b) && id in b.handoffs
    ensures var post := CancelHandoff(b, cancelled, note).bundle;
      id in post.handoffs && Onward(b.handoffs[id], post.handoffs[id])
  {
  }

  lemma ReceiveOnward(b: Bundle, h: Handoff, id: string)
    requires HandoffsKeyed(b) && id in b.handoffs
    ensures var post := ReceiveHandoff(b, h).bundle; id in post.handoffs && Onward(b.handoffs[id], post.handoffs[id])
  {
    Ids.NextIdFresh("handoff", b.handoffs.Keys);
  }

  lemma OnwardStep(b: Bundle, step: Step, id: string)
    requires HandoffsKeyed(b) && id in b.handoffs
    ensures id in Apply(b, step).bundle.handoffs && Onward(b.handoffs[id], Apply(b, step).bundle.handoffs[id])
  {
    if IsHandoffStep(step) {
      HandoffOnward(b, step, id);
    } else {
      NewLockIff(b, step);
    }
  }

  lemma NewOnward(b: Bundle, step: Step, id: string)
    requires HandoffsKeyed(b) && id in b.handoffs && (step.CreateHandoffStep? || step.ReceiveHandoffStep?)
    ensures id in Apply(b, step).bundle.handoffs && Onward(b.handoffs[id], Apply(b, step).bundle.handoffs[id])
  {
    match step
    case CreateHandoffStep(h, _) => ReceiveOnward(b, h.(lockPolicy := NoPolicy, sourceRun := None), id);
    case ReceiveHandoffStep(h) => ReceiveOnward(b, h, id);
  }

  lemma HandoffOnward(b: Bundle, step: Step, id: string)
    requires HandoffsKeyed(b) && id in b.handoffs && IsHandoffStep(step)
    ensures id in Apply(b, step).bundle.handoffs && Onward(b.handoffs[id], Apply(b, step).bundle.handoffs[id])
  {
    match step
    case CreateHandoffStep(_, _) => NewOnward(b, step, id);
    case ReceiveHandoffStep(_) => NewOnward(b, step, id);
    case ClaimStep(claimed, actor, harness, newRun, now) => ClaimOnward(b, claimed, actor, harness, newRun, now, id);
    case CloseStep(ended, note) => CloseOnward(b, ended, note, id);
    case CancelHandoffStep(ended, note) => CancelOnward(b, ended, note, id);
  }

  lemma {:induction false} ClaimedOnce(b: Bundle, steps: seq<Step>, id: string)
    requires Good(b) && id in b.handoffs
    ensures Good(After(b, steps)) && id in After(b, steps).handoffs
    ensures Onward(b.handoffs[id], After(b, steps).handoffs[id])
  {
    if steps != [] {
      ClaimedOnce(b, steps[..|steps| - 1], id);
      StepAdvances(After(b, steps[..|steps| - 1]), steps[|steps| - 1]);
      OnwardStep(After(b, steps[..|steps| - 1]), steps[|steps| - 1], id);
    }
  }

  // ---- conservation ----

  /** The command is about to take a lock under an id that handoffs of the task already name as transferred. */
  ghost predicate RetakesLockId(b: Bundle, step: Step) {
    TakesLock(b, step) && TransfersOf(b.handoffs, LockIdOf(step).value) != {}
  }

  /** One command conserves transfers exactly when it does not reuse the id of a transferred lock. */
  lemma ConservedIff(b: Bundle, step: Step)
    requires Good(b) && Conserved(b)
    ensures Conserved(Apply(b, step).bundle) <==> !RetakesLockId(b, step)
  {
    StepAdvances(b, step);
    NewLockIff(b, step);
  }

  ghost function NotRetaken(b: Bundle): (seq<Step>, Step) -> bool {
    (steps, next) => !RetakesLockId(After(b, steps), next)
  }

  ghost function ConservedAfter(b: Bundle): seq<Step> -> bool {
    steps => Conserved(After(b, steps))
  }

  ghost predicate NeverRetakes(b: Bundle, steps: seq<Step>) {
    AtEveryStep(steps, NotRetaken(b))
  }

  ghost predicate AlwaysConserved(b: Bundle, steps: seq<Step>) {
    AtEveryPoint(steps, ConservedAfter(b))
  }

  lemma {:induction false} ConservedSoFar(id: string, steps: seq<Step>)
    ensures AlwaysConserved(NewBundle(id), steps) <==> NeverRetakes(NewBundle(id), steps)
    ensures NeverRetakes(NewBundle(id), steps) ==> Conserved(After(NewBundle(id), steps))
  {
    if steps == [] {
      assert forall i :: 0 <= i <= |steps| ==> steps[..i] == [];
    } else {
      var before := steps[..|steps| - 1];
      ConservedSoFar(id, before);
      AlwaysGood(id, before);
      StepsAppend(steps, NotRetaken(NewBundle(id)));
      PointsAppend(steps, ConservedAfter(NewBundle(id)));
      if NeverRetakes(NewBundle(id), before) {
        ConservedIff(After(NewBundle(id), before), steps[|steps| - 1]);
      }
    }
  }

  /**
   Conservation of transfers: over every sequence of commands, the history of the lock always has one entry for each
   handoff that transferred the lock exactly when no lock is taken under an id that handoffs name as transferred;
   and the history is a chain to the holder in any case.
   */
  lemma TransfersConservedIff(id: string, steps: seq<Step>)
    ensures AlwaysConserved(NewBundle(id), steps) <==> NeverRetakes(NewBundle(id), steps)
    ensures var b := After(NewBundle(id), steps); b.lock.Some? ==> Chained(b.lock.value)
  {
    ConservedSoFar(id, steps);
    AlwaysGood(id, steps);
  }

  // ---- locks under ids of their own ----

  /** The ids under which locks were taken; a refused command takes none. */
  ghost function TakenIds(b: Bundle, steps: seq<Step>): set<string> {
    if steps == [] then {}
    else
      var before, last := steps[..|steps| - 1], steps[|steps| - 1];
      TakenIds(b, before) + if TakesLock(After(b, before), last) then {LockIdOf(last).value} else {}
  }

  ghost predicate OwnIds(b: Bundle, steps: seq<Step>) {
    forall i :: 0 <= i < |steps| && TakesLock(After(b, steps[..i]), steps[i]) ==>
      LockIdOf(steps[i]).value !in TakenIds(b, steps[..i])
  }

  /** Only locks that were taken are named by the lock or by a handoff that moved one. */
  ghost predicate NamesOnly(b: Bundle, ids: set<string>) {
    && (b.lock.Some? ==> b.lock.value.lockId in ids)
    && (forall h :: h in b.handoffs && b.handoffs[h].releasedLock.Some? ==> b.handoffs[h].releasedLock.value in ids)
  }

  lemma HandoffNames(b: Bundle, step: Step, ids: set<string>)
    requires IsHandoffStep(step) && NamesOnly(b, ids)
    ensures NamesOnly(Apply(b, step).bundle, ids)
  {
  }

  lemma StepNames(b: Bundle, step: Step, ids: set<string>)
    requires NamesOnly(b, ids)
    ensures NamesOnly(Apply(b, step).bundle, if TakesLock(b, step) then ids + {LockIdOf(step).value} else ids)
  {
    NewLockIff(b, step);
    if IsHandoffStep(step) {
      HandoffNames(b, step, ids);
    }
  }

  lemma {:induction false} TakenNames(id: string, steps: seq<Step>)
    ensures NamesOnly(After(NewBundle(id), steps), TakenIds(NewBundle(id), steps))
  {
    if steps != [] {
      var before := steps[..|steps| - 1];
      TakenNames(id, before);
      StepNames(After(NewBundle(id), before), steps[|steps| - 1], TakenIds(NewBundle(id), before));
    }
  }

  /** If each lock is taken under an id of its own, transfers are always conserved. */
  lemma TransfersConserved(id: string, steps: seq<Step>)
    requires OwnIds(NewBundle(id), steps)
    ensures AlwaysConserved(NewBundle(id), steps)
  {
    forall i | 0 <= i < |steps|
      ensures !RetakesLockId(After(NewBundle(id), steps[..i]), steps[i])
    {
      TakenNames(id, steps[..i]);
    }
    ConservedSoFar(id, steps);
  }

  // ---- which handoffs transfer anything ----

  /** No handoff asks for the lock, and the lock has never been handed over. */
  ghost predicate NeverTransferred(b: Bundle) {
    && (forall h :: h in b.handoffs ==> b.handoffs[h].lockPolicy == NoPolicy && b.handoffs[h].releasedLock == None)
    && (b.lock.Some? ==> b.lock.value.history == [])
  }

  lemma HandoffsTransferNothing(b: Bundle, step: Step)
    requires NeverTransferred(b) && IsHandoffStep(step) && !step.ReceiveHandoffStep?
    ensures NeverTransferred(Apply(b, step).bundle)
  {
  }

  /** The commands alone never transfer a lock: the handoffs they create do not ask for it. */
  lemma {:induction false} CommandsTransferNothing(id: string, steps: seq<Step>)
    requires forall i :: 0 <= i < |steps| ==> !steps[i].ReceiveHandoffStep?
    ensures NeverTransferred(After(NewBundle(id), steps))
  {
    if steps != [] {
      var before, last := steps[..|steps| - 1], steps[|steps| - 1];
      var b := After(NewBundle(id), before);
      CommandsTransferNothing(id, before);
      NewLockIff(b, last);
      if IsHandoffStep(last) {
        HandoffsTransferNothing(b, last);
      } else if !TakesLock(b, last) && LockIdOf(last) == None {
        OthersKeepLock(b, last);
      } else if !TakesLock(b, last) {
        RefusedKeepsLock(b, last);
      }
    }
  }

  lemma RefusedKeepsLock(b: Bundle, step: Step)
    requires LockIdOf(step).Some? && !TakesLock(b, step)
    ensures Apply(b, step).bundle.lock == b.lock || Apply(b, step).bundle.lock == None
  {
    NewLockIff(b, step);
  }

  // ---- when lock ids repeat ----

  /** How many of these lock ids were handed out in the same second. */
  function CountOf(stamp: string, ids: seq<string>): nat {
    if ids == [] then 0 else CountOf(stamp, ids[1..]) + if Text.StartsWith(ids[0], stamp) then 1 else 0
  }

  /** A lock id is the current second and a number: one more than the stored locks, live or broken, of that second. */
  function NextLockId(stamp: string, stored: seq<string>): string {
    Ids.FormatId(stamp, CountOf(stamp, stored) + 1)
  }

  /** The count goes up by one with every stored id that begins with the second, and with no other. */
  lemma {:induction false} CountSums(stamp: string, some: seq<string>, more: seq<string>, id: string)
    ensures CountOf(stamp, []) == 0 && CountOf(stamp, [id]) == if Text.StartsWith(id, stamp) then 1 else 0
    ensures CountOf(stamp, some + more) == CountOf(stamp, some) + CountOf(stamp, more)
  {
    if some == [] {
      assert some + more == more;
    } else {
      CountSums(stamp, some[1..], more, id);
      assert (some + more)[1..] == some[1..] + more;
    }
  }

  /** The id of a new lock: the second, a dash and a number, one more than there are stored ids of that second. */
  lemma LockIdIs(stamp: string, stored: seq<string>)
    ensures var id := NextLockId(stamp, stored); var digits := id[|stamp| + 1..];
      && id == stamp + "-" + digits && Ids.AllDigits(digits) && |digits| >= 4
      && Ids.DecimalValue(digits) == CountOf(stamp, stored) + 1
  {
    Ids.FormatShape(stamp, CountOf(stamp, stored) + 1);
  }

  /** Locks taken in different seconds never share an id, whatever is stored. */
  lemma SecondsSeparate(stamp: string, other: string, stored: seq<string>, storedOther: seq<string>)
    requires |stamp| == |other| && stamp != other
    ensures NextLockId(stamp, stored) != NextLockId(other, storedOther)
  {
    assert NextLockId(stamp, stored)[..|stamp|] == stamp;
    assert NextLockId(other, storedOther)[..|other|] == other;
  }

  lemma FinishFreesLock(b: Bundle, summary: string)
    requires Good(b) && b.lock.Some? && b.lock.value.stage == LockImplementing && !b.task.archived
    ensures var p := FinishImplementation(b, summary, true);
      && p.outcome == Ok && p.bundle.lock == None && p.bundle.handoffs == b.handoffs && !HasRunning(p.bundle)
      && StartValidationRefusal(p.bundle, true) == None
  {
    var r := b.lock.value.runId;
    Agreement.OnlyRunning(b, r);
    var post := FinishImplementation(b, summary, true).bundle;
    forall s | s in post.runs
      ensures post.runs[s].status != Running
    {
      assert IsRunning(b, r);
      assert post.runs[s].status == Running ==> IsRunning(b, s);
    }
  }

  lemma ValidationRetakes(b: Bundle, env: Env)
    requires b.lock == None && !HasRunning(b) && StartValidationRefusal(b, true) == None
    requires TransfersOf(b.handoffs, env.lockId) != {}
    ensures var p := StartValidation(b, true, env);
      && p.outcome == Ok && p.bundle.lock.Some? && p.bundle.lock.value.history == [] && !Conserved(p.bundle)
  {
    BeginTakes(b, LockValidating, ValidationStarted(b, env), env);
  }

  /**
   A released lock is not counted. If an implementation whose lock has been handed over is finished
   and its validation started within the second in which the lock was taken, the new lock gets the old
   id, and the handoffs name a lock with an empty history.
   */
  lemma SameSecondReuse(b: Bundle, summary: string, stamp: string, others: seq<string>, env: Env)
    requires Good(b) && Conserved(b) && !b.task.archived
    requires b.lock.Some? && b.lock.value.stage == LockImplementing && b.lock.value.history != []
    requires b.lock.value.lockId == NextLockId(stamp, others) == env.lockId
    ensures var finished := FinishImplementation(b, summary, true).bundle;
      var p := StartValidation(finished, true, env);
      && p.outcome == Ok && p.bundle.lock.Some? && p.bundle.lock.value.history == []
      && !Conserved(p.bundle)
  {
    FinishFreesLock(b, summary);
    ValidationRetakes(FinishImplementation(b, summary, true).bundle, env);
  }
}
