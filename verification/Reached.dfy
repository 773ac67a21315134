/** States that the commands reach from a new task, and in which something one would expect does not hold. */
module Reached {
  import opened Common
  import opened Records
  import opened Protocol
  import opened Handoffs
  import opened Lifecycle
  import opened Runs
  import opened Transfers
  import opened Progress

  /** A task that is being implemented, after any number of failed validations. */
  ghost function Lived(id: string, rounds: nat, summary: string, env: Env): Bundle {
    After(NewBundle(id), Life(rounds, summary, env))
  }

  lemma LivedWorks(id: string, rounds: nat, summary: string, env: Env)
    requires Text.Strip(summary) != "" && env.depsDone
    ensures var b := Lived(id, rounds, summary, env); Working(b) && TakenAs(b, env)
  {
    LifeGoesOn(id, rounds, summary, env);
  }

  lemma OneMore(id: string, rounds: nat, summary: string, env: Env, step: Step)
    ensures After(NewBundle(id), Life(rounds, summary, env) + [step])
        == Apply(Lived(id, rounds, summary, env), step).bundle
  {
    AfterConcat(NewBundle(id), Life(rounds, summary, env), [step]);
    AfterOne(Lived(id, rounds, summary, env), step);
  }

  lemma LivedBroken(id: string, rounds: nat, summary: string, env: Env, now: int)
    ensures After(NewBundle(id), Life(rounds, summary, env) + [BreakLockStep(now)])
            == BreakLock(Lived(id, rounds, summary, env), now).bundle
  {
    OneMore(id, rounds, summary, env, BreakLockStep(now));
  }

  lemma LivedCancelled(id: string, rounds: nat, summary: string, env: Env)
    ensures After(NewBundle(id), Life(rounds, summary, env) + [CancelStep])
        == CancelTask(Lived(id, rounds, summary, env)).bundle
  {
    OneMore(id, rounds, summary, env, CancelStep);
  }

  // ---- refused commands that leave traces ----

  lemma BrokenFinish(b: Bundle, now: int, summary: string)
    requires Working(b)
    ensures var broken := BreakLock(b, now).bundle; var p := FinishImplementation(broken, summary, true);
      p.outcome.Refused? && p.bundle != broken && p.bundle.task.stage == Implemented
  {
  }

  /** The lock is broken, then the work is finished: that is refused, and the task is `implemented`. */
  lemma FinishLeavesTraces(id: string, rounds: nat, summary: string, env: Env, now: int)
    requires Text.Strip(summary) != "" && env.depsDone
    ensures var b := After(NewBundle(id), Life(rounds, summary, env) + [BreakLockStep(now)]);
      var p := FinishImplementation(b, summary, true);
      p.outcome.Refused? && p.bundle != b && p.bundle.task.stage == Implemented
  {
    LivedWorks(id, rounds, summary, env);
    LivedBroken(id, rounds, summary, env, now);
    BrokenFinish(Lived(id, rounds, summary, env), now, summary);
  }

  lemma BrokenVerdict(b: Bundle, r: string, now: int, verdict: Verdict, summary: string)
    requires Implements(b, r) && b.task.latestValidationRun.Some? && b.task.latestValidationRun.value != r
    requires UnderWay(b, LockValidating, b.task.latestValidationRun.value)
    ensures var broken := BreakLock(b, now).bundle; var p := FinishValidation(broken, verdict, true, summary);
      p.outcome.Refused? && p.bundle != broken && p.bundle.task.stage == VerdictStage(verdict)
  {
  }

  /** A validation is started and its lock broken: the verdict is refused, and the task is in the stage it leads to. */
  lemma VerdictLeavesTraces(id: string, rounds: nat, summary: string, env: Env, now: int, verdict: Verdict)
    requires Text.Strip(summary) != "" && env.depsDone
    ensures var b := After(NewBundle(id), Life(rounds, summary, env) + Validated(summary, env, now));
      var p := FinishValidation(b, verdict, true, summary);
      p.outcome.Refused? && p.bundle != b && p.bundle.task.stage == VerdictStage(verdict)
  {
    var lived := Lived(id, rounds, summary, env);
    LivedWorks(id, rounds, summary, env);
    AfterConcat(NewBundle(id), Life(rounds, summary, env), Validated(summary, env, now));
    ValidatedIs(lived, summary, env, now);
    var r := lived.task.latestImplementationRun.value;
    var finished := FinishImplementation(lived, summary, true).bundle;
    WorkFinishes(lived, summary);
    ValidationStarts(finished, r, env);
    BrokenVerdict(StartValidation(finished, true, env).bundle, r, now, verdict, summary);
  }

  function Validated(summary: string, env: Env, now: int): seq<Step> {
    [FinishStep(summary, true), StartValidationStep(true, env), BreakLockStep(now)]
  }

  lemma BreakApplied(b: Bundle, now: int)
    ensures Apply(b, BreakLockStep(now)) == BreakLock(b, now)
  {
  }

  lemma ValidatedIs(b: Bundle, summary: string, env: Env, now: int)
    ensures After(b, Validated(summary, env, now))
            == BreakLock(StartValidation(FinishImplementation(b, summary, true).bundle, true, env).bundle, now).bundle
  {
    AfterThree(b, FinishStep(summary, true), StartValidationStep(true, env), BreakLockStep(now));
    var finished := FinishImplementation(b, summary, true).bundle;
    JudgingApplied(b, VerdictPassed, summary, env);
    JudgingApplied(finished, VerdictPassed, summary, env);
    BreakApplied(StartValidation(finished, true, env).bundle, now);
  }

  /** The lock has expired and a dependency is no longer done: the repairing resume is refused, and the lock is gone. */
  lemma ResumeLeavesTraces(id: string, rounds: nat, summary: string, env: Env, later: Env)
    requires Text.Strip(summary) != "" && env.depsDone
    requires later.now > env.now + LEASE_SECONDS && !later.depsDone
    ensures var b := Lived(id, rounds, summary, env);
      var p := ResumeImplementation(b, None, summary, true, later);
      p.outcome.Refused? && b.lock.Some? && p.bundle.lock == None
  {
    LivedWorks(id, rounds, summary, env);
  }

  lemma CancelledFinish(b: Bundle, summary: string)
    requires Working(b)
    ensures var cancelled := CancelTask(b).bundle; var p := FinishImplementation(cancelled, summary, true);
      cancelled.task.stage == Cancelled && p.outcome.Refused? && p.bundle.task.stage == Implemented
  {
  }

  /** The task is cancelled, then the work is finished: that is refused, and the task is no longer cancelled. */
  lemma FinishRevives(id: string, rounds: nat, summary: string, env: Env)
    requires Text.Strip(summary) != "" && env.depsDone
    ensures var b := After(NewBundle(id), Life(rounds, summary, env) + [CancelStep]);
      var p := FinishImplementation(b, summary, true);
      b.task.stage == Cancelled && p.outcome.Refused? && p.bundle.task.stage == Implemented
  {
    LivedWorks(id, rounds, summary, env);
    LivedCancelled(id, rounds, summary, env);
    CancelledFinish(Lived(id, rounds, summary, env), summary);
  }

  // ---- a broken lock that is lost ----

  /** Break the lock, resume and break the new one: with the same time stamp the first is lost. */
  lemma SecondBreakOverwrites(id: string, rounds: nat, summary: string, env: Env, again: Env)
    requires Text.Strip(summary) != "" && env.depsDone && again.depsDone && again.lockId != env.lockId
    ensures var b := After(NewBundle(id), Life(rounds, summary, env) + [BreakLockStep(again.now)]);
      var resumed := ResumeImplementation(b, None, summary, false, again).bundle;
      var after := BreakLock(resumed, again.now).bundle;
      && again.now in b.brokenLocks && again.now in after.brokenLocks
      && after.brokenLocks[again.now] != b.brokenLocks[again.now]
  {
    LivedWorks(id, rounds, summary, env);
    LivedBroken(id, rounds, summary, env, again.now);
  }

  // ---- a lock id that is handed out again ----

  /** A handoff for whoever claims it, which hands over the lock of this run. */
  function HandingOver(h: Handoff, r: string): Handoff {
    h.(lockPolicy := Transfer, sourceRun := Some(r), intendedKind := None, intendedName := None,
        intendedHarness := None)
  }

  lemma HandedOver(b: Bundle, h: Handoff, actor: Actor, harness: string, now: int)
    requires Working(b)
    ensures var received := ReceiveHandoff(b, HandingOver(h, b.task.latestImplementationRun.value)).bundle;
      var p := ClaimHandoff(received, Ids.NextId("handoff", b.handoffs.Keys), actor, harness, None, now);
      && p.outcome == Ok && p.bundle.lock.Some? && p.bundle.lock.value.history != []
      && p.bundle.lock.value.lockId == b.lock.value.lockId && p.bundle.lock.value.stage == LockImplementing
      && !p.bundle.task.archived
  {
  }

  lemma NothingTransferred(id: string, rounds: nat, summary: string, env: Env)
    ensures forall i :: 0 <= i < |Life(rounds, summary, env)| ==> !Life(rounds, summary, env)[i].ReceiveHandoffStep?
  {
    if rounds > 0 {
      NothingTransferred(id, rounds - 1, summary, env);
    }
  }

  lemma LivedConserved(id: string, rounds: nat, summary: string, env: Env)
    ensures Conserved(Lived(id, rounds, summary, env))
  {
    NothingTransferred(id, rounds, summary, env);
    CommandsTransferNothing(id, Life(rounds, summary, env));
    var b := Lived(id, rounds, summary, env);
    assert b.lock.Some? ==> TransfersOf(b.handoffs, b.lock.value.lockId) == {};
  }

  ghost function HandoverSteps(b: Bundle, h: Handoff, actor: Actor, harness: string, now: int): seq<Step>
    requires b.task.latestImplementationRun.Some?
  {
    [ReceiveHandoffStep(HandingOver(h, b.task.latestImplementationRun.value)),
     ClaimStep(Ids.NextId("handoff", b.handoffs.Keys), actor, harness, None, now)]
  }

  /** What the handover leads to. */
  ghost function AfterHandover(b: Bundle, h: Handoff, actor: Actor, harness: string, now: int): Bundle
    requires b.task.latestImplementationRun.Some?
  {
    var received := ReceiveHandoff(b, HandingOver(h, b.task.latestImplementationRun.value)).bundle;
    ClaimHandoff(received, Ids.NextId("handoff", b.handoffs.Keys), actor, harness, None, now).bundle
  }

  lemma AfterTwo(b: Bundle, first: Step, second: Step)
    ensures After(b, [first, second]) == Apply(Apply(b, first).bundle, second).bundle
  {
    assert [first, second] == [first] + [second];
    AfterConcat(b, [first], [second]);
    AfterOne(b, first);
    AfterOne(Apply(b, first).bundle, second);
  }

  lemma HandoverApplied(b: Bundle, h: Handoff, id: string, actor: Actor, harness: string, now: int)
    ensures Apply(b, ReceiveHandoffStep(h)) == ReceiveHandoff(b, h)
    ensures Apply(b, ClaimStep(id, actor, harness, None, now)) == ClaimHandoff(b, id, actor, harness, None, now)
  {
  }

  lemma HandoverIs(b: Bundle, h: Handoff, actor: Actor, harness: string, now: int)
    requires b.task.latestImplementationRun.Some?
    ensures After(b, HandoverSteps(b, h, actor, harness, now)) == AfterHandover(b, h, actor, harness, now)
  {
    var handoff, id := HandingOver(h, b.task.latestImplementationRun.value), Ids.NextId("handoff", b.handoffs.Keys);
    AfterTwo(b, ReceiveHandoffStep(handoff), ClaimStep(id, actor, harness, None, now));
    HandoverApplied(b, handoff, id, actor, harness, now);
    HandoverApplied(ReceiveHandoff(b, handoff).bundle, handoff, id, actor, harness, now);
  }

  lemma HandoverConserves(b: Bundle, h: Handoff, actor: Actor, harness: string, now: int)
    requires b.task.latestImplementationRun.Some? && Good(b) && Conserved(b)
    ensures Good(AfterHandover(b, h, actor, harness, now)) && Conserved(AfterHandover(b, h, actor, harness, now))
  {
    var handoff := HandingOver(h, b.task.latestImplementationRun.value);
    ReceiveAdvances(b, handoff, ReceiveHandoff(b, handoff).bundle);
    ReceiveKeeps(b, handoff);
    var received := ReceiveHandoff(b, handoff).bundle;
    ClaimAdvances(received, Ids.NextId("handoff", b.handoffs.Keys), actor, harness, None, now,
                  AfterHandover(b, h, actor, harness, now));
    ClaimKeeps(received, Ids.NextId("handoff", b.handoffs.Keys), actor, harness, None, now);
  }

  lemma LivedHandedOver(
    id: string, rounds: nat, summary: string, env: Env, h: Handoff, actor: Actor, harness: string, b: Bundle)
    requires Text.Strip(summary) != "" && env.depsDone
    requires var lived := Lived(id, rounds, summary, env);
      lived.task.latestImplementationRun.Some? && b == AfterHandover(lived, h, actor, harness, env.now)
    ensures Good(b) && Conserved(b) && !b.task.archived && b.lock.Some? && b.lock.value.lockId == env.lockId
    ensures b.lock.value.stage == LockImplementing && b.lock.value.history != []
  {
    var lived := Lived(id, rounds, summary, env);
    LivedWorks(id, rounds, summary, env);
    AlwaysGood(id, Life(rounds, summary, env));
    LivedConserved(id, rounds, summary, env);
    HandoverConserves(lived, h, actor, harness, env.now);
    HandedOver(lived, h, actor, harness, env.now);
  }

  /**
   A received handoff is claimed, the work finished and validation started, all in the second in which the lock was
   taken: the new lock gets the old id, and one handoff names a lock whose history is empty.
   */
  lemma LockIdHandedOutAgain(
    id: string, rounds: nat, summary: string, env: Env, stamp: string, others: seq<string>, h: Handoff, actor: Actor,
    harness: string)
    requires Text.Strip(summary) != "" && env.depsDone && env.lockId == NextLockId(stamp, others)
    ensures var lived := Lived(id, rounds, summary, env);
      && lived.task.latestImplementationRun.Some?
      && var b := After(NewBundle(id), Life(rounds, summary, env) + HandoverSteps(lived, h, actor, harness, env.now));
         var finished := FinishImplementation(b, summary, true).bundle;
         var p := StartValidation(finished, true, env);
         && Conserved(b) && p.outcome == Ok && p.bundle.lock.Some? && p.bundle.lock.value.history == []
         && !Conserved(p.bundle)
  {
    var lived := Lived(id, rounds, summary, env);
    LivedWorks(id, rounds, summary, env);
    AfterConcat(NewBundle(id), Life(rounds, summary, env), HandoverSteps(lived, h, actor, harness, env.now));
    HandoverIs(lived, h, actor, harness, env.now);
    var b := AfterHandover(lived, h, actor, harness, env.now);
    LivedHandedOver(id, rounds, summary, env, h, actor, harness, b);
    SameSecondReuse(b, summary, stamp, others, env);
  }
}
