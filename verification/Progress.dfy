/** What the commands can achieve: every round of a task can be carried through, however often its validation fails. */
module Progress {
  import opened Common
  import opened Records
  import opened Policies
  import opened Protocol
  import opened Shapes
  import opened Evidence
  import opened Lifecycle
  import opened Runs
  import opened History

  /** Nothing is under way. */
  ghost predicate Idle(b: Bundle, stage: Stage) {
    b.task.stage == stage && b.lock == None && !HasRunning(b) && !b.task.archived
  }

  /** One run of this kind, and no other run, is under way, under its lock. */
  ghost predicate UnderWay(b: Bundle, kind: LockStage, r: string) {
    && !b.task.archived && b.lock.Some? && b.lock.value.stage == kind && b.lock.value.runId == r
    && r in b.runs && b.runs[r].runId == r && b.runs[r].runType == ExpectedRunType(kind) && b.runs[r].status == Running
    && (forall s :: s in b.runs && b.runs[s].status == Running ==> s == r)
  }

  /** An implementation of an accepted plan is under way. */
  ghost predicate Working(b: Bundle) {
    && HasAcceptedPlan(b) && b.task.stage == Implementing
    && Truthy(b.task.latestImplementationRun) && UnderWay(b, LockImplementing, b.task.latestImplementationRun.value)
  }

  /** The lock is as it was taken: nobody has handed it over. */
  ghost predicate TakenAs(b: Bundle, env: Env) {
    && b.lock.Some? && b.lock.value.lockId == env.lockId && b.lock.value.history == []
    && b.lock.value.expiresAt == Some(env.now + LEASE_SECONDS)
  }

  lemma Begun(b: Bundle, kind: LockStage, run: Run, env: Env)
    requires b.lock == None && !HasRunning(b) && !b.task.archived
    requires run.runId == Ids.NextId("run", b.runs.Keys) && run.runType == ExpectedRunType(kind)
        && run.status == Running
    ensures var p := BeginRun(b, kind, run, env);
      && p.outcome == Ok && UnderWay(p.bundle, kind, run.runId)
      && p.bundle == b.(runs := b.runs[run.runId := run], task := BegunTask(b.task, kind, run.runId),
                        lock := Some(NewLock(b.task.id, kind, run.runId, StartReason(kind), env)))
  {
    BeginShape(b, kind, run, env);
  }

  lemma NoneLeftRunning(b: Bundle, kind: LockStage, run: Run, post: Bundle)
    requires UnderWay(b, kind, run.runId) && run.status != Running && post.runs == b.runs[run.runId := run]
    ensures !HasRunning(post)
  {
  }

  // ---- planning ----

  lemma PlanningStarts(b: Bundle, env: Env)
    requires Idle(b, Draft)
    ensures var p := StartPlanning(b, env);
      && p.outcome == Ok && p.bundle.plans == b.plans && p.bundle.task.stage == Draft
      && p.bundle.task.latestPlanningRun.Some?
         && UnderWay(p.bundle, LockPlanning, p.bundle.task.latestPlanningRun.value)
      && !p.bundle.lock.value.Expired(env.now)
  {
    Begun(b, LockPlanning, FreshRun(b, PlanningRun, env), env);
  }

  lemma ProposalEnds(b: Bundle, input: PlanInput, now: int)
    requires b.task.stage == Draft && b.task.latestPlanningRun.Some? && b.plans == map[]
    requires UnderWay(b, LockPlanning, b.task.latestPlanningRun.value) && !b.lock.value.Expired(now) && input.Parsed?
    ensures var p := ProposePlan(b, input, now);
      p.outcome == Ok && Idle(p.bundle, PlanReview) && p.bundle.plans == map[1 := Proposed]
  {
    var r := b.runs[b.lock.value.runId];
    assert PlanProposeDecision(b.task, b.lock, Some(r)).allowed by {
      MutationDecisionsExact(b.task, b.lock, Some(r));
    }
    var ended := r.(status := Finished, summary := input.summary);
    NoneLeftRunning(b, LockPlanning, ended, ProposePlan(b, input, now).bundle);
  }

  lemma ApprovalAccepts(b: Bundle, version: nat)
    requires Idle(b, PlanReview) && version in b.plans && b.plans[version] == Proposed
    ensures var p := ApprovePlan(b, version, true);
      p.outcome == Ok && Idle(p.bundle, Approved) && HasAcceptedPlan(p.bundle)
  {
  }

  // ---- implementing and validating ----

  lemma ImplementationStarts(b: Bundle, env: Env)
    requires Idle(b, Approved) && HasAcceptedPlan(b) && env.depsDone
    ensures var p := StartImplementation(b, env);
      && p.outcome == Ok && Working(p.bundle) && TakenAs(p.bundle, env)
      && p.bundle.runs[p.bundle.task.latestImplementationRun.value].resumes == None
  {
    Begun(b, LockImplementing, FreshRun(b, ImplementationRun, env), env);
  }

  /** The latest implementation is finished, or was before it failed validation. */
  ghost predicate Implements(b: Bundle, r: string) {
    && HasAcceptedPlan(b) && b.task.latestImplementationRun == Some(r)
    && r in b.runs && b.runs[r].runId == r && b.runs[r].runType == ImplementationRun && b.runs[r].status == Finished
  }

  lemma WorkFinishes(b: Bundle, summary: string)
    requires Working(b)
    ensures var p := FinishImplementation(b, summary, true);
      && p.outcome == Ok && Idle(p.bundle, Implemented) && Implements(p.bundle, b.task.latestImplementationRun.value)
  {
    var r := b.runs[b.lock.value.runId];
    NoneLeftRunning(b, LockImplementing, r.(status := Finished, summary := Some(Text.Strip(summary))),
                    FinishImplementation(b, summary, true).bundle);
  }

  lemma ValidationStarts(b: Bundle, r: string, env: Env)
    requires Idle(b, Implemented) && Implements(b, r)
    ensures var p := StartValidation(b, true, env);
      && p.outcome == Ok && Implements(p.bundle, r)
      && p.bundle.task.latestValidationRun.Some? && p.bundle.task.latestValidationRun.value != r
      && UnderWay(p.bundle, LockValidating, p.bundle.task.latestValidationRun.value)
  {
    Begun(b, LockValidating, ValidationStarted(b, env), env);
    Ids.NextIdFresh("run", b.runs.Keys);
  }

  lemma VerdictEnds(b: Bundle, r: string, verdict: Verdict, summary: string)
    requires Implements(b, r) && b.task.latestValidationRun.Some? && b.task.latestValidationRun.value != r
    requires UnderWay(b, LockValidating, b.task.latestValidationRun.value)
    ensures var p := FinishValidation(b, verdict, true, summary);
      && p.outcome == Ok && Idle(p.bundle, VerdictStage(verdict)) && Implements(p.bundle, r)
      && (verdict != VerdictPassed ==> LatestIsFailedValidation(p.bundle))
  {
    var run := b.runs[b.lock.value.runId];
    NoneLeftRunning(b, LockValidating,
                    run.(status := VerdictStatus(verdict), result := Some(verdict),
                         summary := Some(Text.Strip(summary))),
                    FinishValidation(b, verdict, true, summary).bundle);
  }

  lemma RestartAllowed(b: Bundle, r: string, summary: string, env: Env)
    requires Idle(b, FailedValidation) && Implements(b, r) && LatestIsFailedValidation(b)
    requires Text.Strip(summary) != "" && env.depsDone
    ensures RestartRefusal(b, summary, env) == None && RestartedRun(b, summary, env).resumes == Some(r)
  {
  }

  lemma RestartLinks(b: Bundle, r: string, summary: string, env: Env)
    requires Idle(b, FailedValidation) && Implements(b, r) && LatestIsFailedValidation(b)
    requires Text.Strip(summary) != "" && env.depsDone
    ensures var p := RestartImplementation(b, summary, env);
      && p.outcome == Ok && Working(p.bundle) && TakenAs(p.bundle, env)
      && p.bundle.runs[p.bundle.task.latestImplementationRun.value].resumes == Some(r)
  {
    RestartAllowed(b, r, summary, env);
    Begun(b, LockImplementing, RestartedRun(b, summary, env), env);
  }

  // ---- whole lives ----

  lemma {:induction false} AfterConcat(b: Bundle, first: seq<Step>, second: seq<Step>)
    ensures After(b, first + second) == After(After(b, first), second)
  {
    if second == [] {
      assert first + second == first;
    } else {
      AfterConcat(b, first, second[..|second| - 1]);
      assert (first + second)[..|first + second| - 1] == first + second[..|second| - 1];
    }
  }

  lemma AfterOne(b: Bundle, step: Step)
    ensures After(b, [step]) == Apply(b, step).bundle
  {
    assert [step][..0] == [];
  }

  lemma AfterThree(b: Bundle, s: Step, t: Step, u: Step)
    ensures After(b, [s, t, u]) == Apply(Apply(Apply(b, s).bundle, t).bundle, u).bundle
  {
    assert [s, t, u] == [s] + [t] + [u];
    AfterConcat(b, [s] + [t], [u]);
    AfterConcat(b, [s], [t]);
    AfterOne(b, s);
    AfterOne(Apply(b, s).bundle, t);
    AfterOne(Apply(Apply(b, s).bundle, t).bundle, u);
  }

  const PLAN := Parsed(None)

  function Planned(env: Env): seq<Step> {
    [StartPlanningStep(env), ProposeStep(PLAN, env.now), ApproveStep(1, true)]
  }

  function Judged(verdict: Verdict, summary: string, env: Env): seq<Step> {
    [FinishStep(summary, true), StartValidationStep(true, env), FinishValidationStep(verdict, true, summary)]
  }

  lemma PlanningApplied(b: Bundle, env: Env, input: PlanInput, now: int, version: nat)
    ensures Apply(b, StartPlanningStep(env)) == StartPlanning(b, env)
    ensures Apply(b, ProposeStep(input, now)) == ProposePlan(b, input, now)
    ensures Apply(b, ApproveStep(version, true)) == ApprovePlan(b, version, true)
  {
  }

  lemma PlannedIs(b: Bundle, env: Env)
    ensures After(b, Planned(env))
        == ApprovePlan(ProposePlan(StartPlanning(b, env).bundle, PLAN, env.now).bundle, 1, true).bundle
  {
    AfterThree(b, StartPlanningStep(env), ProposeStep(PLAN, env.now), ApproveStep(1, true));
    PlanningApplied(b, env, PLAN, env.now, 1);
    PlanningApplied(StartPlanning(b, env).bundle, env, PLAN, env.now, 1);
    PlanningApplied(ProposePlan(StartPlanning(b, env).bundle, PLAN, env.now).bundle, env, PLAN, env.now, 1);
  }

  lemma JudgingApplied(b: Bundle, verdict: Verdict, summary: string, env: Env)
    ensures Apply(b, FinishStep(summary, true)) == FinishImplementation(b, summary, true)
    ensures Apply(b, StartValidationStep(true, env)) == StartValidation(b, true, env)
    ensures Apply(b, FinishValidationStep(verdict, true, summary)) == FinishValidation(b, verdict, true, summary)
  {
  }

  lemma JudgedIs(b: Bundle, verdict: Verdict, summary: string, env: Env)
    ensures After(b, Judged(verdict, summary, env))
            == FinishValidation(StartValidation(FinishImplementation(b, summary, true).bundle, true, env).bundle,
                                verdict, true, summary).bundle
  {
    AfterThree(b, FinishStep(summary, true), StartValidationStep(true, env),
               FinishValidationStep(verdict, true, summary));
    var finished := FinishImplementation(b, summary, true).bundle;
    JudgingApplied(b, verdict, summary, env);
    JudgingApplied(finished, verdict, summary, env);
    JudgingApplied(StartValidation(finished, true, env).bundle, verdict, summary, env);
  }

  lemma PlanGoesThrough(b: Bundle, input: PlanInput, now: int)
    requires b.task.stage == Draft && b.task.latestPlanningRun.Some? && b.plans == map[]
    requires UnderWay(b, LockPlanning, b.task.latestPlanningRun.value) && !b.lock.value.Expired(now) && input.Parsed?
    ensures var post := ApprovePlan(ProposePlan(b, input, now).bundle, 1, true).bundle;
      Idle(post, Approved) && HasAcceptedPlan(post)
  {
    ProposalEnds(b, input, now);
    ApprovalAccepts(ProposePlan(b, input, now).bundle, 1);
  }

  /** From a finished implementation through its validation. */
  lemma ValidationGoesThrough(b: Bundle, r: string, verdict: Verdict, summary: string, env: Env)
    requires Idle(b, Implemented) && Implements(b, r)
    ensures var post := FinishValidation(StartValidation(b, true, env).bundle, verdict, true, summary).bundle;
      && Idle(post, VerdictStage(verdict)) && Implements(post, r)
      && (verdict != VerdictPassed ==> LatestIsFailedValidation(post))
  {
    ValidationStarts(b, r, env);
    VerdictEnds(StartValidation(b, true, env).bundle, r, verdict, summary);
  }

  lemma PlanIsAccepted(id: string, env: Env)
    ensures var b := After(NewBundle(id), Planned(env)); Idle(b, Approved) && HasAcceptedPlan(b)
  {
    PlannedIs(NewBundle(id), env);
    PlanningStarts(NewBundle(id), env);
    PlanGoesThrough(StartPlanning(NewBundle(id), env).bundle, PLAN, env.now);
  }

  lemma WorkIsJudged(b: Bundle, verdict: Verdict, summary: string, env: Env)
    requires Working(b)
    ensures var post := After(b, Judged(verdict, summary, env));
      && Idle(post, VerdictStage(verdict)) && Implements(post, b.task.latestImplementationRun.value)
      && (verdict != VerdictPassed ==> LatestIsFailedValidation(post))
  {
    JudgedIs(b, verdict, summary, env);
    WorkFinishes(b, summary);
    ValidationGoesThrough(FinishImplementation(b, summary, true).bundle, b.task.latestImplementationRun.value,
                          verdict, summary, env);
  }

  function Round(summary: string, env: Env): seq<Step> {
    Judged(VerdictFailed, summary, env) + [RestartStep(summary, env)]
  }

  lemma RoundRestarts(b: Bundle, summary: string, env: Env)
    requires Working(b) && Text.Strip(summary) != "" && env.depsDone
    ensures var post := After(b, Round(summary, env));
      Working(post) && TakenAs(post, env)
          && post.runs[post.task.latestImplementationRun.value].resumes == b.task.latestImplementationRun
  {
    var judged := After(b, Judged(VerdictFailed, summary, env));
    WorkIsJudged(b, VerdictFailed, summary, env);
    RestartLinks(judged, b.task.latestImplementationRun.value, summary, env);
    AfterConcat(b, Judged(VerdictFailed, summary, env), [RestartStep(summary, env)]);
    AfterOne(judged, RestartStep(summary, env));
  }

  /** What a run resumes is never altered, so neither is the chain behind it. */
  lemma {:induction false} ChainKept(b: Bundle, later: Bundle, r: string)
    requires ResumesEarlier(b) && ResumesEarlier(later) && RunsContinue(b, later) && r in b.runs
    ensures r in later.runs && ResumeChain(later, r) == ResumeChain(b, r)
    decreases Ids.NumberOf("run", r)
  {
    assert Continues(b.runs[r], later.runs[r]);
    if b.runs[r].resumes.Some? {
      ChainKept(b, later, b.runs[r].resumes.value);
    }
  }

  /** The links of a good state, and that they stay over any commands. */
  lemma LinksStay(b: Bundle, steps: seq<Step>)
    requires Good(b)
    ensures ResumesEarlier(b) && ResumesEarlier(After(b, steps)) && RunsContinue(b, After(b, steps))
  {
    NothingLost(b, steps);
  }

  ghost predicate Restarted(b: Bundle, rounds: nat, env: Env) {
    Working(b) && TakenAs(b, env) && ResumesEarlier(b)
        && |ResumeChain(b, b.task.latestImplementationRun.value)| == rounds + 1
  }

  lemma RoundCounts(b: Bundle, rounds: nat, summary: string, env: Env)
    requires Restarted(b, rounds, env) && Text.Strip(summary) != "" && env.depsDone
    requires ResumesEarlier(After(b, Round(summary, env))) && RunsContinue(b, After(b, Round(summary, env)))
    ensures Restarted(After(b, Round(summary, env)), rounds + 1, env)
  {
    RoundRestarts(b, summary, env);
    ChainKept(b, After(b, Round(summary, env)), b.task.latestImplementationRun.value);
  }

  lemma FirstRound(id: string, env: Env)
    requires env.depsDone
    ensures var b := After(NewBundle(id), Planned(env) + [StartStep(env)]); ResumesEarlier(b) ==> Restarted(b, 0, env)
  {
    var planned := After(NewBundle(id), Planned(env));
    PlanIsAccepted(id, env);
    ImplementationStarts(planned, env);
    AfterConcat(NewBundle(id), Planned(env), [StartStep(env)]);
    AfterOne(planned, StartStep(env));
  }

  /** Planning, a first implementation, and one restart for each failed validation. */
  function Life(rounds: nat, summary: string, env: Env): seq<Step> {
    if rounds == 0 then Planned(env) + [StartStep(env)] else Life(rounds - 1, summary, env) + Round(summary, env)
  }

  lemma {:induction false} LifeGoesOn(id: string, rounds: nat, summary: string, env: Env)
    requires Text.Strip(summary) != "" && env.depsDone
    ensures Restarted(After(NewBundle(id), Life(rounds, summary, env)), rounds, env)
  {
    if rounds == 0 {
      FirstRound(id, env);
      assert ResumesEarlier(After(NewBundle(id), Life(0, summary, env))) by {
        AlwaysGood(id, Life(0, summary, env));
      }
    } else {
      var before := Life(rounds - 1, summary, env);
      var b := After(NewBundle(id), before);
      LifeGoesOn(id, rounds - 1, summary, env);
      assert ResumesEarlier(After(b, Round(summary, env))) && RunsContinue(b, After(b, Round(summary, env))) by {
        AlwaysGood(id, before);
        LinksStay(b, Round(summary, env));
      }
      RoundCounts(b, rounds - 1, summary, env);
      AfterConcat(NewBundle(id), before, Round(summary, env));
    }
  }

  /**
   For every number of failed validations a new task has a life in which it is restarted that often: the chain of
   resumed runs then has one run more, and a passing verdict completes the task, with nothing left under way.
   */
  lemma LifeCompletes(id: string, rounds: nat, summary: string, env: Env)
    requires Text.Strip(summary) != "" && env.depsDone
    ensures Restarted(After(NewBundle(id), Life(rounds, summary, env)), rounds, env)
    ensures Idle(After(NewBundle(id), Life(rounds, summary, env) + Judged(VerdictPassed, summary, env)), Done)
  {
    LifeGoesOn(id, rounds, summary, env);
    WorkIsJudged(After(NewBundle(id), Life(rounds, summary, env)), VerdictPassed, summary, env);
    AfterConcat(NewBundle(id), Life(rounds, summary, env), Judged(VerdictPassed, summary, env));
  }
}
