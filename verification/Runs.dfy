/** The guarantees of the lifecycle over whole runs: every sequence of commands, refused ones included. */
module Runs {
  import opened Common
  import opened Steps
  import opened Records
  import opened Protocol
  import opened Shapes
  import opened Agreement
  import opened Evidence
  import opened Lifecycle

  lemma {:induction false} AlwaysGood(id: string, steps: seq<Step>)
    ensures Good(After(NewBundle(id), steps))
  {
    if steps != [] {
      AlwaysGood(id, steps[..|steps| - 1]);
      StepAdvances(After(NewBundle(id), steps[..|steps| - 1]), steps[|steps| - 1]);
    }
  }

  // ---- `implementing` exactly while an implementation runs ----

  ghost predicate StageExact(b: Bundle) {
    b.task.stage == Implementing <==> HasRunningImplementation(b)
  }

  /** Cancelling does not end the run that is being worked on. */
  predicate Parks(b: Bundle, step: Step) {
    step.CancelStep? && b.task.stage == Implementing
  }

  predicate StartsWork(step: Step) {
    step.StartStep? || step.RestartStep? || step.ResumeStep? || step.StartPlanningStep? || step.StartValidationStep?
  }

  lemma StartingNeverCancels(b: Bundle, step: Step)
    requires StartsWork(step) && b.task.stage != Cancelled
    ensures Apply(b, step).bundle.task.stage != Cancelled
  {
  }

  lemma OnlyCancelCancels(b: Bundle, step: Step)
    requires !step.CancelStep? && b.task.stage != Cancelled
    ensures Apply(b, step).bundle.task.stage != Cancelled
  {
    if StartsWork(step) {
      StartingNeverCancels(b, step);
    }
  }

  lemma ExactUnlessParked(b: Bundle)
    requires Agrees(b)
    ensures StageExact(b) <==> !Parked(b)
  {
    ImplementingRuns(b);
  }

  lemma CancelParks(b: Bundle)
    requires Good(b) && b.task.stage == Implementing
    ensures Good(CancelTask(b).bundle) && Parked(CancelTask(b).bundle)
  {
    CancelAdvances(b, CancelTask(b).bundle);
    ImplementingRuns(b);
    LockShape(b, 0);
    MovesKeeps(b, CancelTask(b).bundle);
  }

  lemma ParkedByCancel(b: Bundle, step: Step, post: Bundle)
    requires post == Apply(b, step).bundle && Cancels(b, post) && Agrees(b) && StageExact(b) && !Parks(b, step)
    ensures !Parked(post)
  {
    MovesKeeps(b, post);
    if HasRunningImplementation(b) {
      OnlyCancelCancels(b, step);
    }
  }

  /** From an exact state, one command leads to an exact state unless it cancels an implementation under way. */
  lemma StepExactIff(b: Bundle, step: Step)
    requires Good(b) && StageExact(b)
    ensures StageExact(Apply(b, step).bundle) <==> !Parks(b, step)
  {
    var post := Apply(b, step).bundle;
    StepAdvances(b, step);
    ExactUnlessParked(b);
    ExactUnlessParked(post);
    if Parks(b, step) {
      CancelParks(b);
    } else if Cancels(b, post) && Parked(post) {
      ParkedByCancel(b, step, post);
    }
  }

  ghost function NotParked(b: Bundle): (seq<Step>, Step) -> bool {
    (steps, next) => !Parks(After(b, steps), next)
  }

  ghost function ExactAfter(b: Bundle): seq<Step> -> bool {
    steps => StageExact(After(b, steps))
  }

  ghost predicate NeverParks(b: Bundle, steps: seq<Step>) {
    AtEveryStep(steps, NotParked(b))
  }

  ghost predicate AlwaysExact(b: Bundle, steps: seq<Step>) {
    AtEveryPoint(steps, ExactAfter(b))
  }

  lemma {:induction false} ExactSoFar(id: string, steps: seq<Step>)
    ensures AlwaysExact(NewBundle(id), steps) <==> NeverParks(NewBundle(id), steps)
    ensures NeverParks(NewBundle(id), steps) ==> StageExact(After(NewBundle(id), steps))
  {
    if steps == [] {
      assert forall i :: 0 <= i <= |steps| ==> steps[..i] == [];
    } else {
      var before := steps[..|steps| - 1];
      ExactSoFar(id, before);
      StepsAppend(steps, NotParked(NewBundle(id)));
      PointsAppend(steps, ExactAfter(NewBundle(id)));
      if NeverParks(NewBundle(id), before) {
        AlwaysGood(id, before);
        StepExactIff(After(NewBundle(id), before), steps[|steps| - 1]);
      }
    }
  }

  /**
   Over every sequence of commands: the task is at every point `implementing` exactly when an implementation run is
   running, exactly if no command cancels an implementation under way. The running implementation is then the only
   running run and the task's latest, and a lock names it.
   */
  lemma ImplementingExactIff(id: string, steps: seq<Step>)
    ensures AlwaysExact(NewBundle(id), steps) <==> NeverParks(NewBundle(id), steps)
    ensures var b := After(NewBundle(id), steps);
      forall r :: RunsImplementation(b, r) ==>
        && b.task.latestImplementationRun == Some(r)
        && (forall s :: IsRunning(b, s) ==> s == r)
        && (b.lock.Some? ==> b.lock.value.runId == r && b.lock.value.stage == LockImplementing)
  {
    var b := After(NewBundle(id), steps);
    ExactSoFar(id, steps);
    AlwaysGood(id, steps);
    forall r | RunsImplementation(b, r)
      ensures b.lock.Some? ==> b.lock.value.runId == r && b.lock.value.stage == LockImplementing
    {
      OnlyRunning(b, r);
    }
  }

  // ---- evidence and resume links ----

  lemma IncreasingDistinct(prefix: string, ids: seq<string>)
    requires Increasing(prefix, ids)
    ensures NoDuplicates(ids)
  {
  }

  /**
   Over every run: the change log lists all changes once, in the order of their numbers; what a run
   refers to is the log restricted to that run's changes; and its checks likewise.
   */
  lemma EvidenceListed(id: string, steps: seq<Step>)
    ensures var b := After(NewBundle(id), steps);
      && Elements(b.task.changeLog) == b.changes.Keys
      && NoDuplicates(b.task.changeLog) && Increasing("change", b.task.changeLog)
      && (forall r :: r in b.runs ==> b.runs[r].changeRefs == Restrict(b.task.changeLog, ChangesOf(b, r)))
      && (forall c :: c in b.checks ==> b.checks[c].run in b.runs)
      && (forall r :: r in b.runs ==>
            && Elements(b.runs[r].checkRefs) == ChecksOf(b, r)
            && NoDuplicates(b.runs[r].checkRefs) && Increasing("check", b.runs[r].checkRefs))
  {
    var b := After(NewBundle(id), steps);
    AlwaysGood(id, steps);
    IncreasingDistinct("change", b.task.changeLog);
    forall r | r in b.runs
      ensures NoDuplicates(b.runs[r].checkRefs)
    {
      IncreasingDistinct("check", b.runs[r].checkRefs);
    }
  }

  /** Over every run: following resume links never meets a run twice and ends at a run that resumes none. */
  lemma ResumeChainEnds(id: string, steps: seq<Step>, r: string)
    requires r in After(NewBundle(id), steps).runs
    ensures var b := After(NewBundle(id), steps);
      && ResumesEarlier(b)
      && NoDuplicates(ResumeChain(b, r)) && |ResumeChain(b, r)| <= |b.runs|
      && (|ResumeChain(b, r)| > 1 ==>
            forall i :: 0 <= i < |ResumeChain(b, r)| ==> b.runs[ResumeChain(b, r)[i]].runType == ImplementationRun)
  {
    var b := After(NewBundle(id), steps);
    AlwaysGood(id, steps);
    var chain := ResumeChain(b, r);
    assert Elements(chain) <= b.runs.Keys;
    DistinctWithin(chain, b.runs.Keys);
    forall i | 0 <= i < |chain| && |chain| > 1
      ensures b.runs[chain[i]].runType == ImplementationRun
    {
      if i > 0 {
        assert b.runs[chain[i - 1]].resumes == Some(chain[i]);
      } else {
        assert b.runs[chain[0]].resumes == Some(chain[1]);
      }
    }
  }
}
