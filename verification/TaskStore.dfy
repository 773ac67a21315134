/**
 The commands in the form they have: each reads the stored records of a task and writes the
 replaced ones back, one after the other. Each is proved to leave behind, and to report, what the
 lifecycle says, so everything proved of the lifecycle holds of the stored records.
 */
module TaskStore {
  import opened Common
  import opened Records
  import opened Policies
  import Protocol
  import Ids
  import Text

  class TaskDirectory {
    var task: Task
    var runs: map<string, Run>
    var plans: map<nat, PlanStatus>
    var changes: map<string, Change>
    var checks: map<string, Check>
    var handoffs: map<string, Handoff>
    var lock: Option<Lock>
    var brokenLocks: map<int, Lock>

    constructor (id: string)
      ensures Contents() == NewBundle(id)
    {
      task := NewBundle(id).task;
      runs, plans, changes, checks, handoffs := map[], map[], map[], map[], map[];
      lock, brokenLocks := None, map[];
    }

    /** Everything stored, as one value. */
    function Contents(): Bundle
      reads this
    {
      Bundle(task, runs, plans, changes, checks, handoffs, lock, brokenLocks)
    }

    // ---- reading ----

    method RunningRuns() returns (running: seq<Run>)
      ensures running == [] <==> !Protocol.HasRunning(Contents())
      ensures forall r :: r in running ==> r.status == Running && r in runs.Values
    {
      running := [];
      var rest := runs.Keys;
      while rest != {}
        invariant rest <= runs.Keys
        invariant running == [] <==> forall r :: r in runs && r !in rest ==> runs[r].status != Running
        invariant forall r :: r in running ==> r.status == Running && r in runs.Values
        decreases rest
      {
        var id :| id in rest;
        rest := rest - {id};
        if runs[id].status == Running {
          running := running + [runs[id]];
        }
      }
    }

    // ---- checks, made in order ----

    method RequireRun(runId: Option<string>) returns (r: Result<Run, Error>)
      ensures r.Success? <==> runId.Some? && runId.value in runs
      ensures r.Success? ==> r.value == runs[runId.value]
      ensures r.Failure? ==> r.error == Missing
    {
      if runId == None {
        return Failure(Missing);
      }
      if runId.value !in runs {
        return Failure(Missing);
      }
      return Success(runs[runId.value]);
    }

    method RequireRunningRun(runId: Option<string>, expected: RunType) returns (r: Result<Run, Error>)
      ensures r == Protocol.RequireRunning(Contents(), runId, expected)
    {
      r := RequireRun(runId);
      if r.Failure? {
        return;
      }
      if r.value.runType != expected {
        return Failure(InvalidTransition);
      }
      if r.value.status != Running {
        return Failure(InvalidTransition);
      }
    }

    /** The latest validation, if it ended in a failed or blocked verdict. */
    method FailedValidationRun() returns (r: Result<Run, Error>)
      ensures r == if task.latestValidationRun == None then Failure(InvalidTransition)
                   else if Protocol.FindRun(Contents(), task.latestValidationRun).Failure? then Failure(Missing)
                   else if !Protocol.LatestIsFailedValidation(Contents()) then Failure(InvalidTransition)
                   else Success(runs[task.latestValidationRun.value])
    {
      if task.latestValidationRun == None {
        return Failure(InvalidTransition);
      }
      r := RequireRun(task.latestValidationRun);
      if r.Failure? {
        return;
      }
      if r.value.runType != ValidationRun || (r.value.status != Failed && r.value.status != Blocked) {
        return Failure(InvalidTransition);
      }
      if r.value.result != Some(VerdictFailed) && r.value.result != Some(VerdictBlocked) {
        return Failure(InvalidTransition);
      }
    }

    method PreviousImplementation() returns (r: Result<Run, Error>)
      ensures r == if task.latestImplementationRun == None then Failure(InvalidTransition)
                   else if Protocol.FindRun(Contents(), task.latestImplementationRun).Failure? then Failure(Missing)
                   else if runs[task.latestImplementationRun.value].runType != ImplementationRun
                   then Failure(InvalidTransition)
                   else Success(runs[task.latestImplementationRun.value])
    {
      if task.latestImplementationRun == None {
        return Failure(InvalidTransition);
      }
      r := RequireRun(task.latestImplementationRun);
      if r.Failure? {
        return;
      }
      if r.value.runType != ImplementationRun {
        return Failure(InvalidTransition);
      }
    }

    method AcceptedPlanStored() returns (stored: bool)
      ensures stored == Protocol.HasAcceptedPlan(Contents())
    {
      if task.acceptedPlan == None {
        return false;
      }
      if task.acceptedPlan.value !in plans {
        return false;
      }
      return plans[task.acceptedPlan.value] == Accepted;
    }

    /** The run that work is recorded on: the latest implementation, if it runs and the lock is for it. */
    method MutableImplementationRun(now: int) returns (r: Result<Run, Error>)
      ensures r == Protocol.MutableImplementation(Contents(), now)
      ensures r.Success? ==>
                && Some(r.value) == (if task.latestImplementationRun.value in runs
                                     then Some(runs[task.latestImplementationRun.value]) else None)
                && lock.Some? && !lock.value.Expired(now) && lock.value.runId == r.value.runId
    {
      if task.archived {
        return Failure(ArchivedTask);
      }
      r := RequireRunningRun(task.latestImplementationRun, ImplementationRun);
      if r.Failure? {
        return;
      }
      if lock.Some? && lock.value.Expired(now) {
        return Failure(StaleLock);
      }
      if task.stage !in IMPLEMENTATION_STAGES {
        return Failure(InvalidTransition);
      }
      var active := DeriveActiveStage(lock, [r.value]);
      if active != Some(ImplementationRun) {
        return Failure(InvalidTransition);
      }
    }

    // ---- runs and locks ----

    method SaveRun(run: Run)
      modifies this
      ensures Contents() == Protocol.SaveRun(old(Contents()), run)
    {
      runs := runs[run.runId := run];
    }

    /** The same run may ask twice; a lock of another run, or an expired one, stands in the way. */
    method AcquireLock(stage: LockStage, runId: string, reason: string, env: Protocol.Env) returns (outcome: Outcome)
      modifies this
      ensures old(lock) == None ==>
                outcome == Ok
                && Contents() == old(Contents()).(lock := Some(Protocol.NewLock(task.id, stage, runId, reason, env)))
      ensures old(lock).Some? ==>
                Contents() == old(Contents())
                && (outcome == Ok <==> old(lock).value.runId == runId && !old(lock).value.Expired(env.now))
    {
      if lock.Some? {
        if lock.value.Expired(env.now) {
          return Refused(StaleLock);
        }
        if lock.value.runId == runId {
          return Ok;
        }
        return Refused(LockConflict);
      }
      var expires := env.now + Protocol.LEASE_SECONDS;
      lock := Some(Lock(env.lockId, task.id, stage, runId, env.now, Some(expires), reason, env.actor, Some(env.actor),
                        env.harness, [], None));
      return Ok;
    }

    method StartRun(stage: LockStage, env: Protocol.Env) returns (run: Run, outcome: Outcome)
      modifies this
      ensures Protocol.Post(Contents(), outcome) == Protocol.StartRun(old(Contents()), stage, env)
      ensures run == Protocol.FreshRun(old(Contents()), ExpectedRunType(stage), env)
    {
      var runId := Ids.NextProjectId("run", runs.Keys);
      run := Run(runId, task.id, ExpectedRunType(stage), Running, env.actor, Protocol.PlanBasis(task),
                 None, None, None, None, [], [], [], [], []);
      if lock.Some? {
        outcome := Refused(if lock.value.Expired(env.now) then StaleLock else LockConflict);
        return;
      }
      var running := RunningRuns();
      if running != [] {
        outcome := Refused(RunningRunConflict);
        return;
      }
      SaveRun(run);
      outcome := AcquireLock(stage, run.runId, Protocol.StartReason(stage), env);
    }

    method ReleaseLock(stage: LockStage, runId: string) returns (outcome: Outcome)
      modifies this
      ensures Protocol.Post(Contents(), outcome) == Protocol.ReleaseLock(old(Contents()), stage, runId)
    {
      if lock == None {
        return Refused(LockConflict);
      }
      if lock.value.stage != stage || lock.value.runId != runId {
        return Refused(LockConflict);
      }
      lock := None;
      return Ok;
    }

    /** An expired lock is kept among the broken ones before it is removed. */
    method ReleaseExpiredLock(expired: Lock, now: int)
      requires lock == Some(expired)
      modifies this
      ensures Contents() == Protocol.DropLock(old(Contents()), now)
    {
      brokenLocks := brokenLocks[now := expired];
      lock := None;
    }

    // ---- implementation ----

    method StartImplementation(env: Protocol.Env) returns (outcome: Outcome)
      modifies this
      ensures Protocol.Post(Contents(), outcome) == Protocol.StartImplementation(old(Contents()), env)
    {
      if task.archived {
        return Refused(ArchivedTask);
      }
      if task.stage != Approved && task.stage != FailedValidation {
        return Refused(InvalidTransition);
      }
      var planned := AcceptedPlanStored();
      if !planned {
        return Refused(ApprovalRequired);
      }
      if !env.depsDone {
        return Refused(DependencyBlocked);
      }
      var run;
      run, outcome := StartRun(LockImplementing, env);
      if outcome == Ok {
        assert runs[run.runId := run] == runs;
        task := task.(latestImplementationRun := Some(run.runId), stage := Implementing);
      }
    }

    method RestartImplementation(summary: string, env: Protocol.Env) returns (outcome: Outcome)
      modifies this
      ensures Protocol.Post(Contents(), outcome) == Protocol.RestartImplementation(old(Contents()), summary, env)
    {
      if task.archived {
        return Refused(ArchivedTask);
      }
      if task.stage != FailedValidation {
        return Refused(InvalidTransition);
      }
      var planned := AcceptedPlanStored();
      if !planned {
        return Refused(ApprovalRequired);
      }
      var validated := FailedValidationRun();
      if validated.Failure? {
        return Refused(validated.error);
      }
      var implemented := PreviousImplementation();
      if implemented.Failure? {
        return Refused(implemented.error);
      }
      var validation, previous := validated.value, implemented.value;
      if Text.Strip(summary) == "" {
        return Refused(BadInput);
      }
      if !env.depsDone {
        return Refused(DependencyBlocked);
      }
      var entries := Protocol.RestartLog(Text.Strip(summary), validation);
      var run;
      run, outcome := StartRun(LockImplementing, env);
      if outcome == Ok {
        assert entries + run.worklog == entries;
        var restarted := run.(resumes := Some(previous.runId), worklog := entries + run.worklog);
        assert restarted == Protocol.RestartedRun(old(Contents()), summary, env);
        SaveRun(restarted);
        task := task.(latestImplementationRun := Some(restarted.runId), stage := Implementing);
      }
    }

    method ResumeImplementation(runId: Option<string>, reason: string, repair: bool, env: Protocol.Env)
      returns (outcome: Outcome)
      modifies this
      ensures Protocol.Post(Contents(), outcome)
              == Protocol.ResumeImplementation(old(Contents()), runId, reason, repair, env)
    {
      if task.archived {
        return Refused(ArchivedTask);
      }
      if Text.Strip(reason) == "" {
        return Refused(BadInput);
      }
      if task.stage != Approved && task.stage != Implementing {
        return Refused(InvalidTransition);
      }
      var planned := AcceptedPlanStored();
      if !planned {
        return Refused(ApprovalRequired);
      }
      var found := RequireRunningRun(if Truthy(runId) then runId else task.latestImplementationRun, ImplementationRun);
      if found.Failure? {
        return Refused(found.error);
      }
      var run := found.value;
      if lock.Some? {
        if repair && lock.value.Expired(env.now) {
          if lock.value.runId != run.runId || lock.value.stage != LockImplementing {
            return Refused(LockConflict);
          }
          ReleaseExpiredLock(lock.value, env.now);
        } else if lock.value.Expired(env.now) {
          return Refused(StaleLock);
        } else {
          return Refused(LockConflict);
        }
      }
      if !env.depsDone {
        return Refused(DependencyBlocked);
      }
      outcome := AcquireLock(LockImplementing, run.runId, Text.Strip(reason), env);
      task := task.(latestImplementationRun := Some(run.runId), stage := Implementing);
    }

    method LogImplementation(message: string, now: int) returns (outcome: Outcome)
      modifies this
      ensures Protocol.Post(Contents(), outcome) == Protocol.LogImplementation(old(Contents()), message, now)
    {
      var run := MutableImplementationRun(now);
      if run.Failure? {
        return Refused(run.error);
      }
      SaveRun(run.value.(worklog := run.value.worklog + [Text.Strip(message)]));
      return Ok;
    }

    method AddDeviation(message: string, now: int) returns (outcome: Outcome)
      modifies this
      ensures Protocol.Post(Contents(), outcome) == Protocol.AddDeviation(old(Contents()), message, now)
    {
      var run := MutableImplementationRun(now);
      if run.Failure? {
        return Refused(run.error);
      }
      SaveRun(run.value.(deviations := run.value.deviations + [Text.Strip(message)]));
      return Ok;
    }

    method AddArtifact(path: string, summary: string, now: int) returns (outcome: Outcome)
      modifies this
      ensures Protocol.Post(Contents(), outcome) == Protocol.AddArtifact(old(Contents()), path, summary, now)
    {
      var run := MutableImplementationRun(now);
      if run.Failure? {
        return Refused(run.error);
      }
      SaveRun(run.value.(artifactRefs := run.value.artifactRefs + [path + ": " + Text.Strip(summary)]));
      return Ok;
    }

    method AddChange(
      kind: string, path: string, summary: string, artifacts: seq<string>, now: int) returns (outcome: Outcome)
      modifies this
      ensures Protocol.Post(Contents(), outcome)
              == Protocol.AddChange(old(Contents()), kind, path, summary, artifacts, now)
    {
      var run := MutableImplementationRun(now);
      if run.Failure? {
        return Refused(run.error);
      }
      var id := Ids.NextProjectId("change", changes.Keys);
      changes := changes[id := Change(id, task.id, run.value.runId, kind, path, Text.Strip(summary))];
      SaveRun(run.value.(changeRefs := run.value.changeRefs + [id],
          artifactRefs := run.value.artifactRefs + artifacts));
      task := task.(changeLog := task.changeLog + [id]);
      return Ok;
    }

    method AddCheck(command: string, exitCode: Option<int>, artifacts: seq<string>, now: int) returns (outcome: Outcome)
      modifies this
      ensures Protocol.Post(Contents(), outcome)
          == Protocol.AddCheck(old(Contents()), command, exitCode, artifacts, now)
    {
      var run := MutableImplementationRun(now);
      if run.Failure? {
        return Refused(run.error);
      }
      var id := Ids.NextProjectId("check", checks.Keys);
      checks := checks[id := Check(id, task.id, run.value.runId, command, exitCode, Protocol.StatusOfExit(exitCode))];
      SaveRun(run.value.(checkRefs := run.value.checkRefs + [id], artifactRefs := run.value.artifactRefs + artifacts));
      return Ok;
    }

    method FinishImplementation(summary: string, todosDone: bool) returns (outcome: Outcome)
      modifies this
      ensures Protocol.Post(Contents(), outcome) == Protocol.FinishImplementation(old(Contents()), summary, todosDone)
    {
      if task.archived {
        return Refused(ArchivedTask);
      }
      var run := RequireRunningRun(task.latestImplementationRun, ImplementationRun);
      if run.Failure? {
        return Refused(run.error);
      }
      if !todosDone {
        return Refused(TodosIncomplete);
      }
      SaveRun(run.value.(status := Finished, summary := Some(Text.Strip(summary))));
      task := task.(stage := Implemented);
      outcome := ReleaseLock(LockImplementing, run.value.runId);
    }

    // ---- handoffs ----

    method TransferLock(lockId: string, to: Actor, harness: string, now: int) returns (outcome: Outcome)
      modifies this
      ensures outcome == Ok <==> old(lock).Some? && old(lock).value.lockId == lockId
      ensures outcome == Ok ==>
        Contents() == old(Contents()).(lock := Some(Protocol.TransferLock(old(lock).value, to, harness, now)))
      ensures outcome != Ok ==> Contents() == old(Contents())
    {
      if lock == None {
        return Refused(Missing);
      }
      if lock.value.lockId != lockId {
        return Refused(LockConflict);
      }
      var entry := TransferEntry(lockId, lock.value.holder.Tag(), to.Tag());
      lock := Some(lock.value.(holder := to, actor := Some(to), harness := Some(harness),
                               history := lock.value.history + [entry], transferDate := Some(now)));
      return Ok;
    }

    method StampRelease(lockId: string, now: int) returns (outcome: Outcome)
      modifies this
      ensures outcome == Ok <==> old(lock).Some? && old(lock).value.lockId == lockId
      ensures outcome == Ok ==>
          Contents() == old(Contents()).(lock := Some(Protocol.StampRelease(old(lock).value, now)))
      ensures outcome != Ok ==> Contents() == old(Contents())
    {
      if lock == None {
        return Refused(Missing);
      }
      if lock.value.lockId != lockId {
        return Refused(LockConflict);
      }
      lock := Some(lock.value.(transferDate := Some(now)));
      return Ok;
    }

    /** The handoff, if it is open and meant for this actor and harness. */
    method ClaimableHandoff(id: string, actor: Actor, harness: string) returns (r: Result<Handoff, Error>)
      ensures r == match Protocol.ClaimRefusal(Contents(), id, actor, harness)
                   case Some(error) => Failure(error)
                   case None => Success(handoffs[id])
    {
      if id !in handoffs {
        return Failure(Missing);
      }
      var handoff := handoffs[id];
      if handoff.status != Open {
        return Failure(HandoffClosed);
      }
      if Truthy(handoff.intendedKind) && handoff.intendedKind.value != actor.kind {
        return Failure(IntentMismatch);
      }
      if Truthy(handoff.intendedName) && handoff.intendedName.value != actor.name {
        return Failure(IntentMismatch);
      }
      if Truthy(handoff.intendedHarness) && handoff.intendedHarness.value != "any" {
        if handoff.intendedHarness.value != harness {
          return Failure(IntentMismatch);
        }
      }
      return Success(handoff);
    }

    method ClaimHandoff(id: string, actor: Actor, harness: string, newRun: Option<string>, now: int)
      returns (outcome: Outcome)
      modifies this
      ensures Protocol.Post(Contents(), outcome)
              == Protocol.ClaimHandoff(old(Contents()), id, actor, harness, newRun, now)
    {
      var found := ClaimableHandoff(id, actor, harness);
      if found.Failure? {
        return Refused(found.error);
      }
      var handoff := found.value;
      var updated := handoff.(status := Claimed, claimRun := newRun, claimedBy := Some(actor),
          claimedIn := Some(harness));
      if handoff.lockPolicy == Transfer && Truthy(handoff.sourceRun) {
        if lock.Some? && lock.value.runId == handoff.sourceRun.value {
          updated := updated.(releasedLock := Some(lock.value.lockId));
          outcome := TransferLock(lock.value.lockId, actor, harness, now);
        }
      } else if handoff.lockPolicy == Release && Truthy(handoff.sourceRun) {
        if lock.Some? && lock.value.runId == handoff.sourceRun.value {
          updated := updated.(releasedLock := Some(lock.value.lockId));
          outcome := StampRelease(lock.value.lockId, now);
        }
      }
      handoffs := handoffs[updated.handoffId := updated];
      return Ok;
    }

    method CloseHandoff(id: string, reason: Option<string>) returns (outcome: Outcome)
      modifies this
      ensures Protocol.Post(Contents(), outcome) == Protocol.CloseHandoff(old(Contents()), id, reason)
    {
      if id !in handoffs {
        return Refused(Missing);
      }
      var handoff := handoffs[id];
      if handoff.status != Open && handoff.status != Claimed {
        return Refused(HandoffClosed);
      }
      var summary := if Truthy(reason) then reason else handoff.summary;
      handoffs := handoffs[handoff.handoffId := handoff.(status := Closed, summary := summary)];
      return Ok;
    }

    method CancelHandoff(id: string, reason: Option<string>) returns (outcome: Outcome)
      modifies this
      ensures Protocol.Post(Contents(), outcome) == Protocol.CancelHandoff(old(Contents()), id, reason)
    {
      if id !in handoffs {
        return Refused(Missing);
      }
      var handoff := handoffs[id];
      if handoff.status != Open {
        return Refused(HandoffClosed);
      }
      var summary := if Truthy(reason) then reason else handoff.summary;
      handoffs := handoffs[handoff.handoffId := handoff.(status := CancelledHandoff, summary := summary)];
      return Ok;
    }
  }
}
