/** What recording work comes to: when it is possible, what it adds, and that it stays. */
module Recording {
  import opened Common
  import opened Records
  import opened Protocol
  import opened Agreement
  import opened Lifecycle
  import opened Recovery
  import opened History

  /** A visible task is being implemented under a lock that has not expired. */
  predicate CanRecord(b: Bundle, now: int) {
    !b.task.archived && b.lock.Some? && b.lock.value.stage == LockImplementing && !b.lock.value.Expired(now)
  }

  /** The command went through, and rewrote exactly this run, or it changed nothing. */
  ghost predicate RewroteRun(b: Bundle, p: Post, allowed: bool, run: Run) {
    && (p.outcome == Ok <==> allowed)
    && p.bundle == if allowed then b.(runs := b.runs[run.runId := run]) else b
  }

  lemma LogRewrote(b: Bundle, message: string, now: int)
    requires Good(b) && CanRecord(b, now)
    ensures var run := b.runs[b.lock.value.runId];
      RewroteRun(b, LogImplementation(b, message, now), true, run.(worklog := run.worklog + [Text.Strip(message)]))
  {
    RecordingEnabledIff(b, now);
  }

  lemma DeviationRewrote(b: Bundle, message: string, now: int)
    requires Good(b) && CanRecord(b, now)
    ensures var run := b.runs[b.lock.value.runId];
      RewroteRun(b, AddDeviation(b, message, now), true, run.(deviations := run.deviations + [Text.Strip(message)]))
  {
    RecordingEnabledIff(b, now);
  }

  lemma ArtifactRewrote(b: Bundle, path: string, summary: string, now: int)
    requires Good(b) && CanRecord(b, now)
    ensures var run := b.runs[b.lock.value.runId];
      RewroteRun(b, AddArtifact(b, path, summary, now), true,
                 run.(artifactRefs := run.artifactRefs + [path + ": " + Text.Strip(summary)]))
  {
    RecordingEnabledIff(b, now);
  }

  predicate EntryAt(list: seq<string>, place: nat, entry: string) {
    place < |list| && list[place] == entry
  }

  /**
   A message is logged exactly while an unexpired implementing lock is held on a visible task. It goes to the end of
   the worklog of the run that the lock names, nothing else changes, and after any further commands it is still there.
   */
  lemma LogStays(b: Bundle, message: string, now: int, steps: seq<Step>)
    requires Good(b)
    ensures var p := LogImplementation(b, message, now);
      && (p.outcome == Ok <==> CanRecord(b, now)) && (p.outcome != Ok ==> p.bundle == b)
      && (p.outcome == Ok ==>
            var run := b.runs[b.lock.value.runId];
            && RunsImplementation(b, run.runId)
            && RewroteRun(b, p, true, run.(worklog := run.worklog + [Text.Strip(message)]))
            && run.runId in After(p.bundle, steps).runs
            && EntryAt(After(p.bundle, steps).runs[run.runId].worklog, |run.worklog|, Text.Strip(message)))
  {
    RecordingEnabledIff(b, now);
    if CanRecord(b, now) {
      var p := LogImplementation(b, message, now);
      LogRewrote(b, message, now);
      RunStays(b, p.bundle, LogStep(message, now), steps, b.lock.value.runId);
    }
  }

  /** Likewise for a deviation from the plan. */
  lemma DeviationStays(b: Bundle, message: string, now: int, steps: seq<Step>)
    requires Good(b)
    ensures var p := AddDeviation(b, message, now);
      && (p.outcome == Ok <==> CanRecord(b, now)) && (p.outcome != Ok ==> p.bundle == b)
      && (p.outcome == Ok ==>
            var run := b.runs[b.lock.value.runId];
            && RunsImplementation(b, run.runId)
            && RewroteRun(b, p, true, run.(deviations := run.deviations + [Text.Strip(message)]))
            && run.runId in After(p.bundle, steps).runs
            && EntryAt(After(p.bundle, steps).runs[run.runId].deviations, |run.deviations|, Text.Strip(message)))
  {
    RecordingEnabledIff(b, now);
    if CanRecord(b, now) {
      var p := AddDeviation(b, message, now);
      DeviationRewrote(b, message, now);
      RunStays(b, p.bundle, DeviationStep(message, now), steps, b.lock.value.runId);
    }
  }

  /** Likewise for an artifact. */
  lemma ArtifactStays(b: Bundle, path: string, summary: string, now: int, steps: seq<Step>)
    requires Good(b)
    ensures var p := AddArtifact(b, path, summary, now);
      var entry := path + ": " + Text.Strip(summary);
      && (p.outcome == Ok <==> CanRecord(b, now)) && (p.outcome != Ok ==> p.bundle == b)
      && (p.outcome == Ok ==>
            var run := b.runs[b.lock.value.runId];
            && RunsImplementation(b, run.runId)
            && RewroteRun(b, p, true, run.(artifactRefs := run.artifactRefs + [entry]))
            && run.runId in After(p.bundle, steps).runs
            && EntryAt(After(p.bundle, steps).runs[run.runId].artifactRefs, |run.artifactRefs|, entry))
  {
    RecordingEnabledIff(b, now);
    if CanRecord(b, now) {
      var p := AddArtifact(b, path, summary, now);
      ArtifactRewrote(b, path, summary, now);
      RunStays(b, p.bundle, ArtifactStep(path, summary, now), steps, b.lock.value.runId);
    }
  }

  ghost predicate ChangeIn(b: Bundle, c: Change) {
    c.changeId in b.changes && b.changes[c.changeId] == c
  }

  ghost predicate CheckIn(b: Bundle, c: Check) {
    c.checkId in b.checks && b.checks[c.checkId] == c
  }

  /** The change is new, and lies in the change log, in its run with the artifacts, and as a record; all else stayed. */
  ghost predicate GotChange(b: Bundle, post: Bundle, c: Change, artifacts: seq<string>) {
    && c.changeId !in b.changes && c.taskId == b.task.id && c.run in b.runs
    && (forall d :: d in b.changes ==> Ids.NumberOf("change", d) < Ids.NumberOf("change", c.changeId))
    && var run := b.runs[c.run];
       post == b.(changes := b.changes[c.changeId := c], task := b.task.(changeLog := b.task.changeLog + [c.changeId]),
                  runs := b.runs[c.run := run.(changeRefs := run.changeRefs + [c.changeId],
                                               artifactRefs := run.artifactRefs + artifacts)])
  }

  ghost predicate GotCheck(b: Bundle, post: Bundle, c: Check, artifacts: seq<string>) {
    && c.checkId !in b.checks && c.taskId == b.task.id && c.run in b.runs
    && (forall d :: d in b.checks ==> Ids.NumberOf("check", d) < Ids.NumberOf("check", c.checkId))
    && var run := b.runs[c.run];
       post == b.(checks := b.checks[c.checkId := c],
                  runs := b.runs[c.run := run.(checkRefs := run.checkRefs + [c.checkId],
                                               artifactRefs := run.artifactRefs + artifacts)])
  }

  lemma ChangeMade(b: Bundle, kind: string, path: string, summary: string, artifacts: seq<string>, now: int)
    requires Agrees(b) && CanRecord(b, now)
    ensures var p := AddChange(b, kind, path, summary, artifacts, now);
      var id := Ids.NextId("change", b.changes.Keys);
      p.outcome == Ok
      && GotChange(b, p.bundle, Change(id, b.task.id, b.lock.value.runId, kind, path, Text.Strip(summary)), artifacts)
  {
    RecordingEnabledIff(b, now);
    Ids.NextIdFresh("change", b.changes.Keys);
  }

  /** Passed exactly with exit code zero, unknown exactly without an exit code, failed otherwise. */
  predicate ChecksOut(status: CheckStatus, exitCode: Option<int>) {
    && (status == CheckPassed <==> exitCode.Some? && exitCode.value == 0)
    && (status == CheckUnknown <==> exitCode.None?)
  }

  lemma CheckMade(b: Bundle, command: string, exitCode: Option<int>, artifacts: seq<string>, now: int)
    requires Agrees(b) && CanRecord(b, now)
    ensures var p := AddCheck(b, command, exitCode, artifacts, now);
      var id := Ids.NextId("check", b.checks.Keys);
      && p.outcome == Ok && ChecksOut(StatusOfExit(exitCode), exitCode)
      && GotCheck(b, p.bundle, Check(id, b.task.id, b.lock.value.runId, command, exitCode, StatusOfExit(exitCode)),
                  artifacts)
  {
    RecordingEnabledIff(b, now);
    Ids.NextIdFresh("check", b.checks.Keys);
  }

  lemma RecordsStay(b: Bundle, mid: Bundle, step: Step, steps: seq<Step>)
    requires Good(b) && mid == Apply(b, step).bundle
    ensures forall c :: ChangeIn(mid, c) ==> ChangeIn(After(mid, steps), c)
    ensures forall c :: CheckIn(mid, c) ==> CheckIn(After(mid, steps), c)
  {
    StepAdvances(b, step);
    NothingLost(mid, steps);
  }

  lemma ChangeAllowed(b: Bundle, kind: string, path: string, summary: string, artifacts: seq<string>, now: int)
    requires Agrees(b)
    ensures var p := AddChange(b, kind, path, summary, artifacts, now);
      (p.outcome == Ok <==> CanRecord(b, now)) && (p.outcome != Ok ==> p.bundle == b)
  {
    RecordingEnabledIff(b, now);
  }

  lemma ChangeStays(b: Bundle, mid: Bundle, step: Step, c: Change, artifacts: seq<string>, steps: seq<Step>)
    requires Good(b) && mid == Apply(b, step).bundle && GotChange(b, mid, c, artifacts)
    ensures ChangeIn(After(mid, steps), c)
  {
    RecordsStay(b, mid, step, steps);
    assert ChangeIn(mid, c);
  }

  /**
   A change is recorded under the same condition: with what was given, for the run the lock names, and its record is
   still the same after any further commands.
   */
  lemma ChangedIff(
    b: Bundle, kind: string, path: string, summary: string, artifacts: seq<string>, now: int, steps: seq<Step>)
    requires Good(b)
    ensures var p := AddChange(b, kind, path, summary, artifacts, now);
      && (p.outcome == Ok <==> CanRecord(b, now)) && (p.outcome != Ok ==> p.bundle == b)
      && (p.outcome == Ok ==>
            exists c: Change ::
              && c == Change(c.changeId, b.task.id, b.lock.value.runId, kind, path, Text.Strip(summary))
              && GotChange(b, p.bundle, c, artifacts) && ChangeIn(After(p.bundle, steps), c))
  {
    ChangeAllowed(b, kind, path, summary, artifacts, now);
    if CanRecord(b, now) {
      var step := ChangeStep(kind, path, summary, artifacts, now);
      var id := Ids.NextId("change", b.changes.Keys);
      var c := Change(id, b.task.id, b.lock.value.runId, kind, path, Text.Strip(summary));
      ChangeMade(b, kind, path, summary, artifacts, now);
      ChangeStays(b, Apply(b, step).bundle, step, c, artifacts, steps);
    }
  }

  lemma CheckAllowed(b: Bundle, command: string, exitCode: Option<int>, artifacts: seq<string>, now: int)
    requires Agrees(b)
    ensures var p := AddCheck(b, command, exitCode, artifacts, now);
      (p.outcome == Ok <==> CanRecord(b, now)) && (p.outcome != Ok ==> p.bundle == b)
  {
    RecordingEnabledIff(b, now);
  }

  lemma CheckStays(b: Bundle, mid: Bundle, step: Step, c: Check, artifacts: seq<string>, steps: seq<Step>)
    requires Good(b) && mid == Apply(b, step).bundle && GotCheck(b, mid, c, artifacts)
    ensures CheckIn(After(mid, steps), c)
  {
    RecordsStay(b, mid, step, steps);
    assert CheckIn(mid, c);
  }

  /** And a check, whose status says how its command ended. */
  lemma CheckedIff(
    b: Bundle, command: string, exitCode: Option<int>, artifacts: seq<string>, now: int, steps: seq<Step>)
    requires Good(b)
    ensures var p := AddCheck(b, command, exitCode, artifacts, now);
      && (p.outcome == Ok <==> CanRecord(b, now)) && (p.outcome != Ok ==> p.bundle == b)
      && (p.outcome == Ok ==>
            exists c: Check :: && c == Check(c.checkId, b.task.id, b.lock.value.runId, command, exitCode, c.status)
                        && ChecksOut(c.status, exitCode)
                        && GotCheck(b, p.bundle, c, artifacts) && CheckIn(After(p.bundle, steps), c))
  {
    CheckAllowed(b, command, exitCode, artifacts, now);
    if CanRecord(b, now) {
      var step := CheckStep(command, exitCode, artifacts, now);
      var id := Ids.NextId("check", b.checks.Keys);
      var c := Check(id, b.task.id, b.lock.value.runId, command, exitCode, StatusOfExit(exitCode));
      CheckMade(b, command, exitCode, artifacts, now);
      CheckStays(b, Apply(b, step).bundle, step, c, artifacts, steps);
    }
  }

  lemma RunStays(b: Bundle, mid: Bundle, step: Step, steps: seq<Step>, r: string)
    requires Good(b) && mid == Apply(b, step).bundle && r in mid.runs
    ensures r in After(mid, steps).runs && Continues(mid.runs[r], After(mid, steps).runs[r])
  {
    StepAdvances(b, step);
    NothingLost(mid, steps);
  }
}
