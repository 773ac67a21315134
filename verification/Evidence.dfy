/**
 The evidence lists and the resume links of a task agree with its records: what a run or a task
 refers to is exactly what was recorded for it, in order; and why each kind of change keeps this.
 */
module Evidence {
  import opened Common
  import opened Records
  import opened Shapes

  /** Ids in the order they were handed out. */
  ghost predicate Increasing(prefix: string, ids: seq<string>) {
    forall i, j :: 0 <= i < j < |ids| ==> Ids.NumberOf(prefix, ids[i]) < Ids.NumberOf(prefix, ids[j])
  }

  function ChangesOf(b: Bundle, r: string): set<string> {
    set c | c in b.changes && b.changes[c].run == r
  }

  function ChecksOf(b: Bundle, r: string): set<string> {
    set c | c in b.checks && b.checks[c].run == r
  }

  /** The change log lists every change once, in order; a run lists the log's changes of that run. */
  ghost predicate ChangesListed(b: Bundle) {
    && Elements(b.task.changeLog) == b.changes.Keys
    && Increasing("change", b.task.changeLog)
    && (forall c :: c in b.changes ==> b.changes[c].run in b.runs)
    && (forall r :: r in b.runs ==> b.runs[r].changeRefs == Restrict(b.task.changeLog, ChangesOf(b, r)))
  }

  ghost predicate ChecksListed(b: Bundle) {
    && (forall c :: c in b.checks ==> b.checks[c].run in b.runs)
    && (forall r :: r in b.runs ==> Elements(b.runs[r].checkRefs) == ChecksOf(b, r))
    && (forall r :: r in b.runs ==> Increasing("check", b.runs[r].checkRefs))
  }

  /** A run resumes an implementation run that was created before it. */
  ghost predicate ResumesEarlier(b: Bundle) {
    forall r :: r in b.runs && b.runs[r].resumes.Some? ==>
      && b.runs[r].resumes.value in b.runs
      && b.runs[r].runType == ImplementationRun
      && b.runs[b.runs[r].resumes.value].runType == ImplementationRun
      && Ids.NumberOf("run", b.runs[r].resumes.value) < Ids.NumberOf("run", r)
  }

  ghost predicate Sound(b: Bundle) {
    ChangesListed(b) && ChecksListed(b) && ResumesEarlier(b)
  }

  // ---- what a change must leave alone for each part ----

  lemma SameChangesKeep(b: Bundle, post: Bundle)
    requires ChangesListed(b) && post.runs.Keys == b.runs.Keys && post.changes == b.changes
    requires post.task.changeLog == b.task.changeLog
    requires forall r :: r in b.runs ==> post.runs[r].changeRefs == b.runs[r].changeRefs
    ensures ChangesListed(post)
  {
    assert forall r :: r in post.runs ==> ChangesOf(post, r) == ChangesOf(b, r);
  }

  lemma SameChecksKeep(b: Bundle, post: Bundle)
    requires ChecksListed(b) && post.runs.Keys == b.runs.Keys && post.checks == b.checks
    requires forall r :: r in b.runs ==> post.runs[r].checkRefs == b.runs[r].checkRefs
    ensures ChecksListed(post)
  {
    assert forall r :: r in post.runs ==> ChecksOf(post, r) == ChecksOf(b, r);
  }

  predicate SameLinks(a: Run, b: Run) {
    a.resumes == b.resumes && a.runType == b.runType
  }

  lemma SameLinksKeep(b: Bundle, post: Bundle)
    requires ResumesEarlier(b) && post.runs.Keys == b.runs.Keys
    requires forall r :: r in b.runs ==> SameLinks(post.runs[r], b.runs[r])
    ensures ResumesEarlier(post)
  {
    forall r | r in post.runs && post.runs[r].resumes.Some?
      ensures SameLinks(post.runs[r], b.runs[r])
          && SameLinks(post.runs[b.runs[r].resumes.value], b.runs[b.runs[r].resumes.value])
    {
    }
  }

  // ---- changes that record nothing ----

  /** Nothing was recorded, and no run appeared. */
  ghost predicate Untouched(b: Bundle, post: Bundle) {
    && post.changes == b.changes && post.checks == b.checks && post.task.changeLog == b.task.changeLog
    && post.runs.Keys == b.runs.Keys
    && (forall r :: r in b.runs ==> SameEvidence(post.runs[r], b.runs[r]))
  }

  lemma UntouchedKeeps(b: Bundle, post: Bundle)
    requires Sound(b) && Untouched(b, post)
    ensures Sound(post)
  {
    forall r | r in b.runs
      ensures SameEvidence(post.runs[r], b.runs[r]) && SameLinks(post.runs[r], b.runs[r])
    {
    }
    SameChangesKeep(b, post);
    SameChecksKeep(b, post);
    SameLinksKeep(b, post);
  }

  lemma EditUntouched(b: Bundle, run: Run, post: Bundle)
    requires run.runId in b.runs && SameEvidence(run, b.runs[run.runId])
    requires post.runs == b.runs[run.runId := run]
    requires post.changes == b.changes && post.checks == b.checks && post.task.changeLog == b.task.changeLog
    ensures Untouched(b, post)
  {
  }

  // ---- a new run ----

  lemma {:induction false} RestrictNone<T>(s: seq<T>, keep: set<T>)
    requires forall x :: x in s ==> x !in keep
    ensures Restrict(s, keep) == []
  {
    if s != [] {
      RestrictNone(s[..|s| - 1], keep);
    }
  }

  lemma BeginsKeepsChanges(b: Bundle, stage: LockStage, run: Run, post: Bundle)
    requires ChangesListed(b) && Begins(b, stage, run, post)
    ensures ChangesListed(post)
  {
    Ids.NextIdFresh("run", b.runs.Keys);
    RestrictNone(b.task.changeLog, ChangesOf(post, run.runId));
    assert forall r :: r in post.runs ==> ChangesOf(post, r) == ChangesOf(b, r);
  }

  lemma BeginsKeepsChecks(b: Bundle, stage: LockStage, run: Run, post: Bundle)
    requires ChecksListed(b) && Begins(b, stage, run, post)
    ensures ChecksListed(post)
  {
    Ids.NextIdFresh("run", b.runs.Keys);
    assert forall r :: r in post.runs ==> ChecksOf(post, r) == ChecksOf(b, r);
    assert Elements(run.checkRefs) == {};
  }

  lemma BeginsKeepsLinks(b: Bundle, stage: LockStage, run: Run, post: Bundle)
    requires ResumesEarlier(b) && Begins(b, stage, run, post)
    ensures ResumesEarlier(post)
  {
    Ids.NextIdFresh("run", b.runs.Keys);
  }

  lemma BeginsKeepsEvidence(b: Bundle, stage: LockStage, run: Run, post: Bundle)
    requires Sound(b) && Begins(b, stage, run, post)
    ensures Sound(post)
  {
    BeginsKeepsChanges(b, stage, run, post);
    BeginsKeepsChecks(b, stage, run, post);
    BeginsKeepsLinks(b, stage, run, post);
  }

  // ---- a recorded change or check ----

  lemma IncreasingAppend(prefix: string, ids: seq<string>, used: set<string>)
    requires Increasing(prefix, ids) && Elements(ids) <= used
    ensures Increasing(prefix, ids + [Ids.NextId(prefix, used)])
    ensures Ids.NextId(prefix, used) !in ids
  {
    Ids.NextIdFresh(prefix, used);
    assert forall i :: 0 <= i < |ids| ==> ids[i] in Elements(ids);
  }

  lemma ChangeListedFor(b: Bundle, run: Run, change: Change, post: Bundle, r: string)
    requires ChangesListed(b) && GainsChange(b, run, change, post) && r in b.runs
    ensures post.runs[r].changeRefs == Restrict(post.task.changeLog, ChangesOf(post, r))
  {
    var log := b.task.changeLog;
    var id := Ids.NextId("change", b.changes.Keys);
    IncreasingAppend("change", log, b.changes.Keys);
    RestrictAppend(log, id, ChangesOf(post, r));
    forall c | c in log
      ensures c in ChangesOf(post, r) <==> c in ChangesOf(b, r)
    {
      assert c in Elements(log);
    }
    RestrictAgrees(log, ChangesOf(post, r), ChangesOf(b, r));
  }

  lemma GainsChangeKeepsChanges(b: Bundle, run: Run, change: Change, post: Bundle)
    requires ChangesListed(b) && GainsChange(b, run, change, post)
    ensures ChangesListed(post)
  {
    var log := b.task.changeLog;
    var id := Ids.NextId("change", b.changes.Keys);
    IncreasingAppend("change", log, b.changes.Keys);
    ElementsAppend(log, id);
    forall r | r in post.runs
      ensures post.runs[r].changeRefs == Restrict(post.task.changeLog, ChangesOf(post, r))
    {
      ChangeListedFor(b, run, change, post, r);
    }
  }

  lemma GainsChangeFrame(b: Bundle, run: Run, change: Change, post: Bundle)
    requires GainsChange(b, run, change, post)
    ensures post.runs.Keys == b.runs.Keys && post.checks == b.checks
    ensures forall r :: r in b.runs ==> post.runs[r].checkRefs == b.runs[r].checkRefs
    ensures forall r :: r in b.runs ==> SameLinks(post.runs[r], b.runs[r])
  {
  }

  lemma GainsChangeKeepsEvidence(b: Bundle, run: Run, change: Change, post: Bundle)
    requires Sound(b) && GainsChange(b, run, change, post)
    ensures Sound(post)
  {
    GainsChangeFrame(b, run, change, post);
    GainsChangeKeepsChanges(b, run, change, post);
    SameChecksKeep(b, post);
    SameLinksKeep(b, post);
  }

  lemma ChecksOfAfter(b: Bundle, run: Run, check: Check, post: Bundle, r: string)
    requires GainsCheck(b, run, check, post)
    ensures var id := Ids.NextId("check", b.checks.Keys);
      ChecksOf(post, r) == if r == run.runId then ChecksOf(b, r) + {id} else ChecksOf(b, r)
  {
    Ids.NextIdFresh("check", b.checks.Keys);
  }

  lemma CheckListedFor(b: Bundle, run: Run, check: Check, post: Bundle, r: string)
    requires ChecksListed(b) && GainsCheck(b, run, check, post) && r in b.runs
    ensures Elements(post.runs[r].checkRefs) == ChecksOf(post, r) && Increasing("check", post.runs[r].checkRefs)
  {
    ChecksOfAfter(b, run, check, post, r);
    if r == run.runId {
      IncreasingAppend("check", b.runs[r].checkRefs, b.checks.Keys);
      ElementsAppend(b.runs[r].checkRefs, Ids.NextId("check", b.checks.Keys));
    }
  }

  lemma GainsCheckKeepsEvidence(b: Bundle, run: Run, check: Check, post: Bundle)
    requires Sound(b) && GainsCheck(b, run, check, post)
    ensures Sound(post)
  {
    forall r | r in post.runs
      ensures Elements(post.runs[r].checkRefs) == ChecksOf(post, r) && Increasing("check", post.runs[r].checkRefs)
    {
      CheckListedFor(b, run, check, post, r);
    }
    SameChangesKeep(b, post);
    SameLinksKeep(b, post);
  }

  // ---- following resume links ----

  /** The runs met by following `resumes` from one run; it ends because each link goes to a lower number. */
  ghost function ResumeChain(b: Bundle, r: string): (chain: seq<string>)
    requires ResumesEarlier(b) && r in b.runs
    ensures |chain| > 0 && chain[0] == r
    ensures forall i :: 0 <= i < |chain| ==> chain[i] in b.runs
    ensures forall i :: 0 <= i < |chain| - 1 ==> b.runs[chain[i]].resumes == Some(chain[i + 1])
    ensures b.runs[chain[|chain| - 1]].resumes == None
    ensures forall i, j :: 0 <= i < j < |chain| ==> Ids.NumberOf("run", chain[j]) < Ids.NumberOf("run", chain[i])
    decreases Ids.NumberOf("run", r)
  {
    if b.runs[r].resumes == None then [r] else [r] + ResumeChain(b, b.runs[r].resumes.value)
  }

  lemma {:induction false} DistinctWithin(s: seq<string>, all: set<string>)
    requires NoDuplicates(s) && Elements(s) <= all
    ensures |s| <= |all|
  {
    if s != [] {
      var x := s[0];
      assert x in Elements(s);
      assert forall y :: y in s[1..] ==> y in Elements(s) && y != x;
      DistinctWithin(s[1..], all - {x});
    }
  }
}
