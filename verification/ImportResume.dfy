/** A task that was exported in the middle of its implementation and imported into another ledger. */
module ImportResume {
  import opened Common
  import opened Records
  import opened Policies
  import opened Protocol
  import opened Shapes
  import opened Agreement
  import opened Evidence
  import opened Handoffs
  import opened Lifecycle
  import opened Recovery
  import opened Payloads
  import opened Rewriting
  import opened Ledger
  import opened Transplant

  // ---- a folder as the lifecycle sees it ----

  ghost function RunsOf(f: Folder): map<string, Run> {
    map k | k in f.records && k.RunKey? && f.records[k].RunRecord? :: k.id := f.records[k].run
  }

  ghost function PlansOf(f: Folder): map<nat, PlanStatus> {
    map k | k in f.records && k.PlanKey? && f.records[k].PlanRecord? :: k.version := f.records[k].status
  }

  ghost function ChangesIn(f: Folder): map<string, Change> {
    map k | k in f.records && k.ChangeKey? && f.records[k].ChangeRecord? :: k.id := f.records[k].change
  }

  ghost function ChecksIn(f: Folder): map<string, Check> {
    map k | k in f.records && k.CheckKey? && f.records[k].CheckRecord? :: k.id := f.records[k].check
  }

  ghost function HandoffsIn(f: Folder): map<string, Handoff> {
    map k | k in f.records && k.HandoffKey? && f.records[k].HandoffRecord? :: k.id := f.records[k].handoff
  }

  ghost function BundleOf(f: Folder): Bundle
    requires f.task.Some?
  {
    Bundle(f.task.value, RunsOf(f), PlansOf(f), ChangesIn(f), ChecksIn(f), HandoffsIn(f), f.lock, map[])
  }

  // ---- renaming it ----

  ghost function RenameRunMap(m: map<string, Run>, g: string -> string): map<string, Run> {
    map x | x in m :: m[x].(taskId := g(m[x].taskId))
  }

  ghost function RenameChangeMap(m: map<string, Change>, g: string -> string): map<string, Change> {
    map x | x in m :: m[x].(taskId := g(m[x].taskId))
  }

  ghost function RenameCheckMap(m: map<string, Check>, g: string -> string): map<string, Check> {
    map x | x in m :: m[x].(taskId := g(m[x].taskId))
  }

  ghost function RenameHandoffMap(m: map<string, Handoff>, g: string -> string): map<string, Handoff> {
    map x | x in m :: m[x].(taskId := g(m[x].taskId))
  }

  ghost function RenameBundle(b: Bundle, g: string -> string): Bundle {
    Bundle(MapTask(b.task, g), RenameRunMap(b.runs, g), b.plans, RenameChangeMap(b.changes, g),
           RenameCheckMap(b.checks, g), RenameHandoffMap(b.handoffs, g),
           if b.lock.Some? then Some(MapLock(b.lock.value, g)) else None, b.brokenLocks)
  }

  ghost predicate Relabelled(f: Folder, g: string -> string, to: Folder) {
    to.records.Keys == f.records.Keys && forall k :: k in f.records ==> to.records[k] == MapRecord(f.records[k], g)
  }

  lemma RunAt(f: Folder, x: string)
    ensures x in RunsOf(f) <==> RunKey(x) in f.records && f.records[RunKey(x)].RunRecord?
    ensures x in RunsOf(f) ==> RunsOf(f)[x] == f.records[RunKey(x)].run
  {
  }

  lemma RunRenamed(f: Folder, g: string -> string, to: Folder)
    requires Relabelled(f, g, to)
    ensures RunsOf(to) == RenameRunMap(RunsOf(f), g)
  {
    forall x
      ensures x in RunsOf(to) <==> x in RunsOf(f)
      ensures x in RunsOf(to) ==> RunsOf(to)[x] == RenameRunMap(RunsOf(f), g)[x]
    {
      RunAt(f, x);
      RunAt(to, x);
    }
  }

  lemma ChangeAt(f: Folder, x: string)
    ensures x in ChangesIn(f) <==> ChangeKey(x) in f.records && f.records[ChangeKey(x)].ChangeRecord?
    ensures x in ChangesIn(f) ==> ChangesIn(f)[x] == f.records[ChangeKey(x)].change
  {
  }

  lemma ChangeRenamed(f: Folder, g: string -> string, to: Folder)
    requires Relabelled(f, g, to)
    ensures ChangesIn(to) == RenameChangeMap(ChangesIn(f), g)
  {
    forall x
      ensures x in ChangesIn(to) <==> x in ChangesIn(f)
      ensures x in ChangesIn(to) ==> ChangesIn(to)[x] == RenameChangeMap(ChangesIn(f), g)[x]
    {
      ChangeAt(f, x);
      ChangeAt(to, x);
    }
  }

  lemma CheckAt(f: Folder, x: string)
    ensures x in ChecksIn(f) <==> CheckKey(x) in f.records && f.records[CheckKey(x)].CheckRecord?
    ensures x in ChecksIn(f) ==> ChecksIn(f)[x] == f.records[CheckKey(x)].check
  {
  }

  lemma CheckRenamed(f: Folder, g: string -> string, to: Folder)
    requires Relabelled(f, g, to)
    ensures ChecksIn(to) == RenameCheckMap(ChecksIn(f), g)
  {
    forall x
      ensures x in ChecksIn(to) <==> x in ChecksIn(f)
      ensures x in ChecksIn(to) ==> ChecksIn(to)[x] == RenameCheckMap(ChecksIn(f), g)[x]
    {
      CheckAt(f, x);
      CheckAt(to, x);
    }
  }

  lemma HandoffAt(f: Folder, x: string)
    ensures x in HandoffsIn(f) <==> HandoffKey(x) in f.records && f.records[HandoffKey(x)].HandoffRecord?
    ensures x in HandoffsIn(f) ==> HandoffsIn(f)[x] == f.records[HandoffKey(x)].handoff
  {
  }

  lemma HandoffRenamed(f: Folder, g: string -> string, to: Folder)
    requires Relabelled(f, g, to)
    ensures HandoffsIn(to) == RenameHandoffMap(HandoffsIn(f), g)
  {
    forall x
      ensures x in HandoffsIn(to) <==> x in HandoffsIn(f)
      ensures x in HandoffsIn(to) ==> HandoffsIn(to)[x] == RenameHandoffMap(HandoffsIn(f), g)[x]
    {
      HandoffAt(f, x);
      HandoffAt(to, x);
    }
  }

  lemma PlansRenamed(f: Folder, g: string -> string, to: Folder)
    requires Relabelled(f, g, to)
    ensures PlansOf(to) == PlansOf(f)
  {
    forall v
      ensures v in PlansOf(to) <==> v in PlansOf(f)
      ensures v in PlansOf(to) ==> PlansOf(to)[v] == PlansOf(f)[v]
    {
      assert v in PlansOf(f) <==> PlanKey(v) in f.records && f.records[PlanKey(v)].PlanRecord?;
      assert v in PlansOf(to) <==> PlanKey(v) in to.records && to.records[PlanKey(v)].PlanRecord?;
    }
  }

  /** The folder an import writes is the renamed directory; the lock is live only if it is kept. */
  lemma FolderIsRenamed(f: Folder, g: string -> string, policy: ImportLockPolicy)
    requires f.task.Some?
    ensures BundleOf(RenamedFolder(f, g, policy))
            == if policy == Keep then RenameBundle(BundleOf(f), g) else RenameBundle(BundleOf(f), g).(lock := None)
  {
    var to := RenamedFolder(f, g, policy);
    RunRenamed(f, g, to);
    PlansRenamed(f, g, to);
    ChangeRenamed(f, g, to);
    CheckRenamed(f, g, to);
    HandoffRenamed(f, g, to);
  }

  lemma RenameRuns(b: Bundle, g: string -> string)
    ensures forall r :: IsRunning(RenameBundle(b, g), r) <==> IsRunning(b, r)
    ensures forall r :: RunsImplementation(RenameBundle(b, g), r) <==> RunsImplementation(b, r)
  {
  }

  lemma RenameAgrees(b: Bundle, g: string -> string)
    requires Agrees(b)
    ensures Agrees(RenameBundle(b, g))
  {
    RenameRuns(b, g);
  }

  lemma RenameChanges(b: Bundle, g: string -> string)
    requires ChangesListed(b)
    ensures ChangesListed(RenameBundle(b, g))
  {
    var to := RenameBundle(b, g);
    forall r
      ensures ChangesOf(to, r) == ChangesOf(b, r)
    {
      assert forall c :: c in ChangesOf(to, r) <==> c in ChangesOf(b, r);
    }
    assert to.changes.Keys == b.changes.Keys;
  }

  lemma RenameChecks(b: Bundle, g: string -> string)
    requires ChecksListed(b)
    ensures ChecksListed(RenameBundle(b, g))
  {
    var to := RenameBundle(b, g);
    forall r
      ensures ChecksOf(to, r) == ChecksOf(b, r)
    {
      assert forall c :: c in ChecksOf(to, r) <==> c in ChecksOf(b, r);
    }
  }

  lemma RenameLinks(b: Bundle, g: string -> string)
    requires ResumesEarlier(b)
    ensures ResumesEarlier(RenameBundle(b, g))
  {
    assert RenameBundle(b, g).runs.Keys == b.runs.Keys;
    SameLinksKeep(b, RenameBundle(b, g));
  }

  lemma RenameTransferable(b: Bundle, g: string -> string)
    requires Transferable(b)
    ensures Transferable(RenameBundle(b, g))
  {
  }

  lemma RenameSound(b: Bundle, g: string -> string)
    requires Sound(b)
    ensures Sound(RenameBundle(b, g))
  {
    RenameChanges(b, g);
    RenameChecks(b, g);
    RenameLinks(b, g);
  }

  lemma RenamePlan(b: Bundle, g: string -> string)
    requires PlanHeld(b)
    ensures PlanHeld(RenameBundle(b, g))
  {
  }

  lemma UnlockedGood(b: Bundle)
    requires Good(b)
    ensures Good(b.(lock := None))
  {
    MovesAdvances(b, b.(lock := None));
  }

  /** Whatever holds of a directory in every reachable state also holds of the renamed one, with or without its lock. */
  lemma RenameGood(b: Bundle, g: string -> string)
    requires Good(b)
    ensures Good(RenameBundle(b, g)) && Good(RenameBundle(b, g).(lock := None))
  {
    RenameAgrees(b, g);
    RenameSound(b, g);
    RenameTransferable(b, g);
    RenamePlan(b, g);
    UnlockedGood(RenameBundle(b, g));
  }

  // ---- the imported task ----

  /**
   The imported directory is the renamed one without a live lock, and a resume succeeds exactly when a reason is given
   and the dependencies are done; it then restores agreement on the renamed task, for the same run.
   */
  ghost predicate ResumesAs(b: Bundle, before: Bundle, g: string -> string, reason: string, repair: bool, env: Env)
    requires before.task.latestImplementationRun.Some?
  {
    var q := ResumeImplementation(b, None, reason, repair, env);
    && b == RenameBundle(before, g).(lock := None)
    && (q.outcome == Ok <==> Text.Strip(reason) != "" && env.depsDone)
    && (q.outcome == Ok ==>
          && Good(q.bundle) && q.bundle.task.id == g(before.task.id) && q.bundle.task.stage == Implementing
          && q.bundle.runs == b.runs && q.bundle.lock.Some?
          && q.bundle.lock.value.runId == before.task.latestImplementationRun.value
          && MutableImplementation(q.bundle, env.now).Success?)
  }

  /** A task exported in the middle of its implementation and imported with its lock dropped or set aside. */
  lemma ResumeAfterImport(
    d: Disk, src: Folders, p: Payload, o: Options, a: string, reason: string, repair: bool, env: Env)
    requires Exported(src, p) && a in src && !o.dryRun && NameFree(d, p, o, a) && Import(d, p, o).result.Success?
    requires o.lockPolicy != Keep
    requires Good(BundleOf(src[a])) && src[a].task.value.stage == Implementing
    ensures ImportMap(d, p, o).Some? && a in ImportMap(d, p, o).value
    ensures var m := ImportMap(d, p, o).value;
      && m[a] in Import(d, p, o).disk.folders && Import(d, p, o).disk.folders[m[a]].task.Some?
      && BundleOf(Import(d, p, o).disk.folders[m[a]]).task.id == m[a]
      && ResumesAs(BundleOf(Import(d, p, o).disk.folders[m[a]]), BundleOf(src[a]), Renaming(m), reason, repair, env)
  {
    ExportThenImport(d, src, p, o, a);
    var m := ImportMap(d, p, o).value;
    FolderIsRenamed(src[a], Renaming(m), o.lockPolicy);
    RenameGood(BundleOf(src[a]), Renaming(m));
    LostLockResumes(BundleOf(RenamedFolder(src[a], Renaming(m), o.lockPolicy)), reason, repair, env);
  }

  /** The runs of a directory, in the order they happen to be listed in. */
  ghost predicate Lists(runs: seq<Run>, b: Bundle) {
    Elements(runs) == b.runs.Values
  }

  lemma ActiveStageListed(b: Bundle, runs: seq<Run>)
    requires Keyed(b) && Lists(runs, b) && b.lock.Some?
    ensures ActiveStageOf(b.lock, runs).Some? <==>
              b.lock.value.runId in b.runs && LockNames(b.lock.value, b.runs[b.lock.value.runId])
  {
    if i :| 0 <= i < |runs| && LockNames(b.lock.value, runs[i]) {
      assert runs[i] in Elements(runs);
    }
    if b.lock.value.runId in b.runs {
      assert b.runs[b.lock.value.runId] in Elements(runs);
    }
  }

  lemma RenamedStage(b: Bundle, g: string -> string, runs: seq<Run>, imported: seq<Run>)
    requires Keyed(b) && Lists(runs, b) && Lists(imported, RenameBundle(b, g))
    ensures ActiveStageOf(RenameBundle(b, g).lock, imported) == ActiveStageOf(b.lock, runs)
  {
    if b.lock.Some? {
      ActiveStageListed(b, runs);
      ActiveStageListed(RenameBundle(b, g), imported);
    }
  }

  /** With the lock kept, what the imported task is being worked on for is what the original was. */
  lemma KeptStage(d: Disk, src: Folders, p: Payload, o: Options, a: string, runs: seq<Run>, imported: seq<Run>)
    requires Exported(src, p) && a in src && !o.dryRun && NameFree(d, p, o, a) && Import(d, p, o).result.Success?
    requires o.lockPolicy == Keep && Keyed(BundleOf(src[a])) && Lists(runs, BundleOf(src[a]))
    ensures ImportMap(d, p, o).Some? && a in ImportMap(d, p, o).value
    ensures var f := FolderOf(Import(d, p, o).disk.folders, ImportMap(d, p, o).value[a]);
      && f.task.Some?
      && (Lists(imported, BundleOf(f)) ==> ActiveStageOf(f.lock, imported) == ActiveStageOf(src[a].lock, runs))
  {
    ExportThenImport(d, src, p, o, a);
    var m := ImportMap(d, p, o).value;
    FolderIsRenamed(src[a], Renaming(m), Keep);
    if Lists(imported, RenameBundle(BundleOf(src[a]), Renaming(m))) {
      RenamedStage(BundleOf(src[a]), Renaming(m), runs, imported);
    }
  }
}
