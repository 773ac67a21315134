/**
 A ledger on disk: one folder for each task, the counter of task numbers, and the operations that
 create folders: creating a task, importing an archive and repairing the counter.
 */
module Ledger {
  import opened Common
  import opened Records
  import opened Ids
  import opened Renumbering
  import opened Payloads
  import opened Rewriting

  datatype RecordKey =
    | PlanKey(version: nat) | RunKey(id: string) | ChangeKey(id: string) | CheckKey(id: string) | HandoffKey(id: string)

  function KeyOf(r: Record): RecordKey {
    match r
    case PlanRecord(_, version, _) => PlanKey(version)
    case RunRecord(run) => RunKey(run.runId)
    case ChangeRecord(change) => ChangeKey(change.changeId)
    case CheckRecord(check) => CheckKey(check.checkId)
    case HandoffRecord(handoff) => HandoffKey(handoff.handoffId)
  }

  /** A task's folder. Records may come to lie in a folder that holds no task. */
  datatype Folder = Folder(
    task: Option<Task>, records: map<RecordKey, Record>, lock: Option<Lock>, quarantined: map<string, Lock>)

  const EMPTY := Folder(None, map[], None, map[])

  type Folders = map<string, Folder>

  datatype Disk = Disk(folders: Folders, releases: map<string, Release>, active: Option<ActiveTask>, counter: nat)

  function FolderOf(fs: Folders, id: string): Folder {
    if id in fs then fs[id] else EMPTY
  }

  function TaskIds(fs: Folders): set<string> {
    set id | id in fs && fs[id].task.Some?
  }

  // ---- writing ----

  function SaveTask(fs: Folders, t: Task): Folders {
    fs[t.id := FolderOf(fs, t.id).(task := Some(t))]
  }

  function SaveRecord(fs: Folders, r: Record): Folders {
    var f := FolderOf(fs, r.Owner());
    fs[r.Owner() := f.(records := f.records[KeyOf(r) := r])]
  }

  function QuarantineLock(fs: Folders, l: Lock): Folders {
    var f := FolderOf(fs, l.taskId);
    fs[l.taskId := f.(quarantined := f.quarantined[l.lockId := l])]
  }

  function KeepLock(fs: Folders, l: Lock): Folders {
    fs[l.taskId := FolderOf(fs, l.taskId).(lock := Some(l))]
  }

  function SaveTasks(fs: Folders, ts: seq<Task>): Folders {
    if ts == [] then fs else SaveTask(SaveTasks(fs, ts[..|ts| - 1]), ts[|ts| - 1])
  }

  function SaveRecords(fs: Folders, rs: seq<Record>): Folders {
    if rs == [] then fs else SaveRecord(SaveRecords(fs, rs[..|rs| - 1]), rs[|rs| - 1])
  }

  function QuarantineLocks(fs: Folders, ls: seq<Lock>): Folders {
    if ls == [] then fs else QuarantineLock(QuarantineLocks(fs, ls[..|ls| - 1]), ls[|ls| - 1])
  }

  /** The folders, and whether every lock could be written: a lock is never written over another. */
  datatype Kept = Kept(folders: Folders, ok: bool)

  function KeepLocks(fs: Folders, ls: seq<Lock>): Kept {
    if ls == [] then Kept(fs, true)
    else
      var before := KeepLocks(fs, ls[..|ls| - 1]);
      var last := ls[|ls| - 1];
      if !before.ok || FolderOf(before.folders, last.taskId).lock.Some? then Kept(before.folders, false)
      else Kept(KeepLock(before.folders, last), true)
  }

  predicate IsLetterOrDigit(c: char) {
    'a' <= c <= 'z' || 'A' <= c <= 'Z' || IsDigit(c)
  }

  /** A version that can name a file. */
  predicate Nameable(version: string) {
    && version != "" && IsLetterOrDigit(version[0])
    && forall i :: 0 <= i < |version| ==> IsLetterOrDigit(version[i]) || version[i] in "._+-"
  }

  /** The releases, and whether every one could be written: a release is never written over another. */
  datatype Released = Released(releases: map<string, Release>, ok: bool)

  function SaveReleases(m: map<string, Release>, rs: seq<Release>): Released {
    if rs == [] then Released(m, true)
    else
      var before := SaveReleases(m, rs[..|rs| - 1]);
      var last := rs[|rs| - 1];
      if !before.ok || !Nameable(last.version) || last.version in before.releases then Released(before.releases, false)
      else Released(before.releases[last.version := last], true)
  }

  // ---- creating ----

  ghost function CreatedId(d: Disk): string {
    FormatId(TASK, NextTaskNumber(TaskIds(d.folders), d.counter))
  }

  ghost function Create(d: Disk): Disk {
    d.(counter := NextTaskNumber(TaskIds(d.folders), d.counter) + 1,
       folders := SaveTask(d.folders, NewBundle(CreatedId(d)).task))
  }

  // ---- repairing the counter ----

  ghost function Repair(d: Disk): Disk {
    if forall id :: id in d.folders ==> ParseId(TASK, id).None? then d
    else if d.counter <= MaxNumber(TASK, d.folders.Keys) then d.(counter := MaxNumber(TASK, d.folders.Keys) + 1)
    else d
  }

  // ---- importing ----

  datatype ImportLockPolicy = Drop | Keep | Quarantine

  datatype Options = Options(
    replace: bool, dryRun: bool, lockPolicy: ImportLockPolicy, idPolicy: IdPolicy, tasksOnly: bool)

  datatype Report = Report(idMap: map<string, string>, renumbered: set<string>, imported: seq<string>)

  datatype ImportError = TaskIdExists | WouldOverwrite | ActiveTaskMissing | BoundaryMissing | ReleaseRefused
                       | LockExists

  datatype ImportPost = ImportPost(disk: Disk, result: Result<Report, ImportError>)

  datatype Written = Written(disk: Disk, error: Option<ImportError>)

  function EffectivePolicy(o: Options): IdPolicy {
    if o.replace then Preserve
    else if o.tasksOnly && o.idPolicy == Preserve then RenumberOnConflict
    else o.idPolicy
  }

  function Incoming(ts: seq<Task>): seq<string> {
    if ts == [] then []
    else if ts[|ts| - 1].id != "" then Incoming(ts[..|ts| - 1]) + [ts[|ts| - 1].id]
    else Incoming(ts[..|ts| - 1])
  }

  function Renumbered(m: map<string, string>): set<string> {
    set a | a in m && m[a] != a
  }

  function ReportOf(p: Payload, m: map<string, string>): Report {
    Report(m, Renumbered(m), Each(Incoming(p.tasks), Renaming(m)))
  }

  /** Folders, releases, the event log and the active task go; the counter stays. */
  function Cleared(d: Disk): Disk {
    Disk(map[], map[], None, d.counter)
  }

  predicate BoundariesPresent(fs: Folders, rs: seq<Release>) {
    forall r :: r in rs ==> r.boundary in TaskIds(fs)
  }

  function WriteLocks(d: Disk, ls: seq<Lock>, policy: ImportLockPolicy): Written {
    match policy
    case Drop => Written(d, None)
    case Quarantine => Written(d.(folders := QuarantineLocks(d.folders, ls)), None)
    case Keep =>
      var kept := KeepLocks(d.folders, ls);
      Written(d.(folders := kept.folders), if kept.ok then None else Some(LockExists))
  }

  /** The records are written kind by kind; a check that fails in between leaves behind what was written. */
  function WritePayload(d: Disk, q: Payload, policy: ImportLockPolicy): Written {
    var tasks := d.(folders := SaveTasks(d.folders, q.tasks));
    if q.active.Some? && q.active.value.taskId !in TaskIds(tasks.folders) then Written(tasks, Some(ActiveTaskMissing))
    else
      var active := if q.active.Some? then tasks.(active := q.active) else tasks;
      if !BoundariesPresent(active.folders, q.releases) then Written(active, Some(BoundaryMissing))
      else
        var saved := SaveReleases(active.releases, q.releases);
        if !saved.ok then Written(active.(releases := saved.releases), Some(ReleaseRefused))
        else
          WriteLocks(active.(releases := saved.releases,
                             folders := SaveRecords(active.folders, q.records)), q.locks, policy)
  }

  ghost function ImportMap(d: Disk, p: Payload, o: Options): Option<map<string, string>> {
    IdMap(TaskIds(d.folders), d.counter, Incoming(p.tasks), EffectivePolicy(o))
  }

  function RewrittenPayload(p: Payload, m: map<string, string>, o: Options): Payload {
    MapPayload(Carried(p, !o.tasksOnly), Renaming(m))
  }

  predicate Overwrites(fs: Folders, targets: seq<string>) {
    exists t :: t in targets && t in TaskIds(fs)
  }

  ghost function Import(d: Disk, p: Payload, o: Options): ImportPost {
    var m := ImportMap(d, p, o);
    if m.None? then ImportPost(d, Failure(TaskIdExists))
    else
      var report := ReportOf(p, m.value);
      if o.dryRun then ImportPost(d, Success(report))
      else if !o.replace && Overwrites(d.folders, report.imported) then ImportPost(d, Failure(WouldOverwrite))
      else
        var w := WritePayload(if o.replace then Cleared(d) else d, RewrittenPayload(p, m.value, o), o.lockPolicy);
        if w.error.Some? then ImportPost(w.disk, Failure(w.error.value))
        else ImportPost(Repair(w.disk), Success(report))
  }

  // ---- the map and the guards ----

  lemma {:induction false} IncomingAre(ts: seq<Task>)
    ensures forall i :: 0 <= i < |ts| && ts[i].id != "" ==> ts[i].id in Incoming(ts)
    ensures forall x :: x in Incoming(ts) ==> x != "" && exists i :: 0 <= i < |ts| && ts[i].id == x
  {
    if ts != [] {
      var before := ts[..|ts| - 1];
      IncomingAre(before);
      forall x | x in Incoming(ts)
        ensures x != "" && exists i :: 0 <= i < |ts| && ts[i].id == x
      {
        if x in Incoming(before) {
          var i :| 0 <= i < |before| && before[i].id == x;
          assert ts[i].id == x;
        } else {
          assert ts[|ts| - 1].id == x;
        }
      }
      forall i | 0 <= i < |ts| && ts[i].id != ""
        ensures ts[i].id in Incoming(ts)
      {
        assert i < |before| ==> before[i] == ts[i];
      }
    }
  }

  /** The map of an import: total on the incoming ids, injective, and away from every existing task. */
  lemma ImportMapCorrect(d: Disk, p: Payload, o: Options)
    requires ImportMap(d, p, o).Some?
    ensures var m := ImportMap(d, p, o).value;
      m.Keys == Elements(Incoming(p.tasks)) && Injective(m) && m.Values !! TaskIds(d.folders)
  {
    MapCorrect(TaskIds(d.folders), d.counter, Incoming(p.tasks), EffectivePolicy(o));
  }

  lemma TargetsFree(d: Disk, p: Payload, o: Options)
    requires ImportMap(d, p, o).Some?
    ensures !Overwrites(d.folders, ReportOf(p, ImportMap(d, p, o).value).imported)
  {
    ImportMapCorrect(d, p, o);
    var m := ImportMap(d, p, o).value;
    var incoming := Incoming(p.tasks);
    forall i | 0 <= i < |incoming|
      ensures Each(incoming, Renaming(m))[i] !in TaskIds(d.folders)
    {
      assert incoming[i] in Elements(incoming);
    }
  }

  /** The guard against overwriting never fires: the map has already kept clear of every existing task. */
  lemma OverwriteGuardUnreachable(d: Disk, p: Payload, o: Options)
    ensures Import(d, p, o).result != Failure(WouldOverwrite)
  {
    if ImportMap(d, p, o).Some? {
      TargetsFree(d, p, o);
    }
  }

  /**
   Ids are settled before a replacing import clears anything: it is refused for an archive that
   shares an id with the ledger it replaces, and otherwise keeps every id.
   */
  lemma ReplaceNeedsDisjoint(d: Disk, p: Payload, o: Options)
    requires o.replace
    ensures Import(d, p, o).result == Failure(TaskIdExists) <==> !(Elements(Incoming(p.tasks)) !! TaskIds(d.folders))
    ensures Import(d, p, o).result == Failure(TaskIdExists) ==> Import(d, p, o).disk == d
    ensures Elements(Incoming(p.tasks)) !! TaskIds(d.folders) ==>
              ImportMap(d, p, o).Some? && Renumbered(ImportMap(d, p, o).value) == {}
  {
    MapExistsIff(TaskIds(d.folders), d.counter, Incoming(p.tasks), EffectivePolicy(o));
  }

  /** A dry run changes nothing, and any real import that completes from that state reports the same. */
  lemma DryRunForetells(d: Disk, p: Payload, o: Options)
    ensures Import(d, p, o.(dryRun := true)).disk == d
    ensures Import(d, p, o.(dryRun := false)).result.Success? ==>
              Import(d, p, o.(dryRun := true)).result == Import(d, p, o.(dryRun := false)).result
    ensures Import(d, p, o.(dryRun := true)).result.Failure? <==>
              Import(d, p, o.(dryRun := false)).result == Failure(TaskIdExists)
  {
    OverwriteGuardUnreachable(d, p, o.(dryRun := false));
  }
}
