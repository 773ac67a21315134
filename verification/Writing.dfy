/** What an import writes, and where it stops: told from the guards, before anything is written. */
module Writing {
  import opened Common
  import opened Records
  import opened Renumbering
  import opened Payloads
  import opened Ledger

  // ---- folders that are not written to ----

  /** The folder is as it was, and is there exactly when it was there. */
  predicate Same(fs: Folders, post: Folders, id: string) {
    (id in fs <==> id in post) && FolderOf(fs, id) == FolderOf(post, id)
  }

  lemma {:induction false} SaveTasksFrame(fs: Folders, ts: seq<Task>, id: string)
    requires forall t :: t in ts ==> t.id != id
    ensures Same(fs, SaveTasks(fs, ts), id)
  {
    if ts != [] {
      SaveTasksFrame(fs, ts[..|ts| - 1], id);
      assert ts[|ts| - 1] in ts;
    }
  }

  lemma {:induction false} SaveRecordsFrame(fs: Folders, rs: seq<Record>, id: string)
    requires forall r :: r in rs ==> r.Owner() != id
    ensures Same(fs, SaveRecords(fs, rs), id)
  {
    if rs != [] {
      SaveRecordsFrame(fs, rs[..|rs| - 1], id);
      assert rs[|rs| - 1] in rs;
    }
  }

  lemma {:induction false} QuarantineFrame(fs: Folders, ls: seq<Lock>, id: string)
    requires forall l :: l in ls ==> l.taskId != id
    ensures Same(fs, QuarantineLocks(fs, ls), id)
  {
    if ls != [] {
      QuarantineFrame(fs, ls[..|ls| - 1], id);
      assert ls[|ls| - 1] in ls;
    }
  }

  lemma {:induction false} KeepFrame(fs: Folders, ls: seq<Lock>, id: string)
    requires forall l :: l in ls ==> l.taskId != id
    ensures Same(fs, KeepLocks(fs, ls).folders, id)
  {
    if ls != [] {
      KeepFrame(fs, ls[..|ls| - 1], id);
      assert ls[|ls| - 1] in ls;
    }
  }

  // ---- which tasks, records and locks are there ----

  lemma {:induction false} SavedTaskIds(fs: Folders, ts: seq<Task>)
    ensures TaskIds(SaveTasks(fs, ts)) == TaskIds(fs) + set t | t in ts :: t.id
  {
    if ts != [] {
      var before, last := ts[..|ts| - 1], ts[|ts| - 1];
      SavedTaskIds(fs, before);
      assert ts == before + [last];
      assert TaskIds(SaveTasks(fs, ts)) == TaskIds(SaveTasks(fs, before)) + {last.id};
      assert (set t | t in ts :: t.id) == (set t | t in before :: t.id) + {last.id};
    }
  }

  lemma {:induction false} SaveRecordsLocks(fs: Folders, rs: seq<Record>, id: string)
    ensures FolderOf(SaveRecords(fs, rs), id).lock == FolderOf(fs, id).lock
  {
    if rs != [] {
      SaveRecordsLocks(fs, rs[..|rs| - 1], id);
    }
  }

  lemma {:induction false} SaveTasksLocks(fs: Folders, ts: seq<Task>, id: string)
    ensures FolderOf(SaveTasks(fs, ts), id).lock == FolderOf(fs, id).lock
  {
    if ts != [] {
      SaveTasksLocks(fs, ts[..|ts| - 1], id);
    }
  }

  /** No task has two locks in the payload. */
  predicate OneLockEach(ls: seq<Lock>) {
    forall i, j :: 0 <= i < j < |ls| ==> ls[i].taskId != ls[j].taskId
  }

  ghost predicate Unlocked(fs: Folders, ls: seq<Lock>) {
    forall i :: 0 <= i < |ls| ==> FolderOf(fs, ls[i].taskId).lock.None?
  }

  lemma {:induction false} KeepOkIff(fs: Folders, ls: seq<Lock>)
    ensures KeepLocks(fs, ls).ok <==> Unlocked(fs, ls) && OneLockEach(ls)
  {
    if ls != [] {
      var before, last := ls[..|ls| - 1], ls[|ls| - 1];
      KeepOkIff(fs, before);
      if KeepLocks(fs, before).ok {
        if forall l :: l in before ==> l.taskId != last.taskId {
          KeepFrame(fs, before, last.taskId);
        } else {
          var i :| 0 <= i < |before| && before[i].taskId == last.taskId;
          KeptSome(fs, before, before[i]);
          assert ls[i].taskId == ls[|ls| - 1].taskId;
        }
      }
    }
  }

  lemma {:induction false} KeptSome(fs: Folders, ls: seq<Lock>, l: Lock)
    requires l in ls && KeepLocks(fs, ls).ok
    ensures FolderOf(KeepLocks(fs, ls).folders, l.taskId).lock.Some?
  {
    if l in ls[..|ls| - 1] {
      KeptSome(fs, ls[..|ls| - 1], l);
    }
  }

  // ---- where the writing stops ----

  /** The tasks there will be once those of the payload are written. */
  function Present(d: Disk, q: Payload): set<string> {
    TaskIds(d.folders) + set t | t in q.tasks :: t.id
  }

  predicate ActiveAbsent(d: Disk, q: Payload) {
    q.active.Some? && q.active.value.taskId !in Present(d, q)
  }

  predicate BoundaryAbsent(d: Disk, q: Payload) {
    exists r :: r in q.releases && r.boundary !in Present(d, q)
  }

  /** Every lock finds its task unlocked. */
  ghost predicate LocksFit(fs: Folders, ls: seq<Lock>) {
    Unlocked(fs, ls) && OneLockEach(ls)
  }

  /** The version can name a file, and neither the ledger nor an earlier release of the payload has it. */
  ghost predicate ReleaseFits(m: map<string, Release>, rs: seq<Release>, i: nat)
    requires i < |rs|
  {
    && Nameable(rs[i].version) && rs[i].version !in m
    && forall j :: 0 <= j < i ==> rs[j].version != rs[i].version
  }

  ghost predicate ReleasesFit(m: map<string, Release>, rs: seq<Release>) {
    forall i :: 0 <= i < |rs| ==> ReleaseFits(m, rs, i)
  }

  lemma {:induction false} SaveOkIff(m: map<string, Release>, rs: seq<Release>)
    ensures SaveReleases(m, rs).ok <==> ReleasesFit(m, rs)
    ensures SaveReleases(m, rs).ok ==> SaveReleases(m, rs).releases.Keys == m.Keys + set r | r in rs :: r.version
  {
    if rs != [] {
      var before, last := rs[..|rs| - 1], rs[|rs| - 1];
      SaveOkIff(m, before);
      assert rs == before + [last];
      assert (set r | r in rs :: r.version) == (set r | r in before :: r.version) + {last.version};
      assert forall i :: 0 <= i < |before| ==> (ReleaseFits(m, rs, i) <==> ReleaseFits(m, before, i));
      if ReleasesFit(m, before) {
        assert SaveReleases(m, rs).ok <==> ReleaseFits(m, rs, |before|);
      }
    }
  }

  lemma FitsBefore(m: map<string, Release>, before: seq<Release>, last: Release, i: nat)
    requires i < |before|
    ensures ReleasesFit(m, (before + [last])[..i + 1]) <==> ReleasesFit(m, before[..i + 1])
    ensures (before + [last])[i] == before[i]
  {
    assert (before + [last])[..i + 1] == before[..i + 1];
  }

  /** A release is kept if it and all before it fit. */
  ghost predicate KeptRelease(m: map<string, Release>, rs: seq<Release>, i: nat) {
    i < |rs| && ReleasesFit(m, rs[..i + 1])
  }

  ghost predicate StoredIn(saved: map<string, Release>, m: map<string, Release>, rs: seq<Release>) {
    && (forall v :: v in m ==> v in saved && saved[v] == m[v])
    && (forall i: nat :: KeptRelease(m, rs, i) ==> rs[i].version in saved && saved[rs[i].version] == rs[i])
    && (forall v :: v in saved && v !in m ==> exists i: nat :: KeptRelease(m, rs, i) && rs[i].version == v)
  }

  lemma KeptAppend(m: map<string, Release>, before: seq<Release>, last: Release, i: nat)
    ensures KeptRelease(m, before + [last], i)
            <==> KeptRelease(m, before, i) || (i == |before| && ReleasesFit(m, before + [last]))
  {
    assert (before + [last])[..|before| + 1] == before + [last];
    if i < |before| {
      FitsBefore(m, before, last, i);
    }
  }

  lemma StoredRefused(saved: map<string, Release>, m: map<string, Release>, before: seq<Release>, last: Release)
    requires StoredIn(saved, m, before) && !ReleasesFit(m, before + [last])
    ensures StoredIn(saved, m, before + [last])
  {
    var rs := before + [last];
    forall i: nat
      ensures KeptRelease(m, rs, i) <==> KeptRelease(m, before, i)
    {
      KeptAppend(m, before, last, i);
    }
    assert forall i :: 0 <= i < |before| ==> rs[i] == before[i];
  }

  lemma StoredMore(saved: map<string, Release>, m: map<string, Release>, before: seq<Release>, last: Release)
    requires StoredIn(saved, m, before) && ReleasesFit(m, before + [last]) && last.version !in saved
    ensures StoredIn(saved[last.version := last], m, before + [last])
  {
    var rs := before + [last];
    assert rs[|before|] == last;
    KeptAppend(m, before, last, |before|);
    forall i: nat | KeptRelease(m, before, i)
      ensures KeptRelease(m, rs, i) && rs[i] == before[i]
    {
      KeptAppend(m, before, last, i);
    }
    forall i: nat | KeptRelease(m, rs, i)
      ensures i == |before| || KeptRelease(m, before, i)
    {
      KeptAppend(m, before, last, i);
    }
  }

  /**
   No stored release is ever overwritten; those of the payload are written up to the first that does not fit, and
   nothing else is.
   */
  lemma {:induction false} ReleasesStored(m: map<string, Release>, rs: seq<Release>)
    ensures StoredIn(SaveReleases(m, rs).releases, m, rs)
  {
    if rs != [] {
      var before, last := rs[..|rs| - 1], rs[|rs| - 1];
      ReleasesStored(m, before);
      SaveOkIff(m, rs);
      assert rs == before + [last];
      if ReleasesFit(m, rs) {
        StoredMore(SaveReleases(m, before).releases, m, before, last);
      } else {
        StoredRefused(SaveReleases(m, before).releases, m, before, last);
      }
    }
  }

  /** The writing does not get as far as the records. */
  ghost predicate StopsEarly(d: Disk, q: Payload) {
    ActiveAbsent(d, q) || BoundaryAbsent(d, q) || !ReleasesFit(d.releases, q.releases)
  }

  /** The active task, a release, its boundary or a lock that is to be kept stands in the way. */
  ghost function StopOf(d: Disk, q: Payload, policy: ImportLockPolicy): Option<ImportError> {
    if ActiveAbsent(d, q) then Some(ActiveTaskMissing)
    else if BoundaryAbsent(d, q) then Some(BoundaryMissing)
    else if !ReleasesFit(d.releases, q.releases) then Some(ReleaseRefused)
    else if policy == Keep && !LocksFit(d.folders, q.locks) then Some(LockExists)
    else None
  }

  function BeforeLocks(d: Disk, q: Payload): Disk {
    Disk(SaveRecords(SaveTasks(d.folders, q.tasks), q.records), SaveReleases(d.releases, q.releases).releases,
         if q.active.Some? then q.active else d.active, d.counter)
  }

  lemma WrittenWhole(d: Disk, q: Payload, policy: ImportLockPolicy)
    ensures var w := WritePayload(d, q, policy);
      var present := TaskIds(SaveTasks(d.folders, q.tasks));
      w.error.None? || ((q.active.Some? ==> q.active.value.taskId in present)
                        && (forall r :: r in q.releases ==> r.boundary in present)
                        && SaveReleases(d.releases, q.releases).ok) ==>
        w == WriteLocks(BeforeLocks(d, q), q.locks, policy)
  {
  }

  lemma BeforeLocksUnlocked(d: Disk, q: Payload)
    ensures LocksFit(BeforeLocks(d, q).folders, q.locks) <==> LocksFit(d.folders, q.locks)
  {
    forall id
      ensures FolderOf(BeforeLocks(d, q).folders, id).lock == FolderOf(d.folders, id).lock
    {
      SaveTasksLocks(d.folders, q.tasks, id);
      SaveRecordsLocks(SaveTasks(d.folders, q.tasks), q.records, id);
    }
  }

  /** The writing stops exactly where the guards say. */
  lemma StopsIff(d: Disk, q: Payload, policy: ImportLockPolicy)
    ensures WritePayload(d, q, policy).error == StopOf(d, q, policy)
  {
    SavedTaskIds(d.folders, q.tasks);
    SaveOkIff(d.releases, q.releases);
    BeforeLocksUnlocked(d, q);
    KeepOkIff(BeforeLocks(d, q).folders, q.locks);
    WrittenWhole(d, q, policy);
  }

  // ---- which folders it has written by then ----

  /** The tasks whose lock is written; kept locks are written up to the first that finds another. */
  ghost function LockedNames(fs: Folders, ls: seq<Lock>, policy: ImportLockPolicy): set<string> {
    match policy
    case Drop => {}
    case Quarantine => set i | 0 <= i < |ls| :: ls[i].taskId
    case Keep => set i | 0 <= i < |ls| && LocksFit(fs, ls[..i + 1]) :: ls[i].taskId
  }

  ghost function WrittenNames(d: Disk, q: Payload, policy: ImportLockPolicy): set<string> {
    (set t | t in q.tasks :: t.id)
    + if StopsEarly(d, q) then {}
      else (set r | r in q.records :: r.Owner()) + LockedNames(d.folders, q.locks, policy)
  }

  lemma {:induction false} SavedTaskKeys(fs: Folders, ts: seq<Task>)
    ensures SaveTasks(fs, ts).Keys == fs.Keys + set t | t in ts :: t.id
  {
    if ts != [] {
      var before, last := ts[..|ts| - 1], ts[|ts| - 1];
      SavedTaskKeys(fs, before);
      assert ts == before + [last];
      assert (set t | t in ts :: t.id) == (set t | t in before :: t.id) + {last.id};
    }
  }

  lemma {:induction false} SavedRecordKeys(fs: Folders, rs: seq<Record>)
    ensures SaveRecords(fs, rs).Keys == fs.Keys + set r | r in rs :: r.Owner()
  {
    if rs != [] {
      var before, last := rs[..|rs| - 1], rs[|rs| - 1];
      SavedRecordKeys(fs, before);
      assert rs == before + [last];
      assert (set r | r in rs :: r.Owner()) == (set r | r in before :: r.Owner()) + {last.Owner()};
    }
  }

  lemma {:induction false} QuarantinedKeys(fs: Folders, ls: seq<Lock>)
    ensures QuarantineLocks(fs, ls).Keys == fs.Keys + LockedNames(fs, ls, Quarantine)
  {
    if ls != [] {
      var before, last := ls[..|ls| - 1], ls[|ls| - 1];
      QuarantinedKeys(fs, before);
      assert ls == before + [last];
      assert LockedNames(fs, ls, Quarantine) == LockedNames(fs, before, Quarantine) + {last.taskId};
    }
  }

  lemma LockedNamesAppend(fs: Folders, before: seq<Lock>, last: Lock)
    ensures LockedNames(fs, before + [last], Keep)
            == LockedNames(fs, before, Keep) + if LocksFit(fs, before + [last]) then {last.taskId} else {}
  {
    var ls := before + [last];
    assert forall i :: 0 <= i < |before| ==> ls[..i + 1] == before[..i + 1] && ls[i] == before[i];
    assert ls[..|before| + 1] == ls && ls[|before|] == last;
    var names := LockedNames(fs, before, Keep) + if LocksFit(fs, ls) then {last.taskId} else {};
    forall x | x in names
      ensures x in LockedNames(fs, ls, Keep)
    {
      if x in LockedNames(fs, before, Keep) {
        var i :| 0 <= i < |before| && LocksFit(fs, before[..i + 1]) && before[i].taskId == x;
        assert LocksFit(fs, ls[..i + 1]) && ls[i].taskId == x;
      } else {
        assert LocksFit(fs, ls[..|before| + 1]) && ls[|before|].taskId == x;
      }
    }
    forall x | x in LockedNames(fs, ls, Keep)
      ensures x in names
    {
      var i :| 0 <= i < |ls| && LocksFit(fs, ls[..i + 1]) && ls[i].taskId == x;
      if i < |before| {
        assert LocksFit(fs, before[..i + 1]) && before[i].taskId == x;
      }
    }
  }

  lemma {:induction false} KeptKeys(fs: Folders, ls: seq<Lock>)
    ensures KeepLocks(fs, ls).folders.Keys == fs.Keys + LockedNames(fs, ls, Keep)
  {
    if ls != [] {
      var before, last := ls[..|ls| - 1], ls[|ls| - 1];
      KeptKeys(fs, before);
      KeepOkIff(fs, ls);
      assert ls == before + [last];
      LockedNamesAppend(fs, before, last);
    }
  }

  lemma SameFit(fs: Folders, gs: Folders, ls: seq<Lock>)
    requires forall id :: FolderOf(fs, id).lock == FolderOf(gs, id).lock
    ensures LockedNames(fs, ls, Keep) == LockedNames(gs, ls, Keep)
  {
    assert forall ks :: Unlocked(fs, ks) <==> Unlocked(gs, ks);
  }

  /** Exactly these folders are there afterwards, however the writing ends. */
  lemma WrittenKeys(d: Disk, q: Payload, policy: ImportLockPolicy)
    ensures WritePayload(d, q, policy).disk.folders.Keys == d.folders.Keys + WrittenNames(d, q, policy)
  {
    SavedTaskIds(d.folders, q.tasks);
    SaveOkIff(d.releases, q.releases);
    SavedTaskKeys(d.folders, q.tasks);
    if !StopsEarly(d, q) {
      var fs := BeforeLocks(d, q).folders;
      SavedRecordKeys(SaveTasks(d.folders, q.tasks), q.records);
      WrittenWhole(d, q, policy);
      QuarantinedKeys(fs, q.locks);
      KeptKeys(fs, q.locks);
      forall id
        ensures FolderOf(fs, id).lock == FolderOf(d.folders, id).lock
      {
        SaveTasksLocks(d.folders, q.tasks, id);
        SaveRecordsLocks(SaveTasks(d.folders, q.tasks), q.records, id);
      }
      SameFit(fs, d.folders, q.locks);
    }
  }

  // ---- the import ----

  /** The ids of the payload can be settled: they may be changed, or none is in use. */
  predicate Mappable(d: Disk, p: Payload, o: Options) {
    EffectivePolicy(o) == RenumberOnConflict || Elements(Incoming(p.tasks)) !! TaskIds(d.folders)
  }

  lemma MappableIff(d: Disk, p: Payload, o: Options)
    ensures ImportMap(d, p, o).Some? <==> Mappable(d, p, o)
  {
    MapExistsIff(TaskIds(d.folders), d.counter, Incoming(p.tasks), EffectivePolicy(o));
  }

  /** The ledger an import writes into. */
  function Start(d: Disk, o: Options): Disk {
    if o.replace then Cleared(d) else d
  }

  /** The payload as it is written, with the ids it gets in this ledger. */
  ghost function Arriving(d: Disk, p: Payload, o: Options): Payload {
    var m := ImportMap(d, p, o);
    RewrittenPayload(p, if m.Some? then m.value else map[], o)
  }

  lemma CounterStays(d: Disk, q: Payload, policy: ImportLockPolicy)
    ensures WritePayload(d, q, policy).disk.counter == d.counter
  {
  }

  lemma ImportRefuses(d: Disk, p: Payload, o: Options)
    requires !Mappable(d, p, o)
    ensures Import(d, p, o) == ImportPost(d, Failure(TaskIdExists))
  {
    MappableIff(d, p, o);
  }

  lemma DryRunReports(d: Disk, p: Payload, o: Options)
    requires Mappable(d, p, o) && o.dryRun
    ensures Import(d, p, o).disk == d && Import(d, p, o).result.Success?
  {
    MappableIff(d, p, o);
  }

  lemma ImportWritten(d: Disk, p: Payload, o: Options, w: Written)
    requires Mappable(d, p, o) && !o.dryRun && w == WritePayload(Start(d, o), Arriving(d, p, o), o.lockPolicy)
    ensures var post := Import(d, p, o);
      && (w.error.None? ==> post.result.Success? && post.disk == Repair(w.disk))
      && (w.error.Some? ==> post.result == Failure(w.error.value) && post.disk == w.disk)
  {
    MappableIff(d, p, o);
    TargetsFree(d, p, o);
  }

  /** An import, told from the guards: it succeeds with a repaired counter, or leaves what it had written. */
  lemma ImportWrites(d: Disk, p: Payload, o: Options)
    requires Mappable(d, p, o) && !o.dryRun
    ensures var w := WritePayload(Start(d, o), Arriving(d, p, o), o.lockPolicy);
      var stop := StopOf(Start(d, o), Arriving(d, p, o), o.lockPolicy);
      var post := Import(d, p, o);
      && w.disk.counter == d.counter
      && (stop.None? ==> post.result.Success? && post.disk == Repair(w.disk))
      && (stop.Some? ==> post.result == Failure(stop.value) && post.disk == w.disk)
  {
    ImportWritten(d, p, o, WritePayload(Start(d, o), Arriving(d, p, o), o.lockPolicy));
    StopsIff(Start(d, o), Arriving(d, p, o), o.lockPolicy);
    CounterStays(Start(d, o), Arriving(d, p, o), o.lockPolicy);
  }
}
