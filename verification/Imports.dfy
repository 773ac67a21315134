/**
 What a successful import leaves in a ledger, record by record: folders, releases, the active task and the counter
 afterwards are told from the archive and from what was there, for merges and for replacing imports.
 */
module Imports {
  import opened Common
  import opened Records
  import opened Ids
  import opened Renumbering
  import opened Payloads
  import opened Rewriting
  import opened Ledger
  import opened Writing
  import opened Numbering
  import opened Transplant

  // ---- one folder ----

  /** The last of the tasks with this id. */
  ghost predicate LastTask(ts: seq<Task>, i: int, id: string) {
    0 <= i < |ts| && ts[i].id == id && forall j :: i < j < |ts| ==> ts[j].id != id
  }

  lemma {:induction false} SavedLast(fs: Folders, ts: seq<Task>, id: string)
    ensures var f := FolderOf(SaveTasks(fs, ts), id);
      && (forall i :: LastTask(ts, i, id) ==> f == FolderOf(fs, id).(task := Some(ts[i])))
      && ((forall t :: t in ts ==> t.id != id) ==> f == FolderOf(fs, id))
      && f == FolderOf(fs, id).(task := f.task)
  {
    if ts != [] {
      var before, last := ts[..|ts| - 1], ts[|ts| - 1];
      SavedLast(fs, before, id);
      assert last in ts && ts == before + [last];
      forall i | LastTask(ts, i, id) && i < |before|
        ensures LastTask(before, i, id)
      {
        assert ts[|before|] == last;
      }
    }
  }

  /** The folder `f` holds what `was` held, overlaid with what the payload has for this task. */
  ghost predicate Received(was: Folder, f: Folder, q: Payload, policy: ImportLockPolicy, id: string) {
    && (forall i :: LastTask(q.tasks, i, id) ==> f.task == Some(q.tasks[i]))
    && ((forall t :: t in q.tasks ==> t.id != id) ==> f.task == was.task)
    && HoldsLast(f.records, was.records, q.records, (r: Record) => r.Owner() == id, (r: Record) => KeyOf(r))
    && (forall l :: l in q.locks && l.taskId == id && policy == Keep ==> f.lock == Some(l))
    && (policy != Keep || (forall l :: l in q.locks ==> l.taskId != id) ==> f.lock == was.lock)
    && (if policy == Quarantine
        then HoldsLast(f.quarantined, was.quarantined, q.locks, (l: Lock) => l.taskId == id, (l: Lock) => l.lockId)
        else f.quarantined == was.quarantined)
  }

  lemma LocksReceived(d: Disk, ls: seq<Lock>, policy: ImportLockPolicy, id: string)
    requires WriteLocks(d, ls, policy).error.None? && (policy == Keep ==> OneLockEach(ls))
    ensures var was, f := FolderOf(d.folders, id), FolderOf(WriteLocks(d, ls, policy).disk.folders, id);
      && f == was.(lock := f.lock, quarantined := f.quarantined)
      && (forall l :: l in ls && l.taskId == id && policy == Keep ==> f.lock == Some(l))
      && (policy != Keep || (forall l :: l in ls ==> l.taskId != id) ==> f.lock == was.lock)
      && (if policy == Quarantine
          then HoldsLast(f.quarantined, was.quarantined, ls, LockOf(id), LockName())
          else f.quarantined == was.quarantined)
  {
    match policy
    case Drop =>
    case Quarantine =>
      QuarantinedLocks(d.folders, ls, id);
      FiledHolds(FolderOf(d.folders, id).quarantined, ls, LockOf(id), LockName());
    case Keep =>
      if l :| l in ls && l.taskId == id {
        forall k | k in ls && k.taskId == l.taskId
          ensures k == l
        {
          var i :| 0 <= i < |ls| && ls[i] == l;
          var j :| 0 <= j < |ls| && ls[j] == k;
          assert !(i < j) && !(j < i);
        }
        KeptLock(d.folders, ls, l);
      } else {
        KeepFrame(d.folders, ls, id);
      }
  }

  lemma HoldsSame<K(!new), V(!new)>(
    m: map<K, V>, base: map<K, V>, items: seq<V>, mine: V -> bool, key: V -> K, mine': V -> bool, key': V -> K)
    requires HoldsLast(m, base, items, mine, key) && forall x :: mine(x) == mine'(x) && key(x) == key'(x)
    ensures HoldsLast(m, base, items, mine', key')
  {
    assert forall i :: IsLast(items, i, mine, key) <==> IsLast(items, i, mine', key');
  }

  lemma FolderReceived(d: Disk, q: Payload, policy: ImportLockPolicy, id: string)
    requires WritePayload(d, q, policy).error.None?
    ensures Received(FolderOf(d.folders, id), FolderOf(WritePayload(d, q, policy).disk.folders, id), q, policy, id)
  {
    var was := FolderOf(d.folders, id);
    var mine, name := (r: Record) => r.Owner() == id, (r: Record) => KeyOf(r);
    var my, lockName := (l: Lock) => l.taskId == id, (l: Lock) => l.lockId;
    StopsIff(d, q, policy);
    WrittenWhole(d, q, policy);
    SavedLast(d.folders, q.tasks, id);
    SavedRecords(SaveTasks(d.folders, q.tasks), q.records, id);
    FiledHolds(was.records, q.records, OwnedBy(id), RecordName());
    LocksReceived(BeforeLocks(d, q), q.locks, policy, id);
    var f := FolderOf(WritePayload(d, q, policy).disk.folders, id);
    HoldsSame(f.records, was.records, q.records, OwnedBy(id), RecordName(), mine, name);
    if policy == Quarantine {
      HoldsSame(f.quarantined, was.quarantined, q.locks, LockOf(id), LockName(), my, lockName);
    }
  }

  // ---- the whole ledger ----

  ghost predicate ReleasesAdded(was: map<string, Release>, m: map<string, Release>, rs: seq<Release>) {
    && (forall v :: v in was ==> v in m && m[v] == was[v])
    && (forall r :: r in rs ==> r.version !in was && r.version in m && m[r.version] == r)
    && (forall v :: v in m && v !in was ==> m[v] in rs && m[v].version == v)
  }

  lemma AllKept(m: map<string, Release>, rs: seq<Release>, i: nat)
    requires ReleasesFit(m, rs) && i < |rs|
    ensures KeptRelease(m, rs, i) && rs[i].version !in m
  {
    assert ReleaseFits(m, rs, i);
    var first := rs[..i + 1];
    forall j | 0 <= j < |first|
      ensures ReleaseFits(m, first, j)
    {
      assert ReleaseFits(m, rs, j);
    }
  }

  lemma ReleasesReceived(m: map<string, Release>, rs: seq<Release>)
    requires ReleasesFit(m, rs)
    ensures ReleasesAdded(m, SaveReleases(m, rs).releases, rs)
  {
    var saved := SaveReleases(m, rs).releases;
    ReleasesStored(m, rs);
    forall r | r in rs
      ensures r.version !in m && r.version in saved && saved[r.version] == r
    {
      var i :| 0 <= i < |rs| && rs[i] == r;
      AllKept(m, rs, i);
    }
    forall v | v in saved && v !in m
      ensures saved[v] in rs && saved[v].version == v
    {
      var i: nat :| KeptRelease(m, rs, i) && rs[i].version == v;
    }
  }

  /** A version names a file if it begins with a letter or digit, and has but these and `.`, `_`, `+`, `-`. */
  lemma NameableIff(version: string)
    ensures Nameable(version) <==>
              && |version| > 0 && version[0] != '.' && version[0] != '_' && version[0] != '+' && version[0] != '-'
              && forall i :: 0 <= i < |version| ==>
                   var c := version[i];
                   'a' <= c <= 'z' || 'A' <= c <= 'Z' || '0' <= c <= '9' || c == '.' || c == '_' || c == '+' || c == '-'
  {
  }

  /** The tasks whose folders the payload has something for. */
  function Named(q: Payload, policy: ImportLockPolicy): set<string> {
    (set t | t in q.tasks :: t.id) + (set r | r in q.records :: r.Owner())
    + if policy == Drop then {} else set l | l in q.locks :: l.taskId
  }

  lemma KeysReceived(d: Disk, q: Payload, policy: ImportLockPolicy)
    requires WritePayload(d, q, policy).error.None?
    ensures WritePayload(d, q, policy).disk.folders.Keys == d.folders.Keys + Named(q, policy)
  {
    StopsIff(d, q, policy);
    WrittenKeys(d, q, policy);
    if policy == Keep {
      LockedAll(d.folders, q.locks);
    }
    assert (set i | 0 <= i < |q.locks| :: q.locks[i].taskId) == set l | l in q.locks :: l.taskId;
  }

  lemma WholeReceived(d: Disk, q: Payload, policy: ImportLockPolicy)
    requires WritePayload(d, q, policy).error.None?
    ensures var w := WritePayload(d, q, policy).disk;
      && w.folders.Keys == d.folders.Keys + Named(q, policy)
      && ReleasesAdded(d.releases, w.releases, q.releases)
      && w.active == (if q.active.Some? then q.active else d.active)
      && w.counter == d.counter
  {
    KeysReceived(d, q, policy);
    StopsIff(d, q, policy);
    WrittenWhole(d, q, policy);
    ReleasesReceived(d.releases, q.releases);
  }

  lemma LockedAll(fs: Folders, ls: seq<Lock>)
    requires LocksFit(fs, ls)
    ensures LockedNames(fs, ls, Keep) == set l | l in ls :: l.taskId
  {
    forall i | 0 <= i < |ls|
      ensures LocksFit(fs, ls[..i + 1]) && ls[i].taskId in LockedNames(fs, ls, Keep)
    {
      assert LocksFit(fs, ls[..i + 1]);
    }
  }

  /**
   A successful import leaves exactly this. Of what was there a replacing import leaves nothing, and a merge
   everything the payload has nothing for; the payload is the archive's, with the ids it gets here.
   */
  lemma ImportedExactly(d: Disk, p: Payload, o: Options)
    requires !o.dryRun && Import(d, p, o).result.Success?
    ensures var q, post := Arriving(d, p, o), Import(d, p, o).disk;
      && ImportMap(d, p, o).Some?
      && post.folders.Keys == (if o.replace then {} else d.folders.Keys) + Named(q, o.lockPolicy)
      && (forall id :: Received(if o.replace then EMPTY else FolderOf(d.folders, id),
                                FolderOf(post.folders, id), q, o.lockPolicy, id))
      && ReleasesAdded(if o.replace then map[] else d.releases, post.releases, q.releases)
      && post.active == if q.active.Some? then q.active else if o.replace then None else d.active
  {
    MappableIff(d, p, o);
    if !Mappable(d, p, o) {
      ImportRefuses(d, p, o);
    }
    var q := Arriving(d, p, o);
    ImportWrites(d, p, o);
    StopsIff(Start(d, o), q, o.lockPolicy);
    WholeReceived(Start(d, o), q, o.lockPolicy);
    RepairAhead(WritePayload(Start(d, o), q, o.lockPolicy).disk);
    forall id
      ensures Received(if o.replace then EMPTY else FolderOf(d.folders, id),
                       FolderOf(Import(d, p, o).disk.folders, id), q, o.lockPolicy, id)
    {
      FolderReceived(Start(d, o), q, o.lockPolicy, id);
    }
  }

  /**
   An import that stops partway leaves this: the tasks; the active task unless it is that which is missing; the releases
   up to the one that is refused; and records only if it got as far as the locks. The counter is not repaired.
   */
  lemma StoppedExactly(d: Disk, p: Payload, o: Options)
    requires Import(d, p, o).result.Failure? && Import(d, p, o).result.error != TaskIdExists
    ensures var q, error, post := Arriving(d, p, o), Import(d, p, o).result.error, Import(d, p, o).disk;
      var releases, active := if o.replace then map[] else d.releases, if o.replace then None else d.active;
      && !o.dryRun && ImportMap(d, p, o).Some? && post.counter == d.counter
      && (forall id, i :: LastTask(q.tasks, i, id) ==> FolderOf(post.folders, id).task == Some(q.tasks[i]))
      && (error != LockExists ==>
            forall id :: FolderOf(post.folders, id).records
                         == (if o.replace then EMPTY else FolderOf(d.folders, id)).records)
      && post.active == (if q.active.Some? && error != ActiveTaskMissing then q.active else active)
      && (error in {ActiveTaskMissing, BoundaryMissing} ==> post.releases == releases)
      && (error == ReleaseRefused ==> StoredIn(post.releases, releases, q.releases))
      && (error == LockExists ==> ReleasesAdded(releases, post.releases, q.releases))
  {
    MappableIff(d, p, o);
    if !Mappable(d, p, o) {
      ImportRefuses(d, p, o);
    } else if o.dryRun {
      DryRunReports(d, p, o);
    } else {
      ImportWrites(d, p, o);
      StoppedWriting(Start(d, o), Arriving(d, p, o), o.lockPolicy);
    }
  }

  lemma StoppedWriting(d: Disk, q: Payload, policy: ImportLockPolicy)
    requires WritePayload(d, q, policy).error.Some?
    ensures var error, post := WritePayload(d, q, policy).error.value, WritePayload(d, q, policy).disk;
      && (forall id, i :: LastTask(q.tasks, i, id) ==> FolderOf(post.folders, id).task == Some(q.tasks[i]))
      && (error != LockExists ==> forall id :: FolderOf(post.folders, id).records == FolderOf(d.folders, id).records)
      && post.active == (if q.active.Some? && error != ActiveTaskMissing then q.active else d.active)
      && (error in {ActiveTaskMissing, BoundaryMissing} ==> post.releases == d.releases)
      && (error == ReleaseRefused ==> StoredIn(post.releases, d.releases, q.releases))
      && (error == LockExists ==> ReleasesAdded(d.releases, post.releases, q.releases))
  {
    var error, post := WritePayload(d, q, policy).error.value, WritePayload(d, q, policy).disk;
    StopsIff(d, q, policy);
    WrittenWhole(d, q, policy);
    ReleasesStored(d.releases, q.releases);
    if error == LockExists {
      ReleasesReceived(d.releases, q.releases);
    }
    forall id
      ensures FolderOf(post.folders, id).task == FolderOf(SaveTasks(d.folders, q.tasks), id).task
      ensures error != LockExists ==> FolderOf(post.folders, id).records == FolderOf(d.folders, id).records
    {
      SavedLast(d.folders, q.tasks, id);
      SavedRecords(SaveTasks(d.folders, q.tasks), q.records, id);
      KeptTasks(BeforeLocks(d, q).folders, q.locks, id);
    }
    forall id, i | LastTask(q.tasks, i, id)
      ensures FolderOf(post.folders, id).task == Some(q.tasks[i])
    {
      SavedLast(d.folders, q.tasks, id);
    }
  }

  lemma {:induction false} KeptTasks(fs: Folders, ls: seq<Lock>, id: string)
    ensures FolderOf(KeepLocks(fs, ls).folders, id).task == FolderOf(fs, id).task
  {
    if ls != [] {
      KeptTasks(fs, ls[..|ls| - 1], id);
    }
  }

  lemma NothingRenamed(d: Disk, p: Payload, o: Options)
    requires o.replace && ImportMap(d, p, o).Some?
    ensures Arriving(d, p, o) == if o.tasksOnly then p.(active := None) else p
  {
    ReplaceNeedsDisjoint(d, p, o);
    if Import(d, p, o).result == Failure(TaskIdExists) {
      MappableIff(d, p, o);
    }
    var m, q := ImportMap(d, p, o).value, Carried(p, !o.tasksOnly);
    forall x
      ensures Renaming(m)(x) == x
    {
      assert x in m && m[x] != x ==> x in Renumbered(m);
    }
    MapAgree(q, Renaming(m), x => x);
    MapIdentity(q);
  }

  /**
   After a replacing import the ledger holds the archive and nothing else: the releases are those of the archive, the
   active task is its active task or there is none, and there are folders for the tasks its tasks, records
   and locks name, with these in them. No id is changed.
   */
  lemma ReplacedExactly(d: Disk, p: Payload, o: Options)
    requires o.replace && !o.dryRun && Import(d, p, o).result.Success?
    ensures var post := Import(d, p, o).disk;
      && post.folders.Keys == Named(p, o.lockPolicy)
      && (forall id :: Received(EMPTY, FolderOf(post.folders, id), p, o.lockPolicy, id))
      && (forall r :: r in p.releases ==> r.version in post.releases && post.releases[r.version] == r)
      && (forall v :: v in post.releases ==> post.releases[v] in p.releases && post.releases[v].version == v)
      && post.active == if o.tasksOnly then None else p.active
  {
    ImportedExactly(d, p, o);
    NothingRenamed(d, p, o);
    forall id
      ensures Received(EMPTY, FolderOf(Import(d, p, o).disk.folders, id), p, o.lockPolicy, id)
    {
      var q := Arriving(d, p, o);
      assert Received(EMPTY, FolderOf(Import(d, p, o).disk.folders, id), q, o.lockPolicy, id);
    }
  }

  // ---- ids, report and counter ----

  /**
   The ids of an archive can be settled exactly if none of them is in use here, or if they may be changed: they may
   where the policy says so, and for an archive of single tasks unless the policy is to fail; never when replacing.
   */
  lemma IdsSettledIff(d: Disk, p: Payload, o: Options)
    ensures ImportMap(d, p, o).Some? <==>
              || (forall t :: t in p.tasks && t.id != "" ==> t.id !in d.folders || d.folders[t.id].task.None?)
              || (!o.replace && (o.idPolicy == RenumberOnConflict || (o.tasksOnly && o.idPolicy == Preserve)))
  {
    MappableIff(d, p, o);
    IncomingAre(p.tasks);
    if forall t :: t in p.tasks && t.id != "" ==> t.id !in d.folders || d.folders[t.id].task.None? {
      forall x | x in Elements(Incoming(p.tasks))
        ensures x !in TaskIds(d.folders)
      {
        var i :| 0 <= i < |p.tasks| && p.tasks[i].id == x;
        assert p.tasks[i] in p.tasks;
      }
    } else {
      var t :| t in p.tasks && t.id != "" && t.id in d.folders && d.folders[t.id].task.Some?;
      var i :| 0 <= i < |p.tasks| && p.tasks[i] == t;
      assert t.id in Elements(Incoming(p.tasks)) && t.id in TaskIds(d.folders);
    }
  }

  lemma {:induction false} IncomingInOrder(ts: seq<Task>)
    requires forall t :: t in ts ==> t.id != ""
    ensures |Incoming(ts)| == |ts| && forall i :: 0 <= i < |ts| ==> Incoming(ts)[i] == ts[i].id
  {
    if ts != [] {
      IncomingInOrder(ts[..|ts| - 1]);
      assert ts[|ts| - 1] in ts;
    }
  }

  /** A report lists the new ids of the tasks in the order of the archive, and the ids that were changed. */
  lemma ReportExact(d: Disk, p: Payload, o: Options)
    requires Import(d, p, o).result.Success? && forall t :: t in p.tasks ==> t.id != ""
    ensures var report := Import(d, p, o).result.value;
      && (forall a :: a in report.idMap <==> exists t :: t in p.tasks && t.id == a)
      && |report.imported| == |p.tasks|
      && (forall i :: 0 <= i < |p.tasks| ==>
            p.tasks[i].id in report.idMap && report.imported[i] == report.idMap[p.tasks[i].id])
      && (forall a :: a in report.renumbered <==> a in report.idMap && report.idMap[a] != a)
  {
    var m := ImportMap(d, p, o).value;
    ImportMapCorrect(d, p, o);
    IncomingInOrder(p.tasks);
    forall a | a in m
      ensures exists t :: t in p.tasks && t.id == a
    {
      var i :| 0 <= i < |p.tasks| && Incoming(p.tasks)[i] == a;
      assert p.tasks[i] in p.tasks && p.tasks[i].id == a;
    }
    forall i | 0 <= i < |p.tasks|
      ensures p.tasks[i].id in m
    {
      assert Incoming(p.tasks)[i] in Elements(Incoming(p.tasks));
    }
  }

  /** The counter is left alone if it is above the number of every folder, and else becomes the next one. */
  lemma RepairLeast(d: Disk)
    ensures Repair(d) == d.(counter := Repair(d).counter)
    ensures Repair(d).counter == d.counter <==> forall id :: id in d.folders && ParseId(TASK, id).Some? ==>
                                                  ParseId(TASK, id).value < d.counter
    ensures Repair(d).counter != d.counter ==>
              && (forall id :: id in d.folders ==> NumberOf(TASK, id) < Repair(d).counter)
              && exists id :: id in d.folders && NumberOf(TASK, id) + 1 == Repair(d).counter
  {
    var ids := d.folders.Keys;
    if id :| id in ids && ParseId(TASK, id).Some? && d.counter <= ParseId(TASK, id).value {
      assert NumberOf(TASK, id) <= MaxNumber(TASK, ids);
      if MaxNumber(TASK, ids) == 0 {
        assert NumberOf(TASK, id) + 1 == Repair(d).counter;
      }
    } else if id :| id in ids && ParseId(TASK, id).Some? {
      assert MaxNumber(TASK, ids) > 0 ==> exists k :: k in ids && NumberOf(TASK, k) == MaxNumber(TASK, ids);
    }
  }

  /** After a successful import the counter is repaired; it was not touched before. */
  lemma ImportedCounter(d: Disk, p: Payload, o: Options)
    requires !o.dryRun && Import(d, p, o).result.Success?
    ensures var post := Import(d, p, o).disk; post == Repair(post.(counter := d.counter))
  {
    MappableIff(d, p, o);
    if !Mappable(d, p, o) {
      ImportRefuses(d, p, o);
    }
    ImportWrites(d, p, o);
    RepairAhead(WritePayload(Start(d, o), Arriving(d, p, o), o.lockPolicy).disk);
  }

  /** A new task is a draft with nothing to it; it gets the least number the counter and the tasks leave free. */
  lemma CreatedExactly(d: Disk)
    ensures var post, id := Create(d), CreatedId(d);
      && id == FormatId(TASK, post.counter - 1) && post.counter > d.counter
      && (forall other :: other in TaskIds(d.folders) ==> NumberOf(TASK, other) < post.counter - 1)
      && (post.counter - 1 == d.counter || post.counter == 2
          || exists other :: other in TaskIds(d.folders) && NumberOf(TASK, other) + 2 == post.counter)
      && (forall other :: other in post.folders <==> other in d.folders || other == id)
      && (forall other :: other in d.folders && other != id ==> post.folders[other] == d.folders[other])
      && (var t := post.folders[id].task;
          && t.Some? && t.value.id == id && t.value.stage == Draft && !t.value.archived
          && t.value.latestPlan.None? && t.value.acceptedPlan.None? && t.value.latestPlanningRun.None?
          && t.value.latestImplementationRun.None? && t.value.latestValidationRun.None?
          && t.value.changeLog == [] && t.value.parent.None? && t.value.requirements == []
          && post.folders[id] == FolderOf(d.folders, id).(task := t))
      && post.releases == d.releases && post.active == d.active
  {
    NextTaskNumberLeast(TaskIds(d.folders), d.counter);
  }
}
