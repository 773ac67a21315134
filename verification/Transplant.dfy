/** What an import leaves in the folders: the renamed records of the archive, and nothing anywhere else. */
module Transplant {
  import opened Common
  import opened Records
  import opened Ids
  import opened Renumbering
  import opened Payloads
  import opened Rewriting
  import opened Ledger
  import opened Writing
  import opened Numbering

  predicate Writes(q: Payload, id: string) {
    || (exists t :: t in q.tasks && t.id == id)
    || (exists r :: r in q.records && r.Owner() == id)
    || (exists l :: l in q.locks && l.taskId == id)
  }

  lemma WriteFrame(d: Disk, q: Payload, policy: ImportLockPolicy, id: string)
    requires !Writes(q, id)
    ensures Same(d.folders, WritePayload(d, q, policy).disk.folders, id)
  {
    SaveTasksFrame(d.folders, q.tasks, id);
    var tasks := SaveTasks(d.folders, q.tasks);
    SaveRecordsFrame(tasks, q.records, id);
    var records := SaveRecords(tasks, q.records);
    QuarantineFrame(records, q.locks, id);
    KeepFrame(records, q.locks, id);
  }

  // ---- the payload's own folders ----

  /** Every reference of the payload is to one of its own tasks. */
  ghost predicate Closed(p: Payload) {
    forall x :: x in References(p) ==> x in Incoming(p.tasks)
  }

  lemma OwnersReferenced(p: Payload)
    ensures forall r :: r in p.records ==> r.Owner() in References(p)
    ensures forall l :: l in p.locks ==> l.taskId in References(p)
    ensures forall t :: t in p.tasks ==> t.id in References(p)
  {
    var owners := Each(p.records, (r: Record) => r.Owner());
    assert forall i :: 0 <= i < |p.records| ==> p.records[i].Owner() == owners[i];
    var lockOwners := Each(p.locks, (l: Lock) => l.taskId);
    assert forall i :: 0 <= i < |p.locks| ==> p.locks[i].taskId == lockOwners[i];
    forall t | t in p.tasks
      ensures t.id in AllTaskRefs(p.tasks)
    {
      var i :| 0 <= i < |p.tasks| && p.tasks[i] == t;
      assert t.id in TaskRefs(t);
      FlattenHas(Each(p.tasks, t => TaskRefs(t)), i, t.id);
    }
  }

  /** After the renaming of a closed payload, everything in it belongs to a target of the map. */
  lemma WritesOnlyTargets(p: Payload, m: map<string, string>, id: string)
    requires Closed(p) && m.Keys == Elements(Incoming(p.tasks)) && Writes(MapPayload(p, Renaming(m)), id)
    ensures id in m.Values
  {
    var q := MapPayload(p, Renaming(m));
    OwnersReferenced(q);
    ReferencesMap(p, Renaming(m));
    var i :| 0 <= i < |References(q)| && References(q)[i] == id;
    var x := References(p)[i];
    assert x in References(p);
    assert x in Elements(Incoming(p.tasks));
    assert m[x] == id;
  }

  lemma CarriedClosed(p: Payload, includeActive: bool)
    requires Closed(p)
    ensures Closed(Carried(p, includeActive))
  {
  }

  /**
   However it ends, an import into a ledger leaves every folder alone that is not a target of its map,
   provided the payload refers only to its own tasks; in particular every task already there.
   */
  lemma MergeLeavesOthers(d: Disk, p: Payload, o: Options, id: string)
    requires Closed(p) && !o.replace
    requires ImportMap(d, p, o).Some? ==> id !in ImportMap(d, p, o).value.Values
    ensures Same(d.folders, Import(d, p, o).disk.folders, id)
  {
    MappableIff(d, p, o);
    if !Mappable(d, p, o) {
      ImportRefuses(d, p, o);
    } else if o.dryRun {
      DryRunReports(d, p, o);
    } else {
      var m := ImportMap(d, p, o).value;
      ImportMapCorrect(d, p, o);
      ImportWrites(d, p, o);
      CarriedClosed(p, !o.tasksOnly);
      var q := Arriving(d, p, o);
      if Writes(q, id) {
        WritesOnlyTargets(Carried(p, !o.tasksOnly), m, id);
      }
      WriteFrame(d, q, o.lockPolicy, id);
    }
  }

  lemma MergeKeepsTasks(d: Disk, p: Payload, o: Options, id: string)
    requires Closed(p) && !o.replace && id in TaskIds(d.folders)
    ensures id in Import(d, p, o).disk.folders && Import(d, p, o).disk.folders[id] == d.folders[id]
  {
    if ImportMap(d, p, o).Some? {
      ImportMapCorrect(d, p, o);
    }
    MergeLeavesOthers(d, p, o, id);
  }

  // ---- when a folder is left alone, for any payload ----

  /** A map after items have been filed in it one after the other: those of interest, each under its key. */
  function Filed<K, V>(base: map<K, V>, items: seq<V>, mine: V -> bool, key: V -> K): map<K, V> {
    if items == [] then base
    else
      var before, last := Filed(base, items[..|items| - 1], mine, key), items[|items| - 1];
      if mine(last) then before[key(last) := last] else before
  }

  /** No later item of interest has the key of this one. */
  ghost predicate IsLast<K(!new), V(!new)>(items: seq<V>, i: int, mine: V -> bool, key: V -> K) {
    && 0 <= i < |items| && mine(items[i])
    && forall j :: i < j < |items| && mine(items[j]) ==> key(items[j]) != key(items[i])
  }

  /** Every item that is last under its key is there already. */
  ghost predicate There<K(!new), V(!new)>(base: map<K, V>, items: seq<V>, mine: V -> bool, key: V -> K) {
    forall i :: IsLast(items, i, mine, key) ==> key(items[i]) in base && base[key(items[i])] == items[i]
  }

  /** A key holds the last item filed under it, or what it held before. */
  ghost predicate HoldsLast<K(!new), V(!new)>(
    m: map<K, V>, base: map<K, V>, items: seq<V>, mine: V -> bool, key: V -> K) {
    && There(m, items, mine, key)
    && (forall k :: k in base ==> k in m)
    && (forall k :: k in m ==>
          || (k in base && base[k] == m[k])
          || exists i :: IsLast(items, i, mine, key) && key(items[i]) == k)
  }

  lemma HoldsLastAppend<K(!new), V(!new)>(
    m: map<K, V>, base: map<K, V>, items: seq<V>, x: V, mine: V -> bool, key: V -> K)
    requires HoldsLast(m, base, items, mine, key)
    ensures HoldsLast(if mine(x) then m[key(x) := x] else m, base, items + [x], mine, key)
  {
    var more := items + [x];
    var now := if mine(x) then m[key(x) := x] else m;
    assert mine(x) ==> IsLast(more, |items|, mine, key);
    forall i | IsLast(more, i, mine, key)
      ensures key(more[i]) in now && now[key(more[i])] == more[i]
    {
      if i < |items| {
        forall j | i < j < |items| && mine(items[j])
          ensures key(items[j]) != key(items[i])
        {
          assert more[j] == items[j];
        }
        assert IsLast(items, i, mine, key);
        assert mine(x) ==> key(more[|items|]) != key(more[i]);
      }
    }
    forall k | k in now && !(k in base && base[k] == now[k])
      ensures exists i :: IsLast(more, i, mine, key) && key(more[i]) == k
    {
      if mine(x) && key(x) == k {
        assert key(more[|items|]) == k;
      } else {
        var i :| IsLast(items, i, mine, key) && key(items[i]) == k;
        assert IsLast(more, i, mine, key) && key(more[i]) == k;
      }
    }
  }

  lemma {:induction false} FiledHolds<K(!new), V(!new)>(base: map<K, V>, items: seq<V>, mine: V -> bool, key: V -> K)
    ensures HoldsLast(Filed(base, items, mine, key), base, items, mine, key)
  {
    if items != [] {
      var before, last := items[..|items| - 1], items[|items| - 1];
      FiledHolds(base, before, mine, key);
      HoldsLastAppend(Filed(base, before, mine, key), base, before, last, mine, key);
      assert items == before + [last];
    }
  }

  /** Filing changes nothing exactly when what ends up under each key is there already. */
  lemma FiledSameIff<K(!new), V(!new)>(base: map<K, V>, items: seq<V>, mine: V -> bool, key: V -> K)
    ensures Filed(base, items, mine, key) == base <==> There(base, items, mine, key)
  {
    var m := Filed(base, items, mine, key);
    FiledHolds(base, items, mine, key);
    if There(base, items, mine, key) {
      assert forall k :: k in m ==> k in base && base[k] == m[k];
    }
  }

  /** Filing into a map is filing elsewhere and laying the result over it. */
  lemma {:induction false} FiledOver<K(!new), V(!new)>(base: map<K, V>, items: seq<V>, mine: V -> bool, key: V -> K)
    ensures Filed(base, items, mine, key) == base + Filed(map[], items, mine, key)
  {
    if items != [] {
      FiledOver(base, items[..|items| - 1], mine, key);
    }
  }

  function OwnedBy(id: string): Record -> bool {
    (r: Record) => r.Owner() == id
  }

  function LockOf(id: string): Lock -> bool {
    (l: Lock) => l.taskId == id
  }

  function LockName(): Lock -> string {
    (l: Lock) => l.lockId
  }

  function RecordName(): Record -> RecordKey {
    (r: Record) => KeyOf(r)
  }

  lemma {:induction false} SavedRecords(fs: Folders, rs: seq<Record>, id: string)
    ensures var f := FolderOf(fs, id);
      FolderOf(SaveRecords(fs, rs), id) == f.(records := Filed(f.records, rs, OwnedBy(id), RecordName()))
  {
    if rs != [] {
      SavedRecords(fs, rs[..|rs| - 1], id);
    }
  }

  lemma {:induction false} QuarantinedLocks(fs: Folders, ls: seq<Lock>, id: string)
    ensures var f := FolderOf(fs, id);
      FolderOf(QuarantineLocks(fs, ls), id) == f.(quarantined := Filed(f.quarantined, ls, LockOf(id), LockName()))
  {
    if ls != [] {
      QuarantinedLocks(fs, ls[..|ls| - 1], id);
    }
  }

  /** A lock lands in a folder if it is kept before the first that finds another. */
  ghost predicate KeepsOne(fs: Folders, ls: seq<Lock>, id: string) {
    id in LockedNames(fs, ls, Keep)
  }

  lemma {:induction false} KeptLands(fs: Folders, ls: seq<Lock>, id: string)
    ensures KeepsOne(fs, ls, id) <==> FolderOf(KeepLocks(fs, ls).folders, id) != FolderOf(fs, id)
    ensures KeepsOne(fs, ls, id) ==> FolderOf(fs, id).lock.None? && FolderOf(KeepLocks(fs, ls).folders, id).lock.Some?
  {
    if ls != [] {
      var before, last := ls[..|ls| - 1], ls[|ls| - 1];
      KeptLands(fs, before, id);
      KeepOkIff(fs, before);
      KeepOkIff(fs, ls);
      assert ls == before + [last];
      LockedNamesAppend(fs, before, last);
    }
  }

  /** Of the records and locks that are written, those of this task are there already, and no lock becomes live. */
  ghost predicate LeavesAlone(d: Disk, q: Payload, policy: ImportLockPolicy, id: string) {
    var f := FolderOf(d.folders, id);
    StopsEarly(d, q)
    || (&& There(f.records, q.records, OwnedBy(id), RecordName())
        && (policy == Quarantine ==> There(f.quarantined, q.locks, LockOf(id), LockName()))
        && (policy == Keep ==> !KeepsOne(d.folders, q.locks, id)))
  }

  lemma BeforeLocksFolder(d: Disk, q: Payload, id: string)
    requires forall t :: t in q.tasks ==> t.id != id
    ensures var f := FolderOf(d.folders, id);
      FolderOf(BeforeLocks(d, q).folders, id) == f.(records := Filed(f.records, q.records, OwnedBy(id), RecordName()))
  {
    SaveTasksFrame(d.folders, q.tasks, id);
    SavedRecords(SaveTasks(d.folders, q.tasks), q.records, id);
  }

  lemma LocksLeave(d: Disk, q: Payload, policy: ImportLockPolicy, id: string)
    ensures var w := WriteLocks(BeforeLocks(d, q), q.locks, policy).disk.folders;
      var f := FolderOf(BeforeLocks(d, q).folders, id);
      FolderOf(w, id) == f
      <==> (policy == Quarantine ==> There(f.quarantined, q.locks, LockOf(id), LockName()))
           && (policy == Keep ==> !KeepsOne(d.folders, q.locks, id))
  {
    var fs := BeforeLocks(d, q).folders;
    forall x
      ensures FolderOf(fs, x).lock == FolderOf(d.folders, x).lock
    {
      SaveTasksLocks(d.folders, q.tasks, x);
      SaveRecordsLocks(SaveTasks(d.folders, q.tasks), q.records, x);
    }
    SameFit(fs, d.folders, q.locks);
    QuarantinedLocks(fs, q.locks, id);
    FiledSameIff(FolderOf(fs, id).quarantined, q.locks, LockOf(id), LockName());
    KeptLands(fs, q.locks, id);
  }

  lemma LocksKeepRecords(d: Disk, ls: seq<Lock>, policy: ImportLockPolicy, id: string)
    ensures FolderOf(WriteLocks(d, ls, policy).disk.folders, id).records == FolderOf(d.folders, id).records
  {
    QuarantinedLocks(d.folders, ls, id);
    KeptRecords(d.folders, ls, id);
  }

  lemma {:induction false} KeptRecords(fs: Folders, ls: seq<Lock>, id: string)
    ensures FolderOf(KeepLocks(fs, ls).folders, id).records == FolderOf(fs, id).records
  {
    if ls != [] {
      KeptRecords(fs, ls[..|ls| - 1], id);
    }
  }

  /** What the writing makes of a folder that is not one of its tasks'. */
  lemma WriteLeavesIff(d: Disk, q: Payload, policy: ImportLockPolicy, id: string)
    requires forall t :: t in q.tasks ==> t.id != id
    ensures FolderOf(WritePayload(d, q, policy).disk.folders, id) == FolderOf(d.folders, id)
            <==> LeavesAlone(d, q, policy, id)
  {
    var f := FolderOf(d.folders, id);
    SavedTaskIds(d.folders, q.tasks);
    SaveOkIff(d.releases, q.releases);
    WrittenWhole(d, q, policy);
    SaveTasksFrame(d.folders, q.tasks, id);
    if !StopsEarly(d, q) {
      BeforeLocksFolder(d, q, id);
      FiledSameIff(f.records, q.records, OwnedBy(id), RecordName());
      LocksLeave(d, q, policy, id);
      LocksKeepRecords(BeforeLocks(d, q), q.locks, policy, id);
    }
  }

  /** A folder that was not there and stays empty is still not there. */
  lemma LeftAbsent(d: Disk, q: Payload, policy: ImportLockPolicy, id: string)
    requires (forall t :: t in q.tasks ==> t.id != id) && id !in d.folders && LeavesAlone(d, q, policy, id)
    ensures id !in WritePayload(d, q, policy).disk.folders
  {
    WrittenKeys(d, q, policy);
    if !StopsEarly(d, q) {
      NothingFiled(q.records, OwnedBy(id), RecordName());
      if policy == Quarantine {
        NothingFiled(q.locks, LockOf(id), LockName());
      }
    }
  }

  lemma {:induction false} LastExists<K(!new), V(!new)>(items: seq<V>, i: int, mine: V -> bool, key: V -> K)
    requires 0 <= i < |items| && mine(items[i])
    ensures exists j :: IsLast(items, j, mine, key)
    decreases |items| - i
  {
    if !IsLast(items, i, mine, key) {
      var j :| i < j < |items| && mine(items[j]);
      LastExists(items, j, mine, key);
    }
  }

  lemma NothingFiled<K(!new), V(!new)>(items: seq<V>, mine: V -> bool, key: V -> K)
    requires There(map[], items, mine, key)
    ensures forall x :: x in items ==> !mine(x)
  {
    if x :| x in items && mine(x) {
      var i :| 0 <= i < |items| && items[i] == x;
      LastExists(items, i, mine, key);
    }
  }

  lemma ArrivingTasks(d: Disk, p: Payload, o: Options, id: string)
    requires id != "" && ImportMap(d, p, o).Some? && id !in ImportMap(d, p, o).value.Values
    ensures forall t :: t in Arriving(d, p, o).tasks ==> t.id != id
  {
    var m := ImportMap(d, p, o).value;
    var q := Arriving(d, p, o);
    ImportMapCorrect(d, p, o);
    IncomingAre(p.tasks);
    forall t | t in q.tasks
      ensures t.id != id
    {
      var i :| 0 <= i < |q.tasks| && q.tasks[i] == t;
      assert t.id == Renaming(m)(p.tasks[i].id);
    }
  }

  /**
   For every payload, closed or not: however a merge ends, it leaves a folder alone that is not a target of its map
   exactly when it writes no record there but those the folder has, and no lock.
   */
  lemma MergeLeavesIff(d: Disk, p: Payload, o: Options, id: string)
    requires !o.replace && id != ""
    requires ImportMap(d, p, o).Some? ==> id !in ImportMap(d, p, o).value.Values
    ensures Same(d.folders, Import(d, p, o).disk.folders, id)
            <==> (Mappable(d, p, o) && !o.dryRun ==> LeavesAlone(d, Arriving(d, p, o), o.lockPolicy, id))
  {
    MappableIff(d, p, o);
    if !Mappable(d, p, o) {
      ImportRefuses(d, p, o);
    } else if o.dryRun {
      DryRunReports(d, p, o);
    } else {
      var q := Arriving(d, p, o);
      ArrivingTasks(d, p, o, id);
      ImportWrites(d, p, o);
      WriteLeavesIff(d, q, o.lockPolicy, id);
      WrittenKeys(d, q, o.lockPolicy);
      if id !in d.folders && LeavesAlone(d, q, o.lockPolicy, id) {
        LeftAbsent(d, q, o.lockPolicy, id);
      }
    }
  }

  /** Every task already there keeps its folder exactly on that condition. */
  lemma MergeKeepsTaskIff(d: Disk, p: Payload, o: Options, id: string)
    requires !o.replace && id != "" && id in TaskIds(d.folders)
    ensures id in Import(d, p, o).disk.folders
    ensures Import(d, p, o).disk.folders[id] == d.folders[id]
            <==> (Mappable(d, p, o) && !o.dryRun ==> LeavesAlone(d, Arriving(d, p, o), o.lockPolicy, id))
  {
    MappableIff(d, p, o);
    if Mappable(d, p, o) {
      ImportMapCorrect(d, p, o);
      if !o.dryRun {
        ImportWrites(d, p, o);
        WrittenKeys(d, Arriving(d, p, o), o.lockPolicy);
      } else {
        DryRunReports(d, p, o);
      }
    } else {
      ImportRefuses(d, p, o);
    }
    MergeLeavesIff(d, p, o, id);
  }

  /** A payload that fails the condition: one record of an outside task replaces that task's record. */
  lemma OutsideRecordOverwrites(d: Disk, r: Record, o: Options)
    requires !o.replace && !o.dryRun && r.Owner() in TaskIds(d.folders)
    requires KeyOf(r) in d.folders[r.Owner()].records && d.folders[r.Owner()].records[KeyOf(r)] != r
    ensures var p := Payload([], [r], [], [], [], None);
      Import(d, p, o).result.Success? && Import(d, p, o).disk.folders[r.Owner()] != d.folders[r.Owner()]
  {
    var p := Payload([], [r], [], [], [], None);
    var m: map<string, string> := map[];
    assert ImportMap(d, p, o) == Some(m);
    MappableIff(d, p, o);
    var q := Arriving(d, p, o);
    assert q.records == [r] && q.records[..0] == [] && q.tasks == [] && q.locks == [];
    ImportWrites(d, p, o);
    assert SaveRecords(d.folders, q.records) == SaveRecord(d.folders, r);
    assert WritePayload(d, q, o.lockPolicy).disk.folders == SaveRecord(d.folders, r);
  }

  // ---- when an import of a closed payload succeeds ----

  lemma ReferencesRenamed(p: Payload, m: map<string, string>, x: string)
    requires Closed(p) && m.Keys == Elements(Incoming(p.tasks)) && x in References(MapPayload(p, Renaming(m)))
    ensures exists t :: t in MapPayload(p, Renaming(m)).tasks && t.id == x
  {
    ReferencesMap(p, Renaming(m));
    IncomingAre(p.tasks);
    var k :| 0 <= k < |References(p)| && Renaming(m)(References(p)[k]) == x;
    assert References(p)[k] in References(p);
    var i :| 0 <= i < |p.tasks| && p.tasks[i].id == References(p)[k];
    assert MapPayload(p, Renaming(m)).tasks[i].id == x;
  }

  lemma PointersReferenced(q: Payload)
    ensures q.active.Some? ==> q.active.value.taskId in References(q)
    ensures forall r :: r in q.releases ==> r.boundary in References(q)
  {
    if q.active.Some? {
      assert q.active.value.taskId in ActiveRefs(q.active);
    }
    forall r | r in q.releases
      ensures r.boundary in References(q)
    {
      EachIn(q.releases, (r: Release) => r.boundary, r);
    }
  }

  /** Whatever the rewritten payload points at, it brings along. */
  lemma NothingAbsent(d: Disk, p: Payload, m: map<string, string>)
    requires Closed(p) && m.Keys == Elements(Incoming(p.tasks))
    ensures var q := MapPayload(p, Renaming(m)); !ActiveAbsent(d, q) && !BoundaryAbsent(d, q)
  {
    var q := MapPayload(p, Renaming(m));
    PointersReferenced(q);
    forall x | x in References(q)
      ensures x in Present(d, q)
    {
      ReferencesRenamed(p, m, x);
    }
  }

  lemma OneLockRenamed(p: Payload, m: map<string, string>)
    requires Injective(m) && forall l :: l in p.locks ==> l.taskId in m
    ensures OneLockEach(p.locks) <==> OneLockEach(MapPayload(p, Renaming(m)).locks)
  {
    var ls := MapPayload(p, Renaming(m)).locks;
    assert forall i :: 0 <= i < |ls| ==> p.locks[i] in p.locks && ls[i].taskId == m[p.locks[i].taskId];
  }

  /** No folder into which a lock of the payload is to be written has one. */
  ghost predicate TargetsUnlocked(fs: Folders, p: Payload, m: map<string, string>) {
    forall l :: l in p.locks ==> FolderOf(fs, Rename(m, l.taskId)).lock.None?
  }

  lemma UnlockedRenamed(fs: Folders, p: Payload, m: map<string, string>)
    ensures Unlocked(fs, MapPayload(p, Renaming(m)).locks) <==> TargetsUnlocked(fs, p, m)
  {
    var ls := MapPayload(p, Renaming(m)).locks;
    assert forall i :: 0 <= i < |ls| ==> p.locks[i] in p.locks && ls[i].taskId == Rename(m, p.locks[i].taskId);
    if Unlocked(fs, ls) {
      forall l | l in p.locks
        ensures FolderOf(fs, Rename(m, l.taskId)).lock.None?
      {
        var i :| 0 <= i < |p.locks| && p.locks[i] == l;
        assert FolderOf(fs, ls[i].taskId).lock.None?;
      }
    }
  }

  lemma LocksFitIff(fs: Folders, p: Payload, m: map<string, string>)
    requires Closed(p) && m.Keys == Elements(Incoming(p.tasks)) && Injective(m)
    ensures LocksFit(fs, MapPayload(p, Renaming(m)).locks) <==> OneLockEach(p.locks) && TargetsUnlocked(fs, p, m)
  {
    OwnersReferenced(p);
    assert forall l :: l in p.locks ==> l.taskId in Elements(Incoming(p.tasks));
    OneLockRenamed(p, m);
    UnlockedRenamed(fs, p, m);
  }

  lemma ReleasesRenamed(d: Disk, p: Payload, f: string -> string)
    ensures ReleasesFit(d.releases, MapPayload(p, f).releases) <==> ReleasesFit(d.releases, p.releases)
  {
    var rs := MapPayload(p, f).releases;
    assert |rs| == |p.releases| && forall i :: 0 <= i < |rs| ==> rs[i].version == p.releases[i].version;
    assert forall i :: 0 <= i < |rs| ==> (ReleaseFits(d.releases, rs, i) <==> ReleaseFits(d.releases, p.releases, i));
  }

  /** Every release is new, and every lock that is to be kept finds its task unlocked. */
  ghost predicate Fits(d: Disk, p: Payload, m: map<string, string>, policy: ImportLockPolicy) {
    && ReleasesFit(d.releases, p.releases)
    && (policy == Keep ==> OneLockEach(p.locks) && TargetsUnlocked(d.folders, p, m))
  }

  /**
   An import of a payload that refers only to its own tasks succeeds exactly when the ids can be mapped, its releases
   are nameable and new and, if locks are to be kept, no task has two and no folder they go to is locked; it stops
   partway only for such releases and locks.
   */
  lemma ClosedImportIff(d: Disk, p: Payload, o: Options)
    requires Closed(p) && !o.dryRun
    ensures var m := ImportMap(d, p, o);
      var fit := m.Some? ==> Fits(Start(d, o), p, m.value, o.lockPolicy);
      && (Import(d, p, o).result.Success? <==> m.Some? && fit)
      && (FailsPartway(d, ImportStep(p, o)) <==> m.Some? && !fit)
  {
    MappableIff(d, p, o);
    if Mappable(d, p, o) {
      var m := ImportMap(d, p, o).value;
      ImportMapCorrect(d, p, o);
      ImportWrites(d, p, o);
      CarriedClosed(p, !o.tasksOnly);
      NothingAbsent(Start(d, o), Carried(p, !o.tasksOnly), m);
      ReleasesRenamed(Start(d, o), Carried(p, !o.tasksOnly), Renaming(m));
      LocksFitIff(Start(d, o).folders, Carried(p, !o.tasksOnly), m);
    } else {
      ImportRefuses(d, p, o);
    }
  }

  /** For every ledger and every closed payload, the ids it gets keep who refers to whom. */
  lemma ImportKeepsGraph(d: Disk, p: Payload, o: Options)
    requires Closed(p) && ImportMap(d, p, o).Some?
    ensures SameGraph(Carried(p, !o.tasksOnly), Arriving(d, p, o))
  {
    var m := ImportMap(d, p, o).value;
    var carried := Carried(p, !o.tasksOnly);
    ImportMapCorrect(d, p, o);
    CarriedClosed(p, !o.tasksOnly);
    forall a | a in m
      ensures a in References(carried)
    {
      assert a in Incoming(p.tasks);
      IncomingAre(p.tasks);
      var i :| 0 <= i < |p.tasks| && p.tasks[i].id == a;
      OwnersReferenced(carried);
      assert carried.tasks[i] in carried.tasks;
    }
    forall x | x in References(carried)
      ensures x in m
    {
      assert x in Elements(Incoming(p.tasks));
    }
    SameGraphIff(carried, m);
  }

  /** A task that refers to one outside. */
  function Orphan(n: nat): Payload {
    Payload([NewBundle(FormatId(TASK, n)).task.(parent := Some(FormatId(TASK, n + 1)))], [], [], [], [], None)
  }

  lemma FirstTask(n: nat)
    requires n > 0
    ensures var d := Create(Disk(map[], map[], None, n));
      TaskIds(d.folders) == {FormatId(TASK, n)} && d.counter == n + 1
  {
    assert TaskIds(map[]) == {};
  }

  lemma OrphanMap(d: Disk, n: nat)
    requires TaskIds(d.folders) == {FormatId(TASK, n)} && d.counter == n + 1
    ensures ImportMap(d, Orphan(n), MERGING) == Some(map[FormatId(TASK, n) := FormatId(TASK, n + 1)])
  {
    var id := FormatId(TASK, n);
    var ts := Orphan(n).tasks;
    assert ts[..0] == [];
    assert Incoming(ts) == [id];
    ConflictMoves(n);
  }

  /**
   For a payload that is not closed it need not: into the ledger that a new one becomes by creating a task, a task of
   the same number is merged whose parent is outside the payload. It gets the number of its parent, and so becomes
   its own parent.
   */
  lemma ImportCaptures(n: nat)
    requires n > 0
    ensures var d := Create(Disk(map[], map[], None, n));
      && ImportMap(d, Orphan(n), MERGING).Some? && !SameGraph(Orphan(n), Arriving(d, Orphan(n), MERGING))
      && Arriving(d, Orphan(n), MERGING).tasks[0].parent == Some(Arriving(d, Orphan(n), MERGING).tasks[0].id)
  {
    var d := Create(Disk(map[], map[], None, n));
    var own, parent := FormatId(TASK, n), FormatId(TASK, n + 1);
    var p := Orphan(n);
    FirstTask(n);
    OrphanMap(d, n);
    ParseFormat(TASK, n);
    ParseFormat(TASK, n + 1);
    var m := map[own := parent];
    OwnersReferenced(p);
    assert p.tasks[0] in p.tasks;
    assert parent in TaskRefs(p.tasks[0]);
    FlattenHas(Each(p.tasks, t => TaskRefs(t)), 0, parent);
    assert parent in References(p) && own in References(p);
    assert parent !in m && parent in m.Values;
    SameGraphIff(p, m);
  }

  // ---- the folder of an imported task ----

  /** The archive of some folders: their tasks, all their records and their locks, in any order. */
  ghost predicate Exported(src: Folders, p: Payload) {
    && (forall id :: id in src ==> id != "" && WellFiled(id, src[id]) && src[id].task.value in p.tasks)
    && (forall t :: t in p.tasks ==> t.id in src && src[t.id].task == Some(t))
    && (forall id, k :: id in src && k in src[id].records ==> src[id].records[k] in p.records)
    && (forall r :: r in p.records ==> InFolder(src, r))
    && (forall id :: id in src && src[id].lock.Some? ==> src[id].lock.value in p.locks)
    && (forall l :: l in p.locks ==> l.taskId in src && src[l.taskId].lock == Some(l))
  }

  /** A folder holds its own task, and records and a lock of that task. */
  ghost predicate WellFiled(id: string, f: Folder) {
    && f.task.Some? && f.task.value.id == id
    && (forall k :: k in f.records ==> KeyOf(f.records[k]) == k && f.records[k].Owner() == id)
    && (f.lock.Some? ==> f.lock.value.taskId == id)
  }

  predicate InFolder(src: Folders, r: Record) {
    r.Owner() in src && KeyOf(r) in src[r.Owner()].records && src[r.Owner()].records[KeyOf(r)] == r
  }

  lemma {:induction false} SavedTask(fs: Folders, ts: seq<Task>, t: Task)
    requires t in ts && forall u :: u in ts && u.id == t.id ==> u == t
    ensures FolderOf(SaveTasks(fs, ts), t.id) == FolderOf(fs, t.id).(task := Some(t))
  {
    var before, last := ts[..|ts| - 1], ts[|ts| - 1];
    assert last in ts;
    if t in before {
      SavedTask(fs, before, t);
    } else {
      SaveTasksFrame(fs, before, t.id);
    }
  }

  /** Exactly the keys of the records of `id` in `rs`, each with such a record. */
  ghost predicate Collects(c: map<RecordKey, Record>, rs: seq<Record>, id: string) {
    && (forall k :: k in c ==> c[k] in rs && KeyOf(c[k]) == k && c[k].Owner() == id)
    && (forall r :: r in rs && r.Owner() == id ==> KeyOf(r) in c)
  }

  lemma CollectsOne(c: map<RecordKey, Record>, rs: seq<Record>, id: string, r: Record)
    requires Collects(c, rs, id)
    ensures Collects(if r.Owner() == id then c[KeyOf(r) := r] else c, rs + [r], id)
  {
  }

  lemma {:induction false} FiledCollects(rs: seq<Record>, id: string)
    ensures Collects(Filed(map[], rs, OwnedBy(id), RecordName()), rs, id)
  {
    if rs != [] {
      var before, last := rs[..|rs| - 1], rs[|rs| - 1];
      FiledCollects(before, id);
      CollectsOne(Filed(map[], before, OwnedBy(id), RecordName()), before, id, last);
      assert rs == before + [last];
    }
  }

  lemma {:induction false} QuarantinedLock(fs: Folders, ls: seq<Lock>, l: Lock)
    requires l in ls && forall k :: k in ls && k.taskId == l.taskId ==> k == l
    ensures var f := FolderOf(fs, l.taskId);
      FolderOf(QuarantineLocks(fs, ls), l.taskId) == f.(quarantined := f.quarantined[l.lockId := l])
  {
    var before, last := ls[..|ls| - 1], ls[|ls| - 1];
    assert last in ls;
    if l in before {
      QuarantinedLock(fs, before, l);
    } else {
      QuarantineFrame(fs, before, l.taskId);
    }
  }

  lemma {:induction false} KeptLock(fs: Folders, ls: seq<Lock>, l: Lock)
    requires l in ls && (forall k :: k in ls && k.taskId == l.taskId ==> k == l) && KeepLocks(fs, ls).ok
    ensures FolderOf(KeepLocks(fs, ls).folders, l.taskId) == FolderOf(fs, l.taskId).(lock := Some(l))
  {
    var before, last := ls[..|ls| - 1], ls[|ls| - 1];
    assert last in ls;
    if l in before {
      KeptLock(fs, before, l);
    } else {
      KeepFrame(fs, before, l.taskId);
    }
  }

  /** The folder a task should have after its import. */
  function RenamedFolder(f: Folder, g: string -> string, policy: ImportLockPolicy): Folder
    requires f.task.Some?
  {
    Folder(Some(MapTask(f.task.value, g)),
           map k | k in f.records :: MapRecord(f.records[k], g),
           if policy == Keep && f.lock.Some? then Some(MapLock(f.lock.value, g)) else None,
           if policy == Quarantine && f.lock.Some? then map[f.lock.value.lockId := MapLock(f.lock.value, g)] else map[])
  }

  // ---- export, then import ----

  lemma MapKeysAreSources(src: Folders, p: Payload, m: map<string, string>)
    requires Exported(src, p) && m.Keys == Elements(Incoming(p.tasks))
    ensures m.Keys == src.Keys
  {
    IncomingAre(p.tasks);
    forall id | id in src
      ensures id in m
    {
      var i :| 0 <= i < |p.tasks| && p.tasks[i] == src[id].task.value;
      assert p.tasks[i].id in Incoming(p.tasks);
    }
    forall id | id in m
      ensures id in src
    {
      assert id in Incoming(p.tasks);
      var i :| 0 <= i < |p.tasks| && p.tasks[i].id == id;
      assert p.tasks[i] in p.tasks;
    }
  }

  lemma EachIn<T, U>(items: seq<T>, f: T -> U, x: T)
    requires x in items
    ensures f(x) in Each(items, f)
  {
    var i :| 0 <= i < |items| && items[i] == x;
    assert Each(items, f)[i] == f(x);
  }

  lemma RenamedTask(src: Folders, p: Payload, m: map<string, string>, a: string)
    requires Exported(src, p) && m.Keys == src.Keys && Injective(m) && a in src
    ensures var ts := Each(p.tasks, t => MapTask(t, Renaming(m)));
      var t := MapTask(src[a].task.value, Renaming(m));
      t in ts && t.id == m[a] && forall u :: u in ts && u.id == t.id ==> u == t
  {
    var ts := Each(p.tasks, t => MapTask(t, Renaming(m)));
    EachIn(p.tasks, t => MapTask(t, Renaming(m)), src[a].task.value);
    forall u | u in ts && u.id == m[a]
      ensures u == MapTask(src[a].task.value, Renaming(m))
    {
      var i :| 0 <= i < |ts| && ts[i] == u;
      assert p.tasks[i] in p.tasks;
    }
  }

  lemma KeyRenamed(r: Record, f: string -> string)
    ensures KeyOf(MapRecord(r, f)) == KeyOf(r)
  {
  }

  ghost predicate RenamedFrom(rs: seq<Record>, records: seq<Record>, f: string -> string) {
    |rs| == |records| && forall i :: 0 <= i < |rs| ==> rs[i] == MapRecord(records[i], f)
  }

  /** The record a renamed record came from, if it ends up in the folder of `a`. */
  lemma RecordSource(src: Folders, p: Payload, m: map<string, string>, a: string, rs: seq<Record>, r: Record)
    requires Exported(src, p) && m.Keys == src.Keys && Injective(m) && a in src
    requires RenamedFrom(rs, p.records, Renaming(m)) && r in rs && r.Owner() == m[a]
    ensures KeyOf(r) in src[a].records && r == MapRecord(src[a].records[KeyOf(r)], Renaming(m))
  {
    var i :| 0 <= i < |rs| && rs[i] == r;
    var s := p.records[i];
    assert InFolder(src, s);
    KeyRenamed(s, Renaming(m));
  }

  lemma RecordTarget(src: Folders, p: Payload, m: map<string, string>, a: string, rs: seq<Record>, k: RecordKey)
    requires Exported(src, p) && m.Keys == src.Keys && a in src && k in src[a].records
    requires RenamedFrom(rs, p.records, Renaming(m))
    ensures exists r :: r in rs && r.Owner() == m[a] && KeyOf(r) == k
  {
    var r := src[a].records[k];
    var i :| 0 <= i < |p.records| && p.records[i] == r;
    KeyRenamed(r, Renaming(m));
    assert rs[i] in rs;
  }

  lemma RenamedRecords(
    src: Folders, p: Payload, m: map<string, string>, a: string, rs: seq<Record>, c: map<RecordKey, Record>)
    requires Exported(src, p) && m.Keys == src.Keys && Injective(m) && a in src
    requires RenamedFrom(rs, p.records, Renaming(m)) && Collects(c, rs, m[a])
    ensures c == map k | k in src[a].records :: MapRecord(src[a].records[k], Renaming(m))
  {
    forall k | k in c
      ensures k in src[a].records && c[k] == MapRecord(src[a].records[k], Renaming(m))
    {
      RecordSource(src, p, m, a, rs, c[k]);
    }
    forall k | k in src[a].records
      ensures k in c
    {
      RecordTarget(src, p, m, a, rs, k);
    }
  }

  lemma RenamedLock(src: Folders, p: Payload, m: map<string, string>, a: string, ls: seq<Lock>)
    requires Exported(src, p) && m.Keys == src.Keys && Injective(m) && a in src
    requires |ls| == |p.locks| && forall i :: 0 <= i < |ls| ==> ls[i] == MapLock(p.locks[i], Renaming(m))
    ensures
      && (forall l :: l in ls && l.taskId == m[a] ==>
            src[a].lock.Some? && l == MapLock(src[a].lock.value, Renaming(m)))
      && (src[a].lock.Some? ==> MapLock(src[a].lock.value, Renaming(m)) in ls)
  {
    forall l | l in ls && l.taskId == m[a]
      ensures src[a].lock.Some? && l == MapLock(src[a].lock.value, Renaming(m))
    {
      var i :| 0 <= i < |ls| && ls[i] == l;
      assert p.locks[i] in p.locks;
    }
    if src[a].lock.Some? {
      var i :| 0 <= i < |p.locks| && p.locks[i] == src[a].lock.value;
      assert ls[i] in ls;
    }
  }

  lemma NoLockWritten(d: Disk, ls: seq<Lock>, policy: ImportLockPolicy, id: string)
    requires forall l :: l in ls ==> l.taskId != id
    ensures FolderOf(WriteLocks(d, ls, policy).disk.folders, id) == FolderOf(d.folders, id)
  {
    QuarantineFrame(d.folders, ls, id);
    KeepFrame(d.folders, ls, id);
  }

  lemma OneLockWritten(d: Disk, ls: seq<Lock>, l: Lock, policy: ImportLockPolicy)
    requires l in ls && forall k :: k in ls && k.taskId == l.taskId ==> k == l
    ensures var w := WriteLocks(d, ls, policy);
      var f := FolderOf(d.folders, l.taskId);
      w.error.None? ==>
        FolderOf(w.disk.folders, l.taskId) == match policy
          case Drop => f
          case Keep => f.(lock := Some(l))
          case Quarantine => f.(quarantined := f.quarantined[l.lockId := l])
  {
    QuarantinedLock(d.folders, ls, l);
    if KeepLocks(d.folders, ls).ok {
      KeptLock(d.folders, ls, l);
    }
  }

  lemma LockLaid(d: Disk, f: Folder, ls: seq<Lock>, g: string -> string, policy: ImportLockPolicy)
    requires f.task.Some? && f.lock.Some? && MapLock(f.lock.value, g) in ls
    requires forall k :: k in ls && k.taskId == g(f.lock.value.taskId) ==> k == MapLock(f.lock.value, g)
    ensures var w := WriteLocks(d, ls, policy);
      var to, base := RenamedFolder(f, g, policy), FolderOf(d.folders, g(f.lock.value.taskId));
      w.error.None? ==>
        FolderOf(w.disk.folders, g(f.lock.value.taskId))
        == base.(lock := if to.lock.Some? then to.lock else base.lock, quarantined := base.quarantined + to.quarantined)
  {
    OneLockWritten(d, ls, MapLock(f.lock.value, g), policy);
  }

  /** What the lock policy makes of the folder of `a`. */
  lemma LockWritten(
    d: Disk, src: Folders, p: Payload, m: map<string, string>, a: string, ls: seq<Lock>, policy: ImportLockPolicy)
    requires Exported(src, p) && m.Keys == src.Keys && Injective(m) && a in src
    requires |ls| == |p.locks| && forall i :: 0 <= i < |ls| ==> ls[i] == MapLock(p.locks[i], Renaming(m))
    ensures var w := WriteLocks(d, ls, policy);
      var f, base := RenamedFolder(src[a], Renaming(m), policy), FolderOf(d.folders, m[a]);
      w.error.None? ==>
        FolderOf(w.disk.folders, m[a]) == base.(lock := if f.lock.Some? then f.lock else base.lock,
                                                quarantined := base.quarantined + f.quarantined)
  {
    RenamedLock(src, p, m, a, ls);
    if src[a].lock.None? {
      NoLockWritten(d, ls, policy, m[a]);
    } else {
      LockLaid(d, src[a], ls, Renaming(m), policy);
    }
  }

  lemma RecordsWritten(fs: Folders, src: Folders, p: Payload, m: map<string, string>, a: string, rs: seq<Record>)
    requires Exported(src, p) && m.Keys == src.Keys && Injective(m) && a in src
        && RenamedFrom(rs, p.records, Renaming(m))
    ensures var base := FolderOf(fs, m[a]);
      FolderOf(SaveRecords(fs, rs), m[a])
      == base.(records := base.records + RenamedFolder(src[a], Renaming(m), Drop).records)
  {
    SavedRecords(fs, rs, m[a]);
    FiledOver(FolderOf(fs, m[a]).records, rs, OwnedBy(m[a]), RecordName());
    FiledCollects(rs, m[a]);
    RenamedRecords(src, p, m, a, rs, Filed(map[], rs, OwnedBy(m[a]), RecordName()));
  }

  /** The folder of `a` once the tasks and records have been written. */
  lemma TaskAndRecordsWritten(fs: Folders, src: Folders, p: Payload, m: map<string, string>, a: string, q: Payload)
    requires Exported(src, p) && m.Keys == src.Keys && Injective(m) && a in src
    requires q.tasks == Each(p.tasks, t => MapTask(t, Renaming(m))) && RenamedFrom(q.records, p.records, Renaming(m))
    ensures FolderOf(SaveRecords(SaveTasks(fs, q.tasks), q.records), m[a])
            == LaidOver(FolderOf(fs, m[a]), RenamedFolder(src[a], Renaming(m), Drop))
  {
    var saved := SaveTasks(fs, q.tasks);
    TaskWritten(fs, src, p, m, a, q);
    RecordsWritten(saved, src, p, m, a, q.records);
    assert FolderOf(saved, m[a]).records == FolderOf(fs, m[a]).records;
  }

  lemma TaskWritten(fs: Folders, src: Folders, p: Payload, m: map<string, string>, a: string, q: Payload)
    requires Exported(src, p) && m.Keys == src.Keys && Injective(m) && a in src
    requires q.tasks == Each(p.tasks, t => MapTask(t, Renaming(m)))
    ensures FolderOf(SaveTasks(fs, q.tasks), m[a])
            == FolderOf(fs, m[a]).(task := Some(MapTask(src[a].task.value, Renaming(m))))
  {
    RenamedTask(src, p, m, a);
    SavedTask(fs, q.tasks, MapTask(src[a].task.value, Renaming(m)));
  }

  /** A folder on top of what was in its place before: a folder without a task may have been. */
  function LaidOver(base: Folder, f: Folder): Folder {
    Folder(f.task, base.records + f.records, if f.lock.Some? then f.lock else base.lock,
        base.quarantined + f.quarantined)
  }

  lemma LaidOverLocked(base: Folder, f: Folder, g: string -> string, policy: ImportLockPolicy)
    requires f.task.Some?
    ensures var unlocked, whole := LaidOver(base, RenamedFolder(f, g, Drop)), RenamedFolder(f, g, policy);
      LaidOver(base, whole) == unlocked.(lock := if whole.lock.Some? then whole.lock else unlocked.lock,
                                         quarantined := unlocked.quarantined + whole.quarantined)
  {
  }

  lemma LockedFolder(
    d: Disk, src: Folders, p: Payload, m: map<string, string>, a: string, q: Payload, policy: ImportLockPolicy)
    requires Exported(src, p) && m.Keys == src.Keys && Injective(m) && a in src
    requires FolderOf(BeforeLocks(d, q).folders, m[a])
             == LaidOver(FolderOf(d.folders, m[a]), RenamedFolder(src[a], Renaming(m), Drop))
    requires q.locks == Each(p.locks, l => MapLock(l, Renaming(m)))
    ensures var w := WriteLocks(BeforeLocks(d, q), q.locks, policy);
      w.error.None? ==>
        FolderOf(w.disk.folders, m[a])
            == LaidOver(FolderOf(d.folders, m[a]), RenamedFolder(src[a], Renaming(m), policy))
  {
    LockWritten(BeforeLocks(d, q), src, p, m, a, q.locks, policy);
    LaidOverLocked(FolderOf(d.folders, m[a]), src[a], Renaming(m), policy);
  }

  lemma FolderWritten(
    d: Disk, src: Folders, p: Payload, m: map<string, string>, a: string, includeActive: bool, policy: ImportLockPolicy)
    requires Exported(src, p) && m.Keys == src.Keys && Injective(m) && a in src
    ensures var w := WritePayload(d, MapPayload(Carried(p, includeActive), Renaming(m)), policy);
      w.error.None? ==>
        FolderOf(w.disk.folders, m[a])
            == LaidOver(FolderOf(d.folders, m[a]), RenamedFolder(src[a], Renaming(m), policy))
  {
    var q := MapPayload(Carried(p, includeActive), Renaming(m));
    TaskAndRecordsWritten(d.folders, src, p, m, a, q);
    WrittenWhole(d, q, policy);
    LockedFolder(d, src, p, m, a, q, policy);
  }

  /**
   Exporting tasks and importing them into any ledger, merging or replacing: each task's folder arrives with the
   task and every record renamed and nothing lost, and with the lock the policy asks for. It is laid over what
   a folder of that name without a task held before.
   */
  lemma ExportThenImportOver(d: Disk, src: Folders, p: Payload, o: Options, a: string)
    requires Exported(src, p) && a in src && !o.dryRun
    requires Import(d, p, o).result.Success?
    ensures ImportMap(d, p, o).Some? && a in ImportMap(d, p, o).value
    ensures var m := ImportMap(d, p, o).value;
      && m[a] in Import(d, p, o).disk.folders
      && Import(d, p, o).disk.folders[m[a]]
         == LaidOver(FolderOf(Start(d, o).folders, m[a]), RenamedFolder(src[a], Renaming(m), o.lockPolicy))
  {
    MappableIff(d, p, o);
    if !Mappable(d, p, o) {
      ImportRefuses(d, p, o);
    }
    var m := ImportMap(d, p, o).value;
    ImportMapCorrect(d, p, o);
    MapKeysAreSources(src, p, m);
    ImportWrites(d, p, o);
    StopsIff(Start(d, o), Arriving(d, p, o), o.lockPolicy);
    FolderWritten(Start(d, o), src, p, m, a, !o.tasksOnly, o.lockPolicy);
    RepairAhead(WritePayload(Start(d, o), Arriving(d, p, o), o.lockPolicy).disk);
  }

  /** The ledger is replaced, or has nothing under the name the task gets. */
  ghost predicate NameFree(d: Disk, p: Payload, o: Options, a: string) {
    var m := ImportMap(d, p, o);
    o.replace || (m.Some? && a in m.value ==> m.value[a] !in d.folders)
  }

  lemma LaidOverNothing(f: Folder)
    ensures LaidOver(EMPTY, f) == f
  {
  }

  lemma ExportThenImport(d: Disk, src: Folders, p: Payload, o: Options, a: string)
    requires Exported(src, p) && a in src && !o.dryRun && NameFree(d, p, o, a)
    requires Import(d, p, o).result.Success?
    ensures ImportMap(d, p, o).Some? && a in ImportMap(d, p, o).value
    ensures var m := ImportMap(d, p, o).value;
      && m[a] in Import(d, p, o).disk.folders
      && Import(d, p, o).disk.folders[m[a]] == RenamedFolder(src[a], Renaming(m), o.lockPolicy)
  {
    ExportThenImportOver(d, src, p, o, a);
    var to := RenamedFolder(src[a], Renaming(ImportMap(d, p, o).value), o.lockPolicy);
    LaidOverNothing(to);
    assert FolderOf(Start(d, o).folders, ImportMap(d, p, o).value[a]) == EMPTY;
  }
}
