/** The ledger operations in the form they have, on stored folders and a stored counter. */
module LedgerStore {
  import opened Common
  import opened Records
  import opened Ids
  import opened Renumbering
  import opened Payloads
  import opened Rewriting
  import opened Ledger
  import Numbering

  /** The largest number among folder names of the form `task-<digits>`. */
  method MaxNumericTaskNumber(names: set<string>) returns (highest: Option<nat>)
    ensures highest.None? <==> forall id :: id in names ==> ParseId(TASK, id).None?
    ensures highest.Some? ==> highest.value == MaxNumber(TASK, names)
  {
    highest := None;
    var rest := names;
    while rest != {}
      invariant rest <= names
      invariant highest.None? <==> forall id :: id in names - rest ==> ParseId(TASK, id).None?
      invariant IsMaxNumber(TASK, names - rest, if highest.Some? then highest.value else 0)
      decreases rest
    {
      var name :| name in rest;
      ghost var seen := names - rest;
      rest := rest - {name};
      assert names - rest == seen + {name};
      var number := ParseId(TASK, name);
      if number.Some? {
        highest := if highest.None? || number.value > highest.value then number else highest;
      }
    }
    assert names - rest == names;
    if highest.Some? {
      MaxNumberUnique(TASK, names, highest.value);
    }
  }

  class LedgerDirectory {
    var folders: Folders
    var releases: map<string, Release>
    var active: Option<ActiveTask>
    var counter: nat
    /** Every folder name there has been. */
    ghost var ever: set<string>

    function Contents(): Disk
      reads this
    {
      Disk(folders, releases, active, counter)
    }

    /** The counter is above every number there has been. */
    ghost predicate Valid()
      reads this
    {
      counter > 0 && folders.Keys <= ever && Numbering.Ahead(counter, ever)
    }

    constructor ()
      ensures Valid() && Contents() == Disk(map[], map[], None, 1) && ever == {}
    {
      folders, releases, active, counter, ever := map[], map[], None, 1, {};
    }

    method CreateTask() returns (id: string)
      requires Valid()
      modifies this
      ensures Valid() && Contents() == Create(old(Contents())) && id == CreatedId(old(Contents()))
      ensures id !in old(ever) && ever == old(ever) + {id}
    {
      ghost var before := Contents();
      var existing := SetToSeq(TaskIds(folders));
      id, counter := AllocateLedgerTaskId(existing, counter);
      Numbering.CreateAhead(before);
      folders := SaveTask(folders, NewBundle(id).task);
      ever := ever + {id};
    }

    method RepairNextTaskNumber()
      modifies this
      ensures Contents() == Repair(old(Contents())) && ever == old(ever)
    {
      var highest := MaxNumericTaskNumber(folders.Keys);
      if highest.None? {
        return;
      }
      if counter <= highest.value {
        counter := highest.value + 1;
      }
    }

    // ---- writing the payload ----

    method WriteTasks(tasks: seq<Task>)
      modifies this
      ensures Contents() == old(Contents()).(folders := SaveTasks(old(folders), tasks)) && ever == old(ever)
    {
      for i := 0 to |tasks|
        invariant Contents() == old(Contents()).(folders := SaveTasks(old(folders), tasks[..i])) && ever == old(ever)
      {
        assert tasks[..i + 1][..i] == tasks[..i];
        folders := SaveTask(folders, tasks[i]);
      }
      assert tasks[..|tasks|] == tasks;
    }

    method WriteRecords(records: seq<Record>)
      modifies this
      ensures Contents() == old(Contents()).(folders := SaveRecords(old(folders), records)) && ever == old(ever)
    {
      for i := 0 to |records|
        invariant Contents() == old(Contents()).(folders := SaveRecords(old(folders), records[..i]))
            && ever == old(ever)
      {
        assert records[..i + 1][..i] == records[..i];
        folders := SaveRecord(folders, records[i]);
      }
      assert records[..|records|] == records;
    }

    lemma FailedSaveSticks(m: map<string, Release>, items: seq<Release>, i: nat)
      requires i <= |items| && !SaveReleases(m, items[..i]).ok
      ensures SaveReleases(m, items) == SaveReleases(m, items[..i])
    {
      if i < |items| {
        assert items[..|items| - 1][..i] == items[..i];
        FailedSaveSticks(m, items[..|items| - 1], i);
      } else {
        assert items[..i] == items;
      }
    }

    /** The boundaries are looked at first; then one release after the other, up to the first that is refused. */
    method WriteReleases(items: seq<Release>) returns (error: Option<ImportError>)
      modifies this
      ensures ever == old(ever)
      ensures error == if !BoundariesPresent(old(folders), items) then Some(BoundaryMissing)
                       else if !SaveReleases(old(releases), items).ok then Some(ReleaseRefused) else None
      ensures Contents() == if error == Some(BoundaryMissing) then old(Contents())
                            else old(Contents()).(releases := SaveReleases(old(releases), items).releases)
    {
      var present := TaskIds(folders);
      for i := 0 to |items|
        invariant forall j :: 0 <= j < i ==> items[j].boundary in present
      {
        if items[i].boundary !in present {
          return Some(BoundaryMissing);
        }
      }
      for i := 0 to |items|
        invariant ever == old(ever) && SaveReleases(old(releases), items[..i]).ok
        invariant Contents() == old(Contents()).(releases := SaveReleases(old(releases), items[..i]).releases)
      {
        assert items[..i + 1][..i] == items[..i];
        if !Nameable(items[i].version) || items[i].version in releases {
          FailedSaveSticks(old(releases), items, i + 1);
          return Some(ReleaseRefused);
        }
        releases := releases[items[i].version := items[i]];
      }
      assert items[..|items|] == items;
      return None;
    }

    lemma FailedKeepSticks(fs: Folders, locks: seq<Lock>, i: nat)
      requires i <= |locks| && !KeepLocks(fs, locks[..i]).ok
      ensures KeepLocks(fs, locks) == KeepLocks(fs, locks[..i])
    {
      if i < |locks| {
        assert locks[..|locks| - 1][..i] == locks[..i];
        FailedKeepSticks(fs, locks[..|locks| - 1], i);
      } else {
        assert locks[..i] == locks;
      }
    }

    method ImportLocks(locks: seq<Lock>, policy: ImportLockPolicy) returns (error: Option<ImportError>)
      modifies this
      ensures Written(Contents(), error) == WriteLocks(old(Contents()), locks, policy) && ever == old(ever)
    {
      if policy == Drop {
        return None;
      }
      if policy == Keep {
        for i := 0 to |locks|
          invariant ever == old(ever)
          invariant KeepLocks(old(folders), locks[..i]).ok
          invariant Contents() == old(Contents()).(folders := KeepLocks(old(folders), locks[..i]).folders)
        {
          assert locks[..i + 1][..i] == locks[..i];
          if FolderOf(folders, locks[i].taskId).lock.Some? {
            FailedKeepSticks(old(folders), locks, i + 1);
            return Some(LockExists);
          }
          folders := KeepLock(folders, locks[i]);
        }
        assert locks[..|locks|] == locks;
        return None;
      }
      for i := 0 to |locks|
        invariant Contents() == old(Contents()).(folders := QuarantineLocks(old(folders), locks[..i]))
            && ever == old(ever)
      {
        assert locks[..i + 1][..i] == locks[..i];
        folders := QuarantineLock(folders, locks[i]);
      }
      assert locks[..|locks|] == locks;
      return None;
    }

    method ImportPayload(q: Payload, policy: ImportLockPolicy) returns (error: Option<ImportError>)
      modifies this
      ensures Written(Contents(), error) == WritePayload(old(Contents()), q, policy) && ever == old(ever)
    {
      WriteTasks(q.tasks);
      if q.active.Some? {
        if q.active.value.taskId !in TaskIds(folders) {
          return Some(ActiveTaskMissing);
        }
        active := q.active;
      }
      error := WriteReleases(q.releases);
      if error.Some? {
        return;
      }
      WriteRecords(q.records);
      error := ImportLocks(q.locks, policy);
    }

    // ---- the import ----

    method IncomingIds(tasks: seq<Task>) returns (ids: seq<string>)
      ensures ids == Incoming(tasks)
    {
      ids := [];
      for i := 0 to |tasks|
        invariant ids == Incoming(tasks[..i])
      {
        assert tasks[..i + 1][..i] == tasks[..i];
        if tasks[i].id != "" {
          ids := ids + [tasks[i].id];
        }
      }
      assert tasks[..|tasks|] == tasks;
    }

    method ImportFrom(p: Payload, o: Options) returns (result: Result<Report, ImportError>)
      modifies this
      ensures ImportPost(Contents(), result) == Import(old(Contents()), p, o) && ever == old(ever)
    {
      var incoming := IncomingIds(p.tasks);
      var built := BuildTaskIdMap(TaskIds(folders), counter, incoming, EffectivePolicy(o));
      if built.None? {
        return Failure(TaskIdExists);
      }
      var rewritten := RewriteTaskIds(p, built.value, !o.tasksOnly);
      var report := ReportOf(p, built.value);
      if o.dryRun {
        return Success(report);
      }
      if o.replace {
        folders, releases, active := map[], map[], None;
      } else if Overwrites(folders, report.imported) {
        return Failure(WouldOverwrite);
      }
      var error := ImportPayload(rewritten, o.lockPolicy);
      if error.Some? {
        return Failure(error.value);
      }
      RepairNextTaskNumber();
      return Success(report);
    }

    /**
     The result and the disk are those of the specification. The counter stays above every number
     there has been exactly when the import does not stop having written a folder beyond it.
     */
    method ImportProject(p: Payload, o: Options) returns (result: Result<Report, ImportError>)
      requires Valid()
      modifies this
      ensures ImportPost(Contents(), result) == Import(old(Contents()), p, o)
      ensures ever == old(ever) + folders.Keys && old(counter) <= counter
      ensures Valid() <==> !Numbering.Outruns(old(Contents()), Numbering.ImportStep(p, o))
    {
      Numbering.ImportAheadIff(Contents(), p, o);
      result := ImportFrom(p, o);
      ever := ever + folders.Keys;
    }
  }
}
