/** Task numbers over whole runs of a ledger: the counter stays ahead of every folder there ever was. */
module Numbering {
  import opened Common
  import opened Steps
  import opened Records
  import opened Ids
  import opened Renumbering
  import opened Payloads
  import opened Ledger
  import opened Writing

  /** What can happen to a ledger; `WorkStep` stands for any command inside the folder of one task. */
  datatype LedgerStep =
    | CreateStep
    | ImportStep(payload: Payload, options: Options)
    | RepairStep
    | WorkStep(id: string, folder: Folder)

  ghost function Take(d: Disk, step: LedgerStep): Disk {
    match step
    case CreateStep => Create(d)
    case ImportStep(p, o) => Import(d, p, o).disk
    case RepairStep => Repair(d)
    case WorkStep(id, folder) => if id in TaskIds(d.folders) then d.(folders := d.folders[id := folder]) else d
  }

  ghost function TakeAll(d: Disk, steps: seq<LedgerStep>): Disk {
    if steps == [] then d else Take(TakeAll(d, steps[..|steps| - 1]), steps[|steps| - 1])
  }

  /** Every folder name there was at the start or after one of the steps. */
  ghost function EverPresent(d: Disk, steps: seq<LedgerStep>): set<string> {
    if steps == [] then d.folders.Keys
    else EverPresent(d, steps[..|steps| - 1]) + TakeAll(d, steps).folders.Keys
  }

  ghost predicate Ahead(counter: nat, ids: set<string>) {
    forall id :: id in ids ==> NumberOf(TASK, id) < counter
  }

  /** An import that stops after it has begun to write, and so before the counter is repaired. */
  ghost predicate FailsPartway(d: Disk, step: LedgerStep) {
    && step.ImportStep? && Mappable(d, step.payload, step.options) && !step.options.dryRun
    && StopOf(Start(d, step.options), Arriving(d, step.payload, step.options), step.options.lockPolicy).Some?
  }

  lemma FailsPartwayIff(d: Disk, p: Payload, o: Options)
    ensures var r := Import(d, p, o).result;
      FailsPartway(d, ImportStep(p, o))
      <==> r.Failure? && r.error in {ActiveTaskMissing, BoundaryMissing, ReleaseRefused, LockExists}
  {
    if !Mappable(d, p, o) {
      ImportRefuses(d, p, o);
    } else if o.dryRun {
      DryRunReports(d, p, o);
    } else {
      ImportWrites(d, p, o);
    }
  }

  /** It stops, and has by then written a folder whose number the counter has not reached. */
  ghost predicate Outruns(d: Disk, step: LedgerStep) {
    && FailsPartway(d, step)
    && exists id :: id in WrittenNames(Start(d, step.options), Arriving(d, step.payload, step.options),
       step.options.lockPolicy)
                    && NumberOf(TASK, id) >= d.counter
  }

  // ---- one step ----

  lemma CreateAhead(d: Disk)
    ensures Ahead(Create(d).counter, {CreatedId(d)}) && d.counter < Create(d).counter
    ensures Create(d).folders.Keys == d.folders.Keys + {CreatedId(d)}
    ensures NumberOf(TASK, CreatedId(d)) >= d.counter
  {
    ParseFormat(TASK, NextTaskNumber(TaskIds(d.folders), d.counter));
  }

  lemma RepairAhead(d: Disk)
    ensures Repair(d).folders == d.folders && d.counter <= Repair(d).counter
    ensures d.counter > 0 ==> Ahead(Repair(d).counter, d.folders.Keys)
  {
  }

  /** An import keeps the counter ahead of every folder unless it stops having written one beyond it. */
  lemma ImportAheadIff(d: Disk, p: Payload, o: Options)
    requires d.counter > 0 && Ahead(d.counter, d.folders.Keys)
    ensures d.counter <= Import(d, p, o).disk.counter
    ensures Ahead(Import(d, p, o).disk.counter, Import(d, p, o).disk.folders.Keys) <==> !Outruns(d, ImportStep(p, o))
  {
    if !Mappable(d, p, o) {
      ImportRefuses(d, p, o);
    } else if o.dryRun {
      DryRunReports(d, p, o);
    } else {
      var w := WritePayload(Start(d, o), Arriving(d, p, o), o.lockPolicy);
      ImportWrites(d, p, o);
      RepairAhead(w.disk);
      WrittenKeys(Start(d, o), Arriving(d, p, o), o.lockPolicy);
      assert Start(d, o).folders.Keys <= d.folders.Keys;
    }
  }

  /** From a counter ahead of its folders, any step keeps it ahead exactly when it does not outrun it. */
  lemma StepAheadIff(d: Disk, step: LedgerStep)
    requires d.counter > 0 && Ahead(d.counter, d.folders.Keys)
    ensures d.counter <= Take(d, step).counter
    ensures Ahead(Take(d, step).counter, Take(d, step).folders.Keys) <==> !Outruns(d, step)
  {
    match step
    case CreateStep => CreateAhead(d);
    case ImportStep(p, o) => ImportAheadIff(d, p, o);
    case RepairStep => RepairAhead(d);
    case WorkStep(id, folder) =>
  }

  // ---- whole runs ----

  ghost function NotOutrun(d: Disk): (seq<LedgerStep>, LedgerStep) -> bool {
    (steps, next) => !Outruns(TakeAll(d, steps), next)
  }

  ghost function AheadAfter(d: Disk): seq<LedgerStep> -> bool {
    steps => Ahead(TakeAll(d, steps).counter, EverPresent(d, steps))
  }

  ghost predicate NeverOutruns(d: Disk, steps: seq<LedgerStep>) {
    AtEveryStep(steps, NotOutrun(d))
  }

  /** At every point the counter is above the number of every folder there has been. */
  ghost predicate AlwaysAhead(d: Disk, steps: seq<LedgerStep>) {
    AtEveryPoint(steps, AheadAfter(d))
  }

  lemma {:induction false} FoldersPresent(d: Disk, steps: seq<LedgerStep>)
    ensures TakeAll(d, steps).folders.Keys <= EverPresent(d, steps)
  {
  }

  /**
   Over every sequence of creations, imports (merging, replacing, dry, refused or stopped), repairs and work
   on tasks: the counter stays above the number of every folder there ever was exactly when no import stops
   having written a folder beyond it. Until then it never goes down.
   */
  lemma {:induction false} CounterAheadIff(d: Disk, steps: seq<LedgerStep>)
    requires d.counter > 0 && Ahead(d.counter, d.folders.Keys)
    ensures AlwaysAhead(d, steps) <==> NeverOutruns(d, steps)
    ensures NeverOutruns(d, steps) ==>
              d.counter <= TakeAll(d, steps).counter && Ahead(TakeAll(d, steps).counter, EverPresent(d, steps))
  {
    if steps == [] {
      assert forall i :: 0 <= i <= |steps| ==> steps[..i] == [];
    } else {
      var before, last := steps[..|steps| - 1], steps[|steps| - 1];
      CounterAheadIff(d, before);
      StepsAppend(steps, NotOutrun(d));
      PointsAppend(steps, AheadAfter(d));
      FoldersPresent(d, before);
      if NeverOutruns(d, before) {
        StepAheadIff(TakeAll(d, before), last);
      }
    }
  }

  /** A new task never gets an id that any folder had before. */
  lemma NeverReused(d: Disk, steps: seq<LedgerStep>)
    requires d.counter > 0 && Ahead(d.counter, d.folders.Keys) && NeverOutruns(d, steps)
    ensures CreatedId(TakeAll(d, steps)) !in EverPresent(d, steps)
    ensures forall id :: id in EverPresent(d, steps) ==>
        NumberOf(TASK, id) < NumberOf(TASK, CreatedId(TakeAll(d, steps)))
  {
    CounterAheadIff(d, steps);
    CreateAhead(TakeAll(d, steps));
  }

  // ---- what a counter that is behind comes to ----

  const REPLACING := Options(true, false, Drop, Preserve, false)

  const NOTHING := Payload([], [], [], [], [], None)

  /** Clearing the ledger leaves the counter where it was. */
  lemma ClearedAgain(d: Disk)
    ensures Import(d, NOTHING, REPLACING).disk == Cleared(d)
    ensures !FailsPartway(d, ImportStep(NOTHING, REPLACING))
  {
    assert Elements(Incoming(NOTHING.tasks)) == {};
    ImportWrites(d, NOTHING, REPLACING);
  }

  /** Import an empty archive over everything, then create tasks. */
  function Refilled(n: nat): seq<LedgerStep> {
    if n == 0 then [ImportStep(NOTHING, REPLACING)] else Refilled(n - 1) + [CreateStep]
  }

  lemma TakeOneMore(d: Disk, steps: seq<LedgerStep>, step: LedgerStep)
    ensures TakeAll(d, steps + [step]) == Take(TakeAll(d, steps), step)
    ensures EverPresent(d, steps + [step]) == EverPresent(d, steps) + TakeAll(d, steps + [step]).folders.Keys
  {
    assert (steps + [step])[..|steps|] == steps;
  }

  lemma EmptyBehind(d: Disk)
    requires d.counter > 0 && Ahead(d.counter, d.folders.Keys)
    ensures CreatedId(d) == FormatId(TASK, d.counter) && NumberOf(TASK, CreatedId(d)) == d.counter
    ensures Create(d).counter == d.counter + 1 && Ahead(Create(d).counter, Create(d).folders.Keys)
  {
    ParseFormat(TASK, d.counter);
    CreateAhead(d);
  }

  /** Some steps later the counter has gone up by `n`, and what it was ahead of then it is still ahead of. */
  ghost predicate Counted(d: Disk, steps: seq<LedgerStep>, later: seq<LedgerStep>, n: nat) {
    var counter := TakeAll(d, steps).counter;
    && TakeAll(d, later).counter == counter + n && Ahead(counter + n, TakeAll(d, later).folders.Keys)
    && EverPresent(d, steps) <= EverPresent(d, later)
    && (Ahead(counter, EverPresent(d, steps)) ==> Ahead(counter + n, EverPresent(d, later)))
  }

  lemma ClearedCounts(d: Disk, steps: seq<LedgerStep>)
    ensures Counted(d, steps, steps + Refilled(0), 0)
  {
    ClearedAgain(TakeAll(d, steps));
    TakeOneMore(d, steps, ImportStep(NOTHING, REPLACING));
  }

  lemma CreatedCounts(d: Disk, steps: seq<LedgerStep>, later: seq<LedgerStep>, n: nat)
    requires TakeAll(d, steps).counter > 0 && Counted(d, steps, later, n)
    ensures Counted(d, steps, later + [CreateStep], n + 1)
  {
    EmptyBehind(TakeAll(d, later));
    TakeOneMore(d, later, CreateStep);
  }

  /** The numbers go on from where the counter was. */
  lemma {:induction false} RefilledCounts(d: Disk, steps: seq<LedgerStep>, later: seq<LedgerStep>, n: nat)
    requires TakeAll(d, steps).counter > 0 && later == steps + Refilled(n)
    ensures Counted(d, steps, later, n)
    decreases n
  {
    if n == 0 {
      ClearedCounts(d, steps);
    } else {
      var before := steps + Refilled(n - 1);
      assert later == before + [CreateStep];
      RefilledCounts(d, steps, before, n - 1);
      CreatedCounts(d, steps, before, n - 1);
    }
  }

  /** The next task gets a number that a folder had before. */
  ghost predicate Reissues(d: Disk, steps: seq<LedgerStep>) {
    exists id :: id in EverPresent(d, steps) && NumberOf(TASK, id) == NumberOf(TASK, CreatedId(TakeAll(d, steps)))
  }

  lemma RefilledCreates(d: Disk, steps: seq<LedgerStep>, n: nat)
    requires TakeAll(d, steps).counter > 0
    ensures NumberOf(TASK, CreatedId(TakeAll(d, steps + Refilled(n)))) == TakeAll(d, steps).counter + n
  {
    RefilledCounts(d, steps, steps + Refilled(n), n);
    EmptyBehind(TakeAll(d, steps + Refilled(n)));
  }

  /**
   The counter is behind some folder there has been exactly when, after clearing the ledger and creating some
   number of tasks, the next one gets the number of a folder that was there before.
   */
  lemma ReissuedIff(d: Disk, steps: seq<LedgerStep>)
    requires TakeAll(d, steps).counter > 0
    ensures !Ahead(TakeAll(d, steps).counter, EverPresent(d, steps))
        <==> exists n: nat :: Reissues(d, steps + Refilled(n))
  {
    var counter := TakeAll(d, steps).counter;
    if id :| id in EverPresent(d, steps) && NumberOf(TASK, id) >= counter {
      var n := NumberOf(TASK, id) - counter;
      RefilledCounts(d, steps, steps + Refilled(n), n);
      RefilledCreates(d, steps, n);
      assert Reissues(d, steps + Refilled(n));
    }
    if n: nat :| Reissues(d, steps + Refilled(n)) {
      RefilledCounts(d, steps, steps + Refilled(n), n);
      RefilledCreates(d, steps, n);
    }
  }

  // ---- an import that stops partway ----

  function Stranded(n: nat): Payload {
    Payload([NewBundle(FormatId(TASK, n)).task], [], [], [], [], Some(ActiveTask(FormatId(TASK, n + 1), None)))
  }

  /** An archive whose active task is missing is refused after its task has been written. */
  lemma StrandedFails(n: nat)
    requires n > 0
    ensures var d := Disk(map[], map[], None, n);
      var p := Import(d, Stranded(n), REPLACING);
      && p.result == Failure(ActiveTaskMissing) && FormatId(TASK, n) in p.disk.folders && p.disk.counter == n
  {
    var d := Disk(map[], map[], None, n);
    var ts := Stranded(n).tasks;
    var id := FormatId(TASK, n);
    assert ts[..0] == [];
    assert Incoming(ts) == [id];
    assert Elements(Incoming(ts)) == {id};
    ReplaceNeedsDisjoint(d, Stranded(n), REPLACING);
    ImportMapCorrect(d, Stranded(n), REPLACING);
    var m := ImportMap(d, Stranded(n), REPLACING).value;
    assert m[id] == id by {
      assert id !in Renumbered(m);
    }
    var q := RewrittenPayload(Stranded(n), m, REPLACING);
    assert q.tasks[0].id == id && |q.tasks| == 1;
    assert q.tasks[..0] == [];
    assert SaveTasks(map[], q.tasks) == map[id := EMPTY.(task := Some(q.tasks[0]))];
    ParseFormat(TASK, n);
    ParseFormat(TASK, n + 1);
    assert q.active == Some(ActiveTask(FormatId(TASK, n + 1), None));
  }

  lemma StrandedOutruns(n: nat)
    requires n > 0
    ensures Outruns(Disk(map[], map[], None, n), ImportStep(Stranded(n), REPLACING))
  {
    StrandedFails(n);
    StepAheadIff(Disk(map[], map[], None, n), ImportStep(Stranded(n), REPLACING));
    ParseFormat(TASK, n);
  }

  lemma TwoSteps(d: Disk, first: LedgerStep, second: LedgerStep)
    ensures TakeAll(d, [first, second]) == Take(Take(d, first), second)
    ensures Take(d, first).folders.Keys <= EverPresent(d, [first, second])
  {
    assert [first, second] == [first] + [second] && [first] == [] + [first];
    TakeOneMore(d, [], first);
    TakeOneMore(d, [first], second);
  }

  /**
   For every counter value a number is issued twice: an import that stops partway, then a replacing import, then a
   new task, which gets the id of the folder the first one had left.
   */
  lemma PartialImportReuses(n: nat)
    requires n > 0
    ensures var d := Disk(map[], map[], None, n);
      var steps := [ImportStep(Stranded(n), REPLACING), ImportStep(NOTHING, REPLACING)];
      Outruns(d, steps[0]) && CreatedId(TakeAll(d, steps)) in EverPresent(d, steps)
  {
    var d := Disk(map[], map[], None, n);
    var first, second := ImportStep(Stranded(n), REPLACING), ImportStep(NOTHING, REPLACING);
    StrandedFails(n);
    StrandedOutruns(n);
    TwoSteps(d, first, second);
    ClearedAgain(Take(d, first));
    EmptyBehind(Cleared(Take(d, first)));
  }

  // ---- an archive that is imported twice ----

  const MERGING := Options(false, false, Drop, RenumberOnConflict, false)

  /** An archive of one task and the release it ends. */
  function Shipped(n: nat, version: string): Payload {
    var id := FormatId(TASK, n);
    Payload([NewBundle(id).task], [], [], [], [Release.Release(version, id)], None)
  }

  lemma ShippedIncoming(n: nat, version: string)
    ensures Incoming(Shipped(n, version).tasks) == [FormatId(TASK, n)]
  {
    assert Shipped(n, version).tasks[..0] == [];
  }

  /** What is left of an archive of one task after renaming it. */
  ghost predicate Ships(q: Payload, target: string, version: string) {
    && |q.tasks| == 1 && q.tasks[0].id == target && q.records == [] && q.locks == [] && q.active == None
    && q.releases == [Release.Release(version, target)]
  }

  lemma ShippedArrives(d: Disk, n: nat, version: string, target: string)
    requires ImportMap(d, Shipped(n, version), MERGING) == Some(map[FormatId(TASK, n) := target])
    ensures Ships(Arriving(d, Shipped(n, version), MERGING), target, version)
  {
  }

  lemma ShippedNames(d: Disk, q: Payload, target: string, version: string)
    requires Ships(q, target, version)
    ensures Present(d, q) == TaskIds(d.folders) + {target} && WrittenNames(d, q, Drop) == {target}
    ensures !ActiveAbsent(d, q) && !BoundaryAbsent(d, q)
    ensures ReleasesFit(d.releases, q.releases) <==> Nameable(version) && version !in d.releases
  {
    assert q.tasks == [q.tasks[0]];
    assert q.tasks[0] in q.tasks;
    assert (set t | t in q.tasks :: t.id) == {target};
    assert ReleasesFit(d.releases, q.releases) <==> ReleaseFits(d.releases, q.releases, 0);
  }

  lemma ShippedWritten(d: Disk, q: Payload, target: string, version: string)
    requires Ships(q, target, version) && d.folders == map[] && Nameable(version) && version !in d.releases
    ensures var w := WritePayload(d, q, Drop).disk;
      w.folders.Keys == {target} == TaskIds(w.folders) && version in w.releases
  {
    ShippedNames(d, q, target, version);
    SavedTaskIds(d.folders, q.tasks);
    SavedTaskKeys(d.folders, q.tasks);
    SaveOkIff(d.releases, q.releases);
    WrittenWhole(d, q, Drop);
    assert q.tasks[0] in q.tasks && q.tasks == [q.tasks[0]];
  }

  lemma FirstMap(n: nat, version: string)
    ensures var id := FormatId(TASK, n);
      ImportMap(Disk(map[], map[], None, n), Shipped(n, version), MERGING) == Some(map[id := id])
  {
    var id := FormatId(TASK, n);
    ShippedIncoming(n, version);
    assert TaskIds(map[]) == {};
    KeepsWhenFree({}, n, [id], RenumberOnConflict);
    var m := IdMap({}, n, [id], RenumberOnConflict).value;
    assert id in [id];
    assert m.Keys == {id};
    assert m == map[id := id];
  }

  /** The first time, into a new ledger, it goes through. */
  lemma FirstImport(n: nat, version: string)
    requires n > 0 && Nameable(version)
    ensures var d := Disk(map[], map[], None, n);
      var post := Import(d, Shipped(n, version), MERGING);
      && post.result.Success? && post.disk.counter == n + 1 && version in post.disk.releases
      && post.disk.folders.Keys == {FormatId(TASK, n)} == TaskIds(post.disk.folders)
  {
    var d := Disk(map[], map[], None, n);
    var id, p := FormatId(TASK, n), Shipped(n, version);
    FirstMap(n, version);
    ShippedArrives(d, n, version, id);
    var q := Arriving(d, p, MERGING);
    ShippedNames(d, q, id, version);
    ShippedWritten(d, q, id, version);
    ImportWrites(d, p, MERGING);
    ParseFormat(TASK, n);
    MaxNumberUnique(TASK, {id}, n);
  }

  /** The second time the task gets a new number and is written, and then the release is refused. */
  lemma SecondImport(d: Disk, n: nat, version: string)
    requires TaskIds(d.folders) == {FormatId(TASK, n)} && d.counter == n + 1 && version in d.releases
    ensures var post := Import(d, Shipped(n, version), MERGING);
      && post.result == Failure(ReleaseRefused) && post.disk.counter == n + 1
      && FormatId(TASK, n + 1) in post.disk.folders
    ensures Outruns(d, ImportStep(Shipped(n, version), MERGING))
  {
    var p, target := Shipped(n, version), FormatId(TASK, n + 1);
    ShippedIncoming(n, version);
    ConflictMoves(n);
    ShippedArrives(d, n, version, target);
    var q := Arriving(d, p, MERGING);
    ShippedNames(d, q, target, version);
    WrittenKeys(d, q, Drop);
    ImportWrites(d, p, MERGING);
    ParseFormat(TASK, n + 1);
  }

  /** If the folder of the next number has been there, clearing the ledger makes the next task get it. */
  lemma ClearingReissues(d: Disk, steps: seq<LedgerStep>)
    requires TakeAll(d, steps).counter > 0 && FormatId(TASK, TakeAll(d, steps).counter) in EverPresent(d, steps)
    ensures var more := steps + [ImportStep(NOTHING, REPLACING)]; CreatedId(TakeAll(d, more)) in EverPresent(d, more)
  {
    ClearedAgain(TakeAll(d, steps));
    TakeOneMore(d, steps, ImportStep(NOTHING, REPLACING));
    EmptyBehind(Cleared(TakeAll(d, steps)));
  }

  lemma MergedTwice(n: nat, version: string)
    requires n > 0 && Nameable(version)
    ensures var d, merge := Disk(map[], map[], None, n), ImportStep(Shipped(n, version), MERGING);
      && !Outruns(d, merge) && Outruns(Take(d, merge), merge)
      && TakeAll(d, [merge, merge]).counter == n + 1 && FormatId(TASK, n + 1) in EverPresent(d, [merge, merge])
  {
    var d, merge := Disk(map[], map[], None, n), ImportStep(Shipped(n, version), MERGING);
    FirstImport(n, version);
    FailsPartwayIff(d, Shipped(n, version), MERGING);
    SecondImport(Take(d, merge), n, version);
    TwoSteps(d, merge, merge);
    FoldersPresent(d, [merge, merge]);
  }

  /**
   For every counter value and every version: an archive that holds a release is merged into a new ledger, and merged
   again. Then a replacing import of nothing makes the next task get the number that the second merge had given out.
   */
  lemma SameArchiveTwice(n: nat, version: string)
    requires n > 0 && Nameable(version)
    ensures var d := Disk(map[], map[], None, n);
      var merge, clear := ImportStep(Shipped(n, version), MERGING), ImportStep(NOTHING, REPLACING);
      && !Outruns(d, merge) && Outruns(Take(d, merge), merge)
      && CreatedId(TakeAll(d, [merge, merge, clear])) in EverPresent(d, [merge, merge, clear])
  {
    var d, merge := Disk(map[], map[], None, n), ImportStep(Shipped(n, version), MERGING);
    MergedTwice(n, version);
    ClearingReissues(d, [merge, merge]);
    assert [merge, merge, ImportStep(NOTHING, REPLACING)] == [merge, merge] + [ImportStep(NOTHING, REPLACING)];
  }
}
