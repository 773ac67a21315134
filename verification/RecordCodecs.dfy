/** How runs and plans are written as JSON and read back. */
module RecordCodecs {
  import opened Common
  import opened Codecs

  // ---- fields that are read alike ----

  type Texts = map<Key, Option<string>>

  type Lists = map<Key, seq<string>>

  function StringList(j: Json): seq<string> {
    if j.Arr? then Strings(j.items) else []
  }

  function ReadTexts(data: Fields, keys: set<Key>): Texts {
    map k | k in keys :: OptionalString(Get(data, k))
  }

  function ReadLists(data: Fields, keys: set<Key>): Lists {
    map k | k in keys :: StringList(Get(data, k))
  }

  function WriteTexts(texts: Texts): Fields {
    map k | k in texts :: JsonString(texts[k])
  }

  function WriteLists(lists: Lists): Fields {
    map k | k in lists :: Arr(JsonStrings(lists[k]))
  }

  /** Python truth of a JSON value. */
  predicate IsTrue(j: Json) {
    match j
    case Null => false
    case Bool(flag) => flag
    case Num(number) => number != 0
    case Str(text) => text != ""
    case Arr(items) => items != []
    case Obj(fields) => fields != map[]
  }

  /** The mappings among the items; others are passed over. */
  function Mappings(items: seq<Json>): (r: seq<Json>)
    ensures forall i :: 0 <= i < |r| ==> r[i].Obj?
    ensures (forall i :: 0 <= i < |items| ==> items[i].Obj?) ==> r == items
  {
    if items == [] then []
    else
      var before := Mappings(items[..|items| - 1]);
      if items[|items| - 1].Obj? then before + [items[|items| - 1]] else before
  }

  function MappingList(j: Json): seq<Json> {
    if j.Arr? then Mappings(j.items) else []
  }

  function ReadActors(items: seq<Json>): Result<seq<ActorRef>, CodecError> {
    if items == [] then Success([])
    else
      var before := ReadActors(items[..|items| - 1]);
      var last := ActorFromJson(items[|items| - 1]);
      if before.Failure? then before
      else if last.Failure? then Failure(last.error)
      else Success(before.value + [last.value])
  }

  function JsonActors(actors: seq<ActorRef>): seq<Json> {
    seq(|actors|, i requires 0 <= i < |actors| => ActorToJson(actors[i]))
  }

  predicate ActorsNormal(actors: seq<ActorRef>) {
    forall i :: 0 <= i < |actors| ==> ActorNormal(actors[i])
  }

  lemma ActorsAppend(items: seq<Json>, before: seq<ActorRef>, j: Json, a: ActorRef)
    requires ReadActors(items) == Success(before) && ActorFromJson(j) == Success(a)
    ensures ReadActors(items + [j]) == Success(before + [a])
  {
    assert (items + [j])[..|items|] == items;
  }

  lemma JsonActorsAppend(before: seq<ActorRef>, a: ActorRef)
    ensures JsonActors(before + [a]) == JsonActors(before) + [ActorToJson(a)]
  {
  }

  lemma ActorsStep(before: seq<ActorRef>, a: ActorRef)
    requires ReadActors(JsonActors(before)) == Success(before) && ActorNormal(a)
    ensures ReadActors(JsonActors(before + [a])) == Success(before + [a])
  {
    ActorRoundTripIff(a);
    ActorsAppend(JsonActors(before), before, ActorToJson(a), a);
    JsonActorsAppend(before, a);
  }

  lemma {:induction false} ActorsRoundTrip(actors: seq<ActorRef>)
    requires ActorsNormal(actors)
    ensures ReadActors(JsonActors(actors)) == Success(actors)
  {
    if actors != [] {
      var before, last := actors[..|actors| - 1], actors[|actors| - 1];
      ActorsRoundTrip(before);
      ActorsStep(before, last);
      assert actors == before + [last];
    }
  }

  lemma {:induction false} ActorsReadNormal(items: seq<Json>)
    ensures ReadActors(items).Success? ==> ActorsNormal(ReadActors(items).value)
  {
    if items != [] {
      ActorsReadNormal(items[..|items| - 1]);
      ActorReadIsNormal(items[|items| - 1]);
    }
  }

  lemma ActorListRoundTrip(actors: seq<ActorRef>)
    requires ActorsNormal(actors)
    ensures ReadActors(MappingList(Arr(JsonActors(actors)))) == Success(actors)
  {
    ActorsRoundTrip(actors);
  }

  /** Texts and lists come back from any object that holds them. */
  lemma TextsRoundTrip(data: Fields, texts: Texts)
    requires forall k :: k in texts ==> Get(data, k) == JsonString(texts[k])
    ensures ReadTexts(data, texts.Keys) == texts
  {
  }

  lemma ListsRoundTrip(data: Fields, lists: Lists)
    requires forall k :: k in lists ==> Get(data, k) == Arr(JsonStrings(lists[k]))
    ensures ReadLists(data, lists.Keys) == lists
  {
    forall k | k in lists
      ensures StringList(Get(data, k)) == lists[k]
    {
      StringsRoundTrip(lists[k]);
    }
  }

  ghost predicate Covers(data: Fields, part: Fields) {
    forall k :: k in part ==> k in data && data[k] == part[k]
  }

  lemma CoversBoth(data: Fields, a: Fields, b: Fields)
    requires a.Keys !! b.Keys && Covers(data, a + b)
    ensures Covers(data, a) && Covers(data, b)
  {
    forall k | k in a
      ensures k in data && data[k] == a[k]
    {
      assert k !in b && (a + b)[k] == a[k];
    }
    forall k | k in b
      ensures k in data && data[k] == b[k]
    {
      assert (a + b)[k] == b[k];
    }
  }

  lemma TextsRead(data: Fields, texts: Texts)
    requires Covers(data, WriteTexts(texts))
    ensures ReadTexts(data, texts.Keys) == texts
  {
    forall k | k in texts
      ensures Get(data, k) == JsonString(texts[k])
    {
      assert k in WriteTexts(texts);
    }
    TextsRoundTrip(data, texts);
  }

  lemma ListsRead(data: Fields, lists: Lists)
    requires Covers(data, WriteLists(lists))
    ensures ReadLists(data, lists.Keys) == lists
  {
    forall k | k in lists
      ensures Get(data, k) == Arr(JsonStrings(lists[k]))
    {
      assert k in WriteLists(lists);
    }
    ListsRoundTrip(data, lists);
  }

  // ---- runs ----

  const RUN_TYPES := {"planning", "implementation", "validation"}
  const RUN_STATUSES := {"running", "paused", "finished", "passed", "failed", "blocked", "aborted"}
  const RESULTS := {"passed", "failed", "blocked"}

  /** Which of the four parts of a written run a key belongs to: texts, lists, the rest of the head and of the body. */
  function RunKeyPart(f: RunKey): nat {
    match f
    case FinishedAt | BasedOnImplementation | ResumesRun | Summary | Recommendation | GitCommit | DiffHash
       | StatusHash | SnapshotAt => 1
    case Worklog | Deviations | ChangeRefs | CheckRefs | TodoUpdates | ArtifactRefs | Evidence | HandoffRefs => 2
    case Status | StartedAt | ResultKey | Dirty => 3
    case BasedOnPlan | BasedOnPlanVersion | Checks | ActorHistory => 4
  }

  function RunPart(k: Key): nat {
    match k
    case RunField(f) => RunKeyPart(f)
    case SchemaVersion | ObjectType | FileVersion | RunId | TaskId | RunTypeKey => 3
    case _ => 4
  }

  const RUN_TEXTS: set<Key> := set f: RunKey | RunKeyPart(f) == 1 :: RunField(f)
  const RUN_LISTS: set<Key> := set f: RunKey | RunKeyPart(f) == 2 :: RunField(f)

  datatype RunRecord = RunRecord(
    runId: string, taskId: string, runType: string, status: string, startedAt: string, actor: ActorRef,
    harness: Option<HarnessRef>, plan: PlanRef, result: Option<string>, dirty: Option<bool>, checks: seq<Json>,
    actors: seq<ActorRef>, texts: Texts, lists: Lists, fileVersion: string, schemaVersion: int, objectType: string)

  function JsonBool(o: Option<bool>): Json {
    if o.Some? then Bool(o.value) else Null
  }

  function RunNames(r: RunRecord): Fields {
    map[SchemaVersion := Num(r.schemaVersion), ObjectType := Str(r.objectType), FileVersion := Str(r.fileVersion),
        RunId := Str(r.runId), TaskId := Str(r.taskId), RunTypeKey := Str(r.runType)]
  }

  function RunProgress(r: RunRecord): Fields {
    map[RunField(Status) := Str(r.status), RunField(StartedAt) := Str(r.startedAt)]
  }

  function RunOutcome(r: RunRecord): Fields {
    map[RunField(ResultKey) := JsonString(r.result), RunField(Dirty) := JsonBool(r.dirty)]
  }

  function RunMarks(r: RunRecord): Fields {
    RunProgress(r) + RunOutcome(r)
  }

  function RunHead(r: RunRecord): Fields {
    RunNames(r) + RunMarks(r)
  }

  function RunPeople(r: RunRecord): Fields {
    map[ActorKey := ActorToJson(r.actor), HarnessKey := OptionalHarness(r.harness),
        RunField(ActorHistory) := Arr(JsonActors(r.actors))]
  }

  function RunBasis(r: RunRecord): Fields {
    map[RunField(BasedOnPlan) := JsonString(WrittenPlan(r.plan)),
        RunField(BasedOnPlanVersion) := JsonInt(r.plan.version),
        RunField(Checks) := Arr(r.checks)]
  }

  function RunBody(r: RunRecord): Fields {
    RunPeople(r) + RunBasis(r)
  }

  function RunToJson(r: RunRecord): Fields {
    WriteTexts(r.texts) + WriteLists(r.lists) + RunHead(r) + RunBody(r)
  }

  function ReadPlan(data: Fields): PlanRef {
    var plan := Get(data, RunField(BasedOnPlan));
    var version := OptionalInt(Get(data, RunField(BasedOnPlanVersion)));
    PlanRef(OptionalString(plan),
            if version.Some? && version.value != 0 then version
            else if OptionalInt(plan).Some? then OptionalInt(plan)
            else ReadVersion(None, OptionalString(plan)))
  }

  function RunDefect(data: Fields, now: string): Option<CodecError> {
    var result := OptionalString(Get(data, RunField(ResultKey)));
    if RequireContract(data, "run").Some? then RequireContract(data, "run")
    else if StringValue(data, RunId).Failure? then Some(StringValue(data, RunId).error)
    else if StringValue(data, TaskId).Failure? then Some(StringValue(data, TaskId).error)
    else if StringValue(data, RunTypeKey).Failure? then Some(StringValue(data, RunTypeKey).error)
    else if StringValue(data, RunTypeKey).value !in RUN_TYPES then Some(BadRunType)
    else if StringValue(data, RunField(Status)).Failure? then Some(StringValue(data, RunField(Status)).error)
    else if StringValue(data, RunField(Status)).value !in RUN_STATUSES then Some(BadStatus)
    else if ActorFromJson(Get(data, ActorKey)).Failure? then Some(ActorFromJson(Get(data, ActorKey)).error)
    else if ReadOptionalHarness(Get(data, HarnessKey), now).Failure?
    then Some(ReadOptionalHarness(Get(data, HarnessKey), now).error)
    else if result.Some? && result.value !in RESULTS then Some(BadResult)
    else if ReadActors(MappingList(Get(data, RunField(ActorHistory)))).Failure?
    then Some(ReadActors(MappingList(Get(data, RunField(ActorHistory)))).error)
    else None
  }

  function RunFromJson(data: Fields, now: string): Result<RunRecord, CodecError> {
    var defect := RunDefect(data, now);
    if defect.Some? then Failure(defect.value)
    else
      var dirty := Get(data, RunField(Dirty));
      Success(RunRecord(
                StringValue(data, RunId).value, StringValue(data, TaskId).value, StringValue(data, RunTypeKey).value,
                StringValue(data, RunField(Status)).value, OrElse(OptionalString(Get(data, RunField(StartedAt))), now),
                ActorFromJson(Get(data, ActorKey)).value, ReadOptionalHarness(Get(data, HarnessKey), now).value,
                ReadPlan(data), OptionalString(Get(data, RunField(ResultKey))),
                if dirty.Null? then None else Some(IsTrue(dirty)), MappingList(Get(data, RunField(Checks))),
                ReadActors(MappingList(Get(data, RunField(ActorHistory)))).value,
                ReadTexts(data, RUN_TEXTS), ReadLists(data, RUN_LISTS),
                OrElse(OptionalString(Get(data, FileVersion)), V2), OptionalInt(Get(data, SchemaVersion)).value, "run"))
  }

  /** A run as reading produces it, whatever plan it names. */
  ghost predicate RunReadable(r: RunRecord) {
    && RunHeadNormal(r) && ActorNormal(r.actor) && (r.harness.Some? ==> HarnessNormal(r.harness.value))
    && ActorsNormal(r.actors) && (forall i :: 0 <= i < |r.checks| ==> r.checks[i].Obj?)
    && r.texts.Keys == RUN_TEXTS && r.lists.Keys == RUN_LISTS
  }

  predicate RunHeadNormal(r: RunRecord) {
    && r.runId != "" && r.taskId != "" && r.runType in RUN_TYPES && r.status in RUN_STATUSES && r.startedAt != ""
    && (r.result.Some? ==> r.result.value in RESULTS)
    && r.fileVersion == V2 && r.schemaVersion <= SCHEMA && r.objectType == "run"
  }

  lemma RunReadIsReadable(data: Fields, now: string)
    requires now != ""
    ensures RunFromJson(data, now).Success? ==> RunReadable(RunFromJson(data, now).value)
  {
    ActorReadIsNormal(Get(data, ActorKey));
    HarnessReadIsNormal(Get(data, HarnessKey), now);
    ActorsReadNormal(MappingList(Get(data, RunField(ActorHistory))));
  }

  ghost predicate AllIn(part: Fields, partOf: Key -> nat, n: nat) {
    forall k :: k in part ==> partOf(k) == n
  }

  lemma CoversSum(a: Fields, b: Fields, c: Fields, d: Fields, partOf: Key -> nat)
    requires AllIn(a, partOf, 1) && AllIn(b, partOf, 2) && AllIn(c, partOf, 3) && AllIn(d, partOf, 4)
    ensures Covers(a + b + c + d, a) && Covers(a + b + c + d, b) && Covers(a + b + c + d, c) && Covers(a + b + c + d, d)
  {
  }

  lemma RunTextsPart(texts: Texts)
    requires texts.Keys == RUN_TEXTS
    ensures AllIn(WriteTexts(texts), RunPart, 1)
  {
    forall k | k in WriteTexts(texts)
      ensures RunPart(k) == 1
    {
      assert k in RUN_TEXTS;
    }
  }

  lemma RunListsPart(lists: Lists)
    requires lists.Keys == RUN_LISTS
    ensures AllIn(WriteLists(lists), RunPart, 2)
  {
    forall k | k in WriteLists(lists)
      ensures RunPart(k) == 2
    {
      assert k in RUN_LISTS;
    }
  }

  lemma RunNamesPart(r: RunRecord)
    ensures AllIn(RunNames(r), RunPart, 3)
  {
    assert RunPart(SchemaVersion) == 3 && RunPart(ObjectType) == 3 && RunPart(FileVersion) == 3;
    assert RunPart(RunId) == 3 && RunPart(TaskId) == 3 && RunPart(RunTypeKey) == 3;
  }

  lemma RunProgressPart(r: RunRecord)
    ensures AllIn(RunProgress(r), RunPart, 3)
  {
  }

  lemma RunOutcomePart(r: RunRecord)
    ensures AllIn(RunOutcome(r), RunPart, 3)
  {
  }

  lemma RunMarksPart(r: RunRecord)
    ensures AllIn(RunMarks(r), RunPart, 3)
  {
    RunProgressPart(r);
    RunOutcomePart(r);
    assert RunMarks(r).Keys == RunProgress(r).Keys + RunOutcome(r).Keys;
  }

  lemma RunHeadPart(r: RunRecord)
    ensures AllIn(RunHead(r), RunPart, 3)
  {
    RunNamesPart(r);
    RunMarksPart(r);
    assert RunHead(r).Keys == RunNames(r).Keys + RunMarks(r).Keys;
  }

  lemma RunPeoplePart(r: RunRecord)
    ensures AllIn(RunPeople(r), RunPart, 4)
  {
  }

  lemma RunBasisPart(r: RunRecord)
    ensures AllIn(RunBasis(r), RunPart, 4)
  {
  }

  lemma RunBodyPart(r: RunRecord)
    ensures AllIn(RunBody(r), RunPart, 4)
  {
    RunPeoplePart(r);
    RunBasisPart(r);
    assert RunBody(r).Keys == RunPeople(r).Keys + RunBasis(r).Keys;
  }

  /** Nothing written is overwritten: the parts of a run have no key in common. */
  lemma RunParts(r: RunRecord)
    requires r.texts.Keys == RUN_TEXTS && r.lists.Keys == RUN_LISTS
    ensures var data := RunToJson(r);
      && Covers(data, RunHead(r)) && Covers(data, RunBody(r))
      && Covers(data, WriteTexts(r.texts)) && Covers(data, WriteLists(r.lists))
  {
    RunTextsPart(r.texts);
    RunListsPart(r.lists);
    RunHeadPart(r);
    RunBodyPart(r);
    CoversSum(WriteTexts(r.texts), WriteLists(r.lists), RunHead(r), RunBody(r), RunPart);
  }

  ghost predicate HoldsRunNames(data: Fields, r: RunRecord) {
    && Get(data, SchemaVersion) == Num(r.schemaVersion) && Get(data, ObjectType) == Str(r.objectType)
    && Get(data, FileVersion) == Str(r.fileVersion) && Get(data, RunId) == Str(r.runId)
       && Get(data, TaskId) == Str(r.taskId)
    && Get(data, RunTypeKey) == Str(r.runType)
  }

  ghost predicate HoldsRunMarks(data: Fields, r: RunRecord) {
    && Get(data, RunField(Status)) == Str(r.status) && Get(data, RunField(StartedAt)) == Str(r.startedAt)
    && Get(data, RunField(ResultKey)) == JsonString(r.result) && Get(data, RunField(Dirty)) == JsonBool(r.dirty)
  }

  ghost predicate HoldsRunHead(data: Fields, r: RunRecord) {
    HoldsRunNames(data, r) && HoldsRunMarks(data, r)
  }

  ghost predicate HoldsRunBody(data: Fields, r: RunRecord) {
    && Get(data, ActorKey) == ActorToJson(r.actor) && Get(data, HarnessKey) == OptionalHarness(r.harness)
    && Get(data, RunField(BasedOnPlan)) == JsonString(WrittenPlan(r.plan))
    && Get(data, RunField(BasedOnPlanVersion)) == JsonInt(r.plan.version)
    && Get(data, RunField(Checks)) == Arr(r.checks) && Get(data, RunField(ActorHistory)) == Arr(JsonActors(r.actors))
  }

  lemma RunNamesHeld(data: Fields, r: RunRecord)
    requires Covers(data, RunNames(r))
    ensures HoldsRunNames(data, r)
  {
    var n := RunNames(r);
    assert SchemaVersion in n && ObjectType in n && FileVersion in n && RunId in n && TaskId in n && RunTypeKey in n;
  }

  lemma RunMarksHeld(data: Fields, r: RunRecord)
    requires Covers(data, RunMarks(r))
    ensures HoldsRunMarks(data, r)
  {
    var m := RunMarks(r);
    assert RunField(Status) in m && RunField(StartedAt) in m && RunField(ResultKey) in m && RunField(Dirty) in m;
  }

  lemma RunHeadApart(r: RunRecord)
    ensures RunNames(r).Keys !! RunMarks(r).Keys
  {
  }

  lemma RunHeadHeld(data: Fields, r: RunRecord)
    requires Covers(data, RunHead(r))
    ensures HoldsRunHead(data, r)
  {
    var n, m := RunNames(r), RunMarks(r);
    RunHeadApart(r);
    CoversBoth(data, n, m);
    RunNamesHeld(data, r);
    RunMarksHeld(data, r);
  }

  lemma RunBodyApart(r: RunRecord)
    ensures RunPeople(r).Keys !! RunBasis(r).Keys
  {
  }

  lemma RunBodyHeld(data: Fields, r: RunRecord)
    requires Covers(data, RunBody(r))
    ensures HoldsRunBody(data, r)
  {
    var people, basis := RunPeople(r), RunBasis(r);
    RunBodyApart(r);
    CoversBoth(data, people, basis);
    assert ActorKey in people && HarnessKey in people && RunField(ActorHistory) in people;
    assert RunField(BasedOnPlan) in basis && RunField(BasedOnPlanVersion) in basis && RunField(Checks) in basis;
  }

  /** The nested parts of a written run. */
  ghost predicate RunNestedRead(data: Fields, r: RunRecord, now: string) {
    && ActorFromJson(Get(data, ActorKey)) == Success(r.actor)
    && ReadOptionalHarness(Get(data, HarnessKey), now) == Success(r.harness)
    && ReadActors(MappingList(Get(data, RunField(ActorHistory)))) == Success(r.actors)
    && MappingList(Get(data, RunField(Checks))) == r.checks
    && ReadPlan(data) == WriteThenRead(r.plan)
  }

  lemma RunPlanRead(data: Fields, r: PlanRef)
    requires Get(data, RunField(BasedOnPlan)) == JsonString(WrittenPlan(r))
    requires Get(data, RunField(BasedOnPlanVersion)) == JsonInt(r.version)
    ensures ReadPlan(data) == WriteThenRead(r)
  {
  }

  lemma RunNestedRoundTrip(data: Fields, r: RunRecord, now: string)
    requires RunReadable(r) && HoldsRunBody(data, r)
    ensures RunNestedRead(data, r, now)
  {
    assert ActorFromJson(ActorToJson(r.actor)) == Success(r.actor) by {
      ActorRoundTripIff(r.actor);
    }
    OptionalHarnessRoundTrip(r.harness, now);
    ActorListRoundTrip(r.actors);
    RunPlanRead(data, r.plan);
  }

  lemma RunNoDefect(data: Fields, r: RunRecord, now: string)
    requires RunHeadNormal(r) && HoldsRunHead(data, r) && RunNestedRead(data, r, now)
    ensures RunDefect(data, now) == None
  {
  }

  lemma RunReadsBack(data: Fields, r: RunRecord, now: string)
    requires RunReadable(r) && HoldsRunHead(data, r) && RunNestedRead(data, r, now) && RunDefect(data, now) == None
    requires ReadTexts(data, RUN_TEXTS) == r.texts && ReadLists(data, RUN_LISTS) == r.lists
    ensures RunFromJson(data, now) == Success(r.(plan := WriteThenRead(r.plan)))
  {
  }

  /** Writing and reading a run settles the plan it names and keeps everything else. */
  lemma RunNormalised(r: RunRecord, now: string)
    requires RunReadable(r)
    ensures RunFromJson(RunToJson(r), now) == Success(r.(plan := WriteThenRead(r.plan)))
  {
    var data := RunToJson(r);
    RunParts(r);
    RunHeadHeld(data, r);
    RunBodyHeld(data, r);
    RunNestedRoundTrip(data, r, now);
    RunNoDefect(data, r, now);
    TextsRead(data, r.texts);
    ListsRead(data, r.lists);
    RunReadsBack(data, r, now);
  }

  /** A run survives writing and reading exactly when reading could have produced it and its plan is settled. */
  lemma RunRoundTripIff(r: RunRecord, now: string)
    requires now != ""
    ensures RunFromJson(RunToJson(r), now) == Success(r) <==> RunReadable(r) && Stored(r.plan)
  {
    RunReadIsReadable(RunToJson(r), now);
    PlanRefSettles(r.plan);
    if RunReadable(r) {
      RunNormalised(r, now);
    }
  }

  /** Whatever was read: stored once, it is stored for good. */
  lemma RunSettles(data: Fields, now: string, later: string, last: string)
    requires now != "" && RunFromJson(data, now).Success?
    ensures var once := RunFromJson(RunToJson(RunFromJson(data, now).value), later);
      once.Success? && RunFromJson(RunToJson(once.value), last) == once
  {
    var r := RunFromJson(data, now).value;
    RunReadIsReadable(data, now);
    RunNormalised(r, later);
    var once := r.(plan := WriteThenRead(r.plan));
    PlanRefSettles(r.plan);
    PlanRefSettles(once.plan);
    RunNormalised(once, last);
  }

  // ---- what can be read ----

  /** No mapping in a list of actors is one that cannot be read; what is no mapping is passed over. */
  ghost predicate ReadableActors(j: Json) {
    j.Arr? ==> forall i :: 0 <= i < |j.items| && j.items[i].Obj? ==> ReadableActor(j.items[i])
  }

  lemma {:induction false} ActorsReadIff(items: seq<Json>)
    ensures ReadActors(Mappings(items)).Success? <==>
              forall i :: 0 <= i < |items| && items[i].Obj? ==> ReadableActor(items[i])
  {
    if items != [] {
      var before, last := items[..|items| - 1], items[|items| - 1];
      ActorsReadIff(before);
      ActorReadAs(last);
      assert items == before + [last];
      var read := Mappings(before);
      assert (read + [last])[..|read|] == read;
    }
  }

  lemma RunHeadIff(data: Fields, now: string)
    ensures RunDefect(data, now).None? <==>
              && RequireContract(data, "run").None? && HasText(data, RunId) && HasText(data, TaskId)
              && HasText(data, RunTypeKey)
              && Get(data, RunTypeKey).text in {"planning", "implementation", "validation"}
              && HasText(data, RunField(Status))
              && Get(data, RunField(Status)).text
                 in {"running", "paused", "finished", "passed", "failed", "blocked", "aborted"}
              && ActorFromJson(Get(data, ActorKey)).Success?
              && ReadOptionalHarness(Get(data, HarnessKey), now).Success?
              && (Get(data, RunField(ResultKey)).Str? ==>
                    Get(data, RunField(ResultKey)).text in {"passed", "failed", "blocked"})
              && ReadActors(MappingList(Get(data, RunField(ActorHistory)))).Success?
  {
  }

  /** Exactly these runs can be read; one that does not say when it started is given the time of reading. */
  lemma RunReadIff(data: Fields, now: string)
    ensures RunFromJson(data, now).Success? <==>
              && MeetsContract(data, "run") && HasText(data, RunId) && HasText(data, TaskId)
              && HasText(data, RunTypeKey)
              && Get(data, RunTypeKey).text in {"planning", "implementation", "validation"}
              && HasText(data, RunField(Status))
              && Get(data, RunField(Status)).text
                 in {"running", "paused", "finished", "passed", "failed", "blocked", "aborted"}
              && ReadableActor(Get(data, ActorKey)) && ReadableHarness(Get(data, HarnessKey))
              && (Get(data, RunField(ResultKey)).Str? ==>
                    Get(data, RunField(ResultKey)).text in {"passed", "failed", "blocked"})
              && ReadableActors(Get(data, RunField(ActorHistory)))
    ensures RunFromJson(data, now).Success? ==>
              RunFromJson(data, now).value.startedAt
              == if HasText(data, RunField(StartedAt)) then Get(data, RunField(StartedAt)).text else now
  {
    RunHeadIff(data, now);
    ContractIff(data, "run");
    ActorReadAs(Get(data, ActorKey));
    HarnessReadAs(Get(data, HarnessKey), now);
    var actors := Get(data, RunField(ActorHistory));
    if actors.Arr? {
      ActorsReadIff(actors.items);
    }
  }

  /** Which plan a run was based on: its version, a number in place of the id, or the version the id tells. */
  lemma PlanReadAs(data: Fields)
    ensures var plan, version, r := Get(data, RunField(BasedOnPlan)), Get(data, RunField(BasedOnPlanVersion)),
        ReadPlan(data);
      && (forall n :: n != 0 && IsNumber(version, n) ==> r.version == Some(n))
      && ((forall n :: IsNumber(version, n) ==> n == 0) ==>
            && (forall n :: IsNumber(plan, n) ==> r.version == Some(n))
            && (plan.Str? ==> r.version == match PlanVersionFromId(plan.text) case Some(v) => Some(v) case None => None)
            && (plan.Null? || plan.Arr? || plan.Obj? ==> r.version.None?))
      && r.plan == if plan.Str? then Some(plan.text) else None
  {
    var version := Get(data, RunField(BasedOnPlanVersion));
    assert version.Num? ==> IsNumber(version, version.number);
    assert version.Bool? ==> IsNumber(version, if version.flag then 1 else 0);
  }
}
