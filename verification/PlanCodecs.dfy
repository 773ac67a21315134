/** How plans are written as JSON and read back. */
module PlanCodecs {
  import opened Common
  import opened Codecs
  import opened RecordCodecs

  const PLAN_STATUSES := {"draft", "proposed", "accepted", "superseded", "rejected"}

  /** Which of the four parts of a written plan a key belongs to: texts, lists, the rest of the head and of the body. */
  function PlanKeyPart(f: PlanKey): nat {
    match f
    case GenerationReason | BasedOnAnswerHash | ApprovedAt | ApprovalNote | ApprovalSource | ApprovedPlanHash | Goal
       | TodosWaivedReason => 1
    case Files | TestCommands | ExpectedOutputs => 2
    case PlanIdKey | VersionKey | PlanVersionKey | PlanStatusKey | Supersedes | SupersedesPlanId | Body => 3
    case CreatedBy | ApprovedBy | QuestionRefs | BasedOnQuestionIds | Criteria | Todos => 4
  }

  function PlanPart(k: Key): nat {
    match k
    case PlanField(f) => PlanKeyPart(f)
    case _ => 3
  }

  const PLAN_TEXTS: set<Key> := set f: PlanKey | PlanKeyPart(f) == 1 :: PlanField(f)
  const PLAN_LISTS: set<Key> := set f: PlanKey | PlanKeyPart(f) == 2 :: PlanField(f)

  /** Criteria and todos are kept as the mappings they are written as. */
  datatype PlanRecord = PlanRecord(
    taskId: string, version: int, body: string, status: string, createdAt: string, createdBy: ActorRef,
    supersedes: Option<int>, questionRefs: seq<string>, basedOnQuestions: seq<string>, criteria: seq<Json>,
    todos: seq<Json>, approvedBy: Option<ActorRef>, texts: Texts, lists: Lists, fileVersion: string, schemaVersion: int,
    objectType: string)

  function PlanNames(r: PlanRecord): Fields {
    map[SchemaVersion := Num(r.schemaVersion), ObjectType := Str(r.objectType), FileVersion := Str(r.fileVersion),
        TaskId := Str(r.taskId), CreatedAt := Str(r.createdAt)]
  }

  function SupersededId(supersedes: Option<int>): Option<string> {
    if supersedes.Some? then Some(PlanId(supersedes.value)) else None
  }

  function PlanMarks(r: PlanRecord): Fields {
    map[PlanField(PlanIdKey) := Str(PlanId(r.version)), PlanField(VersionKey) := Num(r.version),
        PlanField(PlanVersionKey) := Num(r.version), PlanField(PlanStatusKey) := Str(r.status),
        PlanField(Supersedes) := JsonInt(r.supersedes),
        PlanField(SupersedesPlanId) := JsonString(SupersededId(r.supersedes)), PlanField(Body) := Str(r.body)]
  }

  function PlanActors(r: PlanRecord): Fields {
    map[PlanField(CreatedBy) := ActorToJson(r.createdBy), PlanField(ApprovedBy) := OptionalActor(r.approvedBy)]
  }

  function PlanQuestions(r: PlanRecord): Fields {
    map[PlanField(QuestionRefs) := Arr(JsonStrings(r.questionRefs)),
        PlanField(BasedOnQuestionIds) := Arr(JsonStrings(r.basedOnQuestions))]
  }

  function PlanTasks(r: PlanRecord): Fields {
    map[PlanField(Criteria) := Arr(r.criteria), PlanField(Todos) := Arr(r.todos)]
  }

  function PlanItems(r: PlanRecord): Fields {
    PlanQuestions(r) + PlanTasks(r)
  }

  function PlanBody(r: PlanRecord): Fields {
    PlanActors(r) + PlanItems(r)
  }

  function PlanToJson(r: PlanRecord): Fields {
    WriteTexts(r.texts) + WriteLists(r.lists) + (PlanNames(r) + PlanMarks(r)) + PlanBody(r)
  }

  /** The plan version, or else the version, or else that of the plan id; zero in the first two counts as absent. */
  function PlanVersion(data: Fields): Option<int> {
    var planVersion := OptionalInt(Get(data, PlanField(PlanVersionKey)));
    var version := OptionalInt(Get(data, PlanField(VersionKey)));
    if planVersion.Some? && planVersion.value != 0 then planVersion
    else ReadVersion(version, OptionalString(Get(data, PlanField(PlanIdKey))))
  }

  function QuestionsRead(data: Fields): seq<string> {
    var own := StringList(Get(data, PlanField(BasedOnQuestionIds)));
    if own != [] then own else StringList(Get(data, PlanField(QuestionRefs)))
  }

  function PlanDefect(data: Fields): Option<CodecError> {
    if RequireContract(data, "plan").Some? then RequireContract(data, "plan")
    else if PlanVersion(data).None? then Some(MissingVersion)
    else if StringValue(data, TaskId).Failure? then Some(StringValue(data, TaskId).error)
    else if StringValue(data, PlanField(PlanStatusKey)).Failure?
    then Some(StringValue(data, PlanField(PlanStatusKey)).error)
    else if StringValue(data, PlanField(PlanStatusKey)).value !in PLAN_STATUSES then Some(BadStatus)
    else if ActorFromJson(Get(data, PlanField(CreatedBy))).Failure?
    then Some(ActorFromJson(Get(data, PlanField(CreatedBy))).error)
    else if ReadOptionalActor(Get(data, PlanField(ApprovedBy))).Failure?
    then Some(ReadOptionalActor(Get(data, PlanField(ApprovedBy))).error)
    else None
  }

  function PlanFromJson(data: Fields, now: string): Result<PlanRecord, CodecError> {
    var defect := PlanDefect(data);
    if defect.Some? then Failure(defect.value)
    else
      Success(PlanRecord(
                StringValue(data, TaskId).value, PlanVersion(data).value,
                OrElse(OptionalString(Get(data, PlanField(Body))), ""),
                StringValue(data, PlanField(PlanStatusKey)).value, OrElse(OptionalString(Get(data, CreatedAt)), now),
                ActorFromJson(Get(data, PlanField(CreatedBy))).value, OptionalInt(Get(data, PlanField(Supersedes))),
                StringList(Get(data, PlanField(QuestionRefs))), QuestionsRead(data),
                MappingList(Get(data, PlanField(Criteria))), MappingList(Get(data, PlanField(Todos))),
                ReadOptionalActor(Get(data, PlanField(ApprovedBy))).value, ReadTexts(data, PLAN_TEXTS),
                ReadLists(data, PLAN_LISTS), OrElse(OptionalString(Get(data, FileVersion)), V2),
                OptionalInt(Get(data, SchemaVersion)).value, "plan"))
  }

  predicate PlanHeadNormal(r: PlanRecord) {
    && r.taskId != "" && r.status in PLAN_STATUSES && r.createdAt != ""
    && r.fileVersion == V2 && r.schemaVersion <= SCHEMA && r.objectType == "plan"
  }

  /** A plan as reading produces it: if it refers to questions, it says which ones it is based on. */
  predicate PlanNormal(r: PlanRecord) {
    && PlanHeadNormal(r) && ActorNormal(r.createdBy) && (r.approvedBy.Some? ==> ActorNormal(r.approvedBy.value))
    && (forall i :: 0 <= i < |r.criteria| ==> r.criteria[i].Obj?)
       && (forall i :: 0 <= i < |r.todos| ==> r.todos[i].Obj?)
    && (r.basedOnQuestions == [] ==> r.questionRefs == [])
    && r.texts.Keys == PLAN_TEXTS && r.lists.Keys == PLAN_LISTS
  }

  lemma PlanReadIsNormal(data: Fields, now: string)
    requires now != ""
    ensures PlanFromJson(data, now).Success? ==> PlanNormal(PlanFromJson(data, now).value)
  {
    ActorReadIsNormal(Get(data, PlanField(CreatedBy)));
    ActorReadIsNormal(Get(data, PlanField(ApprovedBy)));
  }

  // ---- the parts of a written plan ----

  lemma PlanNamesPart(r: PlanRecord)
    ensures AllIn(PlanNames(r), PlanPart, 3)
  {
  }

  lemma PlanMarksPart(r: PlanRecord)
    ensures AllIn(PlanMarks(r), PlanPart, 3)
  {
    assert PlanKeyPart(PlanIdKey) == 3 && PlanKeyPart(VersionKey) == 3 && PlanKeyPart(PlanVersionKey) == 3;
    assert PlanKeyPart(PlanStatusKey) == 3 && PlanKeyPart(Supersedes) == 3 && PlanKeyPart(SupersedesPlanId) == 3;
  }

  lemma PlanActorsPart(r: PlanRecord)
    ensures AllIn(PlanActors(r), PlanPart, 4)
  {
  }

  lemma PlanQuestionsPart(r: PlanRecord)
    ensures AllIn(PlanQuestions(r), PlanPart, 4)
  {
  }

  lemma PlanTasksPart(r: PlanRecord)
    ensures AllIn(PlanTasks(r), PlanPart, 4)
  {
  }

  lemma PlanItemsPart(r: PlanRecord)
    ensures AllIn(PlanItems(r), PlanPart, 4)
  {
    PlanQuestionsPart(r);
    PlanTasksPart(r);
    assert PlanItems(r).Keys == PlanQuestions(r).Keys + PlanTasks(r).Keys;
  }

  lemma PlanBodyPart(r: PlanRecord)
    ensures AllIn(PlanBody(r), PlanPart, 4)
  {
    PlanActorsPart(r);
    PlanItemsPart(r);
    assert PlanBody(r).Keys == PlanActors(r).Keys + PlanItems(r).Keys;
  }

  lemma PlanTextsPart(texts: Texts)
    requires texts.Keys == PLAN_TEXTS
    ensures AllIn(WriteTexts(texts), PlanPart, 1)
  {
  }

  lemma PlanListsPart(lists: Lists)
    requires lists.Keys == PLAN_LISTS
    ensures AllIn(WriteLists(lists), PlanPart, 2)
  {
  }

  /** Nothing written is overwritten: the parts of a plan have no key in common. */
  lemma PlanParts(r: PlanRecord)
    requires r.texts.Keys == PLAN_TEXTS && r.lists.Keys == PLAN_LISTS
    ensures var data := PlanToJson(r);
      && Covers(data, PlanNames(r) + PlanMarks(r)) && Covers(data, PlanBody(r))
      && Covers(data, WriteTexts(r.texts)) && Covers(data, WriteLists(r.lists))
  {
    PlanTextsPart(r.texts);
    PlanListsPart(r.lists);
    PlanNamesPart(r);
    PlanMarksPart(r);
    PlanBodyPart(r);
    var head := PlanNames(r) + PlanMarks(r);
    assert head.Keys == PlanNames(r).Keys + PlanMarks(r).Keys;
    CoversSum(WriteTexts(r.texts), WriteLists(r.lists), head, PlanBody(r), PlanPart);
  }

  ghost predicate HoldsPlanNames(data: Fields, r: PlanRecord) {
    && Get(data, SchemaVersion) == Num(r.schemaVersion) && Get(data, ObjectType) == Str(r.objectType)
    && Get(data, FileVersion) == Str(r.fileVersion) && Get(data, TaskId) == Str(r.taskId)
    && Get(data, CreatedAt) == Str(r.createdAt)
  }

  ghost predicate HoldsPlanMarks(data: Fields, r: PlanRecord) {
    && Get(data, PlanField(PlanIdKey)) == Str(PlanId(r.version)) && Get(data, PlanField(VersionKey)) == Num(r.version)
    && Get(data, PlanField(PlanVersionKey)) == Num(r.version) && Get(data, PlanField(PlanStatusKey)) == Str(r.status)
    && Get(data, PlanField(Supersedes)) == JsonInt(r.supersedes) && Get(data, PlanField(Body)) == Str(r.body)
    && NamesSuperseded(Get(data, PlanField(SupersedesPlanId)), r.supersedes)
  }

  /** The id of the plan that is superseded is written besides its version, and tells it. */
  predicate NamesSuperseded(j: Json, supersedes: Option<int>) {
    if supersedes.None? then j == Null
    else j == Str(PlanId(supersedes.value))
  }

  ghost predicate HoldsPlanHead(data: Fields, r: PlanRecord) {
    HoldsPlanNames(data, r) && HoldsPlanMarks(data, r)
  }

  ghost predicate HoldsPlanBody(data: Fields, r: PlanRecord) {
    && Get(data, PlanField(CreatedBy)) == ActorToJson(r.createdBy)
    && Get(data, PlanField(ApprovedBy)) == OptionalActor(r.approvedBy)
    && Get(data, PlanField(QuestionRefs)) == Arr(JsonStrings(r.questionRefs))
    && Get(data, PlanField(BasedOnQuestionIds)) == Arr(JsonStrings(r.basedOnQuestions))
    && Get(data, PlanField(Criteria)) == Arr(r.criteria) && Get(data, PlanField(Todos)) == Arr(r.todos)
  }

  lemma PlanNamesHeld(data: Fields, r: PlanRecord)
    requires Covers(data, PlanNames(r))
    ensures HoldsPlanNames(data, r)
  {
    var n := PlanNames(r);
    assert SchemaVersion in n && ObjectType in n && FileVersion in n && TaskId in n && CreatedAt in n;
  }

  lemma PlanMarksHeld(data: Fields, r: PlanRecord)
    requires Covers(data, PlanMarks(r))
    ensures HoldsPlanMarks(data, r)
  {
    var m := PlanMarks(r);
    assert PlanField(PlanIdKey) in m && PlanField(VersionKey) in m && PlanField(PlanVersionKey) in m;
    assert PlanField(PlanStatusKey) in m && PlanField(Supersedes) in m && PlanField(Body) in m;
    assert PlanField(SupersedesPlanId) in m;
  }

  lemma PlanHeadApart(r: PlanRecord)
    ensures PlanNames(r).Keys !! PlanMarks(r).Keys
  {
  }

  lemma PlanHeadHeld(data: Fields, r: PlanRecord)
    requires Covers(data, PlanNames(r) + PlanMarks(r))
    ensures HoldsPlanHead(data, r)
  {
    var n, m := PlanNames(r), PlanMarks(r);
    PlanHeadApart(r);
    CoversBoth(data, n, m);
    PlanNamesHeld(data, r);
    PlanMarksHeld(data, r);
  }

  lemma PlanBodyApart(r: PlanRecord)
    ensures PlanActors(r).Keys !! PlanItems(r).Keys && PlanQuestions(r).Keys !! PlanTasks(r).Keys
  {
  }

  lemma PlanBodyHeld(data: Fields, r: PlanRecord)
    requires Covers(data, PlanBody(r))
    ensures HoldsPlanBody(data, r)
  {
    var actors, questions, tasks := PlanActors(r), PlanQuestions(r), PlanTasks(r);
    PlanBodyApart(r);
    CoversBoth(data, actors, PlanItems(r));
    CoversBoth(data, questions, tasks);
    assert PlanField(CreatedBy) in actors && PlanField(ApprovedBy) in actors;
    assert PlanField(QuestionRefs) in questions && PlanField(BasedOnQuestionIds) in questions;
    assert PlanField(Criteria) in tasks && PlanField(Todos) in tasks;
  }

  // ---- reading it back ----

  /** The nested parts of a written plan, and the fields read from several keys. */
  ghost predicate PlanNestedRead(data: Fields, r: PlanRecord) {
    && ActorFromJson(Get(data, PlanField(CreatedBy))) == Success(r.createdBy)
    && ReadOptionalActor(Get(data, PlanField(ApprovedBy))) == Success(r.approvedBy)
    && StringList(Get(data, PlanField(QuestionRefs))) == r.questionRefs && QuestionsRead(data) == r.basedOnQuestions
    && MappingList(Get(data, PlanField(Criteria))) == r.criteria && MappingList(Get(data, PlanField(Todos))) == r.todos
    && PlanVersion(data) == Some(r.version)
  }

  /** Version zero, which counts as absent, is recovered from the plan id. */
  lemma PlanVersionRead(data: Fields, r: PlanRecord)
    requires HoldsPlanHead(data, r)
    ensures PlanVersion(data) == Some(r.version)
  {
    PlanIdsInverse(r.version, "");
  }

  lemma PlanNestedRoundTrip(data: Fields, r: PlanRecord)
    requires PlanNormal(r) && HoldsPlanHead(data, r) && HoldsPlanBody(data, r)
    ensures PlanNestedRead(data, r)
  {
    assert ActorFromJson(ActorToJson(r.createdBy)) == Success(r.createdBy) by {
      ActorRoundTripIff(r.createdBy);
    }
    OptionalActorRoundTrip(r.approvedBy);
    StringsRoundTrip(r.questionRefs);
    StringsRoundTrip(r.basedOnQuestions);
    PlanVersionRead(data, r);
  }

  lemma PlanNoDefect(data: Fields, r: PlanRecord)
    requires PlanHeadNormal(r) && HoldsPlanHead(data, r) && PlanNestedRead(data, r)
    ensures PlanDefect(data) == None
  {
  }

  lemma PlanReadsBack(data: Fields, r: PlanRecord, now: string)
    requires PlanHeadNormal(r) && HoldsPlanHead(data, r) && PlanNestedRead(data, r) && PlanDefect(data) == None
    requires ReadTexts(data, PLAN_TEXTS) == r.texts && ReadLists(data, PLAN_LISTS) == r.lists
    ensures PlanFromJson(data, now) == Success(r)
  {
  }

  lemma PlanRoundTrip(r: PlanRecord, now: string)
    requires PlanNormal(r)
    ensures PlanFromJson(PlanToJson(r), now) == Success(r)
  {
    var data := PlanToJson(r);
    PlanParts(r);
    PlanHeadHeld(data, r);
    PlanBodyHeld(data, r);
    PlanNestedRoundTrip(data, r);
    PlanNoDefect(data, r);
    TextsRead(data, r.texts);
    ListsRead(data, r.lists);
    PlanReadsBack(data, r, now);
  }

  /** A plan of any version survives writing and reading exactly when it is normal. */
  lemma PlanRoundTripIff(r: PlanRecord, now: string)
    requires now != ""
    ensures PlanFromJson(PlanToJson(r), now) == Success(r) <==> PlanNormal(r)
  {
    PlanReadIsNormal(PlanToJson(r), now);
    if PlanNormal(r) {
      PlanRoundTrip(r, now);
    }
  }

  /** Reading anything, writing it and reading again gives the same plan. */
  lemma PlanSettles(data: Fields, now: string, later: string)
    requires now != ""
    ensures PlanFromJson(data, now).Success? ==>
              PlanFromJson(PlanToJson(PlanFromJson(data, now).value), later) == PlanFromJson(data, now)
  {
    PlanReadIsNormal(data, now);
    if PlanFromJson(data, now).Success? {
      PlanRoundTrip(PlanFromJson(data, now).value, later);
    }
  }

  // ---- what can be read ----

  predicate NoNumber(j: Json) {
    !j.Num? && !j.Bool?
  }

  predicate ZeroOrNone(j: Json) {
    NoNumber(j) || IsNumber(j, 0)
  }

  /** The plan version goes before the version, and that before the id, whose digits tell the version. */
  lemma PlanVersionIs(data: Fields)
    ensures var first, second := Get(data, PlanField(PlanVersionKey)), Get(data, PlanField(VersionKey));
      var id, v := Get(data, PlanField(PlanIdKey)), PlanVersion(data);
      && (forall n :: n != 0 && IsNumber(first, n) ==> v == Some(n))
      && (ZeroOrNone(first) ==> forall n :: n != 0 && IsNumber(second, n) ==> v == Some(n))
      && (ZeroOrNone(first) && ZeroOrNone(second) ==>
            && (v.Some? <==> id.Str? && PlanVersionFromId(id.text).Some?)
            && (v.Some? ==> v.value == PlanVersionFromId(id.text).value))
  {
  }

  ghost predicate HasVersion(data: Fields) {
    || !ZeroOrNone(Get(data, PlanField(PlanVersionKey))) || !ZeroOrNone(Get(data, PlanField(VersionKey)))
    || (Get(data, PlanField(PlanIdKey)).Str? && PlanVersionFromId(Get(data, PlanField(PlanIdKey)).text).Some?)
  }

  lemma HasVersionIff(data: Fields)
    ensures PlanVersion(data).Some? <==> HasVersion(data)
  {
  }

  /** Exactly these plans can be read. */
  lemma PlanReadIff(data: Fields, now: string)
    ensures PlanFromJson(data, now).Success? <==>
              && MeetsContract(data, "plan") && HasVersion(data) && HasText(data, TaskId)
              && HasText(data, PlanField(PlanStatusKey))
              && Get(data, PlanField(PlanStatusKey)).text
                 in {"draft", "proposed", "accepted", "superseded", "rejected"}
              && ReadableActor(Get(data, PlanField(CreatedBy))) && ReadableActor(Get(data, PlanField(ApprovedBy)))
  {
    ContractIff(data, "plan");
    HasVersionIff(data);
    ActorReadAs(Get(data, PlanField(CreatedBy)));
    OptionalActorReadAs(Get(data, PlanField(ApprovedBy)));
  }
}
