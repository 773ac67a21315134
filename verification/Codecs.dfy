/** How locks, with the actors and the harness inside them, are written as JSON and read back; and plan ids. */
module Codecs {
  import opened Common
  import opened Ids
  import Text

  /** The keys of the kinds of object, by name. */
  datatype Key =
    | SchemaVersion | ObjectType | FileVersion | LockId | TaskId | StageKey | RunTypeKey | RunId | CreatedAt | ExpiresAt
    | LeaseSeconds | LastHeartbeatAt | Reason | Holder | BrokenAt | BrokenBy | BrokenReason | ActorKey | HarnessKey
    | TransferHistory | TransferDate
    | ActorType | ActorName | Tool | SessionId | Host | Pid | ActorId | Role | HarnessId | CommandPid | PidScope
    | Name | KindKey | WorkingDirectory | Command | Version | Capabilities
    | RunField(run: RunKey) | PlanField(plan: PlanKey)

  /** The keys only runs have. */
  datatype RunKey =
    | Status | StartedAt | FinishedAt | BasedOnPlan | BasedOnPlanVersion | BasedOnImplementation | ResumesRun | Summary
    | Worklog | Deviations | ChangeRefs | CheckRefs | TodoUpdates | ArtifactRefs | Checks | Evidence | Recommendation
    | ResultKey | HandoffRefs | ActorHistory | GitCommit | Dirty | DiffHash | StatusHash | SnapshotAt

  /** The keys only plans have. */
  datatype PlanKey =
    | PlanIdKey | VersionKey | PlanVersionKey | PlanStatusKey | CreatedBy | Supersedes | SupersedesPlanId | QuestionRefs
    | Criteria | Todos | GenerationReason | BasedOnQuestionIds | BasedOnAnswerHash | ApprovedAt | ApprovedBy
    | ApprovalNote | ApprovalSource | ApprovedPlanHash | Body | Goal | Files | TestCommands | ExpectedOutputs
    | TodosWaivedReason

  datatype Json =
    | Null | Bool(flag: bool) | Num(number: int) | Str(text: string) | Arr(items: seq<Json>)
    | Obj(fields: map<Key, Json>)

  type Fields = map<Key, Json>

  const SCHEMA: int := 1
  const V2 := "v2"
  const LEASE: int := 7200

  datatype ActorRef = ActorRef(
    actorType: string, actorName: string, tool: Option<string>, sessionId: Option<string>, host: Option<string>,
    pid: Option<int>, actorId: Option<string>, role: Option<string>, harnessId: Option<string>, commandPid: Option<int>,
    pidScope: Option<string>)

  datatype HarnessRef = HarnessRef(
    harnessId: string, name: string, kind: string, sessionId: Option<string>, workingDirectory: Option<string>,
    command: Option<string>, version: Option<string>, capabilities: seq<string>, createdAt: string, schemaVersion: int,
    objectType: string)

  datatype Entry = Entry(lockId: Json, source: Json, target: Json)

  datatype TaskLock = TaskLock(
    lockId: string, taskId: string, stage: string, runId: string, createdAt: string, expiresAt: Option<string>,
    reason: string, holder: ActorRef, leaseSeconds: int, lastHeartbeatAt: Option<string>, brokenAt: Option<string>,
    brokenBy: Option<ActorRef>, brokenReason: Option<string>, actor: Option<ActorRef>, harness: Option<HarnessRef>,
    history: seq<Entry>, transferDate: Option<string>, fileVersion: string, schemaVersion: int, objectType: string)

  datatype CodecError = MissingValue(key: Key) | BadSchema | BadObjectType | BadFileVersion | BadStage | BadActorType
                      | BadRole | BadHarnessKind | NotAMapping | BadRunType | BadStatus | BadResult | MissingVersion

  // ---- reading values ----

  function Get(data: Fields, key: Key): Json {
    if key in data then data[key] else Null
  }

  function OptionalString(j: Json): Option<string> {
    if j.Str? then Some(j.text) else None
  }

  /** A JSON truth value counts as a number. */
  function OptionalInt(j: Json): Option<int> {
    if j.Num? then Some(j.number) else if j.Bool? then Some(if j.flag then 1 else 0) else None
  }

  function StringValue(data: Fields, key: Key): Result<string, CodecError> {
    var j := Get(data, key);
    if j.Str? && j.text != "" then Success(j.text) else Failure(MissingValue(key))
  }

  /** `x or default` for strings: an empty one counts as absent. */
  function OrElse(o: Option<string>, default: string): string {
    if Truthy(o) then o.value else default
  }

  function RequireContract(data: Fields, objectType: string): Option<CodecError> {
    var version := OptionalInt(Get(data, SchemaVersion));
    if version.None? || version.value > SCHEMA then Some(BadSchema)
    else if OptionalString(Get(data, ObjectType)) != Some(objectType) then Some(BadObjectType)
    else if FileVersion in data && OptionalString(Get(data, FileVersion)) != Some(V2) then Some(BadFileVersion)
    else None
  }

  // ---- actors ----

  const ACTOR_TYPES := {"agent", "user", "system"}
  const ROLES := {"planner", "implementer", "validator", "reviewer", "operator"}
  const PID_SCOPES := {"owner", "command", "unverifiable_harness"}
  const HARNESS_KINDS := {"agent_harness", "manual", "ci", "unknown"}
  const DEFAULT_ACTOR := ActorRef("agent", "taskledger", None, None, None, None, None, None, None, None, None)

  function JsonString(o: Option<string>): Json {
    if o.Some? then Str(o.value) else Null
  }

  function JsonInt(o: Option<int>): Json {
    if o.Some? then Num(o.value) else Null
  }

  function ActorToJson(a: ActorRef): Json {
    Obj(map[ActorType := Str(a.actorType), ActorName := Str(a.actorName), Tool := JsonString(a.tool),
            SessionId := JsonString(a.sessionId), Host := JsonString(a.host), Pid := JsonInt(a.pid),
            ActorId := JsonString(a.actorId), Role := JsonString(a.role), HarnessId := JsonString(a.harnessId),
            CommandPid := JsonInt(a.commandPid), PidScope := JsonString(a.pidScope)])
  }

  function ActorFromJson(j: Json): Result<ActorRef, CodecError> {
    if !j.Obj? then Success(DEFAULT_ACTOR)
    else
      var data := j.fields;
      var actorType := OrElse(OptionalString(Get(data, ActorType)), "agent");
      var role := OptionalString(Get(data, Role));
      var scope := OptionalString(Get(data, PidScope));
      if actorType !in ACTOR_TYPES then Failure(BadActorType)
      else if Truthy(role) && role.value !in ROLES then Failure(BadRole)
      else
        Success(ActorRef(
                  actorType, OrElse(OptionalString(Get(data, ActorName)), "taskledger"),
                  OptionalString(Get(data, Tool)),
                  OptionalString(Get(data, SessionId)), OptionalString(Get(data, Host)), OptionalInt(Get(data, Pid)),
                  OptionalString(Get(data, ActorId)), if Truthy(role) then role else None,
                  OptionalString(Get(data, HarnessId)), OptionalInt(Get(data, CommandPid)),
                  if scope.Some? && scope.value in PID_SCOPES then scope else None))
  }

  predicate ActorNormal(a: ActorRef) {
    && a.actorType in ACTOR_TYPES && a.actorName != ""
    && (a.role.Some? ==> a.role.value in ROLES)
    && (a.pidScope.Some? ==> a.pidScope.value in PID_SCOPES)
  }

  lemma NamesNotEmpty()
    ensures "" !in ACTOR_TYPES && "" !in ROLES && "" !in HARNESS_KINDS && "agent" in ACTOR_TYPES
        && "unknown" in HARNESS_KINDS
  {
  }

  /** An actor survives writing and reading exactly if type, role and scope are known and the name is not empty. */
  lemma ActorRoundTripIff(a: ActorRef)
    ensures ActorFromJson(ActorToJson(a)) == Success(a) <==> ActorNormal(a)
  {
    NamesNotEmpty();
  }

  lemma ActorReadIsNormal(j: Json)
    ensures ActorFromJson(j).Success? ==> ActorNormal(ActorFromJson(j).value)
  {
    NamesNotEmpty();
  }

  // ---- harnesses ----

  function Strings(items: seq<Json>): seq<string> {
    if items == [] then []
    else if items[|items| - 1].Str? then Strings(items[..|items| - 1]) + [items[|items| - 1].text]
    else Strings(items[..|items| - 1])
  }

  function JsonStrings(s: seq<string>): seq<Json> {
    seq(|s|, i requires 0 <= i < |s| => Str(s[i]))
  }

  lemma {:induction false} StringsRoundTrip(s: seq<string>)
    ensures Strings(JsonStrings(s)) == s
  {
    if s != [] {
      StringsRoundTrip(s[..|s| - 1]);
      assert JsonStrings(s)[..|s| - 1] == JsonStrings(s[..|s| - 1]);
    }
  }

  function HarnessToJson(h: HarnessRef): Json {
    Obj(map[HarnessId := Str(h.harnessId), Name := Str(h.name), KindKey := Str(h.kind),
            SessionId := JsonString(h.sessionId),
            WorkingDirectory := JsonString(h.workingDirectory), Command := JsonString(h.command),
            Version := JsonString(h.version), Capabilities := Arr(JsonStrings(h.capabilities)),
            CreatedAt := Str(h.createdAt),
            SchemaVersion := Num(h.schemaVersion), ObjectType := Str(h.objectType)])
  }

  /** `now` is the time a harness without one is given. */
  function HarnessFromJson(j: Json, now: string): Result<HarnessRef, CodecError> {
    if !j.Obj? then Failure(NotAMapping)
    else
      var data := j.fields;
      var broken := RequireContract(data, "harness");
      var id := StringValue(data, HarnessId);
      var name := StringValue(data, Name);
      var kind := OrElse(OptionalString(Get(data, KindKey)), "unknown");
      if broken.Some? then Failure(broken.value)
      else if id.Failure? then Failure(id.error)
      else if name.Failure? then Failure(name.error)
      else if kind !in HARNESS_KINDS then Failure(BadHarnessKind)
      else
        Success(HarnessRef(
                  id.value, name.value, kind, OptionalString(Get(data, SessionId)),
                  OptionalString(Get(data, WorkingDirectory)), OptionalString(Get(data, Command)),
                  OptionalString(Get(data, Version)),
                  if Get(data, Capabilities).Arr? then Strings(Get(data, Capabilities).items) else [],
                  OrElse(OptionalString(Get(data, CreatedAt)), now), OptionalInt(Get(data, SchemaVersion)).value,
                  "harness"))
  }

  predicate HarnessNormal(h: HarnessRef) {
    && h.harnessId != "" && h.name != "" && h.kind in HARNESS_KINDS && h.createdAt != ""
    && h.schemaVersion <= SCHEMA && h.objectType == "harness"
  }

  ghost predicate HoldsHarness(data: Fields, h: HarnessRef) {
    && Get(data, HarnessId) == Str(h.harnessId) && Get(data, Name) == Str(h.name) && Get(data, KindKey) == Str(h.kind)
    && Get(data, SessionId) == JsonString(h.sessionId) && Get(data, WorkingDirectory) == JsonString(h.workingDirectory)
    && Get(data, Command) == JsonString(h.command) && Get(data, Version) == JsonString(h.version)
    && Get(data, Capabilities) == Arr(JsonStrings(h.capabilities)) && Get(data, CreatedAt) == Str(h.createdAt)
    && Get(data, SchemaVersion) == Num(h.schemaVersion) && Get(data, ObjectType) == Str(h.objectType)
    && FileVersion !in data
  }

  lemma WrittenHarness(h: HarnessRef)
    ensures HoldsHarness(HarnessToJson(h).fields, h)
  {
  }

  lemma HarnessReadsBack(data: Fields, h: HarnessRef, now: string)
    requires HarnessNormal(h) && HoldsHarness(data, h)
    ensures HarnessFromJson(Obj(data), now) == Success(h)
  {
    NamesNotEmpty();
    StringsRoundTrip(h.capabilities);
  }

  lemma HarnessRoundTrip(h: HarnessRef, now: string)
    requires HarnessNormal(h)
    ensures HarnessFromJson(HarnessToJson(h), now) == Success(h)
  {
    WrittenHarness(h);
    HarnessReadsBack(HarnessToJson(h).fields, h, now);
  }

  lemma HarnessReadIsNormal(j: Json, now: string)
    requires now != ""
    ensures HarnessFromJson(j, now).Success? ==> HarnessNormal(HarnessFromJson(j, now).value)
  {
    NamesNotEmpty();
  }

  // ---- locks ----

  const LOCK_STAGES := {"planning", "implementing", "validating"}

  function RunTypeOf(stage: string): string {
    if stage == "implementing" then "implementation" else if stage == "validating" then "validation" else stage
  }

  /** The stage, or for older records the stage of the run type. */
  function StageFrom(data: Fields): Option<string> {
    var stage := OptionalString(Get(data, StageKey));
    if stage.Some? then stage
    else
      match OptionalString(Get(data, RunTypeKey))
      case None => None
      case Some(runType) =>
        if runType == "planning" then Some("planning")
        else if runType == "implementation" then Some("implementing")
        else if runType == "validation" then Some("validating")
        else None
  }

  function EntryOf(j: Json): Option<Entry> {
    if j.Arr? && |j.items| == 3 then Some(Entry(j.items[0], j.items[1], j.items[2])) else None
  }

  /** The entries of three; others are passed over. */
  function HistoryOf(items: seq<Json>): seq<Entry> {
    if items == [] then []
    else
      var before := HistoryOf(items[..|items| - 1]);
      var entry := EntryOf(items[|items| - 1]);
      if entry.Some? then before + [entry.value] else before
  }

  method ReadHistory(items: seq<Json>) returns (history: seq<Entry>)
    ensures history == HistoryOf(items)
  {
    history := [];
    for i := 0 to |items|
      invariant history == HistoryOf(items[..i])
    {
      assert items[..i + 1][..i] == items[..i];
      var entry := EntryOf(items[i]);
      if entry.Some? {
        history := history + [entry.value];
      }
    }
    assert items[..|items|] == items;
  }

  function JsonHistory(history: seq<Entry>): seq<Json> {
    seq(|history|, i requires 0 <= i < |history| => Arr([history[i].lockId, history[i].source, history[i].target]))
  }

  lemma {:induction false} HistoryRoundTrip(history: seq<Entry>)
    ensures HistoryOf(JsonHistory(history)) == history
  {
    if history != [] {
      HistoryRoundTrip(history[..|history| - 1]);
      assert JsonHistory(history)[..|history| - 1] == JsonHistory(history[..|history| - 1]);
    }
  }

  function OptionalActor(a: Option<ActorRef>): Json {
    if a.Some? then ActorToJson(a.value) else Null
  }

  function OptionalHarness(h: Option<HarnessRef>): Json {
    if h.Some? then HarnessToJson(h.value) else Null
  }

  function ReadOptionalActor(j: Json): Result<Option<ActorRef>, CodecError> {
    if j.Null? then Success(None)
    else
      var a := ActorFromJson(j);
      if a.Success? then Success(Some(a.value)) else Failure(a.error)
  }

  function ReadOptionalHarness(j: Json, now: string): Result<Option<HarnessRef>, CodecError> {
    if j.Null? then Success(None)
    else
      var h := HarnessFromJson(j, now);
      if h.Success? then Success(Some(h.value)) else Failure(h.error)
  }

  function LockToJson(l: TaskLock): Fields {
    map[SchemaVersion := Num(l.schemaVersion), ObjectType := Str(l.objectType), FileVersion := Str(l.fileVersion),
        LockId := Str(l.lockId), TaskId := Str(l.taskId), StageKey := Str(l.stage),
        RunTypeKey := Str(RunTypeOf(l.stage)),
        RunId := Str(l.runId), CreatedAt := Str(l.createdAt), ExpiresAt := JsonString(l.expiresAt),
        LeaseSeconds := Num(l.leaseSeconds), LastHeartbeatAt := JsonString(l.lastHeartbeatAt), Reason := Str(l.reason),
        Holder := ActorToJson(l.holder), BrokenAt := JsonString(l.brokenAt), BrokenBy := OptionalActor(l.brokenBy),
        BrokenReason := JsonString(l.brokenReason), ActorKey := OptionalActor(l.actor),
        HarnessKey := OptionalHarness(l.harness),
        TransferHistory := Arr(JsonHistory(l.history)), TransferDate := JsonString(l.transferDate)]
  }

  /** The values that must be there, checked in order. */
  function LockDefect(data: Fields, now: string): Option<CodecError> {
    if RequireContract(data, "lock").Some? then RequireContract(data, "lock")
    else if StageFrom(data).None? || StageFrom(data).value !in LOCK_STAGES then Some(BadStage)
    else if StringValue(data, LockId).Failure? then Some(StringValue(data, LockId).error)
    else if StringValue(data, TaskId).Failure? then Some(StringValue(data, TaskId).error)
    else if StringValue(data, RunId).Failure? then Some(StringValue(data, RunId).error)
    else if StringValue(data, CreatedAt).Failure? then Some(StringValue(data, CreatedAt).error)
    else if StringValue(data, Reason).Failure? then Some(StringValue(data, Reason).error)
    else if ActorFromJson(Get(data, Holder)).Failure? then Some(ActorFromJson(Get(data, Holder)).error)
    else if ReadOptionalActor(Get(data, BrokenBy)).Failure? then Some(ReadOptionalActor(Get(data, BrokenBy)).error)
    else if ReadOptionalActor(Get(data, ActorKey)).Failure? then Some(ReadOptionalActor(Get(data, ActorKey)).error)
    else if ReadOptionalHarness(Get(data, HarnessKey), now).Failure?
    then Some(ReadOptionalHarness(Get(data, HarnessKey), now).error)
    else None
  }

  function LockFromJson(data: Fields, now: string): Result<TaskLock, CodecError> {
    var defect := LockDefect(data, now);
    if defect.Some? then Failure(defect.value)
    else
      var lease := OptionalInt(Get(data, LeaseSeconds));
      Success(TaskLock(
                StringValue(data, LockId).value, StringValue(data, TaskId).value, StageFrom(data).value,
                StringValue(data, RunId).value, StringValue(data, CreatedAt).value,
                OptionalString(Get(data, ExpiresAt)),
                StringValue(data, Reason).value, ActorFromJson(Get(data, Holder)).value,
                if lease.Some? && lease.value != 0 then lease.value else LEASE,
                OptionalString(Get(data, LastHeartbeatAt)), OptionalString(Get(data, BrokenAt)),
                ReadOptionalActor(Get(data, BrokenBy)).value, OptionalString(Get(data, BrokenReason)),
                ReadOptionalActor(Get(data, ActorKey)).value, ReadOptionalHarness(Get(data, HarnessKey), now).value,
                if Get(data, TransferHistory).Arr? then HistoryOf(Get(data, TransferHistory).items) else [],
                OptionalString(Get(data, TransferDate)), OrElse(OptionalString(Get(data, FileVersion)), V2),
                OptionalInt(Get(data, SchemaVersion)).value, "lock"))
  }

  /** A lock as reading produces it. */
  predicate LockNormal(l: TaskLock) {
    && l.lockId != "" && l.taskId != "" && l.stage in LOCK_STAGES && l.runId != "" && l.createdAt != ""
       && l.reason != ""
    && ActorNormal(l.holder) && l.leaseSeconds != 0
    && (l.brokenBy.Some? ==> ActorNormal(l.brokenBy.value))
    && (l.actor.Some? ==> ActorNormal(l.actor.value))
    && (l.harness.Some? ==> HarnessNormal(l.harness.value))
    && l.fileVersion == V2 && l.schemaVersion <= SCHEMA && l.objectType == "lock"
  }

  lemma OptionalActorRoundTrip(a: Option<ActorRef>)
    requires a.Some? ==> ActorNormal(a.value)
    ensures ReadOptionalActor(OptionalActor(a)) == Success(a)
  {
    if a.Some? {
      ActorRoundTripIff(a.value);
    }
  }

  /** Whatever reading produces is normal. */
  lemma LockReadIsNormal(data: Fields, now: string)
    requires now != ""
    ensures LockFromJson(data, now).Success? ==> LockNormal(LockFromJson(data, now).value)
  {
    ActorReadIsNormal(Get(data, Holder));
    ActorReadIsNormal(Get(data, BrokenBy));
    ActorReadIsNormal(Get(data, ActorKey));
    HarnessReadIsNormal(Get(data, HarnessKey), now);
  }

  /** What a written lock holds under each key. */
  ghost predicate HoldsHeader(data: Fields, l: TaskLock) {
    && Get(data, SchemaVersion) == Num(l.schemaVersion) && Get(data, ObjectType) == Str(l.objectType)
    && Get(data, FileVersion) == Str(l.fileVersion) && Get(data, LeaseSeconds) == Num(l.leaseSeconds)
    && Get(data, StageKey) == Str(l.stage)
  }

  ghost predicate HoldsNames(data: Fields, l: TaskLock) {
    && Get(data, LockId) == Str(l.lockId) && Get(data, TaskId) == Str(l.taskId) && Get(data, RunId) == Str(l.runId)
    && Get(data, CreatedAt) == Str(l.createdAt) && Get(data, Reason) == Str(l.reason)
  }

  ghost predicate HoldsTimes(data: Fields, l: TaskLock) {
    && Get(data, ExpiresAt) == JsonString(l.expiresAt) && Get(data, LastHeartbeatAt) == JsonString(l.lastHeartbeatAt)
    && Get(data, BrokenAt) == JsonString(l.brokenAt) && Get(data, BrokenReason) == JsonString(l.brokenReason)
    && Get(data, TransferDate) == JsonString(l.transferDate)
  }

  ghost predicate HoldsNested(data: Fields, l: TaskLock) {
    && Get(data, Holder) == ActorToJson(l.holder) && Get(data, BrokenBy) == OptionalActor(l.brokenBy)
    && Get(data, ActorKey) == OptionalActor(l.actor) && Get(data, HarnessKey) == OptionalHarness(l.harness)
    && Get(data, TransferHistory) == Arr(JsonHistory(l.history))
  }

  lemma WrittenHeader(l: TaskLock)
    ensures HoldsHeader(LockToJson(l), l)
  {
  }

  lemma WrittenNames(l: TaskLock)
    ensures HoldsNames(LockToJson(l), l)
  {
  }

  lemma WrittenTimes(l: TaskLock)
    ensures HoldsTimes(LockToJson(l), l)
  {
  }

  lemma WrittenNested(l: TaskLock)
    ensures HoldsNested(LockToJson(l), l)
  {
  }

  lemma OptionalHarnessRoundTrip(h: Option<HarnessRef>, now: string)
    requires h.Some? ==> HarnessNormal(h.value)
    ensures ReadOptionalHarness(OptionalHarness(h), now) == Success(h)
  {
    if h.Some? {
      HarnessRoundTrip(h.value, now);
    }
  }

  /** What is nested in a written lock reads back. */
  ghost predicate NestedRead(data: Fields, l: TaskLock, now: string) {
    && ActorFromJson(Get(data, Holder)) == Success(l.holder)
    && ReadOptionalActor(Get(data, BrokenBy)) == Success(l.brokenBy)
    && ReadOptionalActor(Get(data, ActorKey)) == Success(l.actor)
    && ReadOptionalHarness(Get(data, HarnessKey), now) == Success(l.harness)
  }

  lemma NestedRoundTrip(data: Fields, l: TaskLock, now: string)
    requires LockNormal(l) && HoldsNested(data, l)
    ensures NestedRead(data, l, now)
  {
    ActorRoundTripIff(l.holder);
    OptionalActorRoundTrip(l.brokenBy);
    OptionalActorRoundTrip(l.actor);
    OptionalHarnessRoundTrip(l.harness, now);
  }

  lemma ContractMet(data: Fields, l: TaskLock)
    requires l.fileVersion == V2 && l.schemaVersion <= SCHEMA && l.objectType == "lock" && HoldsHeader(data, l)
    ensures RequireContract(data, "lock") == None
  {
  }

  lemma NoDefect(data: Fields, l: TaskLock, now: string)
    requires LockNormal(l) && HoldsHeader(data, l) && HoldsNames(data, l) && NestedRead(data, l, now)
    ensures LockDefect(data, now) == None
  {
    ContractMet(data, l);
  }

  lemma ReadsBack(data: Fields, l: TaskLock, now: string)
    requires LockNormal(l) && HoldsHeader(data, l) && HoldsNames(data, l) && HoldsTimes(data, l) && HoldsNested(data, l)
    requires NestedRead(data, l, now) && LockDefect(data, now) == None
    ensures LockFromJson(data, now) == Success(l)
  {
    HistoryRoundTrip(l.history);
  }

  lemma LockRoundTrip(l: TaskLock, now: string)
    requires LockNormal(l)
    ensures LockFromJson(LockToJson(l), now) == Success(l)
  {
    var data := LockToJson(l);
    WrittenHeader(l);
    WrittenNames(l);
    WrittenTimes(l);
    WrittenNested(l);
    NestedRoundTrip(data, l, now);
    NoDefect(data, l, now);
    ReadsBack(data, l, now);
  }

  /** A lock survives writing and reading exactly when it is normal: with its actors, its harness and its history. */
  lemma LockRoundTripIff(l: TaskLock, now: string)
    requires now != ""
    ensures LockFromJson(LockToJson(l), now) == Success(l) <==> LockNormal(l)
  {
    LockReadIsNormal(LockToJson(l), now);
    if LockNormal(l) {
      LockRoundTrip(l, now);
    }
  }

  /** Reading anything, writing it and reading again gives the same lock. */
  lemma ReadingSettles(data: Fields, now: string, later: string)
    requires now != ""
    ensures LockFromJson(data, now).Success? ==>
              LockFromJson(LockToJson(LockFromJson(data, now).value), later) == LockFromJson(data, now)
  {
    LockReadIsNormal(data, now);
    if LockFromJson(data, now).Success? {
      LockRoundTrip(LockFromJson(data, now).value, later);
    }
  }

  /** Records from before stages were written still name their stage, by their run type. */
  lemma StageRecovered(l: TaskLock)
    requires l.stage in LOCK_STAGES
    ensures StageFrom(LockToJson(l) - {StageKey}) == Some(l.stage)
  {
  }

  // ---- what can be read ----

  predicate HasText(data: Fields, key: Key) {
    Get(data, key).Str? && Get(data, key).text != ""
  }

  /** Absent, no text or an empty one, where another value is taken instead. */
  predicate Unset(data: Fields, key: Key) {
    !HasText(data, key)
  }

  predicate IsNumber(j: Json, n: int) {
    j == Num(n) || (j == Bool(true) && n == 1) || (j == Bool(false) && n == 0)
  }

  /** The schema is not newer than the first, the type is this one, and the file version, if given, is the second. */
  predicate MeetsContract(data: Fields, objectType: string) {
    && (Get(data, SchemaVersion).Bool? || (Get(data, SchemaVersion).Num? && Get(data, SchemaVersion).number <= 1))
    && Get(data, ObjectType) == Str(objectType)
    && (FileVersion in data ==> data[FileVersion] == Str("v2"))
  }

  predicate ReadableActor(j: Json) {
    j.Obj? ==>
      && (Unset(j.fields, ActorType) || Get(j.fields, ActorType).text in {"agent", "user", "system"})
      && (Unset(j.fields, Role)
          || Get(j.fields, Role).text in {"planner", "implementer", "validator", "reviewer", "operator"})
  }

  predicate ReadableHarness(j: Json) {
    j.Null? || (
      && j.Obj? && MeetsContract(j.fields, "harness") && HasText(j.fields, HarnessId) && HasText(j.fields, Name)
      && (Unset(j.fields, KindKey)
          || Get(j.fields, KindKey).text in {"agent_harness", "manual", "ci", "unknown"}))
  }

  lemma ContractIff(data: Fields, objectType: string)
    ensures RequireContract(data, objectType).None? <==> MeetsContract(data, objectType)
  {
  }

  /** What an actor is read as: anything but a mapping is the program itself, and so is a name or type not given. */
  lemma ActorReadAs(j: Json)
    ensures ActorFromJson(j).Success? <==> ReadableActor(j)
    ensures ActorFromJson(j).Success? ==>
              var a, data := ActorFromJson(j).value, if j.Obj? then j.fields else map[];
              && a.actorType == (if Unset(data, ActorType) then "agent" else Get(data, ActorType).text)
              && a.actorName == (if Unset(data, ActorName) then "taskledger" else Get(data, ActorName).text)
              && (if Unset(data, Role) then a.role.None? else a.role == Some(Get(data, Role).text))
              && (a.pidScope.Some? <==> Get(data, PidScope).Str?
                                        && Get(data, PidScope).text in {"owner", "command", "unverifiable_harness"})
  {
    NamesNotEmpty();
  }

  lemma HarnessReadAs(j: Json, now: string)
    ensures ReadOptionalHarness(j, now).Success? <==> ReadableHarness(j)
    ensures ReadOptionalHarness(j, now).Success? ==>
              var h := ReadOptionalHarness(j, now).value;
              && (h.None? <==> j.Null?)
              && (h.Some? ==>
                    && h.value.kind == (if Unset(j.fields, KindKey) then "unknown" else Get(j.fields, KindKey).text)
                    && h.value.createdAt == (if Unset(j.fields, CreatedAt) then now else Get(j.fields, CreatedAt).text))
  {
    NamesNotEmpty();
    if j.Obj? {
      ContractIff(j.fields, "harness");
    }
  }

  /** Of a list of texts only the texts count, and of a history only the triples; they keep their order. */
  lemma PassedOver(items: seq<Json>, j: Json)
    ensures Strings(items + [j]) == if j.Str? then Strings(items) + [j.text] else Strings(items)
    ensures HistoryOf(items + [j])
            == if j.Arr? && |j.items| == 3
               then HistoryOf(items) + [Entry(j.items[0], j.items[1], j.items[2])] else HistoryOf(items)
    ensures Strings([]) == [] && HistoryOf([]) == []
  {
    assert (items + [j])[..|items|] == items;
  }

  /** A lock names its stage, or else its kind of run. */
  predicate NamesStage(data: Fields) {
    if Get(data, StageKey).Str? then Get(data, StageKey).text in {"planning", "implementing", "validating"}
    else Get(data, RunTypeKey).Str? && Get(data, RunTypeKey).text in {"planning", "implementation", "validation"}
  }

  lemma OptionalActorReadAs(j: Json)
    ensures ReadOptionalActor(j).Success? <==> ReadableActor(j)
    ensures ReadOptionalActor(j).Success? ==> (ReadOptionalActor(j).value.None? <==> j.Null?)
  {
    ActorReadAs(j);
  }

  lemma StageIff(data: Fields)
    ensures StageFrom(data).Some? && StageFrom(data).value in LOCK_STAGES <==> NamesStage(data)
  {
  }

  /** Exactly these locks can be read; a lease that is missing or zero is two hours. */
  lemma LockReadIff(data: Fields, now: string)
    ensures LockFromJson(data, now).Success? <==>
              && MeetsContract(data, "lock") && NamesStage(data)
              && HasText(data, LockId) && HasText(data, TaskId) && HasText(data, RunId) && HasText(data, CreatedAt)
              && HasText(data, Reason)
              && ReadableActor(Get(data, Holder)) && ReadableActor(Get(data, BrokenBy))
              && ReadableActor(Get(data, ActorKey)) && ReadableHarness(Get(data, HarnessKey))
    ensures LockFromJson(data, now).Success? ==>
              var lock := LockFromJson(data, now).value;
              && (forall n :: n != 0 && IsNumber(Get(data, LeaseSeconds), n) ==> lock.leaseSeconds == n)
              && ((forall n :: IsNumber(Get(data, LeaseSeconds), n) ==> n == 0) ==> lock.leaseSeconds == 7200)
  {
    ContractIff(data, "lock");
    StageIff(data);
    ActorReadAs(Get(data, Holder));
    OptionalActorReadAs(Get(data, BrokenBy));
    OptionalActorReadAs(Get(data, ActorKey));
    HarnessReadAs(Get(data, HarnessKey), now);
    if LockFromJson(data, now).Success? {
      LeaseRead(data, now);
    }
  }

  lemma LeaseRead(data: Fields, now: string)
    requires LockFromJson(data, now).Success?
    ensures var lease := LockFromJson(data, now).value.leaseSeconds;
      && (forall n :: n != 0 && IsNumber(Get(data, LeaseSeconds), n) ==> lease == n)
      && ((forall n :: IsNumber(Get(data, LeaseSeconds), n) ==> n == 0) ==> lease == 7200)
  {
    var j := Get(data, LeaseSeconds);
    assert j.Num? ==> IsNumber(j, j.number);
    assert j.Bool? ==> IsNumber(j, if j.flag then 1 else 0);
  }

  // ---- plan ids ----

  const PLAN_PREFIX := "plan-v"

  function PlanId(version: int): string {
    PLAN_PREFIX + if version < 0 then "-" + Decimal(-version) else Decimal(version)
  }

  function PlanVersionFromId(id: string): Option<nat> {
    if !Text.StartsWith(id, PLAN_PREFIX) then None
    else
      var suffix := id[|PLAN_PREFIX|..];
      if suffix != "" && AllDigits(suffix) then Some(DecimalValue(suffix)) else None
  }

  lemma {:induction false} ValuePositive(s: string)
    requires AllDigits(s) && s != "" && s[0] != '0'
    ensures DecimalValue(s) > 0
  {
    if |s| > 1 {
      ValuePositive(s[..|s| - 1]);
    }
  }

  lemma {:induction false} CanonicalRoundTrip(s: string)
    requires AllDigits(s) && Canonical(s)
    ensures Decimal(DecimalValue(s)) == s
  {
    var before, last := s[..|s| - 1], s[|s| - 1];
    assert s == before + [last];
    if before != "" {
      CanonicalRoundTrip(before);
      ValuePositive(before);
      assert DecimalValue(s) / 10 == DecimalValue(before) && DecimalValue(s) % 10 == DigitValue(last);
    }
  }

  /** The version of a plan's id is the plan's version; and an id is that of its version unless it has leading zeros. */
  lemma PlanIdsInverse(version: int, id: string)
    ensures PlanVersionFromId(PlanId(version)) == if version < 0 then None else Some(version)
    ensures PlanVersionFromId(id).Some? ==>
              (PlanId(PlanVersionFromId(id).value) == id <==> Canonical(id[|PLAN_PREFIX|..]))
  {
    var own := PlanId(version);
    assert own[..|PLAN_PREFIX|] == PLAN_PREFIX;
    if version < 0 {
      assert own[|PLAN_PREFIX|..][0] == '-';
    } else {
      assert own[|PLAN_PREFIX|..] == Decimal(version);
      DecimalRoundTrip(version);
    }
    if PlanVersionFromId(id).Some? {
      var suffix := id[|PLAN_PREFIX|..];
      var back := PlanId(DecimalValue(suffix));
      assert id == PLAN_PREFIX + suffix;
      assert back[|PLAN_PREFIX|..] == Decimal(DecimalValue(suffix));
      DecimalCanonical(DecimalValue(suffix));
      if Canonical(suffix) {
        CanonicalRoundTrip(suffix);
      }
    }
  }

  // ---- the plan a run is based on ----

  /** A run names its plan by id, by version, or both. */
  datatype PlanRef = PlanRef(plan: Option<string>, version: Option<int>)

  /** Writing fills in the id from the version. */
  function WrittenPlan(r: PlanRef): Option<string> {
    if Truthy(r.plan) then r.plan else if r.version.Some? then Some(PlanId(r.version.value)) else None
  }

  /** Reading takes the version, or that of the id; zero counts as absent. */
  function ReadVersion(version: Option<int>, plan: Option<string>): Option<int> {
    if version.Some? && version.value != 0 then version
    else if plan.None? then None
    else if PlanVersionFromId(plan.value).Some? then Some(PlanVersionFromId(plan.value).value)
    else None
  }

  function WriteThenRead(r: PlanRef): PlanRef {
    PlanRef(WrittenPlan(r), ReadVersion(r.version, WrittenPlan(r)))
  }

  /** The id is there if anything is, and a version that is absent or zero is the id's own. */
  predicate Stored(r: PlanRef) {
    && (r.plan.Some? ==> r.plan.value != "")
    && (r.version.Some? ==> r.plan.Some?)
    && (r.version.None? || r.version.value == 0 ==> r.version == ReadVersion(None, r.plan))
  }

  /** What is stored comes back as it is, and once is enough to get there. */
  lemma PlanRefSettles(r: PlanRef)
    ensures WriteThenRead(r) == r <==> Stored(r)
    ensures Stored(WriteThenRead(r))
    ensures r.plan == None && r.version.Some? ==> WriteThenRead(r) == PlanRef(Some(PlanId(r.version.value)), r.version)
  {
    if r.version.Some? {
      PlanIdsInverse(r.version.value, "");
    }
  }
}
