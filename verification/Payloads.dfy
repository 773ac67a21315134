/** Archive payloads and the pass that renames every task reference in one. */
module Payloads {
  import opened Common
  import opened Records

  /** The records of a task that live beside it in its directory. */
  datatype Record =
    | PlanRecord(taskId: string, version: nat, status: PlanStatus)
    | RunRecord(run: Run)
    | ChangeRecord(change: Change)
    | CheckRecord(check: Check)
    | HandoffRecord(handoff: Handoff)
  {
    function Owner(): string {
      match this
      case PlanRecord(t, _, _) => t
      case RunRecord(r) => r.taskId
      case ChangeRecord(c) => c.taskId
      case CheckRecord(c) => c.taskId
      case HandoffRecord(h) => h.taskId
    }

    function WithOwner(id: string): (r: Record)
      ensures r.Owner() == id
    {
      match this
      case PlanRecord(_, v, s) => PlanRecord(id, v, s)
      case RunRecord(r) => RunRecord(r.(taskId := id))
      case ChangeRecord(c) => ChangeRecord(c.(taskId := id))
      case CheckRecord(c) => CheckRecord(c.(taskId := id))
      case HandoffRecord(h) => HandoffRecord(h.(taskId := id))
    }
  }

  datatype Requirement = Requirement(taskId: Option<string>, parent: Option<string>, required: Option<string>)

  datatype Release = Release(version: string, boundary: string)

  datatype ActiveTask = ActiveTask(taskId: string, previous: Option<string>)

  datatype Payload = Payload(
    tasks: seq<Task>,
    records: seq<Record>,
    locks: seq<Lock>,
    requirements: seq<Requirement>,
    releases: seq<Release>,
    active: Option<ActiveTask>
  )

  // ---- renaming, for any renaming ----

  function Each<T, U>(items: seq<T>, f: T -> U): (r: seq<U>)
    ensures |r| == |items|
    ensures forall i :: 0 <= i < |r| ==> r[i] == f(items[i])
  {
    seq(|items|, i requires 0 <= i < |items| => f(items[i]))
  }

  function MapOption(o: Option<string>, f: string -> string): Option<string> {
    if o.Some? then Some(f(o.value)) else None
  }

  function MapTask(t: Task, f: string -> string): Task {
    t.(id := f(t.id), parent := MapOption(t.parent, f), requirements := Each(t.requirements, f))
  }

  function MapRecord(r: Record, f: string -> string): Record {
    r.WithOwner(f(r.Owner()))
  }

  function MapLock(l: Lock, f: string -> string): Lock {
    l.(taskId := f(l.taskId))
  }

  function MapRequirement(q: Requirement, f: string -> string): Requirement {
    Requirement(MapOption(q.taskId, f), MapOption(q.parent, f), MapOption(q.required, f))
  }

  function MapRelease(r: Release, f: string -> string): Release {
    r.(boundary := f(r.boundary))
  }

  function MapActive(a: Option<ActiveTask>, f: string -> string): Option<ActiveTask> {
    if a.Some? then Some(ActiveTask(f(a.value.taskId), MapOption(a.value.previous, f))) else None
  }

  /** The payload with every task reference replaced by its image, all at once. */
  function MapPayload(p: Payload, f: string -> string): Payload {
    Payload(
      Each(p.tasks, t => MapTask(t, f)),
      Each(p.records, r => MapRecord(r, f)),
      Each(p.locks, l => MapLock(l, f)),
      Each(p.requirements, q => MapRequirement(q, f)),
      Each(p.releases, r => MapRelease(r, f)),
      MapActive(p.active, f))
  }

  // ---- the references of a payload ----

  function OptionRefs(o: Option<string>): seq<string> {
    if o.Some? then [o.value] else []
  }

  function TaskRefs(t: Task): seq<string> {
    [t.id] + OptionRefs(t.parent) + t.requirements
  }

  function RequirementRefs(q: Requirement): seq<string> {
    OptionRefs(q.taskId) + OptionRefs(q.parent) + OptionRefs(q.required)
  }

  function ActiveRefs(a: Option<ActiveTask>): seq<string> {
    if a.Some? then [a.value.taskId] + OptionRefs(a.value.previous) else []
  }

  function Flatten(s: seq<seq<string>>): seq<string> {
    if s == [] then [] else s[0] + Flatten(s[1..])
  }

  function AllTaskRefs(ts: seq<Task>): seq<string> {
    Flatten(Each(ts, t => TaskRefs(t)))
  }

  function AllRequirementRefs(qs: seq<Requirement>): seq<string> {
    Flatten(Each(qs, q => RequirementRefs(q)))
  }

  /** Every place where the payload names a task, in order. */
  function References(p: Payload): seq<string> {
    AllTaskRefs(p.tasks)
    + Each(p.records, (r: Record) => r.Owner())
    + Each(p.locks, (l: Lock) => l.taskId)
    + AllRequirementRefs(p.requirements)
    + Each(p.releases, (r: Release) => r.boundary)
    + ActiveRefs(p.active)
  }

  lemma EachConcat<T, U>(a: seq<T>, b: seq<T>, f: T -> U)
    ensures Each(a + b, f) == Each(a, f) + Each(b, f)
  {
  }

  lemma {:induction false} FlattenEach(s: seq<seq<string>>, f: string -> string)
    ensures Each(Flatten(s), f) == Flatten(Each(s, r => Each(r, f)))
  {
    if s != [] {
      FlattenEach(s[1..], f);
      EachConcat(s[0], Flatten(s[1..]), f);
      assert Each(s, r => Each(r, f))[1..] == Each(s[1..], r => Each(r, f));
    }
  }

  lemma TaskRefsMap(t: Task, f: string -> string)
    ensures TaskRefs(MapTask(t, f)) == Each(TaskRefs(t), f)
  {
    EachConcat([t.id] + OptionRefs(t.parent), t.requirements, f);
  }

  lemma AllTaskRefsMap(ts: seq<Task>, f: string -> string)
    ensures AllTaskRefs(Each(ts, t => MapTask(t, f))) == Each(AllTaskRefs(ts), f)
  {
    var refs := Each(ts, t => TaskRefs(t));
    FlattenEach(refs, f);
    forall i | 0 <= i < |ts|
      ensures TaskRefs(MapTask(ts[i], f)) == Each(refs[i], f)
    {
      TaskRefsMap(ts[i], f);
    }
    assert Each(Each(ts, t => MapTask(t, f)), t => TaskRefs(t)) == Each(refs, r => Each(r, f));
  }

  lemma RequirementRefsMap(q: Requirement, f: string -> string)
    ensures RequirementRefs(MapRequirement(q, f)) == Each(RequirementRefs(q), f)
  {
    EachConcat(OptionRefs(q.taskId) + OptionRefs(q.parent), OptionRefs(q.required), f);
    EachConcat(OptionRefs(q.taskId), OptionRefs(q.parent), f);
  }

  lemma AllRequirementRefsMap(qs: seq<Requirement>, f: string -> string)
    ensures AllRequirementRefs(Each(qs, q => MapRequirement(q, f))) == Each(AllRequirementRefs(qs), f)
  {
    var refs := Each(qs, q => RequirementRefs(q));
    FlattenEach(refs, f);
    forall i | 0 <= i < |qs|
      ensures RequirementRefs(MapRequirement(qs[i], f)) == Each(refs[i], f)
    {
      RequirementRefsMap(qs[i], f);
    }
    assert Each(Each(qs, q => MapRequirement(q, f)), q => RequirementRefs(q)) == Each(refs, r => Each(r, f));
  }

  lemma SingleRefsMap(records: seq<Record>, locks: seq<Lock>, releases: seq<Release>, f: string -> string)
    ensures Each(Each(records, r => MapRecord(r, f)), (r: Record) => r.Owner())
        == Each(Each(records, (r: Record) => r.Owner()), f)
    ensures Each(Each(locks, l => MapLock(l, f)), (l: Lock) => l.taskId) == Each(Each(locks, (l: Lock) => l.taskId), f)
    ensures Each(Each(releases, r => MapRelease(r, f)), (r: Release) => r.boundary)
            == Each(Each(releases, (r: Release) => r.boundary), f)
  {
  }

  lemma ActiveRefsMap(a: Option<ActiveTask>, f: string -> string)
    ensures ActiveRefs(MapActive(a, f)) == Each(ActiveRefs(a), f)
  {
    if a.Some? {
      EachConcat([a.value.taskId], OptionRefs(a.value.previous), f);
    }
  }

  lemma EachConcatSix(
    a: seq<string>, b: seq<string>, c: seq<string>, d: seq<string>, e: seq<string>, g: seq<string>, f: string -> string)
    ensures Each(a + b + c + d + e + g, f)
        == Each(a, f) + Each(b, f) + Each(c, f) + Each(d, f) + Each(e, f) + Each(g, f)
  {
    EachConcat(a + b + c + d + e, g, f);
    EachConcat(a + b + c + d, e, f);
    EachConcat(a + b + c, d, f);
    EachConcat(a + b, c, f);
    EachConcat(a, b, f);
  }

  /** Renaming changes every reference, where it stands, once. */
  lemma ReferencesMap(p: Payload, f: string -> string)
    ensures References(MapPayload(p, f)) == Each(References(p), f)
  {
    AllTaskRefsMap(p.tasks, f);
    AllRequirementRefsMap(p.requirements, f);
    SingleRefsMap(p.records, p.locks, p.releases, f);
    ActiveRefsMap(p.active, f);
    EachConcatSix(AllTaskRefs(p.tasks), Each(p.records, (r: Record) => r.Owner()), Each(p.locks, (l: Lock) => l.taskId),
                  AllRequirementRefs(p.requirements), Each(p.releases, (r: Release) => r.boundary),
                  ActiveRefs(p.active), f);
  }

  // ---- renaming looks at the references only ----

  lemma {:induction false} FlattenHas(s: seq<seq<string>>, i: nat, x: string)
    requires i < |s| && x in s[i]
    ensures x in Flatten(s)
  {
    if i > 0 {
      FlattenHas(s[1..], i - 1, x);
    }
  }

  lemma TasksAgree(ts: seq<Task>, f: string -> string, g: string -> string)
    requires forall x :: x in AllTaskRefs(ts) ==> f(x) == g(x)
    ensures Each(ts, t => MapTask(t, f)) == Each(ts, t => MapTask(t, g))
  {
    forall i | 0 <= i < |ts|
      ensures MapTask(ts[i], f) == MapTask(ts[i], g)
    {
      var t := ts[i];
      forall x | x in TaskRefs(t)
        ensures f(x) == g(x)
      {
        FlattenHas(Each(ts, t => TaskRefs(t)), i, x);
      }
      assert t.id in TaskRefs(t);
      assert t.parent.Some? ==> t.parent.value in TaskRefs(t);
      assert forall x :: x in t.requirements ==> x in TaskRefs(t);
      assert Each(t.requirements, f) == Each(t.requirements, g);
    }
  }

  lemma RequirementsAgree(qs: seq<Requirement>, f: string -> string, g: string -> string)
    requires forall x :: x in AllRequirementRefs(qs) ==> f(x) == g(x)
    ensures Each(qs, q => MapRequirement(q, f)) == Each(qs, q => MapRequirement(q, g))
  {
    forall i | 0 <= i < |qs|
      ensures MapRequirement(qs[i], f) == MapRequirement(qs[i], g)
    {
      var q := qs[i];
      forall x | x in RequirementRefs(q)
        ensures f(x) == g(x)
      {
        FlattenHas(Each(qs, q => RequirementRefs(q)), i, x);
      }
      assert q.taskId.Some? ==> q.taskId.value in RequirementRefs(q);
      assert q.parent.Some? ==> q.parent.value in RequirementRefs(q);
      assert q.required.Some? ==> q.required.value in RequirementRefs(q);
    }
  }

  lemma SinglesAgree(
    records: seq<Record>, locks: seq<Lock>, releases: seq<Release>, f: string -> string, g: string -> string)
    requires forall x :: x in Each(records, (r: Record) => r.Owner()) ==> f(x) == g(x)
    requires forall x :: x in Each(locks, (l: Lock) => l.taskId) ==> f(x) == g(x)
    requires forall x :: x in Each(releases, (r: Release) => r.boundary) ==> f(x) == g(x)
    ensures Each(records, r => MapRecord(r, f)) == Each(records, r => MapRecord(r, g))
    ensures Each(locks, l => MapLock(l, f)) == Each(locks, l => MapLock(l, g))
    ensures Each(releases, r => MapRelease(r, f)) == Each(releases, r => MapRelease(r, g))
  {
    assert forall i :: 0 <= i < |records| ==> records[i].Owner() == Each(records, (r: Record) => r.Owner())[i];
    assert forall i :: 0 <= i < |locks| ==> locks[i].taskId == Each(locks, (l: Lock) => l.taskId)[i];
    assert forall i :: 0 <= i < |releases| ==> releases[i].boundary == Each(releases, (r: Release) => r.boundary)[i];
  }

  /** Two renamings that agree on the references of a payload make the same of it. */
  lemma MapAgree(p: Payload, f: string -> string, g: string -> string)
    requires forall x :: x in References(p) ==> f(x) == g(x)
    ensures MapPayload(p, f) == MapPayload(p, g)
  {
    TasksAgree(p.tasks, f, g);
    RequirementsAgree(p.requirements, f, g);
    SinglesAgree(p.records, p.locks, p.releases, f, g);
    if p.active.Some? {
      assert p.active.value.taskId in ActiveRefs(p.active);
      assert p.active.value.previous.Some? ==> p.active.value.previous.value in ActiveRefs(p.active);
    }
  }

  lemma EachTwice<T>(items: seq<T>, f: T -> T, g: T -> T, h: T -> T)
    requires forall x :: x in items ==> g(f(x)) == h(x)
    ensures Each(Each(items, f), g) == Each(items, h)
  {
  }

  lemma MapTaskTwice(t: Task, f: string -> string, g: string -> string)
    ensures MapTask(MapTask(t, f), g) == MapTask(t, x => g(f(x)))
  {
    EachTwice(t.requirements, f, g, x => g(f(x)));
  }

  /** One renaming after another is a single one. */
  lemma MapTwice(p: Payload, f: string -> string, g: string -> string)
    ensures MapPayload(MapPayload(p, f), g) == MapPayload(p, x => g(f(x)))
  {
    var h := x => g(f(x));
    forall t | t in p.tasks
      ensures MapTask(MapTask(t, f), g) == MapTask(t, h)
    {
      MapTaskTwice(t, f, g);
    }
    EachTwice(p.tasks, t => MapTask(t, f), t => MapTask(t, g), t => MapTask(t, h));
    EachTwice(p.records, r => MapRecord(r, f), r => MapRecord(r, g), r => MapRecord(r, h));
    EachTwice(p.locks, l => MapLock(l, f), l => MapLock(l, g), l => MapLock(l, h));
    EachTwice(p.requirements, q => MapRequirement(q, f), q => MapRequirement(q, g), q => MapRequirement(q, h));
    EachTwice(p.releases, r => MapRelease(r, f), r => MapRelease(r, g), r => MapRelease(r, h));
  }

  lemma EachSame<T>(items: seq<T>, f: T -> T)
    requires forall x :: x in items ==> f(x) == x
    ensures Each(items, f) == items
  {
  }

  lemma MapIdentity(p: Payload)
    ensures MapPayload(p, x => x) == p
  {
    forall t: Task | t in p.tasks
      ensures MapTask(t, x => x) == t
    {
      EachSame(t.requirements, x => x);
    }
    EachSame(p.tasks, t => MapTask(t, x => x));
    EachSame(p.records, r => MapRecord(r, x => x));
    EachSame(p.locks, l => MapLock(l, x => x));
    EachSame(p.requirements, q => MapRequirement(q, x => x));
    EachSame(p.releases, r => MapRelease(r, x => x));
  }
}
