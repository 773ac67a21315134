/** Renaming the tasks of an archive by an id map: the pass itself, and why it keeps who refers to whom. */
module Rewriting {
  import opened Common
  import opened Records
  import opened Renumbering
  import opened Payloads

  /** `id_map.get(value, value)`: ids the map does not know stay as they are. */
  function Rename(m: map<string, string>, id: string): string {
    if id in m then m[id] else id
  }

  function Renaming(m: map<string, string>): string -> string {
    id => Rename(m, id)
  }

  // ---- the pass ----

  method RewriteEach<T>(items: seq<T>, rewrite: T -> T) returns (r: seq<T>)
    ensures r == Each(items, rewrite)
  {
    r := items;
    for i := 0 to |items|
      invariant |r| == |items|
      invariant forall j :: 0 <= j < i ==> r[j] == rewrite(items[j])
      invariant forall j :: i <= j < |items| ==> r[j] == items[j]
    {
      r := r[i := rewrite(r[i])];
    }
  }

  method RewriteTasks(tasks: seq<Task>, m: map<string, string>) returns (r: seq<Task>)
    ensures r == Each(tasks, t => MapTask(t, Renaming(m)))
  {
    r := tasks;
    for i := 0 to |tasks|
      invariant |r| == |tasks|
      invariant forall j :: 0 <= j < i ==> r[j] == MapTask(tasks[j], Renaming(m))
      invariant forall j :: i <= j < |tasks| ==> r[j] == tasks[j]
    {
      var item := r[i].(id := Rename(m, r[i].id));
      if item.parent.Some? && item.parent.value in m {
        item := item.(parent := Some(m[item.parent.value]));
      }
      var requirements := RewriteEach(item.requirements, Renaming(m));
      r := r[i := item.(requirements := requirements)];
    }
  }

  /** An archive of single tasks does not carry the active task over. */
  function Carried(p: Payload, includeActive: bool): Payload {
    if includeActive then p else p.(active := None)
  }

  /** The pass over the payload is the simultaneous renaming of every reference. */
  method RewriteTaskIds(p: Payload, m: map<string, string>, includeActive: bool) returns (r: Payload)
    ensures r == MapPayload(Carried(p, includeActive), Renaming(m))
  {
    if m == map[] {
      MapIdentity(Carried(p, includeActive));
      MapAgree(Carried(p, includeActive), Renaming(m), x => x);
      return if includeActive then p else p.(active := None);
    }
    var f := Renaming(m);
    var tasks := RewriteTasks(p.tasks, m);
    var records := RewriteEach(p.records, r => MapRecord(r, f));
    var locks := RewriteEach(p.locks, l => MapLock(l, f));
    var requirements := RewriteEach(p.requirements, q => MapRequirement(q, f));
    var releases := RewriteEach(p.releases, r => MapRelease(r, f));
    var active := p.active;
    if includeActive {
      if active.Some? {
        var previous := active.value.previous;
        active := Some(active.value.(taskId := Rename(m, active.value.taskId)));
        if previous.Some? && previous.value in m {
          active := Some(active.value.(previous := Some(m[previous.value])));
        }
      }
    } else {
      active := None;
    }
    r := Payload(tasks, records, locks, requirements, releases, active);
  }

  // ---- who refers to whom ----

  /** No reference to a task outside the map meets the new id of a task inside it. */
  ghost predicate NoCapture(p: Payload, m: map<string, string>) {
    forall x :: x in References(p) && x !in m ==> x !in m.Values
  }

  /** Two places name the same task after the renaming exactly when they did before. */
  ghost predicate SameGraph(p: Payload, q: Payload) {
    && |References(p)| == |References(q)|
    && forall i, j :: 0 <= i < |References(p)| && 0 <= j < |References(p)| ==>
         (References(p)[i] == References(p)[j] <==> References(q)[i] == References(q)[j])
  }

  /** Every task the map renames is a task of the payload. */
  ghost predicate MapsIncoming(p: Payload, m: map<string, string>) {
    forall a :: a in m ==> a in References(p)
  }

  /**
   For every payload, closed or not: the renaming keeps who refers to whom exactly when it captures no
   outside reference. A payload whose references all stay inside it has none to capture.
   */
  lemma SameGraphIff(p: Payload, m: map<string, string>)
    requires Injective(m) && MapsIncoming(p, m)
    ensures SameGraph(p, MapPayload(p, Renaming(m))) <==> NoCapture(p, m)
    ensures (forall x :: x in References(p) ==> x in m) ==> NoCapture(p, m)
  {
    var f := Renaming(m);
    var refs := References(p);
    ReferencesMap(p, f);
    assert References(MapPayload(p, f)) == Each(refs, f);
    if NoCapture(p, m) {
      forall i, j | 0 <= i < |refs| && 0 <= j < |refs| && f(refs[i]) == f(refs[j])
        ensures refs[i] == refs[j]
      {
        assert refs[i] in refs && refs[j] in refs;
      }
    } else {
      var x :| x in refs && x !in m && x in m.Values;
      var a :| a in m && m[a] == x;
      var i :| 0 <= i < |refs| && refs[i] == x;
      var j :| 0 <= j < |refs| && refs[j] == a;
      assert f(refs[i]) == f(refs[j]) && refs[i] != refs[j];
    }
  }

  // ---- undoing it ----

  ghost function Inverse(m: map<string, string>): (r: map<string, string>)
    ensures r.Keys == m.Values
    ensures forall b :: b in r ==> r[b] in m && m[r[b]] == b
  {
    map b | b in m.Values :: var a :| a in m && m[a] == b; a
  }

  /** Renaming back gives the original payload: nothing but the references was touched, and none was lost. */
  lemma RenamingUndone(p: Payload, m: map<string, string>)
    requires Injective(m) && NoCapture(p, m)
    ensures MapPayload(MapPayload(p, Renaming(m)), Renaming(Inverse(m))) == p
  {
    var f, g := Renaming(m), Renaming(Inverse(m));
    MapTwice(p, f, g);
    forall x | x in References(p)
      ensures g(f(x)) == x
    {
      if x in m {
        assert m[x] in m.Values;
      }
    }
    MapAgree(p, x => g(f(x)), x => x);
    MapIdentity(p);
  }

  // ---- place by place ----

  predicate Renamed(m: map<string, string>, a: string, b: string) {
    if a in m then b == m[a] else b == a
  }

  predicate RenamedOption(m: map<string, string>, a: Option<string>, b: Option<string>) {
    if a.Some? then b.Some? && Renamed(m, a.value, b.value) else b.None?
  }

  predicate RenamedTasks(m: map<string, string>, ts: seq<Task>, us: seq<Task>) {
    |ts| == |us| && forall i :: 0 <= i < |ts| ==>
      var t, u := ts[i], us[i];
      && Renamed(m, t.id, u.id) && RenamedOption(m, t.parent, u.parent)
      && |u.requirements| == |t.requirements|
      && (forall j :: 0 <= j < |t.requirements| ==> Renamed(m, t.requirements[j], u.requirements[j]))
      && u == t.(id := u.id, parent := u.parent, requirements := u.requirements)
  }

  predicate RenamedRecord(m: map<string, string>, r: Record, s: Record) {
    match r
    case PlanRecord(id, _, _) => s.PlanRecord? && Renamed(m, id, s.taskId) && s == r.(taskId := s.taskId)
    case RunRecord(a) => s.RunRecord? && Renamed(m, a.taskId, s.run.taskId) && s.run == a.(taskId := s.run.taskId)
    case ChangeRecord(a) =>
      s.ChangeRecord? && Renamed(m, a.taskId, s.change.taskId) && s.change == a.(taskId := s.change.taskId)
    case CheckRecord(a) =>
      s.CheckRecord? && Renamed(m, a.taskId, s.check.taskId) && s.check == a.(taskId := s.check.taskId)
    case HandoffRecord(a) =>
      s.HandoffRecord? && Renamed(m, a.taskId, s.handoff.taskId) && s.handoff == a.(taskId := s.handoff.taskId)
  }

  predicate RenamedRequirement(m: map<string, string>, r: Requirement, s: Requirement) {
    RenamedOption(m, r.taskId, s.taskId) && RenamedOption(m, r.parent, s.parent)
    && RenamedOption(m, r.required, s.required)
  }

  lemma TasksRenamed(ts: seq<Task>, m: map<string, string>)
    ensures RenamedTasks(m, ts, Each(ts, t => MapTask(t, Renaming(m))))
  {
  }

  lemma RecordRenamed(r: Record, m: map<string, string>)
    ensures RenamedRecord(m, r, MapRecord(r, Renaming(m)))
  {
  }

  /**
   Place by place: a task id that the map knows is replaced by what the map says, and one it does not know stays: in
   tasks, their parents and requirements, records, locks, requirement sidecars, release boundaries and the active task.
   Nothing else changes, but that the active task is left out of an archive of single tasks.
   */
  lemma RewrittenExactly(p: Payload, m: map<string, string>, includeActive: bool)
    ensures var q := MapPayload(Carried(p, includeActive), Renaming(m));
      && RenamedTasks(m, p.tasks, q.tasks)
      && |q.records| == |p.records|
      && (forall i :: 0 <= i < |p.records| ==> RenamedRecord(m, p.records[i], q.records[i]))
      && |q.locks| == |p.locks|
      && (forall i :: 0 <= i < |p.locks| ==> Renamed(m, p.locks[i].taskId, q.locks[i].taskId)
                                             && q.locks[i] == p.locks[i].(taskId := q.locks[i].taskId))
      && |q.requirements| == |p.requirements|
      && (forall i :: 0 <= i < |p.requirements| ==> RenamedRequirement(m, p.requirements[i], q.requirements[i]))
      && |q.releases| == |p.releases|
      && (forall i :: 0 <= i < |p.releases| ==> Renamed(m, p.releases[i].boundary, q.releases[i].boundary)
                                                && q.releases[i].version == p.releases[i].version)
      && (if includeActive && p.active.Some?
          then q.active.Some? && Renamed(m, p.active.value.taskId, q.active.value.taskId)
               && RenamedOption(m, p.active.value.previous, q.active.value.previous)
          else q.active.None?)
  {
    TasksRenamed(p.tasks, m);
    forall i | 0 <= i < |p.records|
      ensures RenamedRecord(m, p.records[i], MapRecord(p.records[i], Renaming(m)))
    {
      RecordRenamed(p.records[i], m);
    }
  }
}
