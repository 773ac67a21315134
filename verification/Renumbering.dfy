/** The map from the task ids of an archive to the ids its tasks get in a ledger. */
module Renumbering {
  import opened Common
  import opened Ids

  datatype IdPolicy = Preserve | FailOnConflict | RenumberOnConflict

  /** What the builder has decided so far. */
  datatype Progress = Progress(idMap: map<string, string>, taken: set<string>, next: nat)

  /** One incoming id: seen before, free, refused or renumbered. */
  ghost function Place(p: Progress, incoming: string, policy: IdPolicy): Option<Progress> {
    if incoming in p.idMap then Some(p)
    else if incoming !in p.taken then Some(Progress(p.idMap[incoming := incoming], p.taken + {incoming}, p.next))
    else if policy != RenumberOnConflict then None
    else
      var number := NextTaskNumber(p.taken, p.next);
      var id := FormatId(TASK, number);
      Some(Progress(p.idMap[incoming := id], p.taken + {id}, number + 1))
  }

  ghost function PlaceAll(
    existing: set<string>, counter: nat, incoming: seq<string>, policy: IdPolicy): Option<Progress> {
    if incoming == [] then Some(Progress(map[], existing, counter))
    else
      var before := PlaceAll(existing, counter, incoming[..|incoming| - 1], policy);
      if before.None? then None else Place(before.value, incoming[|incoming| - 1], policy)
  }

  /** The map, or nothing when an id is refused. */
  ghost function IdMap(
    existing: set<string>, counter: nat, incoming: seq<string>, policy: IdPolicy): Option<map<string, string>> {
    var p := PlaceAll(existing, counter, incoming, policy);
    if p.None? then None else Some(p.value.idMap)
  }

  // ---- the loop ----

  method SetToSeq(ids: set<string>) returns (s: seq<string>)
    ensures Elements(s) == ids
  {
    s := [];
    var rest := ids;
    while rest != {}
      invariant rest <= ids && Elements(s) == ids - rest
      decreases rest
    {
      var id :| id in rest;
      ElementsAppend(s, id);
      s := s + [id];
      rest := rest - {id};
    }
  }

  method BuildTaskIdMap(existing: set<string>, counter: nat, incoming: seq<string>, policy: IdPolicy)
    returns (result: Option<map<string, string>>)
    ensures result == IdMap(existing, counter, incoming, policy)
  {
    var taken := existing;
    var next := counter;
    var idMap: map<string, string> := map[];
    var i := 0;
    while i < |incoming|
      invariant 0 <= i <= |incoming|
      invariant PlaceAll(existing, counter, incoming[..i], policy) == Some(Progress(idMap, taken, next))
    {
      var id := incoming[i];
      assert incoming[..i + 1][..i] == incoming[..i];
      if id !in idMap {
        if id !in taken {
          idMap := idMap[id := id];
          taken := taken + {id};
        } else if policy != RenumberOnConflict {
          RefusalSticks(existing, counter, incoming, policy, i + 1);
          return None;
        } else {
          var sorted := SetToSeq(taken);
          var newId;
          newId, next := AllocateLedgerTaskId(sorted, next);
          idMap := idMap[id := newId];
          taken := taken + {newId};
        }
      }
      i := i + 1;
    }
    assert incoming[..i] == incoming;
    return Some(idMap);
  }

  lemma {:induction false} RefusalSticks(
    existing: set<string>, counter: nat, incoming: seq<string>, policy: IdPolicy, i: nat)
    requires i <= |incoming| && PlaceAll(existing, counter, incoming[..i], policy).None?
    ensures PlaceAll(existing, counter, incoming, policy).None?
  {
    if i < |incoming| {
      assert incoming[..|incoming| - 1][..i] == incoming[..i];
      RefusalSticks(existing, counter, incoming[..|incoming| - 1], policy, i);
    } else {
      assert incoming[..i] == incoming;
    }
  }

  // ---- what the map is ----

  ghost predicate Injective(m: map<string, string>) {
    forall a, b :: a in m && b in m && m[a] == m[b] ==> a == b
  }

  /** A target is the id itself, or a new number at or above the counter and above every existing id. */
  ghost predicate TargetFresh(existing: set<string>, counter: nat, source: string, target: string) {
    || target == source
    || (NumberOf(TASK, target) >= counter && forall e :: e in existing ==> NumberOf(TASK, e) < NumberOf(TASK, target))
  }

  /** The builder's invariant. */
  ghost predicate Placed(existing: set<string>, counter: nat, incoming: set<string>, p: Progress) {
    && p.idMap.Keys == incoming
    && p.taken == existing + p.idMap.Values
    && Injective(p.idMap)
    && p.idMap.Values !! existing
    && p.next >= counter
    && (forall a :: a in p.idMap ==> TargetFresh(existing, counter, a, p.idMap[a]))
  }

  lemma ValuesAfter(m: map<string, string>, id: string, target: string)
    requires id !in m
    ensures m[id := target].Values == m.Values + {target}
  {
    assert forall a :: a in m ==> m[id := target][a] == m[a];
    assert m[id := target][id] == target;
  }

  lemma PlaceKeeps(
    existing: set<string>, counter: nat, incoming: set<string>, p: Progress, id: string, policy: IdPolicy)
    requires Placed(existing, counter, incoming, p) && Place(p, id, policy).Some?
    ensures Placed(existing, counter, incoming + {id}, Place(p, id, policy).value)
  {
    if id !in p.idMap {
      var target := Place(p, id, policy).value.idMap[id];
      if id in p.taken {
        ParseFormat(TASK, NextTaskNumber(p.taken, p.next));
      }
      assert target !in p.taken;
      ValuesAfter(p.idMap, id, target);
    } else {
      assert incoming + {id} == incoming;
    }
  }

  lemma {:induction false} PlaceAllKeeps(existing: set<string>, counter: nat, incoming: seq<string>, policy: IdPolicy)
    requires PlaceAll(existing, counter, incoming, policy).Some?
    ensures Placed(existing, counter, Elements(incoming), PlaceAll(existing, counter, incoming, policy).value)
  {
    if incoming != [] {
      var before, last := incoming[..|incoming| - 1], incoming[|incoming| - 1];
      PlaceAllKeeps(existing, counter, before, policy);
      PlaceKeeps(existing, counter, Elements(before), PlaceAll(existing, counter, before, policy).value, last, policy);
      assert incoming == before + [last];
      ElementsAppend(before, last);
    }
  }

  /**
   The map is defined on exactly the incoming ids, gives no two of them the same target, gives none
   of them the id of an existing task, and every changed target is a number the ledger never used.
   */
  lemma MapCorrect(existing: set<string>, counter: nat, incoming: seq<string>, policy: IdPolicy)
    requires IdMap(existing, counter, incoming, policy).Some?
    ensures var m := IdMap(existing, counter, incoming, policy).value;
      && m.Keys == Elements(incoming) && Injective(m) && m.Values !! existing
      && (forall a :: a in m ==> TargetFresh(existing, counter, a, m[a]))
  {
    PlaceAllKeeps(existing, counter, incoming, policy);
  }

  // ---- which ids it changes, and to what ----

  /** The number of this id is the counter, or follows one that is taken. */
  ghost predicate Follows(taken: set<string>, counter: nat, n: nat) {
    n == counter || n == 1 || exists x :: x in taken && NumberOf(TASK, x) + 1 == n
  }

  ghost predicate HandedOut(taken: set<string>, counter: nat, id: string) {
    exists n: nat :: n >= counter && id == FormatId(TASK, n) && Follows(taken, counter, n)
  }

  /** Some other incoming task has been given this id. */
  ghost predicate GivenAway(m: map<string, string>, a: string) {
    exists b :: b in m && b != a && m[b] == a
  }

  ghost predicate PlacedExactly(existing: set<string>, counter: nat, p: Progress) {
    && p.taken == existing + p.idMap.Values && p.next >= counter && Follows(p.taken, counter, p.next)
    && (forall a :: a in p.idMap && p.idMap[a] != a ==>
          (a in existing || GivenAway(p.idMap, a)) && HandedOut(p.taken, counter, p.idMap[a]))
  }

  lemma HandedOutStill(taken: set<string>, more: set<string>, counter: nat, id: string)
    requires taken <= more && HandedOut(taken, counter, id)
    ensures HandedOut(more, counter, id)
  {
    var n: nat :| n >= counter && id == FormatId(TASK, n) && Follows(taken, counter, n);
    assert Follows(more, counter, n);
  }

  lemma GivenAwayStill(m: map<string, string>, id: string, target: string, a: string)
    requires id !in m && GivenAway(m, a)
    ensures GivenAway(m[id := target], a)
  {
    var b :| b in m && b != a && m[b] == a;
    assert m[id := target][b] == a;
  }

  lemma NumberFollows(existing: set<string>, counter: nat, p: Progress)
    requires PlacedExactly(existing, counter, p)
    ensures Follows(p.taken, counter, NextTaskNumber(p.taken, p.next))
  {
    NextTaskNumberLeast(p.taken, p.next);
  }

  lemma PlaceExactly(existing: set<string>, counter: nat, p: Progress, id: string, policy: IdPolicy)
    requires PlacedExactly(existing, counter, p) && Place(p, id, policy).Some?
    ensures PlacedExactly(existing, counter, Place(p, id, policy).value)
  {
    var after := Place(p, id, policy).value;
    if id !in p.idMap {
      var target := after.idMap[id];
      ValuesAfter(p.idMap, id, target);
      if id in p.taken {
        var number := NextTaskNumber(p.taken, p.next);
        NumberFollows(existing, counter, p);
        ParseFormat(TASK, number);
        assert target in after.taken && NumberOf(TASK, target) + 1 == after.next;
        assert Follows(after.taken, counter, number) && HandedOut(after.taken, counter, target);
        if id !in existing {
          var b :| b in p.idMap && p.idMap[b] == id;
          assert after.idMap[b] == id && b != id;
        }
      }
      assert Follows(after.taken, counter, after.next);
      forall a | a in after.idMap && after.idMap[a] != a
        ensures (a in existing || GivenAway(after.idMap, a)) && HandedOut(after.taken, counter, after.idMap[a])
      {
        if a != id {
          HandedOutStill(p.taken, after.taken, counter, p.idMap[a]);
          if a !in existing {
            GivenAwayStill(p.idMap, id, target, a);
          }
        }
      }
    }
  }

  lemma {:induction false} PlaceAllExactly(
    existing: set<string>, counter: nat, incoming: seq<string>, policy: IdPolicy)
    requires PlaceAll(existing, counter, incoming, policy).Some?
    ensures PlacedExactly(existing, counter, PlaceAll(existing, counter, incoming, policy).value)
  {
    if incoming != [] {
      var before := incoming[..|incoming| - 1];
      PlaceAllExactly(existing, counter, before, policy);
      var placed := PlaceAll(existing, counter, before, policy).value;
      PlaceExactly(existing, counter, placed, incoming[|incoming| - 1], policy);
    }
  }

  /**
   An incoming id is kept exactly if the ledger does not have it and no other incoming task is given it. An id that is
   handed out instead leaves no gap: it is the counter's, or follows one that is in use or handed out as well.
   */
  lemma MapExact(existing: set<string>, counter: nat, incoming: seq<string>, policy: IdPolicy)
    requires IdMap(existing, counter, incoming, policy).Some?
    ensures var m := IdMap(existing, counter, incoming, policy).value;
      && (forall a :: a in m ==> (m[a] == a <==> a !in existing && !GivenAway(m, a)))
      && (forall a :: a in m && m[a] != a ==> HandedOut(existing + m.Values, counter, m[a]))
  {
    PlaceAllExactly(existing, counter, incoming, policy);
    MapCorrect(existing, counter, incoming, policy);
  }

  // ---- when it exists, and when it changes nothing ----

  lemma {:induction false} KeepsWhenFree(existing: set<string>, counter: nat, incoming: seq<string>, policy: IdPolicy)
    requires Elements(incoming) !! existing
    ensures var p := PlaceAll(existing, counter, incoming, policy);
      && p.Some? && p.value.idMap.Keys == Elements(incoming) && p.value.taken == existing + Elements(incoming)
      && forall a :: a in incoming ==> p.value.idMap[a] == a
  {
    if incoming != [] {
      var before, last := incoming[..|incoming| - 1], incoming[|incoming| - 1];
      assert incoming == before + [last];
      ElementsAppend(before, last);
      KeepsWhenFree(existing, counter, before, policy);
      assert last in Elements(incoming);
    }
  }

  lemma {:induction false} ConflictRefused(existing: set<string>, counter: nat, incoming: seq<string>, policy: IdPolicy)
    requires policy != RenumberOnConflict && PlaceAll(existing, counter, incoming, policy).Some?
    ensures Elements(incoming) !! existing
  {
    if incoming != [] {
      var before, last := incoming[..|incoming| - 1], incoming[|incoming| - 1];
      assert incoming == before + [last];
      ElementsAppend(before, last);
      ConflictRefused(existing, counter, before, policy);
      PlaceAllKeeps(existing, counter, before, policy);
    }
  }

  lemma {:induction false} RenumberNeverRefuses(existing: set<string>, counter: nat, incoming: seq<string>)
    ensures PlaceAll(existing, counter, incoming, RenumberOnConflict).Some?
  {
    if incoming != [] {
      RenumberNeverRefuses(existing, counter, incoming[..|incoming| - 1]);
    }
  }

  /** Preserving succeeds exactly on ids the ledger does not have, renumbering always; free ids stay as they are. */
  lemma MapExistsIff(existing: set<string>, counter: nat, incoming: seq<string>, policy: IdPolicy)
    ensures IdMap(existing, counter, incoming, policy).Some?
            <==> policy == RenumberOnConflict || Elements(incoming) !! existing
    ensures Elements(incoming) !! existing ==>
              var m := IdMap(existing, counter, incoming, policy);
              m.Some? && forall a :: a in m.value ==> m.value[a] == a
  {
    if Elements(incoming) !! existing {
      KeepsWhenFree(existing, counter, incoming, policy);
    }
    if policy == RenumberOnConflict {
      RenumberNeverRefuses(existing, counter, incoming);
    } else if PlaceAll(existing, counter, incoming, policy).Some? {
      ConflictRefused(existing, counter, incoming, policy);
    }
  }

  // ---- chains ----

  function Consecutive(first: nat, count: nat): (s: seq<string>)
    ensures |s| == count
  {
    seq(count, (i: nat) => FormatId(TASK, first + i))
  }

  /** Every number from `first` up to but excluding `end` is given the number after it. */
  ghost predicate Shifted(first: nat, end: nat, p: Progress) {
    && p.next == end + 1
    && FormatId(TASK, end) in p.taken
    && (forall id :: id in p.taken ==> NumberOf(TASK, id) <= end)
    && (forall id :: id in p.idMap ==> NumberOf(TASK, id) < end)
    && (forall n :: first <= n < end ==> MovesUp(p.idMap, n))
  }

  predicate MovesUp(m: map<string, string>, n: nat) {
    FormatId(TASK, n) in m && m[FormatId(TASK, n)] == FormatId(TASK, n + 1)
  }

  /** One more incoming task, whose id the one before it has just been given. */
  lemma ShiftOne(first: nat, end: nat, p: Progress)
    requires Shifted(first, end, p)
    ensures var after := Place(p, FormatId(TASK, end), RenumberOnConflict);
      after.Some? && Shifted(first, end + 1, after.value)
  {
    var id := FormatId(TASK, end);
    ParseFormat(TASK, end);
    ParseFormat(TASK, end + 1);
    assert NextTaskNumber(p.taken, p.next) == end + 1;
    var after := Place(p, id, RenumberOnConflict).value;
    assert after.idMap == p.idMap[id := FormatId(TASK, end + 1)];
    forall n | first <= n < end + 1
      ensures MovesUp(after.idMap, n)
    {
      assert n < end ==> MovesUp(p.idMap, n);
    }
  }

  /**
   An archive of consecutive tasks into a ledger that has the first of them: every task moves up
   by one, so that each target but the last is another incoming id.
   */
  lemma {:induction false} ChainShifts(first: nat, count: nat)
    ensures var p := PlaceAll({FormatId(TASK, first)}, first + 1, Consecutive(first, count), RenumberOnConflict);
      p.Some? && Shifted(first, first + count, p.value)
  {
    if count == 0 {
      ParseFormat(TASK, first);
    } else {
      ChainShifts(first, count - 1);
      var all := Consecutive(first, count);
      assert all[..count - 1] == Consecutive(first, count - 1);
      assert all[count - 1] == FormatId(TASK, first + count - 1);
      var p := PlaceAll({FormatId(TASK, first)}, first + 1, all[..count - 1], RenumberOnConflict).value;
      ShiftOne(first, first + count - 1, p);
    }
  }

  /** The shortest chain: the only task there is and the only one that comes in have the same number. */
  lemma ConflictMoves(n: nat)
    ensures var id := FormatId(TASK, n);
      IdMap({id}, n + 1, [id], RenumberOnConflict) == Some(map[id := FormatId(TASK, n + 1)])
  {
    var id := FormatId(TASK, n);
    ChainShifts(n, 1);
    assert Consecutive(n, 1) == [id];
    assert MovesUp(PlaceAll({id}, n + 1, [id], RenumberOnConflict).value.idMap, n);
    MapCorrect({id}, n + 1, [id], RenumberOnConflict);
    var m := IdMap({id}, n + 1, [id], RenumberOnConflict).value;
    assert m.Keys == {id};
    assert m == map[id := m[id]];
  }
}
