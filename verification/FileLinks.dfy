/** Links from a task to files, their baselines, and how a file has drifted from its baseline. */
module FileLinks {
  import opened Common
  import Text

  datatype Target = FileTarget | DirTarget | OtherTarget | MissingTarget

  datatype Snapshot = Snapshot(
    present: bool, target: Target, hash: Option<string>, size: Option<nat>, mtime: Option<string>)

  datatype Link = Link(
    path: string, kind: string, target: Option<Target>, hash: Option<string>, size: Option<nat>, mtime: Option<string>,
    present: Option<bool>)

  datatype Status = New | Modified | Deleted | Unchanged | Unbaselined

  datatype Summary = Summary(appeared: nat, modified: nat, deleted: nat, same: nat, unbaselined: nat)

  datatype LinkError = ReasonMissing | TaskArchived | LinkNotFound

  /** What looking at a path gives: nothing, a file with a hash and a size, or something without either. */
  predicate Taken(s: Snapshot) {
    && (s.present <==> s.target != MissingTarget)
    && (s.target == FileTarget ==> Truthy(s.hash) && s.size.Some?)
    && (s.target != FileTarget ==> s.hash == None && s.size == None)
  }

  function WithBaseline(link: Link, fs: string -> Snapshot): Link {
    var s := fs(link.path);
    link.(target := Some(s.target), hash := s.hash, size := s.size, mtime := s.mtime, present := Some(s.present))
  }

  function StatusOf(link: Link, current: Snapshot): Status {
    if link.present == None then Unbaselined
    else if link.present == Some(false) then if current.present then New else Unchanged
    else if !current.present then Deleted
    else if link.target != Some(current.target) then Modified
    else if current.target == FileTarget then
      if Truthy(link.hash) && Truthy(current.hash) && link.hash != current.hash then Modified
      else if (link.hash == None || current.hash == None) && link.size != current.size then Modified
      else Unchanged
    else Unchanged
  }

  // ---- drift ----

  /** What is found of a path is kept in its link, and the link stays the same otherwise. */
  lemma BaselineIs(link: Link, fs: string -> Snapshot)
    ensures var l, s := WithBaseline(link, fs), fs(link.path);
      && l.path == link.path && l.kind == link.kind && l.present == Some(s.present) && l.target == Some(s.target)
      && l.hash == s.hash && l.size == s.size && l.mtime == s.mtime
  {
  }

  /** A file has other contents if both hashes are there and differ, or one is not and the sizes differ. */
  ghost predicate OtherContents(link: Link, current: Snapshot) {
    || (link.hash.Some? && link.hash.value != "" && current.hash.Some? && current.hash.value != ""
        && link.hash.value != current.hash.value)
    || ((link.hash.None? || current.hash.None?) && link.size != current.size)
  }

  /** What each status says of a link and the path, for any link and whatever is found. */
  lemma StatusExact(link: Link, current: Snapshot)
    ensures StatusOf(link, current) == Unbaselined <==> link.present == None
    ensures StatusOf(link, current) == New <==> link.present.Some? && !link.present.value && current.present
    ensures StatusOf(link, current) == Deleted <==> link.present.Some? && link.present.value && !current.present
    ensures StatusOf(link, current) == Modified
            <==> && link.present.Some? && link.present.value && current.present
                 && (link.target != Some(current.target)
                     || (current.target == FileTarget && OtherContents(link, current)))
  {
  }

  /** Two looks at a path that found the same thing; a directory is the same whatever is in it. */
  predicate SameThing(before: Snapshot, after: Snapshot) {
    before.target == after.target && (before.target == FileTarget ==> before.hash == after.hash)
  }

  /** Against a baseline that was taken, a link is unchanged exactly when the path still holds the same thing. */
  lemma UnchangedIff(link: Link, before: string -> Snapshot, after: string -> Snapshot)
    requires Taken(before(link.path)) && Taken(after(link.path))
    ensures StatusOf(WithBaseline(link, before), after(link.path)) == Unchanged
            <==> SameThing(before(link.path), after(link.path))
    ensures StatusOf(WithBaseline(link, before), after(link.path)) == New
            <==> !before(link.path).present && after(link.path).present
    ensures StatusOf(WithBaseline(link, before), after(link.path)) == Deleted
            <==> before(link.path).present && !after(link.path).present
  {
  }

  // ---- the report ----

  function Counted(s: Summary): nat {
    s.appeared + s.modified + s.deleted + s.same + s.unbaselined
  }

  function CountOf(s: Summary, status: Status): nat {
    match status
    case New => s.appeared
    case Modified => s.modified
    case Deleted => s.deleted
    case Unchanged => s.same
    case Unbaselined => s.unbaselined
  }

  function Positions(statuses: seq<Status>, status: Status): set<nat> {
    set i: nat | i < |statuses| && statuses[i] == status
  }

  function Bump(s: Summary, status: Status): Summary {
    match status
    case New => s.(appeared := s.appeared + 1)
    case Modified => s.(modified := s.modified + 1)
    case Deleted => s.(deleted := s.deleted + 1)
    case Unchanged => s.(same := s.same + 1)
    case Unbaselined => s.(unbaselined := s.unbaselined + 1)
  }

  lemma OneMore(statuses: seq<Status>, last: Status, summary: Summary, status: Status)
    requires CountOf(summary, status) == |Positions(statuses, status)|
    ensures CountOf(Bump(summary, last), status) == |Positions(statuses + [last], status)|
  {
    var all := Positions(statuses + [last], status);
    assert all == if last == status then Positions(statuses, status) + {|statuses|} else Positions(statuses, status);
  }

  /** Each counter counts the links with its status, so that together they count every link once. */
  method FileStatus(links: seq<Link>, fs: string -> Snapshot) returns (statuses: seq<Status>, summary: Summary)
    ensures |statuses| == |links|
        && forall i :: 0 <= i < |links| ==> statuses[i] == StatusOf(links[i], fs(links[i].path))
    ensures forall status :: CountOf(summary, status) == |Positions(statuses, status)|
    ensures Counted(summary) == |links|
  {
    statuses := [];
    for i := 0 to |links|
      invariant |statuses| == i && forall j :: 0 <= j < i ==> statuses[j] == StatusOf(links[j], fs(links[j].path))
    {
      statuses := statuses + [StatusOf(links[i], fs(links[i].path))];
    }
    summary := Summary(0, 0, 0, 0, 0);
    for i := 0 to |statuses|
      invariant Counted(summary) == i
      invariant forall status :: CountOf(summary, status) == |Positions(statuses[..i], status)|
    {
      assert statuses[..i + 1] == statuses[..i] + [statuses[i]];
      forall status
        ensures CountOf(Bump(summary, statuses[i]), status) == |Positions(statuses[..i + 1], status)|
      {
        OneMore(statuses[..i], statuses[i], summary, status);
      }
      summary := Bump(summary, statuses[i]);
    }
    assert statuses[..|statuses|] == statuses;
  }

  // ---- refreshing a baseline ----

  /** The stored links of one task. */
  class LinkStore {
    var links: seq<Link>
    var archived: bool

    /**
     Every link on the path gets the current baseline and then reports no drift; every other link, and
     with it its status, stays. A path without a link, a blank reason or an archived task changes nothing.
     */
    method RefreshBaseline(path: string, reason: string, fs: string -> Snapshot) returns (error: Option<LinkError>)
      modifies this
      ensures archived == old(archived)
      ensures error.None? <==>
                && Text.Strip(reason) != "" && !old(archived)
                && exists i :: 0 <= i < |old(links)| && old(links)[i].path == path
      ensures error.Some? ==> links == old(links)
      ensures error.None? ==>
                && |links| == |old(links)|
                && (forall i :: 0 <= i < |links| ==>
                      links[i] == if old(links)[i].path == path then WithBaseline(old(links)[i], fs) else old(links)[i])
                && (forall i :: 0 <= i < |links| && links[i].path == path ==> StatusOf(links[i], fs(path)) == Unchanged)
    {
      if Text.Strip(reason) == "" {
        return Some(ReasonMissing);
      }
      if archived {
        return Some(TaskArchived);
      }
      var updated: seq<Link> := [];
      var refreshed := false;
      for i := 0 to |links|
        invariant links == old(links) && archived == old(archived)
        invariant |updated| == i
        invariant refreshed <==> exists j :: 0 <= j < i && links[j].path == path
        invariant forall j :: 0 <= j < i ==>
                    updated[j] == if links[j].path == path then WithBaseline(links[j], fs) else links[j]
      {
        if links[i].path == path {
          updated := updated + [WithBaseline(links[i], fs)];
          refreshed := true;
        } else {
          updated := updated + [links[i]];
        }
      }
      if !refreshed {
        return Some(LinkNotFound);
      }
      links := updated;
      return None;
    }
  }
}
