/** Checking the members of an archive before any of them is read. */
module ArchiveMembers {
  import opened Common
  import Text

  const MANIFEST := "manifest.json"
  const PAYLOAD := "payload/taskledger-export.json"
  const ARTIFACTS := "artifacts/"
  const MAX_MEMBERS: nat := 4096
  const MAX_MANIFEST_BYTES: nat := 256_000
  const MAX_PAYLOAD_BYTES: nat := 50_000_000
  const MAX_ARTIFACT_BYTES: nat := 20_000_000
  const MAX_TOTAL_BYTES: nat := 100_000_000

  datatype Member = Member(name: string, size: nat, isFile: bool)

  datatype MemberError =
    | ManifestMissing | PayloadMissing | TooMany | UnsafePath | NotAFile | ManifestTooLarge | PayloadTooLarge
    | Unexpected | ArtifactTooLarge | ArtifactsTooLarge | RequiredMissing

  /** Some component between slashes is `..`. */
  predicate HasParentPart(path: string, part: string) {
    if path == [] then part == ".."
    else if path[0] == '/' then part == ".." || HasParentPart(path[1..], "")
    else HasParentPart(path[1..], part + [path[0]])
  }

  predicate IsUnsafe(name: string) {
    Text.StartsWith(name, "/") || HasParentPart(name, "")
  }

  predicate IsArtifact(m: Member) {
    m.name != MANIFEST && m.name != PAYLOAD
  }

  // ---- the scan ----

  datatype Scan =
    | Scanning(required: set<string>, artifacts: seq<string>, total: nat)
    | Stopped(error: MemberError)

  /** What is wrong with a member on its own, in the order the checks are made. */
  function Defect(m: Member): Option<MemberError> {
    if IsUnsafe(m.name) then Some(UnsafePath)
    else if m.name == MANIFEST || m.name == PAYLOAD then
      if !m.isFile then Some(NotAFile)
      else if m.name == MANIFEST && m.size > MAX_MANIFEST_BYTES then Some(ManifestTooLarge)
      else if m.name == PAYLOAD && m.size > MAX_PAYLOAD_BYTES then Some(PayloadTooLarge)
      else None
    else if !Text.StartsWith(m.name, ARTIFACTS) then Some(Unexpected)
    else if !m.isFile then Some(NotAFile)
    else if m.size > MAX_ARTIFACT_BYTES then Some(ArtifactTooLarge)
    else None
  }

  function ScanOne(s: Scan, m: Member): Scan
    requires s.Scanning?
  {
    var defect := Defect(m);
    if defect.Some? then Stopped(defect.value)
    else if !IsArtifact(m) then s.(required := s.required - {m.name})
    else if s.total + m.size > MAX_TOTAL_BYTES then Stopped(ArtifactsTooLarge)
    else Scanning(s.required, s.artifacts + [m.name], s.total + m.size)
  }

  function ScanAll(members: seq<Member>): Scan {
    if members == [] then Scanning({MANIFEST, PAYLOAD}, [], 0)
    else
      var before := ScanAll(members[..|members| - 1]);
      if before.Stopped? then before else ScanOne(before, members[|members| - 1])
  }

  predicate Has(members: seq<Member>, name: string) {
    exists i :: 0 <= i < |members| && members[i].name == name
  }

  function Check(members: seq<Member>): Result<seq<string>, MemberError> {
    if !Has(members, MANIFEST) then Failure(ManifestMissing)
    else if !Has(members, PAYLOAD) then Failure(PayloadMissing)
    else if |members| > MAX_MEMBERS then Failure(TooMany)
    else
      var scan := ScanAll(members);
      if scan.Stopped? then Failure(scan.error)
      else if scan.required != {} then Failure(RequiredMissing)
      else Success(Sort(scan.artifacts))
  }

  /** Once stopped, the scan has its answer. */
  lemma {:induction false} StopSticks(members: seq<Member>, i: nat)
    requires i <= |members| && ScanAll(members[..i]).Stopped?
    ensures ScanAll(members) == ScanAll(members[..i])
  {
    if i < |members| {
      assert members[..|members| - 1][..i] == members[..i];
      StopSticks(members[..|members| - 1], i);
    } else {
      assert members[..i] == members;
    }
  }

  lemma ScanAppend(members: seq<Member>, m: Member)
    requires ScanAll(members).Scanning?
    ensures ScanAll(members + [m]) == ScanOne(ScanAll(members), m)
  {
    assert (members + [m])[..|members|] == members;
  }

  /** The loop: it stops at the first defect, or as soon as the running total passes the bound. */
  method ScanMembers(members: seq<Member>) returns (scan: Scan)
    ensures scan == ScanAll(members)
  {
    var required := {MANIFEST, PAYLOAD};
    var artifacts: seq<string> := [];
    var total: nat := 0;
    for i := 0 to |members|
      invariant ScanAll(members[..i]) == Scanning(required, artifacts, total)
    {
      var m := members[i];
      ScanAppend(members[..i], m);
      assert members[..i + 1] == members[..i] + [m];
      var defect := Defect(m);
      if defect.Some? {
        StopSticks(members, i + 1);
        return Stopped(defect.value);
      }
      if !IsArtifact(m) {
        required := required - {m.name};
      } else {
        total := total + m.size;
        if total > MAX_TOTAL_BYTES {
          StopSticks(members, i + 1);
          return Stopped(ArtifactsTooLarge);
        }
        artifacts := artifacts + [m.name];
      }
    }
    assert members[..|members|] == members;
    return Scanning(required, artifacts, total);
  }

  method ValidateArchiveMembers(members: seq<Member>) returns (r: Result<seq<string>, MemberError>)
    ensures r == Check(members)
  {
    if !Has(members, MANIFEST) {
      return Failure(ManifestMissing);
    }
    if !Has(members, PAYLOAD) {
      return Failure(PayloadMissing);
    }
    if |members| > MAX_MEMBERS {
      return Failure(TooMany);
    }
    var scan := ScanMembers(members);
    if scan.Stopped? {
      return Failure(scan.error);
    }
    if scan.required != {} {
      return Failure(RequiredMissing);
    }
    var sorted := SortNames(scan.artifacts);
    return Success(sorted);
  }

  // ---- sorting ----

  predicate Le(a: string, b: string) {
    a == [] || (b != [] && (a[0] < b[0] || (a[0] == b[0] && Le(a[1..], b[1..]))))
  }

  lemma {:induction false} LeTotal(a: string, b: string)
    ensures Le(a, b) || Le(b, a)
    ensures Le(a, b) && Le(b, a) ==> a == b
  {
    if a != [] && b != [] {
      LeTotal(a[1..], b[1..]);
      assert a == [a[0]] + a[1..] && b == [b[0]] + b[1..];
    }
  }

  lemma {:induction false} LeTransitive(a: string, b: string, c: string)
    requires Le(a, b) && Le(b, c)
    ensures Le(a, c)
  {
    if a != [] && a[0] == b[0] == c[0] {
      LeTransitive(a[1..], b[1..], c[1..]);
    }
  }

  function Insert(s: seq<string>, x: string): seq<string> {
    if s == [] || Le(x, s[0]) then [x] + s else [s[0]] + Insert(s[1..], x)
  }

  function Sort(s: seq<string>): seq<string> {
    if s == [] then [] else Insert(Sort(s[..|s| - 1]), s[|s| - 1])
  }

  method SortNames(names: seq<string>) returns (r: seq<string>)
    ensures r == Sort(names)
  {
    r := [];
    for i := 0 to |names|
      invariant r == Sort(names[..i])
    {
      assert names[..i + 1][..i] == names[..i];
      r := Insert(r, names[i]);
    }
    assert names[..|names|] == names;
  }

  predicate Ordered(s: seq<string>) {
    forall i, j :: 0 <= i < j < |s| ==> Le(s[i], s[j])
  }

  lemma {:induction false} InsertAdds(s: seq<string>, x: string)
    ensures multiset(Insert(s, x)) == multiset(s) + multiset{x}
  {
    if s != [] {
      assert s == [s[0]] + s[1..];
      if !Le(x, s[0]) {
        InsertAdds(s[1..], x);
      }
    }
  }

  lemma ConsOrdered(x: string, s: seq<string>)
    requires Ordered(s) && forall y :: y in s ==> Le(x, y)
    ensures Ordered([x] + s)
  {
  }

  lemma {:induction false} InsertOrdered(s: seq<string>, x: string)
    requires Ordered(s)
    ensures Ordered(Insert(s, x))
  {
    if s != [] {
      LeTotal(x, s[0]);
      if Le(x, s[0]) {
        forall y | y in s
          ensures Le(x, y)
        {
          var i :| 0 <= i < |s| && s[i] == y;
          if i > 0 {
            LeTransitive(x, s[0], y);
          }
        }
        ConsOrdered(x, s);
      } else {
        InsertOrdered(s[1..], x);
        InsertAdds(s[1..], x);
        forall y | y in Insert(s[1..], x)
          ensures Le(s[0], y)
        {
          assert y in multiset(Insert(s[1..], x));
        }
        ConsOrdered(s[0], Insert(s[1..], x));
      }
    }
  }

  /** The result is in order and has the same names. */
  lemma {:induction false} SortOrdered(s: seq<string>)
    ensures Ordered(Sort(s)) && multiset(Sort(s)) == multiset(s)
  {
    if s != [] {
      SortOrdered(s[..|s| - 1]);
      InsertOrdered(Sort(s[..|s| - 1]), s[|s| - 1]);
      InsertAdds(Sort(s[..|s| - 1]), s[|s| - 1]);
      assert s == s[..|s| - 1] + [s[|s| - 1]];
    }
  }

  lemma {:induction false} InsertCommutes(s: seq<string>, x: string, y: string)
    ensures Insert(Insert(s, x), y) == Insert(Insert(s, y), x)
  {
    LeTotal(x, y);
    if s != [] {
      InsertCommutes(s[1..], x, y);
      LeTotal(x, s[0]);
      LeTotal(y, s[0]);
      if Le(x, y) && Le(y, s[0]) {
        LeTransitive(x, y, s[0]);
      }
      if Le(y, x) && Le(x, s[0]) {
        LeTransitive(y, x, s[0]);
      }
    }
  }

  // ---- what is accepted ----

  /** The bytes of all artifacts. */
  function Total(members: seq<Member>): nat {
    if members == [] then 0
    else Total(members[..|members| - 1]) + if IsArtifact(members[|members| - 1]) then members[|members| - 1].size else 0
  }

  function ArtifactNames(members: seq<Member>): seq<string> {
    if members == [] then []
    else if IsArtifact(members[|members| - 1])
    then ArtifactNames(members[..|members| - 1]) + [members[|members| - 1].name]
    else ArtifactNames(members[..|members| - 1])
  }

  ghost predicate Acceptable(members: seq<Member>) {
    && Has(members, "manifest.json") && Has(members, "payload/taskledger-export.json") && |members| <= 4096
    && AllSound(members)
    && Total(members) <= 100_000_000
  }

  /** A component `..` at this place: between slashes or the ends. */
  predicate ParentAt(s: string, i: nat) {
    && i + 2 <= |s| && s[i] == '.' && s[i + 1] == '.'
    && (i == 0 || s[i - 1] == '/') && (i + 2 == |s| || s[i + 2] == '/')
  }

  lemma ParentBeyond(part: string, rest: string, i: nat)
    requires forall k :: 0 <= k < |part| ==> part[k] != '/'
    ensures ParentAt(part + "/" + rest, i)
            <==> (i == 0 && part == "..") || (i > |part| && ParentAt(rest, i - |part| - 1))
  {
    var s := part + "/" + rest;
    assert forall k :: 0 <= k < |part| ==> s[k] == part[k];
    assert forall k :: 0 <= k < |rest| ==> s[|part| + 1 + k] == rest[k];
    assert s[|part|] == '/';
    if ParentAt(s, i) && i <= |part| {
      assert i == 0;
      assert |part| == 2;
    }
  }

  ghost predicate HasParent(s: string) {
    exists i: nat :: ParentAt(s, i)
  }

  lemma ParentAcross(part: string, rest: string)
    requires forall k :: 0 <= k < |part| ==> part[k] != '/'
    ensures HasParent(part + "/" + rest) <==> part == ".." || HasParent(rest)
  {
    if part == ".." {
      ParentBeyond(part, rest, 0);
    }
    if HasParent(rest) {
      var i: nat :| ParentAt(rest, i);
      ParentBeyond(part, rest, i + |part| + 1);
    }
    if HasParent(part + "/" + rest) {
      var i: nat :| ParentAt(part + "/" + rest, i);
      ParentBeyond(part, rest, i);
    }
  }

  lemma ParentAlone(part: string)
    requires forall k :: 0 <= k < |part| ==> part[k] != '/'
    ensures HasParent(part) <==> part == ".."
  {
    if part == ".." {
      assert ParentAt(part, 0);
    }
  }

  /** The walk over the components finds a `..` exactly when there is one. */
  lemma {:induction false} ParentPartIff(path: string, part: string)
    requires forall k :: 0 <= k < |part| ==> part[k] != '/'
    ensures HasParentPart(path, part) <==> HasParent(part + path)
    decreases |path|
  {
    if path == [] {
      assert part + path == part;
      ParentAlone(part);
    } else if path[0] == '/' {
      assert part + path == part + "/" + path[1..];
      assert "" + path[1..] == path[1..];
      ParentPartIff(path[1..], "");
      ParentAcross(part, path[1..]);
    } else {
      assert part + path == (part + [path[0]]) + path[1..];
      ParentPartIff(path[1..], part + [path[0]]);
    }
  }

  /** Not an absolute path, and nowhere up. */
  ghost predicate SafeName(name: string) {
    !(|name| > 0 && name[0] == '/') && !HasParent(name)
  }

  lemma SafeIff(name: string)
    ensures IsUnsafe(name) <==> !SafeName(name)
  {
    ParentPartIff(name, "");
    assert "" + name == name;
  }

  predicate Names(m: Member, name: string) {
    m.name == name
  }

  predicate InArtifacts(m: Member) {
    "artifacts/" <= m.name
  }

  /** A member that may be in an archive. */
  ghost predicate Sound(m: Member) {
    && SafeName(m.name)
    && m.isFile
    && (Names(m, "manifest.json") ==> m.size <= 256_000)
    && (Names(m, "payload/taskledger-export.json") ==> m.size <= 50_000_000)
    && (Names(m, "manifest.json") || Names(m, "payload/taskledger-export.json")
        || (InArtifacts(m) && m.size <= 20_000_000))
  }

  /** What is wrong with a member that is not sound: its name, its kind or its size, and only one of them. */
  ghost predicate Wrong(m: Member, error: MemberError) {
    var known := Names(m, "manifest.json") || Names(m, "payload/taskledger-export.json");
    match error
    case UnsafePath => !SafeName(m.name)
    case Unexpected => SafeName(m.name) && !known && !InArtifacts(m)
    case NotAFile => SafeName(m.name) && (known || InArtifacts(m)) && !m.isFile
    case ManifestTooLarge => m.isFile && Names(m, "manifest.json") && m.size > 256_000
    case PayloadTooLarge => m.isFile && Names(m, "payload/taskledger-export.json") && m.size > 50_000_000
    case ArtifactTooLarge => SafeName(m.name) && m.isFile && !known && InArtifacts(m) && m.size > 20_000_000
    case _ => false
  }

  lemma RequiredNames()
    ensures MANIFEST == "manifest.json" && PAYLOAD == "payload/taskledger-export.json"
    ensures SafeName("manifest.json") && SafeName("payload/taskledger-export.json")
    ensures !("artifacts/" <= "manifest.json") && !("artifacts/" <= "payload/taskledger-export.json")
  {
    forall i: nat
      ensures !ParentAt("manifest.json", i) && !ParentAt("payload/taskledger-export.json", i)
    {
      assert "manifest.json"[8] == '.' && "payload/taskledger-export.json"[25] == '.';
    }
    assert "manifest.json"[0] == 'm' && "payload/taskledger-export.json"[0] == 'p' && "artifacts/"[0] == 'a';
  }

  lemma DefectIff(m: Member)
    ensures Defect(m).None? <==> Sound(m)
    ensures forall error :: Defect(m) == Some(error) <==> Wrong(m, error)
  {
    SafeIff(m.name);
    RequiredNames();
    assert Text.StartsWith(m.name, ARTIFACTS) <==> InArtifacts(m);
  }

  ghost predicate AllSound(members: seq<Member>) {
    forall i :: 0 <= i < |members| ==> Sound(members[i])
  }

  lemma AllSoundAppend(members: seq<Member>)
    requires members != []
    ensures AllSound(members) <==> AllSound(members[..|members| - 1]) && Sound(members[|members| - 1])
  {
    assert forall i :: 0 <= i < |members| - 1 ==> members[i] == members[..|members| - 1][i];
  }

  /** The scan goes through exactly when no member is defective and the whole is within the bound. */
  lemma {:induction false} ScanIff(members: seq<Member>)
    ensures ScanAll(members).Scanning? <==> Total(members) <= 100_000_000 && AllSound(members)
    ensures ScanAll(members).Scanning? ==>
              ScanAll(members).total == Total(members) && ScanAll(members).artifacts == ArtifactNames(members)
  {
    if members != [] {
      ScanIff(members[..|members| - 1]);
      AllSoundAppend(members);
      DefectIff(members[|members| - 1]);
    }
  }

  /** A required member that has been met is no longer missing. */
  lemma {:induction false} MetIsNotMissing(members: seq<Member>, i: nat)
    requires i < |members| && ScanAll(members).Scanning?
    ensures members[i].name !in ScanAll(members).required && ScanAll(members).required <= {MANIFEST, PAYLOAD}
  {
    var before := members[..|members| - 1];
    if i < |before| {
      MetIsNotMissing(before, i);
    } else {
      StillRequired(before);
    }
  }

  lemma {:induction false} StillRequired(members: seq<Member>)
    requires ScanAll(members).Scanning?
    ensures ScanAll(members).required <= {MANIFEST, PAYLOAD}
  {
    if members != [] {
      StillRequired(members[..|members| - 1]);
    }
  }

  lemma {:induction false} StopsForDefects(members: seq<Member>)
    ensures ScanAll(members) != Stopped(RequiredMissing)
  {
    if members != [] {
      StopsForDefects(members[..|members| - 1]);
    }
  }

  /** The check after the scan never fires: both required members were looked for before it. */
  lemma LastCheckUnreachable(members: seq<Member>)
    ensures Check(members) != Failure(RequiredMissing)
  {
    StopsForDefects(members);
    if Has(members, MANIFEST) && Has(members, PAYLOAD) && ScanAll(members).Scanning? {
      var i :| 0 <= i < |members| && members[i].name == MANIFEST;
      var j :| 0 <= j < |members| && members[j].name == PAYLOAD;
      MetIsNotMissing(members, i);
      MetIsNotMissing(members, j);
      assert ScanAll(members).required == {};
    }
  }

  /**
   An archive is accepted exactly when it has both required members and not too many, no member is
   defective, and the artifacts together are within their bound; the result lists the artifacts, sorted.
   */
  lemma CheckIff(members: seq<Member>)
    ensures Check(members).Success? <==> Acceptable(members)
    ensures Check(members).Success? ==> Check(members).value == Sort(ArtifactNames(members))
  {
    ScanIff(members);
    LastCheckUnreachable(members);
  }

  /** The scan stops for this error at the first member that is not sound or takes the artifacts over their bound. */
  ghost predicate StopsAt(members: seq<Member>, i: int, error: MemberError) {
    && 0 <= i < |members| && AllSound(members[..i]) && Total(members[..i]) <= 100_000_000
    && (Wrong(members[i], error)
        || (Sound(members[i]) && Total(members[..i + 1]) > 100_000_000 && error == ArtifactsTooLarge))
  }

  lemma StopsStill(before: seq<Member>, last: Member, i: int, error: MemberError)
    requires StopsAt(before, i, error)
    ensures StopsAt(before + [last], i, error)
  {
    var members := before + [last];
    assert members[..i] == before[..i] && members[..i + 1] == before[..i + 1] && members[i] == before[i];
  }

  lemma StopsNow(before: seq<Member>, last: Member, stopped: Scan)
    requires ScanAll(before).Scanning? && stopped == ScanOne(ScanAll(before), last) && stopped.Stopped?
    ensures StopsAt(before + [last], |before|, stopped.error)
  {
    var members := before + [last];
    ScanIff(before);
    DefectIff(last);
    RequiredNames();
    assert members[..|before|] == before && members[..|before| + 1] == members;
    assert Total(members) == Total(before) + if IsArtifact(last) then last.size else 0;
  }

  lemma {:induction false} StoppedScan(members: seq<Member>)
    ensures ScanAll(members).Stopped? ==> exists i :: StopsAt(members, i, ScanAll(members).error)
  {
    if members != [] && ScanAll(members).Stopped? {
      var before, last := members[..|members| - 1], members[|members| - 1];
      assert members == before + [last];
      if ScanAll(before).Stopped? {
        StoppedScan(before);
        var i :| StopsAt(before, i, ScanAll(before).error);
        StopsStill(before, last, i, ScanAll(before).error);
      } else {
        StopsNow(before, last, ScanAll(members));
      }
    }
  }

  /** Which error an archive is refused with: what is missing, how many there are, then the first wrong member. */
  lemma RefusedFor(members: seq<Member>)
    requires Check(members).Failure?
    ensures var error := Check(members).error;
      if !Has(members, "manifest.json") then error == ManifestMissing
      else if !Has(members, "payload/taskledger-export.json") then error == PayloadMissing
      else if |members| > 4096 then error == TooMany
      else exists i :: StopsAt(members, i, error)
  {
    RequiredNames();
    LastCheckUnreachable(members);
    StoppedScan(members);
  }

  // ---- the order of the members does not matter ----

  ghost predicate Alike(s: seq<Member>, t: seq<Member>) {
    Total(s) == Total(t) && Sort(ArtifactNames(s)) == Sort(ArtifactNames(t))
  }

  lemma TotalAppend(a: seq<Member>, x: Member)
    ensures Total(a + [x]) == Total(a) + if IsArtifact(x) then x.size else 0
    ensures Sort(ArtifactNames(a + [x]))
            == if IsArtifact(x) then Insert(Sort(ArtifactNames(a)), x.name) else Sort(ArtifactNames(a))
  {
    assert (a + [x])[..|a|] == a;
    var names := ArtifactNames(a);
    assert (names + [x.name])[..|names|] == names;
  }

  lemma AlikeAppend(s: seq<Member>, t: seq<Member>, x: Member)
    requires Alike(s, t)
    ensures Alike(s + [x], t + [x])
  {
    TotalAppend(s, x);
    TotalAppend(t, x);
  }

  lemma SwapEnds(a: seq<Member>, x: Member, y: Member)
    ensures Alike(a + [x] + [y], a + [y] + [x])
  {
    TotalAppend(a, x);
    TotalAppend(a + [x], y);
    TotalAppend(a, y);
    TotalAppend(a + [y], x);
    InsertCommutes(Sort(ArtifactNames(a)), x.name, y.name);
  }

  lemma MoveOneFurther(s: seq<Member>, t: seq<Member>, x: Member, y: Member)
    requires Alike(s, t + [x])
    ensures Alike(s + [y], t + [y] + [x])
  {
    AlikeAppend(s, t + [x], y);
    SwapEnds(t, x, y);
  }

  /** A member may be moved to the end. */
  lemma {:induction false} MoveToEnd(a: seq<Member>, x: Member, b: seq<Member>)
    ensures Alike(a + [x] + b, a + b + [x])
    decreases |b|
  {
    if b == [] {
      assert a + [x] + b == a + b + [x];
    } else {
      var c, y := b[..|b| - 1], b[|b| - 1];
      MoveToEnd(a, x, c);
      assert a + [x] + b == a + [x] + c + [y];
      assert a + b + [x] == a + c + [y] + [x];
      MoveOneFurther(a + [x] + c, a + c, x, y);
    }
  }

  lemma Without(s: seq<Member>, before: seq<Member>, a: seq<Member>, x: Member, b: seq<Member>)
    requires s == before + [x] && multiset(s) == multiset(a + [x] + b)
    ensures multiset(before) == multiset(a + b)
  {
    assert multiset(s) == multiset(before) + multiset{x};
    assert multiset(a + [x] + b) == multiset(a + b) + multiset{x};
    assert multiset(before) == multiset(s) - multiset{x};
  }

  lemma {:induction false} SameMembersAlike(s: seq<Member>, t: seq<Member>)
    requires multiset(s) == multiset(t)
    ensures Alike(s, t)
  {
    if s == [] {
      assert |t| == |multiset(t)|;
    } else {
      var before, x := s[..|s| - 1], s[|s| - 1];
      assert s == before + [x];
      assert x in multiset(t);
      var i :| 0 <= i < |t| && t[i] == x;
      var a, b := t[..i], t[i + 1..];
      assert t == a + [x] + b;
      Without(s, before, a, x, b);
      SameMembersAlike(before, a + b);
      AlikeAppend(before, a + b, x);
      MoveToEnd(a, x, b);
    }
  }

  lemma SameNames(s: seq<Member>, t: seq<Member>, name: string)
    requires multiset(s) == multiset(t) && Has(s, name)
    ensures Has(t, name)
  {
    var i :| 0 <= i < |s| && s[i].name == name;
    assert s[i] in multiset(t);
    var j :| 0 <= j < |t| && t[j] == s[i];
  }

  lemma SameMembersAcceptable(s: seq<Member>, t: seq<Member>)
    requires multiset(s) == multiset(t) && Acceptable(s)
    ensures Acceptable(t)
  {
    SameNames(s, t, MANIFEST);
    SameNames(s, t, PAYLOAD);
    SameMembersAlike(s, t);
    assert |s| == |multiset(s)| == |t|;
    forall i | 0 <= i < |t|
      ensures Sound(t[i])
    {
      assert t[i] in multiset(s);
      var j :| 0 <= j < |s| && s[j] == t[i];
    }
  }

  /** Whether an archive is accepted, and what is then returned, does not depend on the order of its members. */
  lemma OrderIrrelevant(s: seq<Member>, t: seq<Member>)
    requires multiset(s) == multiset(t)
    ensures Check(s).Success? <==> Check(t).Success?
    ensures Check(s).Success? ==> Check(s) == Check(t)
  {
    CheckIff(s);
    CheckIff(t);
    if Acceptable(s) {
      SameMembersAcceptable(s, t);
    }
    if Acceptable(t) {
      SameMembersAcceptable(t, s);
    }
    SameMembersAlike(s, t);
  }
}
