/** Searching project files with a limit, as a prefix of searching them without one. */
module Search {
  import opened Common
  import Text

  datatype Kind = PathHit | ContentHit | SymbolHit

  datatype Match = Match(repo: string, path: string, kind: Kind, line: Option<nat>, text: string)

  datatype Symbol = Symbol(name: string, line: nat)

  /** A file in scan order: its lines unless it cannot be read, and its symbols as the patterns find them. */
  datatype File = File(repo: string, path: string, lines: Option<seq<string>>, symbols: seq<Symbol>)

  datatype SearchError = EmptyQuery | InvalidPattern

  const HITS_PER_FILE: nat := 3

  function Take<T>(s: seq<T>, n: int): seq<T> {
    if n <= 0 then [] else if n >= |s| then s else s[..n]
  }

  /** A longer limit only adds at the end. */
  lemma TakeMonotone<T>(s: seq<T>, m: int, n: int)
    requires m <= n
    ensures Take(s, m) <= Take(s, n) <= s
  {
  }

  // ---- without a limit ----

  /** The matching lines among the first `n`. */
  function LineMatches(f: File, lines: seq<string>, n: nat, hit: string -> bool): seq<Match>
    requires n <= |lines|
  {
    if n == 0 then []
    else if hit(lines[n - 1]) then
      LineMatches(f, lines, n - 1, hit) + [Match(f.repo, f.path, ContentHit, Some(n), Text.Strip(lines[n - 1]))]
    else LineMatches(f, lines, n - 1, hit)
  }

  function ContentMatches(f: File, hit: string -> bool): seq<Match> {
    if f.lines.None? then [] else LineMatches(f, f.lines.value, |f.lines.value|, hit)
  }

  function PathMatches(f: File, hit: string -> bool): seq<Match> {
    if hit(f.path) then [Match(f.repo, f.path, PathHit, None, f.path)] else []
  }

  /** The first `n` symbols of a readable file that match. */
  function SymbolsBelow(f: File, n: nat, hit: string -> bool): seq<Match>
    requires n <= |f.symbols|
  {
    if n == 0 then []
    else
      var s := f.symbols[n - 1];
      if hit(s.name) then SymbolsBelow(f, n - 1, hit) + [Match(f.repo, f.path, SymbolHit, Some(s.line), s.name)]
      else SymbolsBelow(f, n - 1, hit)
  }

  function SymbolMatches(f: File, hit: string -> bool): seq<Match> {
    if f.lines.None? then [] else SymbolsBelow(f, |f.symbols|, hit)
  }

  /** The path, then at most three lines. */
  function FileMatches(f: File, hit: string -> bool): seq<Match> {
    PathMatches(f, hit) + Take(ContentMatches(f, hit), HITS_PER_FILE)
  }

  function Enumerate(files: seq<File>, each: File -> seq<Match>): seq<Match> {
    if files == [] then [] else Enumerate(files[..|files| - 1], each) + each(files[|files| - 1])
  }

  lemma {:induction false} EnumeratePrefix(files: seq<File>, i: nat, each: File -> seq<Match>)
    requires i <= |files|
    ensures Enumerate(files[..i], each) <= Enumerate(files, each)
  {
    if i < |files| {
      assert files[..|files| - 1][..i] == files[..i];
      EnumeratePrefix(files[..|files| - 1], i, each);
    } else {
      assert files[..i] == files;
    }
  }

  lemma EnumerateNext(files: seq<File>, i: nat, each: File -> seq<Match>)
    requires i < |files|
    ensures Enumerate(files[..i + 1], each) == Enumerate(files[..i], each) + each(files[i])
  {
    assert files[..i + 1][..i] == files[..i];
  }

  /** What has been found up to somewhere inside file `i` is a prefix of everything. */
  lemma FoundIsPrefix(files: seq<File>, i: nat, found: seq<Match>, each: File -> seq<Match>)
    requires i < |files| && Enumerate(files[..i], each) <= found <= Enumerate(files[..i], each) + each(files[i])
    ensures found <= Enumerate(files, each)
  {
    EnumerateNext(files, i, each);
    EnumeratePrefix(files, i + 1, each);
  }

  lemma {:induction false} LinesPrefix(f: File, lines: seq<string>, n: nat, m: nat, hit: string -> bool)
    requires n <= m <= |lines|
    ensures LineMatches(f, lines, n, hit) <= LineMatches(f, lines, m, hit)
  {
    if n < m {
      LinesPrefix(f, lines, n, m - 1, hit);
    }
  }

  lemma {:induction false} SymbolsPrefix(f: File, n: nat, m: nat, hit: string -> bool)
    requires n <= m <= |f.symbols|
    ensures SymbolsBelow(f, n, hit) <= SymbolsBelow(f, m, hit)
  {
    if n < m {
      SymbolsPrefix(f, n, m - 1, hit);
    }
  }

  lemma FullIsTake<T>(found: seq<T>, all: seq<T>, limit: int)
    requires found <= all && |found| == limit
    ensures found == Take(all, limit)
  {
  }

  // ---- what is found ----

  ghost predicate Increasing(places: seq<nat>) {
    forall j, k :: 0 <= j < k < |places| ==> places[j] < places[k]
  }

  /** `found` tells of the lines at these places, in order, and they are all those below `n` that match. */
  ghost predicate TellsLines(
    found: seq<Match>, places: seq<nat>, f: File, lines: seq<string>, n: nat, hit: string -> bool)
    requires n <= |lines|
  {
    && |found| == |places| && Increasing(places)
    && (forall k :: 0 <= k < |places| ==>
          && places[k] < n && hit(lines[places[k]])
          && found[k] == Match(f.repo, f.path, ContentHit, Some(places[k] + 1), Text.Strip(lines[places[k]])))
    && (forall i: nat :: i < n && hit(lines[i]) ==> i in places)
  }

  lemma NextLine(found: seq<Match>, places: seq<nat>, f: File, lines: seq<string>, n: nat, hit: string -> bool)
    requires n < |lines| && TellsLines(found, places, f, lines, n, hit)
    ensures var line := Match(f.repo, f.path, ContentHit, Some(n + 1), Text.Strip(lines[n]));
      hit(lines[n]) ==> TellsLines(found + [line], places + [n], f, lines, n + 1, hit)
    ensures !hit(lines[n]) ==> TellsLines(found, places, f, lines, n + 1, hit)
  {
    if hit(lines[n]) {
      assert forall i: nat :: i in places ==> i in places + [n];
      assert n in places + [n];
    }
  }

  /** Every matching line is told, in order: by repository, path, number counted from one, and stripped text. */
  lemma {:induction false} LinesFound(f: File, lines: seq<string>, n: nat, hit: string -> bool)
    requires n <= |lines|
    ensures exists places: seq<nat> :: TellsLines(LineMatches(f, lines, n, hit), places, f, lines, n, hit)
  {
    var none: seq<nat> := [];
    if n == 0 {
      assert TellsLines(LineMatches(f, lines, n, hit), none, f, lines, n, hit);
    } else {
      LinesFound(f, lines, n - 1, hit);
      var places: seq<nat> :| TellsLines(LineMatches(f, lines, n - 1, hit), places, f, lines, n - 1, hit);
      NextLine(LineMatches(f, lines, n - 1, hit), places, f, lines, n - 1, hit);
      var now := LineMatches(f, lines, n, hit);
      if hit(lines[n - 1]) {
        assert TellsLines(now, places + [n - 1], f, lines, n, hit);
      } else {
        assert TellsLines(now, places, f, lines, n, hit);
      }
    }
  }

  ghost predicate TellsSymbols(found: seq<Match>, places: seq<nat>, f: File, n: nat, hit: string -> bool)
    requires n <= |f.symbols|
  {
    && |found| == |places| && Increasing(places)
    && (forall k :: 0 <= k < |places| ==>
          && places[k] < n && hit(f.symbols[places[k]].name)
          && found[k] == Match(f.repo, f.path, SymbolHit, Some(f.symbols[places[k]].line), f.symbols[places[k]].name))
    && (forall i: nat :: i < n && hit(f.symbols[i].name) ==> i in places)
  }

  lemma NextSymbol(found: seq<Match>, places: seq<nat>, f: File, n: nat, hit: string -> bool)
    requires n < |f.symbols| && TellsSymbols(found, places, f, n, hit)
    ensures var symbol := Match(f.repo, f.path, SymbolHit, Some(f.symbols[n].line), f.symbols[n].name);
      hit(f.symbols[n].name) ==> TellsSymbols(found + [symbol], places + [n], f, n + 1, hit)
    ensures !hit(f.symbols[n].name) ==> TellsSymbols(found, places, f, n + 1, hit)
  {
    if hit(f.symbols[n].name) {
      assert forall i: nat :: i in places ==> i in places + [n];
      assert n in places + [n];
    }
  }

  /** Every matching symbol is told, in order: by repository, path, line and name. */
  lemma {:induction false} SymbolsFound(f: File, n: nat, hit: string -> bool)
    requires n <= |f.symbols|
    ensures exists places: seq<nat> :: TellsSymbols(SymbolsBelow(f, n, hit), places, f, n, hit)
  {
    var none: seq<nat> := [];
    if n == 0 {
      assert TellsSymbols(SymbolsBelow(f, n, hit), none, f, n, hit);
    } else {
      SymbolsFound(f, n - 1, hit);
      var places: seq<nat> :| TellsSymbols(SymbolsBelow(f, n - 1, hit), places, f, n - 1, hit);
      NextSymbol(SymbolsBelow(f, n - 1, hit), places, f, n - 1, hit);
      var now := SymbolsBelow(f, n, hit);
      if hit(f.symbols[n - 1].name) {
        assert TellsSymbols(now, places + [n - 1], f, n, hit);
      } else {
        assert TellsSymbols(now, places, f, n, hit);
      }
    }
  }

  /** Without a limit a file gives its path, if that matches, and its first three matching lines, or fewer. */
  lemma FileFound(f: File, hit: string -> bool)
    ensures var all := if f.lines.Some? then LineMatches(f, f.lines.value, |f.lines.value|, hit) else [];
      var own := if hit(f.path) then 1 else 0;
      var found := FileMatches(f, hit);
      && |found| == own + (if |all| < 3 then |all| else 3)
      && found[own..] <= all
      && (hit(f.path) ==> found[0] == Match(f.repo, f.path, PathHit, None, f.path))
    ensures f.lines.None? ==> ContentMatches(f, hit) == [] && SymbolMatches(f, hit) == []
  {
    assert PathMatches(f, hit) + Take(ContentMatches(f, hit), HITS_PER_FILE) == FileMatches(f, hit);
  }

  // ---- the loops ----

  /** The lines of one file: stopped by the limit or after three hits. */
  method ScanLines(
    f: File, lines: seq<string>, found: seq<Match>, limit: int, hit: string -> bool) returns (r: seq<Match>)
    requires |found| < limit
    ensures r == found + Take(LineMatches(f, lines, |lines|, hit),
                              if limit - |found| < HITS_PER_FILE then limit - |found| else HITS_PER_FILE)
  {
    r := found;
    var hits := 0;
    for k := 0 to |lines|
      invariant r == found + LineMatches(f, lines, k, hit) && hits == |r| - |found|
      invariant |r| < limit && hits < HITS_PER_FILE
    {
      if hit(lines[k]) {
        r := r + [Match(f.repo, f.path, ContentHit, Some(k + 1), Text.Strip(lines[k]))];
        hits := hits + 1;
        if |r| >= limit || hits >= HITS_PER_FILE {
          LinesPrefix(f, lines, k + 1, |lines|, hit);
          FullIsTake(LineMatches(f, lines, k + 1, hit), LineMatches(f, lines, |lines|, hit), hits);
          return;
        }
      }
    }
  }

  lemma ScannedFile(f: File, hit: string -> bool, before: seq<Match>, found: seq<Match>, n: int)
    requires 0 < n <= HITS_PER_FILE
    requires found == before + PathMatches(f, hit) + Take(ContentMatches(f, hit), n)
    ensures before <= found <= before + FileMatches(f, hit)
    ensures n == HITS_PER_FILE || |Take(ContentMatches(f, hit), n)| < n ==> found == before + FileMatches(f, hit)
  {
    TakeMonotone(ContentMatches(f, hit), n, HITS_PER_FILE);
  }

  lemma LimitReached(files: seq<File>, i: nat, found: seq<Match>, each: File -> seq<Match>, limit: int)
    requires i < |files| && Enumerate(files[..i], each) <= found <= Enumerate(files[..i], each) + each(files[i])
    requires |found| == limit
    ensures found == Take(Enumerate(files, each), limit)
  {
    FoundIsPrefix(files, i, found, each);
    FullIsTake(found, Enumerate(files, each), limit);
  }

  /** The hits of one file, as far as there is room: the path, then the lines. */
  method SearchFile(f: File, found: seq<Match>, hit: string -> bool, limit: int) returns (r: seq<Match>)
    requires |found| < limit || limit <= 0
    ensures found <= r <= found + FileMatches(f, hit)
    ensures |r| < limit ==> r == found + FileMatches(f, hit)
    ensures limit >= 1 ==> |r| <= limit
    ensures limit <= 0 ==> r == found + PathMatches(f, hit)
  {
    r := found;
    if hit(f.path) {
      r := r + [Match(f.repo, f.path, PathHit, None, f.path)];
    }
    assert r == found + PathMatches(f, hit);
    if |r| >= limit {
      return;
    }
    if f.lines.Some? {
      ghost var room := limit - |r|;
      ghost var n := if room < HITS_PER_FILE then room else HITS_PER_FILE;
      r := ScanLines(f, f.lines.value, r, limit, hit);
      ScannedFile(f, hit, found, r, n);
    }
  }

  method SearchFiles(files: seq<File>, hit: string -> bool, limit: int) returns (found: seq<Match>)
    ensures limit >= 1 ==> found == Take(Enumerate(files, f => FileMatches(f, hit)), limit)
    ensures limit <= 0 ==> found == if files == [] then [] else PathMatches(files[0], hit)
  {
    var each := f => FileMatches(f, hit);
    found := [];
    for i := 0 to |files|
      invariant found == Enumerate(files[..i], each)
      invariant |found| < limit || (i == 0 && limit <= 0)
    {
      EnumerateNext(files, i, each);
      found := SearchFile(files[i], found, hit, limit);
      if |found| >= limit {
        if limit >= 1 {
          LimitReached(files, i, found, each, limit);
        }
        return;
      }
    }
    assert files[..|files|] == files;
  }

  /** What a limit below one gives: the beginning of the whole, and nothing exactly if the first path is no hit. */
  lemma BelowOne(files: seq<File>, hit: string -> bool, limit: int)
    requires limit < 1
    ensures var found := if files == [] then [] else PathMatches(files[0], hit);
      var all := Enumerate(files, f => FileMatches(f, hit));
      && found <= all
      && (found == Take(all, limit) <==> files == [] || !hit(files[0].path))
  {
    if files != [] {
      var each := (f: File) => FileMatches(f, hit);
      EnumerateNext(files, 0, each);
      assert files[..0] == [];
      EnumeratePrefix(files, 1, each);
    }
  }

  /**
   A limited search gives the first `limit` elements of the unlimited one. A limit below one still
   reports a hit on the first path.
   */
  method SearchProject(files: seq<File>, query: string, lower: string -> string, limit: int)
    returns (r: Result<seq<Match>, SearchError>)
    ensures r.Failure? <==> lower(Text.Strip(query)) == ""
    ensures r.Success? ==>
              var hit := text => Text.Contains(lower(text), lower(Text.Strip(query)));
              && (limit >= 1 ==> r.value == Take(Enumerate(files, f => FileMatches(f, hit)), limit))
              && (limit <= 0 ==> r.value == if files == [] then [] else PathMatches(files[0], hit))
  {
    var lowered := lower(Text.Strip(query));
    if lowered == "" {
      return Failure(EmptyQuery);
    }
    var hit := text => Text.Contains(lower(text), lowered);
    var found := SearchFiles(files, hit, limit);
    r := Success(found);
  }

  /** The matching lines of one file; stops as soon as `stop` hits have been found. */
  method GrepLines(
    f: File, lines: seq<string>, found: seq<Match>, stop: int, hit: string -> bool) returns (r: seq<Match>)
    requires |found| < stop
    ensures r == found + Take(LineMatches(f, lines, |lines|, hit), stop - |found|)
  {
    r := found;
    for k := 0 to |lines|
      invariant r == found + LineMatches(f, lines, k, hit) && |r| < stop
    {
      if hit(lines[k]) {
        r := r + [Match(f.repo, f.path, ContentHit, Some(k + 1), Text.Strip(lines[k]))];
        if |r| >= stop {
          LinesPrefix(f, lines, k + 1, |lines|, hit);
          FullIsTake(LineMatches(f, lines, k + 1, hit), LineMatches(f, lines, |lines|, hit), stop - |found|);
          return;
        }
      }
    }
  }

  method FindSymbols(f: File, found: seq<Match>, stop: int, hit: string -> bool) returns (r: seq<Match>)
    requires |found| < stop
    ensures r == found + Take(SymbolsBelow(f, |f.symbols|, hit), stop - |found|)
  {
    r := found;
    for k := 0 to |f.symbols|
      invariant r == found + SymbolsBelow(f, k, hit) && |r| < stop
    {
      var symbol := f.symbols[k];
      if hit(symbol.name) {
        r := r + [Match(f.repo, f.path, SymbolHit, Some(symbol.line), symbol.name)];
        if |r| >= stop {
          SymbolsPrefix(f, k + 1, |f.symbols|, hit);
          FullIsTake(SymbolsBelow(f, k + 1, hit), SymbolsBelow(f, |f.symbols|, hit), stop - |found|);
          return;
        }
      }
    }
  }

  /** One more file: either its hits all fit, or the limit is reached and the rest does not matter. */
  lemma OneMoreFile(files: seq<File>, i: nat, found: seq<Match>, stop: int, each: File -> seq<Match>)
    requires i < |files| && |Enumerate(files[..i], each)| < stop
    requires found == Enumerate(files[..i], each) + Take(each(files[i]), stop - |Enumerate(files[..i], each)|)
    ensures |found| < stop ==> found == Enumerate(files[..i + 1], each)
    ensures |found| >= stop ==> found == Take(Enumerate(files, each), stop)
  {
    EnumerateNext(files, i, each);
    if |found| >= stop {
      FoundIsPrefix(files, i, found, each);
      FullIsTake(found, Enumerate(files, each), stop);
    }
  }

  method GrepFiles(files: seq<File>, hit: string -> bool, limit: int) returns (found: seq<Match>)
    ensures found == Take(Enumerate(files, f => ContentMatches(f, hit)), if limit < 1 then 1 else limit)
  {
    ghost var each := f => ContentMatches(f, hit);
    var stop := if limit < 1 then 1 else limit;
    found := [];
    for i := 0 to |files|
      invariant found == Enumerate(files[..i], each) && |found| < stop
    {
      EnumerateNext(files, i, each);
      if files[i].lines.Some? {
        found := GrepLines(files[i], files[i].lines.value, found, stop, hit);
        OneMoreFile(files, i, found, stop, each);
        if |found| >= stop {
          return;
        }
      }
    }
    assert files[..|files|] == files;
  }

  method FindAllSymbols(files: seq<File>, hit: string -> bool, limit: int) returns (found: seq<Match>)
    ensures found == Take(Enumerate(files, f => SymbolMatches(f, hit)), if limit < 1 then 1 else limit)
  {
    ghost var each := f => SymbolMatches(f, hit);
    var stop := if limit < 1 then 1 else limit;
    found := [];
    for i := 0 to |files|
      invariant found == Enumerate(files[..i], each) && |found| < stop
    {
      EnumerateNext(files, i, each);
      if files[i].lines.Some? {
        found := FindSymbols(files[i], found, stop, hit);
        OneMoreFile(files, i, found, stop, each);
        if |found| >= stop {
          return;
        }
      }
    }
    assert files[..|files|] == files;
  }

  /** A search by pattern: every matching line, the first `limit` of them, and at least one. */
  method GrepProject(files: seq<File>, pattern: string, compiled: Option<string -> bool>, limit: int)
    returns (r: Result<seq<Match>, SearchError>)
    ensures r.Failure? <==> Text.Strip(pattern) == "" || compiled.None?
    ensures r.Success? ==>
              r.value == Take(Enumerate(files, f => ContentMatches(f, compiled.value)), if limit < 1 then 1 else limit)
  {
    if Text.Strip(pattern) == "" {
      return Failure(EmptyQuery);
    }
    if compiled.None? {
      return Failure(InvalidPattern);
    }
    var found := GrepFiles(files, compiled.value, limit);
    r := Success(found);
  }

  method SymbolsProject(files: seq<File>, query: string, lower: string -> string, limit: int)
    returns (r: Result<seq<Match>, SearchError>)
    ensures r.Failure? <==> lower(Text.Strip(query)) == ""
    ensures r.Success? ==>
              var hit := text => Text.Contains(lower(text), lower(Text.Strip(query)));
              r.value == Take(Enumerate(files, f => SymbolMatches(f, hit)), if limit < 1 then 1 else limit)
  {
    var lowered := lower(Text.Strip(query));
    if lowered == "" {
      return Failure(EmptyQuery);
    }
    var hit := text => Text.Contains(lower(text), lowered);
    var found := FindAllSymbols(files, hit, limit);
    r := Success(found);
  }
}
