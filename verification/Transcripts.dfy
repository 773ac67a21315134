/** Pairing command log records into the rows of a transcript. */
module Transcripts {
  import opened Common
  import Text

  datatype LogRecord = LogRecord(
    kind: string, commandLine: string, startedAt: string, exitCode: Option<int>, managedExitCode: Option<int>)

  datatype Row = Row(
    index: nat,
    startedAt: string,
    display: string,
    normalized: string,
    wrapperExit: Option<int>,
    managedExit: Option<int>,
    effectiveExit: Option<int>,
    failed: bool,
    mismatch: bool,
    result: string,
    records: seq<LogRecord>
  )

  const CLI := "taskledger_cli"
  const SHELL := "managed_shell"

  // ---- commands ----

  predicate IsWrapper(r: LogRecord) {
    r.kind == CLI
    && (Text.Contains(r.commandLine, " implement command --") || Text.Contains(r.commandLine, " plan command --"))
  }

  /** What follows the first ` -- `. */
  function AfterDashes(s: string): Option<string> {
    if Text.StartsWith(s, " -- ") then Some(s[4..])
    else if s == [] then None
    else AfterDashes(s[1..])
  }

  function InnerCommand(line: string): string {
    var inner := AfterDashes(line);
    if inner.Some? then inner.value else line
  }

  predicate IsPair(wrapper: LogRecord, managed: LogRecord) {
    managed.kind == SHELL && Text.Strip(InnerCommand(wrapper.commandLine)) == Text.Strip(managed.commandLine)
  }

  /** White space runs become single blanks. */
  function Squeeze(s: string): string {
    if s == [] then []
    else if !Text.IsSpace(s[0]) then [s[0]] + Squeeze(s[1..])
    else if |s| > 1 && Text.IsSpace(s[1]) then Squeeze(s[1..])
    else " " + Squeeze(s[1..])
  }

  function Normalize(line: string): string {
    Squeeze(Text.Strip(InnerCommand(line)))
  }

  lemma {:induction false} SqueezeSolid(w: string, rest: string)
    requires forall i :: 0 <= i < |w| ==> !Text.IsSpace(w[i])
    ensures Squeeze(w + rest) == w + Squeeze(rest)
  {
    if w == [] {
      assert w + rest == rest;
    } else {
      SqueezeSolid(w[1..], rest);
      assert (w + rest)[1..] == w[1..] + rest;
      assert w == [w[0]] + w[1..];
    }
  }

  lemma SqueezeWord(s: string)
    ensures Squeeze(s) == Text.FirstWord(s) + Squeeze(s[|Text.FirstWord(s)|..])
  {
    var w := Text.FirstWord(s);
    Text.FirstWordIs(s);
    SqueezeSolid(w, s[|w|..]);
    assert s == w + s[|w|..];
  }

  /** What begins with a word again after some white space. */
  function AfterGap(s: string): string {
    if s != [] && Text.IsSpace(s[0]) then AfterGap(s[1..]) else s
  }

  /** Between words, white space becomes one blank. */
  lemma {:induction false} SqueezeGap(s: string)
    requires s != [] && Text.IsSpace(s[0]) && !Text.IsSpace(s[|s| - 1])
    ensures var t := AfterGap(s);
      && t != [] && |t| < |s| && Text.Trimmed(t) && Squeeze(s) == " " + Squeeze(t) && Text.Words(s) == Text.Words(t)
  {
    if Text.IsSpace(s[1]) {
      SqueezeGap(s[1..]);
    }
  }

  lemma JoinMore(w: string, words: seq<string>)
    requires words != []
    ensures Text.JoinWords([w] + words) == w + " " + Text.JoinWords(words)
  {
    assert ([w] + words)[1..] == words;
  }

  lemma WordsSplit(s: string)
    requires s != [] && !Text.IsSpace(s[0])
    ensures var w := Text.FirstWord(s); Text.Words(s) == [w] + Text.Words(s[|w|..])
  {
  }

  lemma {:induction false} SqueezeIs(s: string)
    requires Text.Trimmed(s)
    ensures Squeeze(s) == Text.JoinWords(Text.Words(s))
    decreases |s|
  {
    if s != [] {
      var w := Text.FirstWord(s);
      SqueezeWord(s);
      WordsSplit(s);
      Text.FirstWordIs(s);
      SqueezeRest(s, w, s[|w|..]);
    }
  }

  lemma {:induction false} SqueezeRest(s: string, w: string, rest: string)
    requires Text.Trimmed(s) && s != [] && w == Text.FirstWord(s) && rest == s[|w|..] && w != []
    requires rest != [] ==> Text.IsSpace(rest[0])
    ensures w + Squeeze(rest) == Text.JoinWords([w] + Text.Words(rest))
    decreases |s|, 0
  {
    if rest != [] {
      assert rest[|rest| - 1] == s[|s| - 1];
      SqueezeGap(rest);
      SqueezeIs(AfterGap(rest));
      JoinMore(w, Text.Words(AfterGap(rest)));
    }
  }

  /** A command is known by its words: those after the first ` -- `, joined by single blanks. */
  lemma NormalizeIs(line: string)
    ensures Normalize(line) == Text.JoinWords(Text.Words(InnerCommand(line)))
  {
    Text.StripIs(InnerCommand(line));
    Text.StripKeepsWords(InnerCommand(line));
    SqueezeIs(Text.Strip(InnerCommand(line)));
  }

  /** The first ` -- ` is at this place. */
  ghost predicate DashesAt(s: string, i: nat) {
    i <= |s| && Text.StartsWith(s[i..], " -- ") && forall j :: 0 <= j < i ==> !Text.StartsWith(s[j..], " -- ")
  }

  lemma DashesLater(s: string, i: nat)
    requires s != [] && !Text.StartsWith(s, " -- ") && DashesAt(s[1..], i)
    ensures DashesAt(s, i + 1) && s[1..][i + 4..] == s[i + 5..]
  {
    assert s[1..][i..] == s[i + 1..];
    forall j | 0 <= j < i + 1
      ensures !Text.StartsWith(s[j..], " -- ")
    {
      if j == 0 {
        assert s[0..] == s;
      } else {
        assert s[j..] == s[1..][j - 1..];
      }
    }
  }

  /** The inner command is what follows the first ` -- `, or the whole line without one. */
  lemma {:induction false} AfterDashesIs(s: string)
    ensures AfterDashes(s).None? <==> !Text.Contains(s, " -- ")
    ensures AfterDashes(s).Some? ==> exists i: nat :: DashesAt(s, i) && AfterDashes(s).value == s[i + 4..]
  {
    if Text.StartsWith(s, " -- ") {
      assert s[0..] == s;
      assert DashesAt(s, 0);
    } else if s != [] {
      AfterDashesIs(s[1..]);
      if AfterDashes(s).Some? {
        var i: nat :| DashesAt(s[1..], i) && AfterDashes(s[1..]).value == s[1..][i + 4..];
        DashesLater(s, i);
      }
    }
  }

  /** Without ` -- ` the whole line is the command, and else what follows the first one. */
  lemma InnerIs(line: string)
    ensures !Text.Contains(line, " -- ") ==> InnerCommand(line) == line
    ensures Text.Contains(line, " -- ") ==> exists i: nat :: DashesAt(line, i) && InnerCommand(line) == line[i + 4..]
  {
    AfterDashesIs(line);
  }

  predicate IsFailed(exitCode: Option<int>) {
    exitCode.Some? && exitCode.value != 0
  }

  // ---- rows ----

  function PairRow(w: LogRecord, m: LogRecord, index: nat): Row {
    var managedExit := if m.exitCode.Some? then m.exitCode else m.managedExitCode;
    var failed := IsFailed(w.exitCode) || IsFailed(managedExit);
    var mismatch := w.exitCode.Some? && managedExit.Some? && w.exitCode != managedExit;
    Row(index, w.startedAt, m.commandLine, Normalize(m.commandLine), w.exitCode, managedExit,
        if managedExit.Some? then managedExit else w.exitCode, failed, mismatch,
        if !failed then "passed" else if mismatch then "failed, wrapper mismatch" else "failed", [w, m])
  }

  function SingleRow(r: LogRecord, index: nat): Row {
    Row(index, r.startedAt, r.commandLine, Normalize(r.commandLine),
        if r.kind == CLI then r.exitCode else None, if r.kind == SHELL then r.exitCode else None,
        r.exitCode, IsFailed(r.exitCode), false, if IsFailed(r.exitCode) then "failed" else "passed", [r])
  }

  /** The exit code of the managed command of a pair: its own, or else the recorded one. */
  function ManagedCode(r: LogRecord): Option<int> {
    if r.exitCode.Some? then r.exitCode else r.managedExitCode
  }

  predicate WentWrong(code: Option<int>) {
    code.Some? && code.value != 0
  }

  predicate Differ(a: Option<int>, b: Option<int>) {
    a.Some? && b.Some? && a.value != b.value
  }

  /** What a row says of its records: of a pair, wrapper first, or of a single one. */
  ghost predicate Tells(row: Row) {
    && 1 <= |row.records| <= 2
    && row.startedAt == row.records[0].startedAt && row.display == row.records[|row.records| - 1].commandLine
    && row.normalized == Text.JoinWords(Text.Words(InnerCommand(row.display)))
    && (row.result == "passed" <==> !row.failed)
    && (row.failed ==> row.result == if row.mismatch then "failed, wrapper mismatch" else "failed")
    && if |row.records| == 2 then TellsPair(row, row.records[0].exitCode, row.records[1])
       else TellsSingle(row, row.records[0])
  }

  /** Failed if either code is not zero; the code of the managed command counts, if there is one. */
  ghost predicate TellsPair(row: Row, wrapper: Option<int>, m: LogRecord) {
    && (row.failed <==>
          WentWrong(wrapper) || WentWrong(m.exitCode) || (m.exitCode.None? && WentWrong(m.managedExitCode)))
    && (row.mismatch <==> Differ(wrapper, m.exitCode) || (m.exitCode.None? && Differ(wrapper, m.managedExitCode)))
    && row.wrapperExit == wrapper && row.managedExit == ManagedCode(m)
    && (m.exitCode.Some? ==> row.managedExit == m.exitCode)
    && row.effectiveExit == if row.managedExit.Some? then row.managedExit else wrapper
  }

  ghost predicate TellsSingle(row: Row, r: LogRecord) {
    && (row.failed <==> r.exitCode.Some? && r.exitCode.value != 0) && !row.mismatch && row.effectiveExit == r.exitCode
    && (r.kind == "taskledger_cli" ==> row.wrapperExit == r.exitCode && row.managedExit == None)
    && (r.kind == "managed_shell" ==> row.managedExit == r.exitCode && row.wrapperExit == None)
    && (r.kind != "taskledger_cli" && r.kind != "managed_shell" ==> row.wrapperExit == None && row.managedExit == None)
  }

  ghost predicate AllTell(rows: seq<Row>) {
    forall k :: 0 <= k < |rows| ==> Tells(rows[k])
  }

  lemma TellsMore(rows: seq<Row>, row: Row)
    requires AllTell(rows) && Tells(row)
    ensures AllTell(rows + [row])
  {
  }

  lemma RowTells(logs: seq<LogRecord>, j: nat, index: nat)
    requires j < |logs|
    ensures Tells(RowAt(logs, j, index))
  {
    if Absorbed(logs, j + 1) {
      PairTells(logs[j], logs[j + 1], index);
    } else {
      SingleTells(logs[j], index);
    }
  }

  lemma PairTells(w: LogRecord, m: LogRecord, index: nat)
    ensures Tells(PairRow(w, m, index))
  {
    NormalizeIs(m.commandLine);
  }

  lemma SingleTells(r: LogRecord, index: nat)
    ensures Tells(SingleRow(r, index))
  {
    NormalizeIs(r.commandLine);
  }

  // ---- the local rule ----

  /** A record belongs to the row of its predecessor exactly when that is a wrapper matching it. */
  predicate Absorbed(logs: seq<LogRecord>, j: nat) {
    0 < j < |logs| && IsWrapper(logs[j - 1]) && IsPair(logs[j - 1], logs[j])
  }

  /** The positions below `n` at which a row starts. */
  function StartsBelow(logs: seq<LogRecord>, n: nat): (s: seq<nat>)
    requires n <= |logs|
    ensures forall k :: 0 <= k < |s| ==> s[k] < n
  {
    if n == 0 then []
    else if Absorbed(logs, n - 1) then StartsBelow(logs, n - 1)
    else StartsBelow(logs, n - 1) + [n - 1]
  }

  function RowAt(logs: seq<LogRecord>, j: nat, index: nat): Row
    requires j < |logs|
  {
    if Absorbed(logs, j + 1) then PairRow(logs[j], logs[j + 1], index) else SingleRow(logs[j], index)
  }

  /** The rows by the local rule alone. */
  function RowsByRule(logs: seq<LogRecord>): seq<Row> {
    var starts := StartsBelow(logs, |logs|);
    seq(|starts|, k requires 0 <= k < |starts| => RowAt(logs, starts[k], k))
  }

  function RecordsOf(rows: seq<Row>): seq<LogRecord> {
    if rows == [] then [] else RecordsOf(rows[..|rows| - 1]) + rows[|rows| - 1].records
  }

  lemma RecordsOfAppend(rows: seq<Row>, row: Row)
    ensures RecordsOf(rows + [row]) == RecordsOf(rows) + row.records
  {
    assert (rows + [row])[..|rows|] == rows;
  }

  /** An absorbed record is never a wrapper, so it absorbs nothing itself. */
  lemma AbsorbedAbsorbsNot(logs: seq<LogRecord>, j: nat)
    requires Absorbed(logs, j)
    ensures !Absorbed(logs, j + 1)
  {
  }

  predicate RowsUpTo(logs: seq<LogRecord>, i: nat, rows: seq<Row>)
    requires i <= |logs|
  {
    && |rows| == |StartsBelow(logs, i)|
    && forall k :: 0 <= k < |rows| ==> rows[k] == RowAt(logs, StartsBelow(logs, i)[k], k)
  }

  function NextStart(logs: seq<LogRecord>, i: nat): nat {
    if Absorbed(logs, i + 1) then i + 2 else i + 1
  }

  lemma NextStartIs(logs: seq<LogRecord>, i: nat)
    requires i < |logs| && !Absorbed(logs, i)
    ensures NextStart(logs, i) <= |logs| && !Absorbed(logs, NextStart(logs, i))
    ensures StartsBelow(logs, NextStart(logs, i)) == StartsBelow(logs, i) + [i]
  {
    assert StartsBelow(logs, i + 1) == StartsBelow(logs, i) + [i];
    if Absorbed(logs, i + 1) {
      AbsorbedAbsorbsNot(logs, i + 1);
      assert StartsBelow(logs, i + 2) == StartsBelow(logs, i + 1);
    }
  }

  lemma RowRecords(logs: seq<LogRecord>, i: nat, index: nat)
    requires i < |logs| && NextStart(logs, i) <= |logs|
    ensures RowAt(logs, i, index).records == logs[i..NextStart(logs, i)] && RowAt(logs, i, index).index == index
  {
    if Absorbed(logs, i + 1) {
      assert RowAt(logs, i, index).records == [logs[i], logs[i + 1]];
    } else {
      assert RowAt(logs, i, index).records == [logs[i]];
    }
  }

  lemma RowsExtend(logs: seq<LogRecord>, i: nat, next: nat, rows: seq<Row>)
    requires i < next <= |logs| && RowsUpTo(logs, i, rows) && StartsBelow(logs, next) == StartsBelow(logs, i) + [i]
    ensures RowsUpTo(logs, next, rows + [RowAt(logs, i, |rows|)])
  {
  }

  lemma RecordsExtend(logs: seq<LogRecord>, i: nat, next: nat, rows: seq<Row>, row: Row)
    requires i <= next <= |logs| && RecordsOf(rows) == logs[..i] && row.records == logs[i..next]
    ensures RecordsOf(rows + [row]) == logs[..next]
  {
    RecordsOfAppend(rows, row);
    assert logs[..next] == logs[..i] + logs[i..next];
  }

  /**
   The scan, which steps over a pair at once, finds the rows of the local rule. Their records are the
   log, in order, none lost and none repeated, and they are numbered from zero.
   */
  method LogicalRows(logs: seq<LogRecord>) returns (rows: seq<Row>)
    ensures rows == RowsByRule(logs)
    ensures RecordsOf(rows) == logs
    ensures AllTell(rows) && forall k :: 0 <= k < |rows| ==> rows[k].index == k
  {
    rows := [];
    var i, index := 0, 0;
    while i < |logs|
      invariant 0 <= i <= |logs| && index == |rows| && !Absorbed(logs, i)
      invariant RowsUpTo(logs, i, rows)
      invariant RecordsOf(rows) == logs[..i]
      invariant AllTell(rows)
    {
      NextStartIs(logs, i);
      RowsExtend(logs, i, NextStart(logs, i), rows);
      RowRecords(logs, i, index);
      RecordsExtend(logs, i, NextStart(logs, i), rows, RowAt(logs, i, index));
      RowTells(logs, i, index);
      TellsMore(rows, RowAt(logs, i, index));
      var current := logs[i];
      if IsWrapper(current) && i + 1 < |logs| && IsPair(current, logs[i + 1]) {
        rows := rows + [PairRow(current, logs[i + 1], index)];
        i := i + 2;
      } else {
        rows := rows + [SingleRow(current, index)];
        i := i + 1;
      }
      index := index + 1;
    }
    assert logs[..i] == logs;
  }

  /** A wrapper runs a command for an implementation or a plan, and the command run under it is the one it names. */
  ghost predicate RunsNext(logs: seq<LogRecord>, j: nat) {
    && 0 < j < |logs| && logs[j - 1].kind == "taskledger_cli" && logs[j].kind == "managed_shell"
    && (|| Text.Contains(logs[j - 1].commandLine, " implement command --")
        || Text.Contains(logs[j - 1].commandLine, " plan command --"))
    && Text.Strip(InnerCommand(logs[j - 1].commandLine)) == Text.Strip(logs[j].commandLine)
  }

  lemma AbsorbedIff(logs: seq<LogRecord>, j: nat)
    ensures Absorbed(logs, j) <==> RunsNext(logs, j)
  {
  }

  /** A record is absorbed, and a row starts elsewhere: every position is one or the other. */
  lemma {:induction false} StartsExactly(logs: seq<LogRecord>, n: nat, j: nat)
    requires j < n <= |logs|
    ensures j in StartsBelow(logs, n) <==> !RunsNext(logs, j)
  {
    AbsorbedIff(logs, j);
    if j < n - 1 {
      StartsExactly(logs, n - 1, j);
    }
  }

  // ---- retries ----

  ghost predicate Numbered(rows: seq<Row>) {
    forall k :: 0 <= k < |rows| ==> rows[k].index == k
  }

  ghost predicate SucceedsLater(rows: seq<Row>, i: nat) {
    i < |rows| && exists j :: i < j < |rows| && rows[j].normalized == rows[i].normalized && !rows[j].failed
  }

  /** Each failed row is marked, with whether the same command succeeded later on. */
  method RetryMap(rows: seq<Row>) returns (retries: map<nat, bool>)
    ensures Numbered(rows) ==> forall i: nat :: i in retries <==> i < |rows| && rows[i].failed
    ensures Numbered(rows) ==> forall i :: i in retries ==> (retries[i] <==> SucceedsLater(rows, i))
  {
    retries := map[];
    for i := 0 to |rows|
      invariant Numbered(rows) ==> forall k: nat :: k in retries <==> k < i && rows[k].failed
      invariant Numbered(rows) ==> forall k :: k in retries ==> (retries[k] <==> SucceedsLater(rows, k))
    {
      if rows[i].failed {
        var retried := false;
        var j := i + 1;
        while j < |rows| && !retried
          invariant i < j <= |rows|
          invariant retried ==> SucceedsLater(rows, i)
          invariant !retried ==>
                      forall k :: i < k < j ==> !(rows[k].normalized == rows[i].normalized && !rows[k].failed)
          decreases |rows| - j, !retried
        {
          if rows[j].normalized == rows[i].normalized && !rows[j].failed {
            retried := true;
          } else {
            j := j + 1;
          }
        }
        retries := retries[rows[i].index := retried];
      }
    }
  }

  const PASSED_FINISH := "taskledger validate finish --result passed"
  const FAILED_FINISH := "taskledger validate finish --result failed"

  predicate IsValidationFinish(row: Row) {
    Text.StartsWith(row.display, PASSED_FINISH) || Text.StartsWith(row.display, FAILED_FINISH)
  }

  method FirstValidationFinish(rows: seq<Row>) returns (index: Option<nat>)
    ensures forall row :: IsValidationFinish(row) <==>
              || Text.StartsWith(row.display, "taskledger validate finish --result passed")
              || Text.StartsWith(row.display, "taskledger validate finish --result failed")
    ensures index.None? <==> forall i :: 0 <= i < |rows| ==> !IsValidationFinish(rows[i])
    ensures index.Some? ==> exists i :: 0 <= i < |rows| && rows[i].index == index.value && IsValidationFinish(rows[i])
                                       && forall j :: 0 <= j < i ==> !IsValidationFinish(rows[j])
  {
    for i := 0 to |rows|
      invariant forall j :: 0 <= j < i ==> !IsValidationFinish(rows[j])
    {
      if IsValidationFinish(rows[i]) {
        return Some(rows[i].index);
      }
    }
    return None;
  }
}
