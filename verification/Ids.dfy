/**
 Ledger ids: a prefix, a dash and a decimal number padded to four digits
 (`task-0001`, `run-0012`), and the allocators built on them.
 */
module Ids {
  import opened Common

  const WIDTH: nat := 4
  const TASK := "task"

  predicate IsDigit(c: char) {
    '0' <= c <= '9'
  }

  function DigitChar(d: nat): (c: char)
    requires d < 10
    ensures IsDigit(c) && DigitValue(c) == d
  {
    ['0', '1', '2', '3', '4', '5', '6', '7', '8', '9'][d]
  }

  function DigitValue(c: char): nat
    requires IsDigit(c)
  {
    (c as int) - ('0' as int)
  }

  predicate AllDigits(s: string) {
    forall i :: 0 <= i < |s| ==> IsDigit(s[i])
  }

  /** Decimal notation without leading zeros. */
  function Decimal(n: nat): (s: string)
    ensures AllDigits(s) && |s| > 0
  {
    if n < 10 then [DigitChar(n)] else Decimal(n / 10) + [DigitChar(n % 10)]
  }

  function DecimalValue(s: string): nat
    requires AllDigits(s)
  {
    if s == [] then 0 else 10 * DecimalValue(s[..|s| - 1]) + DigitValue(s[|s| - 1])
  }

  function ZeroPad(width: nat, s: string): (r: string)
    requires AllDigits(s)
    ensures AllDigits(r) && |r| >= |s| && |r| >= width
    decreases width - |s|
  {
    if |s| >= width then s else ZeroPad(width, "0" + s)
  }

  function FormatId(prefix: string, number: nat): string {
    prefix + "-" + ZeroPad(WIDTH, Decimal(number))
  }

  /** The number of an id with this prefix, `None` for any other string. */
  function ParseId(prefix: string, id: string): Option<nat> {
    if |id| > |prefix| + 1 && id[..|prefix|] == prefix && id[|prefix|] == '-' && AllDigits(id[|prefix| + 1..])
    then Some(DecimalValue(id[|prefix| + 1..]))
    else None
  }

  // ---- format and parse are inverse ----

  lemma {:induction false} DecimalRoundTrip(n: nat)
    ensures DecimalValue(Decimal(n)) == n
  {
    if n < 10 {
      assert Decimal(n)[..0] == [];
    } else {
      DecimalRoundTrip(n / 10);
      var s := Decimal(n);
      assert s[..|s| - 1] == Decimal(n / 10);
    }
  }

  lemma {:induction false} LeadingZero(s: string)
    requires AllDigits(s)
    ensures DecimalValue("0" + s) == DecimalValue(s)
  {
    if s == [] {
      assert ("0" + s)[..0] == [];
    } else {
      LeadingZero(s[..|s| - 1]);
      assert ("0" + s)[..|s|] == "0" + s[..|s| - 1];
    }
  }

  lemma {:induction false} ZeroPadValue(width: nat, s: string)
    requires AllDigits(s)
    ensures DecimalValue(ZeroPad(width, s)) == DecimalValue(s)
    decreases width - |s|
  {
    if |s| < width {
      LeadingZero(s);
      ZeroPadValue(width, "0" + s);
    }
  }

  /** Parsing a formatted id gives its number back, for every prefix and number. */
  lemma ParseFormat(prefix: string, n: nat)
    ensures ParseId(prefix, FormatId(prefix, n)) == Some(n)
  {
    var digits := ZeroPad(WIDTH, Decimal(n));
    var id := FormatId(prefix, n);
    assert id[..|prefix|] == prefix;
    assert id[|prefix| + 1..] == digits;
    ZeroPadValue(WIDTH, Decimal(n));
    DecimalRoundTrip(n);
  }

  /** No digit stands in front for nothing. */
  predicate Canonical(digits: string) {
    digits == "0" || (digits != "" && digits[0] != '0')
  }

  lemma {:induction false} DecimalCanonical(n: nat)
    ensures Canonical(Decimal(n)) && (n > 0 ==> Decimal(n)[0] != '0')
  {
    if n >= 10 {
      DecimalCanonical(n / 10);
    }
  }

  lemma {:induction false} ZeroPadShape(width: nat, s: string)
    requires AllDigits(s)
    ensures |ZeroPad(width, s)| == if |s| > width then |s| else width
    ensures |s| >= width ==> ZeroPad(width, s) == s
    decreases width - |s|
  {
    if |s| < width {
      ZeroPadShape(width, "0" + s);
    }
  }

  /** An id is its prefix, a dash and the number in decimal, with at least four digits and no zeros beyond that. */
  lemma FormatShape(prefix: string, n: nat)
    ensures var id := FormatId(prefix, n); var digits := id[|prefix| + 1..];
      && id == prefix + "-" + digits && AllDigits(digits) && DecimalValue(digits) == n
      && |digits| >= 4 && (|digits| > 4 ==> digits[0] != '0')
  {
    var d := Decimal(n);
    assert FormatId(prefix, n)[|prefix| + 1..] == ZeroPad(WIDTH, d);
    ZeroPadValue(WIDTH, d);
    ZeroPadShape(WIDTH, d);
    DecimalRoundTrip(n);
    DecimalCanonical(n);
    if |d| > 4 {
      assert ZeroPad(WIDTH, d) == d && n > 0;
    }
  }

  /** Exactly the prefix, a dash and digits are read as an id, whatever zeros they begin with. */
  lemma ParseIdIff(prefix: string, id: string)
    ensures ParseId(prefix, id).Some? <==>
              |id| > |prefix| + 1 && id == prefix + "-" + id[|prefix| + 1..] && AllDigits(id[|prefix| + 1..])
    ensures ParseId(prefix, id).Some? ==> ParseId(prefix, id).value == DecimalValue(id[|prefix| + 1..])
  {
  }

  // ---- the largest number in use ----

  /** The number of an id, 0 for strings that are not ids of this prefix. */
  function NumberOf(prefix: string, id: string): nat {
    var n := ParseId(prefix, id);
    if n.Some? then n.value else 0
  }

  ghost predicate IsMaxNumber(prefix: string, ids: set<string>, m: nat) {
    && (forall id :: id in ids ==> NumberOf(prefix, id) <= m)
    && (m == 0 || exists id :: id in ids && NumberOf(prefix, id) == m)
  }

  ghost function MaxNumber(prefix: string, ids: set<string>): (m: nat)
    ensures IsMaxNumber(prefix, ids, m)
  {
    if ids == {} then 0
    else
      var id :| id in ids;
      var rest := MaxNumber(prefix, ids - {id});
      var n := NumberOf(prefix, id);
      assert ids == (ids - {id}) + {id};
      if n > rest then n else rest
  }

  lemma MaxNumberUnique(prefix: string, ids: set<string>, m: nat)
    requires IsMaxNumber(prefix, ids, m)
    ensures m == MaxNumber(prefix, ids)
  {
  }

  /** One more than the largest number in use, formatted. */
  ghost function NextId(prefix: string, ids: set<string>): string {
    FormatId(prefix, MaxNumber(prefix, ids) + 1)
  }

  /** The next id is not in use and numbers above everything in use. */
  lemma NextIdFresh(prefix: string, ids: set<string>)
    ensures NextId(prefix, ids) !in ids
    ensures NumberOf(prefix, NextId(prefix, ids)) == MaxNumber(prefix, ids) + 1
    ensures forall id :: id in ids ==> NumberOf(prefix, id) < NumberOf(prefix, NextId(prefix, ids))
  {
    ParseFormat(prefix, MaxNumber(prefix, ids) + 1);
  }

  /** `LedgerIdFormat.next` over the ids of one directory. */
  method NextProjectId(prefix: string, ids: set<string>) returns (id: string)
    ensures id == NextId(prefix, ids)
    ensures id !in ids
  {
    var rest := ids;
    var highest := 0;
    while rest != {}
      invariant rest <= ids
      invariant IsMaxNumber(prefix, ids - rest, highest)
      decreases rest
    {
      var item :| item in rest;
      var number := NumberOf(prefix, item);
      ghost var seen := ids - rest;
      rest := rest - {item};
      assert ids - rest == seen + {item};
      if number > highest {
        highest := number;
      }
    }
    assert ids - rest == ids;
    MaxNumberUnique(prefix, ids, highest);
    NextIdFresh(prefix, ids);
    id := FormatId(prefix, highest + 1);
  }

  // ---- the ledger allocator ----

  /** The number the ledger hands out next: the configured one, unless the ids in use are ahead of it. */
  ghost function NextTaskNumber(existing: set<string>, configNext: nat): (n: nat)
    ensures n >= configNext
    ensures forall id :: id in existing ==> NumberOf(TASK, id) < n
  {
    var above := MaxNumber(TASK, existing) + 1;
    if configNext > above then configNext else above
  }

  /** It is the least number that is at or above the configured one and above every number in use. */
  lemma NextTaskNumberLeast(existing: set<string>, configNext: nat)
    ensures var n := NextTaskNumber(existing, configNext);
      n == configNext || n == 1 || exists id :: id in existing && NumberOf(TASK, id) + 1 == n
  {
  }

  /** An allocated id is new, and the advanced counter is above it and above every id in use. */
  method AllocateLedgerTaskId(existing: seq<string>, configNext: nat) returns (id: string, next: nat)
    ensures id == FormatId(TASK, NextTaskNumber(Elements(existing), configNext))
    ensures next == NextTaskNumber(Elements(existing), configNext) + 1
    ensures configNext < next && NumberOf(TASK, id) < next
    ensures forall other :: other in existing ==> NumberOf(TASK, other) < NumberOf(TASK, id)
    ensures id !in existing
  {
    var maxExisting := 0;
    for i := 0 to |existing|
      invariant IsMaxNumber(TASK, Elements(existing[..i]), maxExisting)
    {
      var item := existing[i];
      assert existing[..i + 1] == existing[..i] + [item];
      ElementsAppend(existing[..i], item);
      var number := NumberOf(TASK, item);
      if number > maxExisting {
        maxExisting := number;
      }
    }
    assert existing[..|existing|] == existing;
    MaxNumberUnique(TASK, Elements(existing), maxExisting);
    var number := if configNext > maxExisting + 1 then configNext else maxExisting + 1;
    ParseFormat(TASK, number);
    id := FormatId(TASK, number);
    next := number + 1;
  }
}
