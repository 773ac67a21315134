/** Result types and the small amount of string handling the other modules share. */
module Common {

  datatype Option<+T> = None | Some(value: T)

  datatype Result<+T, +E> = Success(value: T) | Failure(error: E)

  /** Python truthiness of an optional string: present and not empty. */
  predicate Truthy(o: Option<string>) {
    o.Some? && o.value != ""
  }

  /** The set of elements of a sequence. */
  function Elements<T>(s: seq<T>): set<T> {
    set x | x in s
  }

  lemma ElementsAppend<T>(s: seq<T>, x: T)
    ensures Elements(s + [x]) == Elements(s) + {x}
  {
  }

  /** No element occurs twice. */
  ghost predicate NoDuplicates<T>(s: seq<T>) {
    forall i, j :: 0 <= i < j < |s| ==> s[i] != s[j]
  }

  /** The elements of `s` that are in `keep`, in order. */
  function Restrict<T(==)>(s: seq<T>, keep: set<T>): seq<T> {
    if s == [] then []
    else if s[|s| - 1] in keep then Restrict(s[..|s| - 1], keep) + [s[|s| - 1]]
    else Restrict(s[..|s| - 1], keep)
  }

  lemma RestrictAppend<T>(s: seq<T>, x: T, keep: set<T>)
    ensures Restrict(s + [x], keep) == if x in keep then Restrict(s, keep) + [x] else Restrict(s, keep)
  {
    assert (s + [x])[..|s + [x]| - 1] == s;
  }

  /** Restriction only looks at the elements that occur. */
  lemma {:induction false} RestrictAgrees<T>(s: seq<T>, a: set<T>, b: set<T>)
    requires forall x :: x in s ==> (x in a <==> x in b)
    ensures Restrict(s, a) == Restrict(s, b)
  {
    if s != [] {
      RestrictAgrees(s[..|s| - 1], a, b);
    }
  }
}

/** Statements about every point of a sequence of steps. */
module Steps {

  ghost predicate AtEveryPoint<T(!new)>(steps: seq<T>, holds: seq<T> -> bool) {
    forall i :: 0 <= i <= |steps| ==> holds(steps[..i])
  }

  /** Of the steps before and the next one. */
  ghost predicate AtEveryStep<T(!new)>(steps: seq<T>, holds: (seq<T>, T) -> bool) {
    forall i :: 0 <= i < |steps| ==> holds(steps[..i], steps[i])
  }

  lemma PointsAppend<T(!new)>(steps: seq<T>, holds: seq<T> -> bool)
    requires steps != []
    ensures AtEveryPoint(steps, holds) <==> AtEveryPoint(steps[..|steps| - 1], holds) && holds(steps)
  {
    var before := steps[..|steps| - 1];
    assert steps[..|steps|] == steps;
    assert forall i :: 0 <= i <= |before| ==> before[..i] == steps[..i];
  }

  lemma StepsAppend<T(!new)>(steps: seq<T>, holds: (seq<T>, T) -> bool)
    requires steps != []
    ensures AtEveryStep(steps, holds)
            <==> AtEveryStep(steps[..|steps| - 1], holds) && holds(steps[..|steps| - 1], steps[|steps| - 1])
  {
    var before := steps[..|steps| - 1];
    assert forall i :: 0 <= i < |before| ==> before[..i] == steps[..i] && before[i] == steps[i];
    if AtEveryStep(steps, holds) {
      forall i | 0 <= i < |before|
        ensures holds(before[..i], before[i])
      {
        assert holds(steps[..i], steps[i]);
      }
    }
    if AtEveryStep(before, holds) && holds(before, steps[|steps| - 1]) {
      forall i | 0 <= i < |steps|
        ensures holds(steps[..i], steps[i])
      {
        assert i < |before| ==> holds(before[..i], before[i]);
      }
    }
  }
}

/** The part of Python's string handling that decides anything here. */
module Text {

  /** The characters `str.isspace` accepts, which `strip` and `split` remove. */
  predicate IsSpace(c: char) {
    var n := c as int;
    || 0x09 <= n <= 0x0D || 0x1C <= n <= 0x20 || n == 0x85 || n == 0xA0 || n == 0x1680
    || 0x2000 <= n <= 0x200A || n == 0x2028 || n == 0x2029 || n == 0x202F || n == 0x205F || n == 0x3000
  }

  function StripLeft(s: string): string {
    if s != [] && IsSpace(s[0]) then StripLeft(s[1..]) else s
  }

  function StripRight(s: string): string {
    if s != [] && IsSpace(s[|s| - 1]) then StripRight(s[..|s| - 1]) else s
  }

  function Strip(s: string): string {
    StripRight(StripLeft(s))
  }

  predicate StartsWith(s: string, prefix: string) {
    |prefix| <= |s| && s[..|prefix|] == prefix
  }

  /** Substring test: `needle in hay`. */
  predicate Contains(hay: string, needle: string) {
    StartsWith(hay, needle) || (hay != [] && Contains(hay[1..], needle))
  }

  // ---- what they come to ----

  ghost predicate Spaces(s: string) {
    forall i :: 0 <= i < |s| ==> IsSpace(s[i])
  }

  /** No white space at either end. */
  predicate Trimmed(s: string) {
    s != [] ==> !IsSpace(s[0]) && !IsSpace(s[|s| - 1])
  }

  lemma {:induction false} StripLeftIs(s: string)
    ensures |StripLeft(s)| <= |s| && s[|s| - |StripLeft(s)|..] == StripLeft(s)
    ensures Spaces(s[..|s| - |StripLeft(s)|])
    ensures StripLeft(s) != [] ==> !IsSpace(StripLeft(s)[0])
  {
    if s != [] && IsSpace(s[0]) {
      StripLeftIs(s[1..]);
      assert s[..|s| - |StripLeft(s)|] == [s[0]] + s[1..][..|s| - 1 - |StripLeft(s)|];
    }
  }

  lemma {:induction false} StripRightIs(s: string)
    ensures |StripRight(s)| <= |s| && s[..|StripRight(s)|] == StripRight(s)
    ensures Spaces(s[|StripRight(s)|..])
    ensures StripRight(s) != [] ==> !IsSpace(StripRight(s)[|StripRight(s)| - 1]) && StripRight(s)[0] == s[0]
  {
    if s != [] && IsSpace(s[|s| - 1]) {
      StripRightIs(s[..|s| - 1]);
      assert s[|StripRight(s)|..] == s[..|s| - 1][|StripRight(s)|..] + [s[|s| - 1]];
    }
  }

  /** Stripping takes off white space at both ends and all there is. */
  lemma StripIs(s: string)
    ensures Trimmed(Strip(s))
    ensures exists a, b :: Spaces(a) && Spaces(b) && s == a + Strip(s) + b
  {
    StripLeftIs(s);
    StripRightIs(StripLeft(s));
    var a, b := s[..|s| - |StripLeft(s)|], StripLeft(s)[|Strip(s)|..];
    assert s == a + Strip(s) + b;
  }

  /** The substring test finds a place. */
  lemma {:induction false} ContainsIff(hay: string, needle: string)
    ensures Contains(hay, needle) <==> exists i :: 0 <= i <= |hay| && StartsWith(hay[i..], needle)
  {
    if StartsWith(hay, needle) {
      assert hay[0..] == hay;
    } else if hay != [] {
      ContainsIff(hay[1..], needle);
      if i :| 0 <= i <= |hay[1..]| && StartsWith(hay[1..][i..], needle) {
        assert hay[1..][i..] == hay[i + 1..];
      }
      if i :| 0 <= i <= |hay| && StartsWith(hay[i..], needle) {
        assert hay[0..] == hay;
        assert hay[1..][i - 1..] == hay[i..];
      }
    } else {
      assert forall i :: 0 <= i <= |hay| ==> hay[i..] == hay;
    }
  }

  // ---- words ----

  function FirstWord(s: string): (w: string)
    ensures |w| <= |s| && s[..|w|] == w && (s != [] && !IsSpace(s[0]) ==> w != [])
  {
    if s == [] || IsSpace(s[0]) then [] else [s[0]] + FirstWord(s[1..])
  }

  /** The longest stretches without white space, in order. */
  function Words(s: string): seq<string> {
    if s == [] then []
    else if IsSpace(s[0]) then Words(s[1..])
    else [FirstWord(s)] + Words(s[|FirstWord(s)|..])
  }

  function JoinWords(words: seq<string>): string {
    if words == [] then "" else if |words| == 1 then words[0] else words[0] + " " + JoinWords(words[1..])
  }

  lemma {:induction false} FirstWordIs(s: string)
    ensures forall i :: 0 <= i < |FirstWord(s)| ==> !IsSpace(s[i])
    ensures |FirstWord(s)| < |s| ==> IsSpace(s[|FirstWord(s)|])
  {
    if s != [] && !IsSpace(s[0]) {
      FirstWordIs(s[1..]);
    }
  }

  lemma {:induction false} WordsAfterSpaces(a: string, s: string)
    requires Spaces(a)
    ensures Words(a + s) == Words(s)
  {
    if a == [] {
      assert a + s == s;
    } else {
      WordsAfterSpaces(a[1..], s);
      assert (a + s)[1..] == a[1..] + s;
    }
  }

  lemma {:induction false} FirstWordBefore(s: string, b: string)
    requires Spaces(b)
    ensures FirstWord(s + b) == FirstWord(s)
  {
    if s == [] {
      assert s + b == b;
    } else if !IsSpace(s[0]) {
      FirstWordBefore(s[1..], b);
      assert (s + b)[1..] == s[1..] + b;
    }
  }

  lemma {:induction false} WordsBeforeSpaces(s: string, b: string)
    requires Spaces(b)
    ensures Words(s + b) == Words(s)
    decreases |s|
  {
    if s == [] {
      WordsAfterSpaces(b, []);
      assert s + b == b + [];
    } else if IsSpace(s[0]) {
      WordsBeforeSpaces(s[1..], b);
      assert (s + b)[1..] == s[1..] + b;
    } else {
      FirstWordBefore(s, b);
      var w := FirstWord(s);
      WordsBeforeSpaces(s[|w|..], b);
      assert (s + b)[|w|..] == s[|w|..] + b;
    }
  }

  lemma StripKeepsWords(s: string)
    ensures Words(Strip(s)) == Words(s)
  {
    StripIs(s);
    var a, b :| Spaces(a) && Spaces(b) && s == a + Strip(s) + b;
    WordsBeforeSpaces(a + Strip(s), b);
    WordsAfterSpaces(a, Strip(s));
  }
}
