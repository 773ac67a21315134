/**
 Cutting a text to a number of bytes: encode it as UTF-8, cut the bytes, decode what is left and
 ignore what no longer decodes. Sections 3 and 4 of RFC 3629.
 */
module Utf8 {
  import opened Common

  /** A code point as a Python string holds it; surrogates cannot be encoded. */
  type CodePoint = c: int | 0 <= c < 0x11_0000

  type Byte = b: int | 0 <= b < 256

  predicate IsSurrogate(c: CodePoint) {
    0xD800 <= c < 0xE000
  }

  function EncodeOne(c: CodePoint): (bytes: seq<Byte>)
    ensures 1 <= |bytes| <= 4
  {
    if c < 0x80 then [c]
    else if c < 0x800 then [0xC0 + c / 64, 0x80 + c % 64]
    else if c < 0x1_0000 then [0xE0 + c / 4096, 0x80 + c / 64 % 64, 0x80 + c % 64]
    else [0xF0 + c / 262144, 0x80 + c / 4096 % 64, 0x80 + c / 64 % 64, 0x80 + c % 64]
  }

  function Encode(s: seq<CodePoint>): seq<Byte> {
    if s == [] then [] else Encode(s[..|s| - 1]) + EncodeOne(s[|s| - 1])
  }

  predicate IsTail(b: Byte) {
    0x80 <= b <= 0xBF
  }

  /** How many bytes a sequence that starts with this byte has; 0 if none does. */
  function LengthFrom(lead: Byte): nat {
    if lead < 0x80 then 1
    else if 0xC2 <= lead <= 0xDF then 2
    else if 0xE0 <= lead <= 0xEF then 3
    else if 0xF0 <= lead <= 0xF4 then 4
    else 0
  }

  /** The second byte is restricted after some leads: no overlong forms, no surrogates, nothing too large. */
  predicate SecondFits(lead: Byte, second: Byte) {
    && IsTail(second)
    && (lead == 0xE0 ==> second >= 0xA0)
    && (lead == 0xED ==> second <= 0x9F)
    && (lead == 0xF0 ==> second >= 0x90)
    && (lead == 0xF4 ==> second <= 0x8F)
  }

  predicate StartsSequence(bytes: seq<Byte>) {
    && bytes != [] && LengthFrom(bytes[0]) != 0 && LengthFrom(bytes[0]) <= |bytes|
    && (LengthFrom(bytes[0]) > 1 ==> SecondFits(bytes[0], bytes[1]))
    && (LengthFrom(bytes[0]) > 2 ==> IsTail(bytes[2]))
    && (LengthFrom(bytes[0]) > 3 ==> IsTail(bytes[3]))
  }

  function Bits(b: Byte, mark: int): int {
    (b as int) - mark
  }

  function FirstCodePoint(bytes: seq<Byte>): CodePoint
    requires StartsSequence(bytes)
  {
    var n := LengthFrom(bytes[0]);
    if n == 1 then bytes[0]
    else if n == 2 then Bits(bytes[0], 0xC0) * 64 + Bits(bytes[1], 0x80)
    else if n == 3 then Bits(bytes[0], 0xE0) * 4096 + Bits(bytes[1], 0x80) * 64 + Bits(bytes[2], 0x80)
    else Bits(bytes[0], 0xF0) * 262144 + Bits(bytes[1], 0x80) * 4096 + Bits(bytes[2], 0x80) * 64 + Bits(bytes[3], 0x80)
  }

  /** Decoding with errors ignored: what starts no sequence is passed over. */
  function DecodeIgnore(bytes: seq<Byte>): seq<CodePoint> {
    if bytes == [] then []
    else if StartsSequence(bytes) then [FirstCodePoint(bytes)] + DecodeIgnore(bytes[LengthFrom(bytes[0])..])
    else DecodeIgnore(bytes[1..])
  }

  function Truncate(s: seq<CodePoint>, maxBytes: Option<nat>): Result<seq<CodePoint>, string> {
    if maxBytes.None? then Success(s)
    else if exists i :: 0 <= i < |s| && IsSurrogate(s[i]) then Failure("surrogates not allowed")
    else
      var encoded := Encode(s);
      if |encoded| <= maxBytes.value then Success(s) else Success(DecodeIgnore(encoded[..maxBytes.value]))
  }

  // ---- one code point ----

  lemma ShortRoundTrip(c: CodePoint)
    requires c < 0x800
    ensures StartsSequence(EncodeOne(c)) && LengthFrom(EncodeOne(c)[0]) == |EncodeOne(c)|
        && FirstCodePoint(EncodeOne(c)) == c
  {
  }

  lemma ThreeRoundTrip(c: CodePoint)
    requires 0x800 <= c < 0x1_0000 && !IsSurrogate(c)
    ensures StartsSequence(EncodeOne(c)) && LengthFrom(EncodeOne(c)[0]) == |EncodeOne(c)|
        && FirstCodePoint(EncodeOne(c)) == c
  {
    var high, low := c / 64, c % 64;
    assert c == high * 64 + low && c / 4096 == high / 64;
    assert high == high / 64 * 64 + high % 64;
  }

  lemma FourRoundTrip(c: CodePoint)
    requires 0x1_0000 <= c
    ensures StartsSequence(EncodeOne(c)) && LengthFrom(EncodeOne(c)[0]) == |EncodeOne(c)|
        && FirstCodePoint(EncodeOne(c)) == c
  {
    var high, low := c / 64, c % 64;
    assert c == high * 64 + low && c / 4096 == high / 64 && c / 262144 == high / 64 / 64;
    assert high == high / 64 * 64 + high % 64;
    assert high / 64 == high / 64 / 64 * 64 + high / 64 % 64;
  }

  /** The bytes of a code point decode to it, whatever follows. */
  lemma OneRoundTrip(c: CodePoint, rest: seq<Byte>)
    requires !IsSurrogate(c)
    ensures var bytes := EncodeOne(c) + rest;
      StartsSequence(bytes) && LengthFrom(bytes[0]) == |EncodeOne(c)| && FirstCodePoint(bytes) == c
  {
    if c < 0x800 {
      ShortRoundTrip(c);
    } else if c < 0x1_0000 {
      ThreeRoundTrip(c);
    } else {
      FourRoundTrip(c);
    }
    var one, bytes := EncodeOne(c), EncodeOne(c) + rest;
    assert forall i :: 0 <= i < |one| ==> bytes[i] == one[i];
  }

  lemma {:induction false} TailsIgnored(bytes: seq<Byte>)
    requires forall i :: 0 <= i < |bytes| ==> IsTail(bytes[i])
    ensures DecodeIgnore(bytes) == []
  {
    if bytes != [] {
      TailsIgnored(bytes[1..]);
    }
  }

  lemma TailsAfterLead(c: CodePoint)
    ensures forall i :: 1 <= i < |EncodeOne(c)| ==> IsTail(EncodeOne(c)[i])
    ensures !IsSurrogate(c) ==> LengthFrom(EncodeOne(c)[0]) == |EncodeOne(c)|
  {
  }

  /** Less than all the bytes of a code point decode to nothing. */
  lemma PartIgnored(c: CodePoint, k: nat)
    requires !IsSurrogate(c) && k < |EncodeOne(c)|
    ensures DecodeIgnore(EncodeOne(c)[..k]) == []
  {
    if k > 0 {
      TailsAfterLead(c);
      var part := EncodeOne(c)[..k];
      assert part[0] == EncodeOne(c)[0];
      TailsIgnored(part[1..]);
    }
  }

  // ---- texts ----

  predicate Encodable(s: seq<CodePoint>) {
    forall i :: 0 <= i < |s| ==> !IsSurrogate(s[i])
  }

  lemma DecodeStep(c: CodePoint, rest: seq<Byte>)
    requires !IsSurrogate(c)
    ensures DecodeIgnore(EncodeOne(c) + rest) == [c] + DecodeIgnore(rest)
  {
    OneRoundTrip(c, rest);
    assert (EncodeOne(c) + rest)[|EncodeOne(c)|..] == rest;
  }

  lemma Associates<T>(a: seq<T>, b: seq<T>, c: seq<T>)
    ensures (a + b) + c == a + (b + c)
  {
  }

  /** Whole code points decode to themselves, whatever bytes follow. */
  lemma {:induction false} DecodeAfter(s: seq<CodePoint>, rest: seq<Byte>)
    requires Encodable(s)
    ensures DecodeIgnore(Encode(s) + rest) == s + DecodeIgnore(rest)
  {
    if s == [] {
      assert Encode(s) + rest == rest;
      assert s + DecodeIgnore(rest) == DecodeIgnore(rest);
    } else {
      var before, last := s[..|s| - 1], s[|s| - 1];
      DecodeAfter(before, EncodeOne(last) + rest);
      DecodeStep(last, rest);
      Associates(Encode(before), EncodeOne(last), rest);
      Associates(before, [last], DecodeIgnore(rest));
      assert before + [last] == s;
    }
  }

  /** The longest prefix of `s` that takes at most `limit` bytes. */
  ghost predicate LongestFit(s: seq<CodePoint>, limit: nat, r: seq<CodePoint>) {
    r <= s && |Encode(r)| <= limit && forall n :: |r| < n <= |s| ==> |Encode(s[..n])| > limit
  }

  lemma EncodePrefix(s: seq<CodePoint>, n: nat)
    requires n < |s|
    ensures Encode(s[..n + 1]) == Encode(s[..n]) + EncodeOne(s[n])
  {
    assert s[..n + 1][..n] == s[..n];
  }

  lemma {:induction false} EncodeGrows(s: seq<CodePoint>, n: nat, m: nat)
    requires n <= m <= |s|
    ensures Encode(s[..n]) <= Encode(s[..m])
  {
    if n < m {
      EncodeGrows(s, n, m - 1);
      EncodePrefix(s, m - 1);
    }
  }

  lemma CutBytes(s: seq<CodePoint>, n: nat, limit: nat)
    requires n < |s| && |Encode(s[..n])| <= limit < |Encode(s[..n + 1])|
    ensures limit <= |Encode(s)| && limit - |Encode(s[..n])| < |EncodeOne(s[n])|
    ensures Encode(s)[..limit] == Encode(s[..n]) + EncodeOne(s[n])[..limit - |Encode(s[..n])|]
  {
    EncodePrefix(s, n);
    EncodeGrows(s, n + 1, |s|);
    assert s[..|s|] == s;
    assert Encode(s)[..limit] == Encode(s[..n + 1])[..limit];
  }

  /** Cutting between or inside code points: the whole ones before the cut survive, and nothing else. */
  lemma CutAt(s: seq<CodePoint>, n: nat, limit: nat)
    requires Encodable(s) && n < |s| && |Encode(s[..n])| <= limit < |Encode(s[..n + 1])|
    ensures limit <= |Encode(s)| && DecodeIgnore(Encode(s)[..limit]) == s[..n] && LongestFit(s, limit, s[..n])
    ensures limit - |Encode(s[..n])| <= 3
  {
    CutBytes(s, n, limit);
    var k := limit - |Encode(s[..n])|;
    DecodeAfter(s[..n], EncodeOne(s[n])[..k]);
    PartIgnored(s[n], k);
    forall m | n < m <= |s|
      ensures |Encode(s[..m])| > limit
    {
      EncodeGrows(s, n + 1, m);
    }
  }

  lemma {:induction false} CutExists(s: seq<CodePoint>, m: nat, limit: nat)
    requires m <= |s| && |Encode(s[..m])| > limit
    ensures exists n: nat :: n < m && |Encode(s[..n])| <= limit < |Encode(s[..n + 1])|
  {
    if |Encode(s[..m - 1])| > limit {
      CutExists(s, m - 1, limit);
    }
  }

  /**
   Truncation fails exactly on a text with surrogates; otherwise it gives the longest prefix of whole
   code points that fits the limit, and when it cuts it leaves at most three bytes unused.
   */
  lemma TruncateLongestPrefix(s: seq<CodePoint>, limit: nat)
    ensures Truncate(s, Some(limit)).Success? <==> Encodable(s)
    ensures Encodable(s) ==>
              var r := Truncate(s, Some(limit)).value;
              && LongestFit(s, limit, r)
              && (r != s ==> limit - |Encode(r)| <= 3)
              && (r == s <==> |Encode(s)| <= limit)
  {
    if Encodable(s) && |Encode(s)| > limit {
      assert s[..|s|] == s;
      CutExists(s, |s|, limit);
      var n: nat :| n < |s| && |Encode(s[..n])| <= limit < |Encode(s[..n + 1])|;
      CutAt(s, n, limit);
    }
  }

  /** Decoding undoes encoding, and without a limit nothing is cut. */
  lemma RoundTrip(s: seq<CodePoint>)
    requires Encodable(s)
    ensures DecodeIgnore(Encode(s)) == s
  {
    DecodeAfter(s, []);
    assert Encode(s) + [] == Encode(s);
  }

  // ---- the bytes themselves ----

  /** Four forms, by size of the code point: the bits of each byte put together give the code point. */
  lemma EncodedForm(c: CodePoint)
    ensures var bytes := EncodeOne(c);
      && |bytes| == (if c < 0x80 then 1 else if c < 0x800 then 2 else if c < 0x1_0000 then 3 else 4)
      && (forall i :: 1 <= i < |bytes| ==> 0x80 <= bytes[i] < 0xC0)
      && (|bytes| == 1 ==> bytes[0] as int == c)
      && (|bytes| == 2 ==> (bytes[0] as int - 0xC0) * 64 + (bytes[1] as int - 0x80) == c)
      && (|bytes| == 3 ==>
            (bytes[0] as int - 0xE0) * 4096 + (bytes[1] as int - 0x80) * 64 + (bytes[2] as int - 0x80) == c)
      && (|bytes| == 4 ==>
            (bytes[0] as int - 0xF0) * 262144 + (bytes[1] as int - 0x80) * 4096
            + (bytes[2] as int - 0x80) * 64 + (bytes[3] as int - 0x80) == c)
  {
    var high := c / 64;
    assert c / 4096 == high / 64 && c / 262144 == high / 64 / 64;
    assert high == high / 64 * 64 + high % 64;
    assert high / 64 == high / 64 / 64 * 64 + high / 64 % 64;
  }

  lemma TwoBytes(bytes: seq<Byte>)
    requires StartsSequence(bytes) && LengthFrom(bytes[0]) == 2
    ensures !IsSurrogate(FirstCodePoint(bytes)) && EncodeOne(FirstCodePoint(bytes)) == bytes[..2]
  {
  }

  lemma ThreeBytes(bytes: seq<Byte>)
    requires StartsSequence(bytes) && LengthFrom(bytes[0]) == 3
    ensures !IsSurrogate(FirstCodePoint(bytes)) && EncodeOne(FirstCodePoint(bytes)) == bytes[..3]
  {
    var a, b, c := Bits(bytes[0], 0xE0), Bits(bytes[1], 0x80), Bits(bytes[2], 0x80);
    assert FirstCodePoint(bytes) / 64 == a * 64 + b;
    assert FirstCodePoint(bytes) / 4096 == a;
  }

  lemma FourBytes(bytes: seq<Byte>)
    requires StartsSequence(bytes) && LengthFrom(bytes[0]) == 4
    ensures !IsSurrogate(FirstCodePoint(bytes)) && EncodeOne(FirstCodePoint(bytes)) == bytes[..4]
  {
    var a, b, c, d := Bits(bytes[0], 0xF0), Bits(bytes[1], 0x80), Bits(bytes[2], 0x80), Bits(bytes[3], 0x80);
    assert FirstCodePoint(bytes) / 64 == a * 4096 + b * 64 + c;
    assert FirstCodePoint(bytes) / 4096 == a * 64 + b;
    assert FirstCodePoint(bytes) / 262144 == a;
  }

  /** Bytes are decoded at a place exactly if the encoding of a code point stands there, and then to that code point. */
  lemma SequenceIff(bytes: seq<Byte>)
    ensures StartsSequence(bytes) <==> exists c: CodePoint :: !IsSurrogate(c) && EncodeOne(c) <= bytes
    ensures forall c: CodePoint :: !IsSurrogate(c) && EncodeOne(c) <= bytes ==>
              DecodeIgnore(bytes) == [c] + DecodeIgnore(bytes[|EncodeOne(c)|..])
  {
    forall c: CodePoint | !IsSurrogate(c) && EncodeOne(c) <= bytes
      ensures StartsSequence(bytes) && DecodeIgnore(bytes) == [c] + DecodeIgnore(bytes[|EncodeOne(c)|..])
    {
      var rest := bytes[|EncodeOne(c)|..];
      assert bytes == EncodeOne(c) + rest;
      OneRoundTrip(c, rest);
      DecodeStep(c, rest);
    }
    if StartsSequence(bytes) {
      var n := LengthFrom(bytes[0]);
      if n == 2 {
        TwoBytes(bytes);
      } else if n == 3 {
        ThreeBytes(bytes);
      } else if n == 4 {
        FourBytes(bytes);
      }
      assert EncodeOne(FirstCodePoint(bytes)) == bytes[..n];
    }
  }

  /** A byte at which no encoding begins is passed over. */
  lemma StrayByte(bytes: seq<Byte>)
    requires bytes != [] && forall c: CodePoint :: !IsSurrogate(c) ==> !(EncodeOne(c) <= bytes)
    ensures DecodeIgnore(bytes) == DecodeIgnore(bytes[1..])
  {
    SequenceIff(bytes);
  }
}
