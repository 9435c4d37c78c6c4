// Byte strings and UTF-8, as section 3 of RFC 3629 defines it.

module Utf8 {

  type Byte = x: int | 0 <= x < 256
  type Bytes = seq<Byte>

  /** An ASCII literal as bytes. */
  function Ascii(s: string): (b: Bytes)
    requires forall i :: 0 <= i < |s| ==> s[i] < 128 as char
    ensures |b| == |s| && forall i :: 0 <= i < |s| ==> b[i] == s[i] as int && b[i] < 128
  {
    seq(|s|, i requires 0 <= i < |s| => s[i] as int as Byte)
  }

  /** A continuation byte, which no encoded character starts with. */
  predicate Continues(b: Byte) {
    0x80 <= b <= 0xBF
  }

  predicate RuneStart(b: Byte) {
    !Continues(b)
  }

  /** How many bytes the character at the front takes, or 0 if there is none well formed. */
  function RuneLength(s: Bytes): (n: nat)
    ensures n <= |s| && n <= 4
  {
    if |s| == 0 then 0
    else if s[0] < 0x80 then 1
    else if 0xC2 <= s[0] <= 0xDF then
      if |s| >= 2 && Continues(s[1]) then 2 else 0
    else if 0xE0 <= s[0] <= 0xEF then
      if |s| >= 3
        && (if s[0] == 0xE0 then 0xA0 else 0x80) <= s[1] <= (if s[0] == 0xED then 0x9F else 0xBF)
        && Continues(s[2]) then 3 else 0
    else if 0xF0 <= s[0] <= 0xF4 then
      if |s| >= 4
        && (if s[0] == 0xF0 then 0x90 else 0x80) <= s[1] <= (if s[0] == 0xF4 then 0x8F else 0xBF)
        && Continues(s[2]) && Continues(s[3]) then 4 else 0
    else 0
  }

  predicate Valid(s: Bytes)
    decreases |s|
  {
    |s| == 0 || (RuneLength(s) > 0 && Valid(s[RuneLength(s)..]))
  }

  /** U+FFFD */
  const REPLACEMENT: Bytes := [0xEF, 0xBF, 0xBD]

  /** strings.ToValidUTF8: each run of bytes that are not UTF-8 becomes one replacement character. */
  function ToValid(s: Bytes, inRun: bool): Bytes
    decreases |s|
  {
    if |s| == 0 then []
    else if RuneLength(s) == 0 then (if inRun then [] else REPLACEMENT) + ToValid(s[1..], true)
    else s[..RuneLength(s)] + ToValid(s[RuneLength(s)..], false)
  }

  /** What follows a character does not change it. */
  lemma RuneKeepsLength(s: Bytes, t: Bytes)
    requires RuneLength(s) > 0
    ensures RuneLength(s[..RuneLength(s)] + t) == RuneLength(s)
    ensures RuneLength(s + t) == RuneLength(s)
  {
  }

  lemma RuneThenValid(s: Bytes, n: nat)
    requires n > 0 && RuneLength(s) == n && Valid(s[n..])
    ensures Valid(s)
  {
  }

  lemma RuneJoins(a: Bytes, b: Bytes, rest: Bytes, joined: Bytes)
    requires RuneLength(a) > 0 && rest == a[RuneLength(a)..] && joined == rest + b && Valid(joined)
    ensures Valid(a + b)
  {
    RuneKeepsLength(a, b);
    assert (a + b)[RuneLength(a)..] == joined;
    RuneThenValid(a + b, RuneLength(a));
  }

  lemma {:induction false} ValidJoins(a: Bytes, b: Bytes)
    requires Valid(a) && Valid(b)
    ensures Valid(a + b)
    decreases |a|
  {
    if |a| == 0 {
      assert a + b == b;
    } else {
      var rest := a[RuneLength(a)..];
      ValidJoins(rest, b);
      RuneJoins(a, b, rest, rest + b);
    }
  }

  lemma RuneIsValid(s: Bytes)
    requires RuneLength(s) > 0
    ensures Valid(s[..RuneLength(s)])
  {
    RuneKeepsLength(s, []);
    assert s[..RuneLength(s)] + [] == s[..RuneLength(s)];
  }

  lemma ReplacementIsValid()
    ensures Valid(REPLACEMENT)
  {
    assert RuneLength(REPLACEMENT) == 3;
  }

  lemma {:induction false} AsciiIsValid(s: Bytes)
    requires forall i :: 0 <= i < |s| ==> s[i] < 0x80
    ensures Valid(s)
    decreases |s|
  {
    if |s| > 0 {
      AsciiIsValid(s[1..]);
    }
  }

  lemma {:induction false} ToValidIsValid(s: Bytes, inRun: bool)
    ensures Valid(ToValid(s, inRun))
    decreases |s|
  {
    if |s| > 0 {
      var n := RuneLength(s);
      if n == 0 {
        ToValidIsValid(s[1..], true);
        if !inRun {
          ReplacementIsValid();
          ValidJoins(REPLACEMENT, ToValid(s[1..], true));
        } else {
          assert [] + ToValid(s[1..], true) == ToValid(s[1..], true);
        }
      } else {
        ToValidIsValid(s[n..], false);
        RuneIsValid(s);
        ValidJoins(s[..n], ToValid(s[n..], false));
      }
    }
  }

  lemma {:induction false} ValidIsKept(s: Bytes, inRun: bool)
    requires Valid(s)
    ensures ToValid(s, inRun) == s
    decreases |s|
  {
    if |s| > 0 {
      ValidIsKept(s[RuneLength(s)..], false);
    }
  }

  lemma NoCutInside(s: Bytes, end: nat)
    requires 0 < end < |s| && RuneStart(s[end]) && RuneLength(s) > 0
    ensures RuneLength(s) <= end
  {
  }

  lemma CutAfterRune(s: Bytes, n: nat, end: nat)
    requires n < end < |s| && RuneStart(s[end])
    ensures RuneStart(s[n..][end - n]) && s[..end] == s[..n] + s[n..][..end - n]
  {
  }

  /** UTF-8 cut where a character starts is UTF-8. */
  lemma {:induction false} CutIsValid(s: Bytes, end: nat)
    requires Valid(s) && end < |s| && (end == 0 || RuneStart(s[end]))
    ensures Valid(s[..end])
    decreases |s|
  {
    if end > 0 {
      var n := RuneLength(s);
      NoCutInside(s, end);
      RuneIsValid(s);
      if end > n {
        CutAfterRune(s, n, end);
        CutIsValid(s[n..], end - n);
        ValidJoins(s[..n], s[n..][..end - n]);
      }
    }
  }
}
