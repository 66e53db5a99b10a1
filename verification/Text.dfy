/** The string operations the window grammar is written with, over ASCII text. */
module Text {

  /** The ASCII blanks: space, tab to carriage return, and the four separators. */
  predicate IsSpace(c: char) {
    c == ' ' || '\t' <= c <= '\r' || '\U{1C}' <= c <= '\U{1F}'
  }

  predicate IsDigit(c: char) { '0' <= c <= '9' }

  predicate IsAlpha(c: char) { 'a' <= c <= 'z' || 'A' <= c <= 'Z' }

  function LowerChar(c: char): char {
    if 'A' <= c <= 'Z' then (c as int + 32) as char else c
  }

  function Lower(s: string): (r: string)
    ensures |r| == |s| && forall i | 0 <= i < |s| :: r[i] == LowerChar(s[i])
  {
    seq(|s|, i requires 0 <= i < |s| => LowerChar(s[i]))
  }

  function LStrip(s: string): (r: string)
    ensures |r| <= |s|
  {
    if s != [] && IsSpace(s[0]) then LStrip(s[1..]) else s
  }

  function RStrip(s: string): string {
    if s != [] && IsSpace(s[|s| - 1]) then RStrip(s[..|s| - 1]) else s
  }

  function Strip(s: string): string { RStrip(LStrip(s)) }

  /** `str.replace` with one-character patterns. */
  function Replace(s: string, from: char, to: char): (r: string)
    ensures |r| == |s| && forall i | 0 <= i < |s| :: r[i] == if s[i] == from then to else s[i]
  {
    seq(|s|, i requires 0 <= i < |s| => if s[i] == from then to else s[i])
  }

  function RemoveSpaces(s: string): string {
    if s == [] then []
    else (if IsSpace(s[0]) then [] else [s[0]]) + RemoveSpaces(s[1..])
  }

  function SplitOn(s: string, c: char): (r: seq<string>)
    ensures r != []
  {
    if s == [] then [[]]
    else
      var rest := SplitOn(s[1..], c);
      if s[0] == c then [[]] + rest else [[s[0]] + rest[0]] + rest[1..]
  }

  function Join(sep: string, parts: seq<string>): string {
    if parts == [] then []
    else if |parts| == 1 then parts[0]
    else parts[0] + sep + Join(sep, parts[1..])
  }

  /** Index of the first digit, or the length when there is none. */
  function FirstDigit(s: string): (i: nat)
    ensures i <= |s|
    ensures i < |s| ==> IsDigit(s[i])
    ensures forall k | 0 <= k < i :: !IsDigit(s[k])
  {
    if s == [] || IsDigit(s[0]) then 0 else 1 + FirstDigit(s[1..])
  }

  predicate HasDigit(s: string) { exists i :: 0 <= i < |s| && IsDigit(s[i]) }

  /** Position of the first `c`, or the length when there is none. */
  function Find(s: string, c: char): (i: nat)
    ensures i <= |s|
    ensures i < |s| ==> s[i] == c
    ensures forall k | 0 <= k < i :: s[k] != c
  {
    if s == [] || s[0] == c then 0 else 1 + Find(s[1..], c)
  }

  // ----- laws ------------------------------------------------------------------

  lemma {:induction false} SplitConcat(a: string, b: string, c: char)
    ensures SplitOn(a + [c] + b, c) == SplitOn(a, c) + SplitOn(b, c)
  {
    var s := a + [c] + b;
    if a == [] {
      assert s[1..] == b;
    } else {
      assert s[1..] == a[1..] + [c] + b;
      SplitConcat(a[1..], b, c);
    }
  }

  lemma {:induction false} SplitNone(s: string, c: char)
    requires c !in s
    ensures SplitOn(s, c) == [s]
  {
    if s != [] {
      SplitNone(s[1..], c);
      assert [s[0]] + s[1..] == s;
    }
  }

  lemma {:induction false} StripNone(s: string)
    requires s == [] || (!IsSpace(s[0]) && !IsSpace(s[|s| - 1]))
    ensures LStrip(s) == s && RStrip(s) == s && Strip(s) == s
  {
  }

  /** One blank before a chunk disappears. */
  lemma StripLeadingBlank(s: string)
    ensures Strip(" " + s) == Strip(s)
  {
    assert (" " + s)[1..] == s;
  }

  lemma RStripBlank(s: string)
    requires s == [] || !IsSpace(s[|s| - 1])
    ensures RStrip(s + " ") == s
  {
    assert (s + " ")[..|s|] == s;
  }

  lemma {:induction false} RemoveNoSpaces(s: string)
    requires forall i | 0 <= i < |s| :: !IsSpace(s[i])
    ensures RemoveSpaces(s) == s
  {
    if s != [] {
      RemoveNoSpaces(s[1..]);
      assert s == [s[0]] + s[1..];
    }
  }

  lemma {:induction false} ReplaceAbsent(s: string, from: char, to: char)
    requires from !in s
    ensures Replace(s, from, to) == s
  {
  }

  /** The first digit is where a digit-free prefix stops. */
  lemma {:induction false} FirstDigitAfter(a: string, b: string)
    requires !HasDigit(a) && b != [] && IsDigit(b[0])
    ensures FirstDigit(a + b) == |a|
  {
    assert (a + b)[|a|] == b[0];
    assert forall k | 0 <= k < |a| :: (a + b)[k] == a[k];
  }

  lemma {:induction false} FindAfter(a: string, b: string, c: char)
    requires c !in a
    ensures Find(a + [c] + b, c) == |a|
  {
    var s := a + [c] + b;
    assert s[|a|] == c;
    assert forall k | 0 <= k < |a| :: s[k] == a[k];
  }

  lemma {:induction false} JoinCons(sep: string, first: string, rest: seq<string>)
    requires rest != []
    ensures Join(sep, [first] + rest) == first + sep + Join(sep, rest)
  {
    assert ([first] + rest)[1..] == rest;
  }
}
