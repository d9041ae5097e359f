/**
 * The few JavaScript string operations the handlers rely on:
 * `String.prototype.includes`, `startsWith` (Dafny's prefix test `<=`),
 * `split`, `trim`, and the decimal rendering of a number inside a
 * template literal (`${i}`).
 */
module Strings {

  // ---------------------------------------------------------------------
  // includes
  // ---------------------------------------------------------------------

  /** `s.includes(part)`: `part` occurs in `s` at some offset. */
  predicate Contains(s: string, part: string)
    decreases |s|
  {
    part <= s || (s != [] && Contains(s[1..], part))
  }

  /** `part` sits in `s` at offset `i`. */
  predicate OccursAt(s: string, part: string, i: int) {
    0 <= i && i + |part| <= |s| && s[i..i + |part|] == part
  }

  /** The recursive definition agrees with "there is an offset where `part` sits". */
  lemma {:induction false} ContainsIffOccursAt(s: string, part: string)
    ensures Contains(s, part) <==> exists i :: OccursAt(s, part, i)
    decreases |s|
  {
    if s != [] {
      ContainsIffOccursAt(s[1..], part);
    }
    if Contains(s, part) {
      if part <= s {
        assert OccursAt(s, part, 0);
      } else {
        var i :| OccursAt(s[1..], part, i);
        assert s[i + 1..i + 1 + |part|] == s[1..][i..i + |part|];
        assert OccursAt(s, part, i + 1);
      }
    }
    if exists i :: OccursAt(s, part, i) {
      var i :| OccursAt(s, part, i);
      if i > 0 {
        assert s[i..i + |part|] == s[1..][i - 1..i - 1 + |part|];
        assert OccursAt(s[1..], part, i - 1);
      }
    }
  }

  // ---------------------------------------------------------------------
  // decimal rendering of a non-negative integer
  // ---------------------------------------------------------------------

  predicate IsDigit(c: char) {
    '0' <= c <= '9'
  }

  function DigitChar(d: nat): (c: char)
    requires d < 10
    ensures IsDigit(c) && c as int - '0' as int == d
  {
    (d + '0' as int) as char
  }

  function DigitValue(c: char): (d: nat)
    requires IsDigit(c)
    ensures d < 10
  {
    c as int - '0' as int
  }

  /** `${n}` for a non-negative integer: its shortest decimal representation. */
  function NatToString(n: nat): (s: string)
    ensures |s| >= 1
    ensures forall i :: 0 <= i < |s| ==> IsDigit(s[i])
    ensures |s| == 1 <==> n < 10
    decreases n
  {
    if n < 10 then [DigitChar(n)] else NatToString(n / 10) + [DigitChar(n % 10)]
  }

  /** Reads a string of digits back as a number. */
  function DecimalValue(s: string): nat
    requires forall i :: 0 <= i < |s| ==> IsDigit(s[i])
    decreases |s|
  {
    if s == [] then 0 else 10 * DecimalValue(s[..|s| - 1]) + DigitValue(s[|s| - 1])
  }

  /** Reading back the rendering of `n` gives `n`. */
  lemma {:induction false} DecimalRoundTrip(n: nat)
    ensures DecimalValue(NatToString(n)) == n
    decreases n
  {
    if n >= 10 {
      var s := NatToString(n);
      assert s[..|s| - 1] == NatToString(n / 10);
      DecimalRoundTrip(n / 10);
    }
  }

  /** Distinct numbers render as distinct strings. */
  lemma NatToStringInjective(a: nat, b: nat)
    ensures NatToString(a) == NatToString(b) ==> a == b
  {
    DecimalRoundTrip(a);
    DecimalRoundTrip(b);
  }

  // ---------------------------------------------------------------------
  // split and join on one separator character
  // ---------------------------------------------------------------------

  /** `s.split(sep)`: the pieces between separators, in order (at least one). */
  function Split(s: string, sep: char): (parts: seq<string>)
    ensures |parts| >= 1
    ensures forall i :: 0 <= i < |parts| ==> sep !in parts[i]
    decreases |s|
  {
    if s == [] then [""]
    else
      var rest := Split(s[1..], sep);
      if s[0] == sep then [""] + rest
      else [[s[0]] + rest[0]] + rest[1..]
  }

  /** `parts.join(sep)`. */
  function Join(parts: seq<string>, sep: char): string
    requires |parts| >= 1
    decreases |parts|
  {
    if |parts| == 1 then parts[0] else parts[0] + [sep] + Join(parts[1..], sep)
  }

  /** Splitting loses nothing: joining the pieces with the separator restores the string. */
  lemma {:induction false} JoinSplit(s: string, sep: char)
    ensures Join(Split(s, sep), sep) == s
    decreases |s|
  {
    if s != [] {
      var rest := Split(s[1..], sep);
      JoinSplit(s[1..], sep);
      if s[0] == sep {
        assert Split(s, sep)[1..] == rest;
      } else if |rest| == 1 {
        assert Join(Split(s, sep), sep) == [s[0]] + rest[0];
      } else {
        var parts := Split(s, sep);
        assert parts[1..] == rest[1..];
        assert Join(rest, sep) == rest[0] + [sep] + Join(rest[1..], sep);
      }
    }
  }

  /** A separator-free head splits off as the first piece. */
  lemma {:induction false} SplitAfterHead(head: string, sep: char, tail: string)
    requires sep !in head
    ensures Split(head + [sep] + tail, sep) == [head] + Split(tail, sep)
    decreases |head|
  {
    if head == [] {
      assert head + [sep] + tail == [sep] + tail;
      assert ([sep] + tail)[1..] == tail;
    } else {
      assert (head + [sep] + tail)[1..] == head[1..] + [sep] + tail;
      SplitAfterHead(head[1..], sep, tail);
      assert [head[0]] + head[1..] == head;
    }
  }

  // ---------------------------------------------------------------------
  // trim
  // ---------------------------------------------------------------------

  /** The characters `String.prototype.trim` removes: white space and line terminators. */
  predicate IsJsWhitespace(c: char) {
    || c == '\t' || c == '\n' || c == '\U{B}' || c == '\U{C}' || c == '\r' || c == ' '
    || c == '\U{A0}' || c == '\U{1680}' || '\U{2000}' <= c <= '\U{200A}'
    || c == '\U{2028}' || c == '\U{2029}' || c == '\U{202F}' || c == '\U{205F}'
    || c == '\U{3000}' || c == '\U{FEFF}'
  }

  /** Every character of `s` is white space (vacuously so for ""). */
  predicate Blank(s: string) {
    forall i :: 0 <= i < |s| ==> IsJsWhitespace(s[i])
  }

  function TrimStart(s: string): (r: string)
    ensures |r| <= |s| && r == s[|s| - |r|..]
    ensures Blank(s[..|s| - |r|])
    ensures r != [] ==> !IsJsWhitespace(r[0])
    decreases |s|
  {
    if s != [] && IsJsWhitespace(s[0]) then TrimStart(s[1..]) else s
  }

  function TrimEnd(s: string): (r: string)
    ensures |r| <= |s| && r == s[..|r|]
    ensures Blank(s[|r|..])
    ensures r != [] ==> !IsJsWhitespace(r[|r| - 1])
    decreases |s|
  {
    if s != [] && IsJsWhitespace(s[|s| - 1]) then TrimEnd(s[..|s| - 1]) else s
  }

  /** `s.trim()`. */
  function Trim(s: string): string {
    TrimEnd(TrimStart(s))
  }

  /** `!s.trim()` holds exactly when `s` consists of white space only. */
  lemma {:induction false} TrimEmptyIffBlank(s: string)
    ensures Trim(s) == "" <==> Blank(s)
    decreases |s|
  {
    if s != [] && IsJsWhitespace(s[0]) {
      TrimEmptyIffBlank(s[1..]);
      if Blank(s[1..]) {
        forall i | 0 <= i < |s| ensures IsJsWhitespace(s[i]) {
          if i > 0 { assert s[i] == s[1..][i - 1]; }
        }
      } else {
        var i :| 0 <= i < |s[1..]| && !IsJsWhitespace(s[1..][i]);
        assert !IsJsWhitespace(s[i + 1]);
      }
    } else if s != [] {
      // TrimStart(s) == s starts with a non-blank character, which TrimEnd keeps
      var t := TrimEnd(s);
      if t == "" {
        TrimEndEmptyOnlyIfBlank(s);
      }
    }
  }

  /** TrimEnd removes only white space. */
  lemma {:induction false} TrimEndEmptyOnlyIfBlank(s: string)
    requires TrimEnd(s) == ""
    ensures Blank(s)
    decreases |s|
  {
    if s != [] {
      TrimEndEmptyOnlyIfBlank(s[..|s| - 1]);
      forall i | 0 <= i < |s| ensures IsJsWhitespace(s[i]) {
        if i < |s| - 1 { assert s[i] == s[..|s| - 1][i]; }
      }
    }
  }
}
