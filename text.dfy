/** The handful of Python `str` and `int` operations the core relies on:
    decimal formatting (`str(n)`, `f"{n:02d}"`), prefix/suffix tests,
    `strip()`, ASCII `lower()`/`upper()`/`title()` and `replace()`. Characters
    outside ASCII are treated as uncased and only ASCII whitespace is space. */
module Text {
  import opened Wrappers

  // ---------------------------------------------------------------- numbers

  predicate IsDigit(c: char) { '0' <= c <= '9' }

  predicate AllDigits(s: string) { forall i :: 0 <= i < |s| ==> IsDigit(s[i]) }

  function DigitChar(d: nat): (c: char)
    requires d < 10
    ensures IsDigit(c) && c as int - '0' as int == d
  {
    (d + '0' as int) as char
  }

  /** `str(n)` for a non-negative integer. */
  function NatToString(n: nat): (s: string)
    ensures |s| >= 1 && AllDigits(s)
    ensures n < 10 <==> |s| == 1
    decreases n
  {
    if n < 10 then [DigitChar(n)] else NatToString(n / 10) + [DigitChar(n % 10)]
  }

  /** Decimal value of a digit string (the inverse of NatToString). */
  function DigitsValue(s: string): nat
    requires AllDigits(s)
    decreases |s|
  {
    if s == [] then 0 else 10 * DigitsValue(s[..|s| - 1]) + (s[|s| - 1] as int - '0' as int)
  }

  lemma {:induction false} NatToStringRoundTrip(n: nat)
    ensures DigitsValue(NatToString(n)) == n
    decreases n
  {
    var s := NatToString(n);
    if n >= 10 {
      NatToStringRoundTrip(n / 10);
      assert s[..|s| - 1] == NatToString(n / 10);
    }
  }

  /** `str(n)` for any integer. */
  function IntToString(n: int): (s: string)
    ensures |s| >= 1
    ensures n >= 0 ==> s == NatToString(n)
    ensures n < 0 ==> s == "-" + NatToString(-n)
  {
    if n < 0 then "-" + NatToString(-n) else NatToString(n)
  }

  /** `f"{n:02d}"`: zero-padded to width two; the sign counts towards the
      width, so a negative number is never padded. */
  function ZeroPad2(n: int): string {
    if n < 0 then "-" + NatToString(-n)
    else if n < 10 then "0" + NatToString(n)
    else NatToString(n)
  }

  lemma {:induction false} ZeroPad2TwoDigits(n: int)
    requires 0 <= n <= 99
    ensures |ZeroPad2(n)| == 2 && AllDigits(ZeroPad2(n))
    ensures DigitsValue(ZeroPad2(n)) == n
  {
    NatToStringRoundTrip(n);
    if n < 10 {
      var s := ZeroPad2(n);
      assert s == ['0', DigitChar(n)];
      assert s[..1] == "0";
      assert DigitsValue(s[..1]) == 0 by {
        assert s[..1][..0] == [];
      }
    } else {
      assert NatToString(n) == NatToString(n / 10) + [DigitChar(n % 10)];
      assert n / 10 < 10;
    }
  }

  // ---------------------------------------------------------------- Python truthiness

  /** `bool(x)` for an optional string: present and non-empty. */
  predicate Truthy(o: Option<string>) { o.Some? && o.value != "" }

  // ---------------------------------------------------------------- prefixes and substrings

  predicate StartsWith(s: string, p: string) { |p| <= |s| && s[..|p|] == p }

  predicate EndsWith(s: string, p: string) { |p| <= |s| && s[|s| - |p|..] == p }

  /** `pat in s` for a non-empty pattern. */
  predicate Contains(s: string, pat: string)
    requires pat != []
    decreases |s|
  {
    |pat| <= |s| && (s[..|pat|] == pat || Contains(s[1..], pat))
  }

  /** `s.replace(pat, rep)`: occurrences are replaced left to right and do not
      overlap; text produced by a replacement is not scanned again. */
  function ReplaceAll(s: string, pat: string, rep: string): (r: string)
    requires pat != []
    ensures !Contains(s, pat) ==> r == s
    decreases |s|
  {
    if |s| < |pat| then s
    else if s[..|pat|] == pat then rep + ReplaceAll(s[|pat|..], pat, rep)
    else [s[0]] + ReplaceAll(s[1..], pat, rep)
  }

  /** Appending `.ino` to a name that does not contain it and removing every
      `.ino` again gives the name back (`.ino` cannot overlap itself). */
  lemma {:induction false} RemoveInoSuffix(n: string)
    requires !Contains(n, ".ino")
    ensures ReplaceAll(n + ".ino", ".ino", "") == n
    decreases |n|
  {
    var s := n + ".ino";
    if n == [] {
      assert s == ".ino";
      assert s[4..] == [];
    } else {
      if |n| >= 4 {
        assert s[..4] == n[..4];
      } else if |n| == 1 {
        assert s[1] == '.';
      } else if |n| == 2 {
        assert s[2] == '.';
      } else {
        assert s[3] == '.';
      }
      assert s[..4] != ".ino";
      assert s[1..] == n[1..] + ".ino";
      assert !Contains(n[1..], ".ino");
      RemoveInoSuffix(n[1..]);
    }
  }

  /** Python `str.replace` for a one-character pattern and replacement. */
  function ReplaceChar(s: string, a: char, b: char): (r: string)
    ensures |r| == |s|
    ensures forall i :: 0 <= i < |s| ==> r[i] == (if s[i] == a then b else s[i])
    decreases |s|
  {
    if s == [] then [] else [if s[0] == a then b else s[0]] + ReplaceChar(s[1..], a, b)
  }

  // ---------------------------------------------------------------- whitespace

  /** ASCII characters for which Python's `str.isspace()` holds. */
  predicate IsSpace(c: char) {
    c == ' ' || ('\t' <= c <= '\r') || ('\U{001C}' <= c <= '\U{001F}')
  }

  predicate AllSpace(s: string) { forall i :: 0 <= i < |s| ==> IsSpace(s[i]) }

  /** `s.strip()`: leading and trailing whitespace removed. */
  function Strip(s: string): (r: string)
    ensures r == [] || (!IsSpace(r[0]) && !IsSpace(r[|r| - 1]))
    ensures (s == [] || (!IsSpace(s[0]) && !IsSpace(s[|s| - 1]))) ==> r == s
    ensures |r| <= |s|
    decreases |s|
  {
    if s == [] then []
    else if IsSpace(s[0]) then Strip(s[1..])
    else if IsSpace(s[|s| - 1]) then Strip(s[..|s| - 1])
    else s
  }

  /** `strip()` removes only whitespace: the result is a slice of the input
      with whitespace on both sides of it. */
  lemma {:induction false} StripSlice(s: string) returns (i: nat, j: nat)
    ensures i <= j <= |s| && Strip(s) == s[i..j]
    ensures forall y :: 0 <= y < i ==> IsSpace(s[y])
    ensures forall y :: j <= y < |s| ==> IsSpace(s[y])
    decreases |s|
  {
    if s == [] {
      i, j := 0, 0;
    } else if IsSpace(s[0]) {
      var i', j' := StripSlice(s[1..]);
      StripSliceFront(s, s[1..], i', j');
      i, j := i' + 1, j' + 1;
    } else if IsSpace(s[|s| - 1]) {
      i, j := StripSlice(s[..|s| - 1]);
      StripSliceBack(s, s[..|s| - 1], i, j);
    } else {
      i, j := 0, |s|;
      assert s[0..|s|] == s;
    }
  }

  /** The step of StripSlice that drops a leading space. */
  lemma StripSliceFront(s: string, t: string, i: nat, j: nat)
    requires s != [] && IsSpace(s[0]) && t == s[1..]
    requires i <= j <= |t| && Strip(t) == t[i..j]
    requires forall y :: 0 <= y < i ==> IsSpace(t[y])
    requires forall y :: j <= y < |t| ==> IsSpace(t[y])
    ensures Strip(s) == s[i + 1..j + 1]
    ensures forall y :: 0 <= y < i + 1 ==> IsSpace(s[y])
    ensures forall y :: j + 1 <= y < |s| ==> IsSpace(s[y])
  {
    assert t[i..j] == s[i + 1..j + 1];
    forall y | 0 < y < |s| ensures s[y] == t[y - 1] { }
  }

  /** The step of StripSlice that drops a trailing space. */
  lemma StripSliceBack(s: string, t: string, i: nat, j: nat)
    requires s != [] && !IsSpace(s[0]) && IsSpace(s[|s| - 1]) && t == s[..|s| - 1]
    requires i <= j <= |t| && Strip(t) == t[i..j]
    requires forall y :: 0 <= y < i ==> IsSpace(t[y])
    requires forall y :: j <= y < |t| ==> IsSpace(t[y])
    ensures Strip(s) == s[i..j]
    ensures forall y :: 0 <= y < i ==> IsSpace(s[y])
    ensures forall y :: j <= y < |s| ==> IsSpace(s[y])
  {
    assert t[i..j] == s[i..j];
    forall y | 0 <= y < |t| ensures s[y] == t[y] { }
  }

  // ---------------------------------------------------------------- case

  predicate IsLetter(c: char) { 'a' <= c <= 'z' || 'A' <= c <= 'Z' }

  function LowerChar(c: char): char {
    if 'A' <= c <= 'Z' then (c as int + 32) as char else c
  }

  function UpperChar(c: char): char {
    if 'a' <= c <= 'z' then (c as int - 32) as char else c
  }

  /** `s.lower()` on ASCII. */
  function Lower(s: string): (r: string)
    ensures |r| == |s| && forall i :: 0 <= i < |s| ==> r[i] == LowerChar(s[i])
    decreases |s|
  {
    if s == [] then [] else [LowerChar(s[0])] + Lower(s[1..])
  }

  /** `s.upper()` on ASCII. */
  function Upper(s: string): (r: string)
    ensures |r| == |s| && forall i :: 0 <= i < |s| ==> r[i] == UpperChar(s[i])
    decreases |s|
  {
    if s == [] then [] else [UpperChar(s[0])] + Upper(s[1..])
  }

  /** Character `i` of `s.title()`: a letter that follows a letter is
      lowered, every other character is upper-cased (digits and punctuation
      are uncased). */
  function TitleCharAt(s: string, i: nat): char
    requires i < |s|
  {
    if i > 0 && IsLetter(s[i - 1]) then LowerChar(s[i]) else UpperChar(s[i])
  }

  /** `s.title()` on ASCII. */
  function Title(s: string): (r: string)
    ensures |r| == |s|
    ensures forall i :: 0 <= i < |s| ==> r[i] == TitleCharAt(s, i)
  {
    TitleAfter(s, false)
  }

  /** Title-casing of `s` when the character before it was cased iff `cased`. */
  function TitleAfter(s: string, cased: bool): (r: string)
    ensures |r| == |s|
    ensures |s| > 0 ==> r[0] == (if cased then LowerChar(s[0]) else UpperChar(s[0]))
    ensures forall i :: 0 < i < |s| ==> r[i] == TitleCharAt(s, i)
    decreases |s|
  {
    if s == [] then []
    else
      var rest := TitleAfter(s[1..], IsLetter(s[0]));
      var r := [if cased then LowerChar(s[0]) else UpperChar(s[0])] + rest;
      assert forall i :: 1 < i < |s| ==> TitleCharAt(s[1..], i - 1) == TitleCharAt(s, i);
      r
  }

  // ---------------------------------------------------------------- paths

  /** pathlib's `base / part` on POSIX paths: an absolute part replaces the
      base, an empty part leaves the base as it is, and any other part is
      joined with one separator. */
  function JoinPath(base: string, part: string): string {
    if part == [] then base
    else if part[0] == '/' then part
    else base + "/" + part
  }

  /** The text after the last separator, `PurePath(p).name` for a path that
      does not end in one: the longest suffix without a separator. */
  function BaseName(p: string): (b: string)
    ensures |b| <= |p| && b == p[|p| - |b|..]
    ensures forall i :: 0 <= i < |b| ==> b[i] != '/'
    ensures |b| < |p| ==> p[|p| - |b| - 1] == '/'
    decreases |p|
  {
    if p == [] then []
    else if p[|p| - 1] == '/' then []
    else
      var b' := BaseName(p[..|p| - 1]);
      assert p[..|p| - 1][|p| - 1 - |b'|..] == p[|p| - 1 - |b'|..|p| - 1];
      b' + [p[|p| - 1]]
  }
}
