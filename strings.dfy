/**
 * The string operations the front ends rely on: C's isspace and strtol,
 * Python's str(n), strip, split, split with a limit of one, startswith and
 * zero padding, on strings of characters.
 */
module Strings {

  /** Whitespace for C's isspace in the "C" locale and for Python 2's str.strip. */
  predicate IsSpace(c: char)
  {
    c == ' ' || c == '\t' || c == '\n' || c == '\r' || c == '\U{000B}' || c == '\U{000C}'
  }

  predicate IsDigit(c: char)
  {
    '0' <= c <= '9'
  }

  predicate AllDigits(s: string)
  {
    forall k :: 0 <= k < |s| ==> IsDigit(s[k])
  }

  /** s has no whitespace at either end. */
  predicate NoEdgeSpace(s: string)
  {
    |s| == 0 || (!IsSpace(s[0]) && !IsSpace(s[|s| - 1]))
  }

  predicate Contains(s: string, c: char)
  {
    exists k :: 0 <= k < |s| && s[k] == c
  }

  function StartsWith(s: string, prefix: string): (r: bool)
    ensures r <==> |prefix| <= |s| && s[..|prefix|] == prefix
  {
    |prefix| <= |s| && s[..|prefix|] == prefix
  }

  // ---------------------------------------------------------------------------
  // strip

  function StripLeft(s: string): string
    decreases |s|
  {
    if |s| > 0 && IsSpace(s[0]) then StripLeft(s[1..]) else s
  }

  function StripRight(s: string): string
    decreases |s|
  {
    if |s| > 0 && IsSpace(s[|s| - 1]) then StripRight(s[..|s| - 1]) else s
  }

  /** StripLeft removes a prefix made only of whitespace, up to the first other character. */
  lemma {:induction false} StripLeftFacts(s: string)
    ensures |StripLeft(s)| <= |s| && StripLeft(s) == s[|s| - |StripLeft(s)|..]
    ensures |StripLeft(s)| == 0 || !IsSpace(StripLeft(s)[0])
    ensures forall k :: 0 <= k < |s| - |StripLeft(s)| ==> IsSpace(s[k])
    decreases |s|
  {
    if |s| > 0 && IsSpace(s[0]) {
      StripLeftFacts(s[1..]);
      assert s[1..][|s| - 1 - |StripLeft(s)|..] == s[|s| - |StripLeft(s)|..];
      forall k | 0 <= k < |s| - |StripLeft(s)|
        ensures IsSpace(s[k])
      {
        if k > 0 {
          assert s[k] == s[1..][k - 1];
        }
      }
    }
  }

  /** StripRight removes a suffix made only of whitespace, back to the last other character. */
  lemma {:induction false} StripRightFacts(s: string)
    ensures |StripRight(s)| <= |s| && StripRight(s) == s[..|StripRight(s)|]
    ensures |StripRight(s)| == 0 || !IsSpace(StripRight(s)[|StripRight(s)| - 1])
    ensures forall k :: |StripRight(s)| <= k < |s| ==> IsSpace(s[k])
    decreases |s|
  {
    if |s| > 0 && IsSpace(s[|s| - 1]) {
      StripRightFacts(s[..|s| - 1]);
      assert s[..|s| - 1][..|StripRight(s)|] == s[..|StripRight(s)|];
      forall k | |StripRight(s)| <= k < |s|
        ensures IsSpace(s[k])
      {
        if k < |s| - 1 {
          assert s[k] == s[..|s| - 1][k];
        }
      }
    }
  }

  /** Python's str.strip(): the string without its leading and trailing whitespace. */
  function Strip(s: string): (r: string)
    ensures NoEdgeSpace(r)
  {
    StripLeftFacts(s);
    StripRightFacts(StripLeft(s));
    StripRight(StripLeft(s))
  }

  /** Stripping a string that has no edge whitespace changes nothing. */
  lemma StripNoEdgeSpace(s: string)
    requires NoEdgeSpace(s)
    ensures Strip(s) == s
  {
  }

  /** Leading whitespace stops at a non-space character, so what follows it is kept whole. */
  lemma {:induction false} StripLeftAppend(x: string, y: string)
    requires |y| > 0 && !IsSpace(y[0])
    ensures StripLeft(x + y) == StripLeft(x) + y
    decreases |x|
  {
    if |x| == 0 {
      assert x + y == y;
    } else if IsSpace(x[0]) {
      assert (x + y)[1..] == x[1..] + y;
      StripLeftAppend(x[1..], y);
    }
  }

  /** Trailing whitespace stops at a non-space character, so what precedes it is kept whole. */
  lemma {:induction false} StripRightPrepend(x: string, y: string)
    requires |x| > 0 && !IsSpace(x[|x| - 1])
    ensures StripRight(x + y) == x + StripRight(y)
    decreases |y|
  {
    if |y| == 0 {
      assert x + y == x;
    } else if IsSpace(y[|y| - 1]) {
      assert (x + y)[..|x + y| - 1] == x + y[..|y| - 1];
      StripRightPrepend(x, y[..|y| - 1]);
    }
  }

  /** StripLeft of a string with one more character at the end. */
  lemma {:induction false} StripLeftSnoc(y: string, c: char)
    ensures StripLeft(y + [c]) == if StripLeft(y) == "" && IsSpace(c) then "" else StripLeft(y) + [c]
    decreases |y|
  {
    if |y| == 0 {
      assert y + [c] == [c];
      assert [c][1..] == "";
    } else if IsSpace(y[0]) {
      assert (y + [c])[1..] == y[1..] + [c];
      StripLeftSnoc(y[1..], c);
    }
  }

  /** Removing leading whitespace twice removes nothing more. */
  lemma {:induction false} StripLeftTwice(s: string)
    ensures StripLeft(StripLeft(s)) == StripLeft(s)
    decreases |s|
  {
    if |s| > 0 && IsSpace(s[0]) {
      StripLeftTwice(s[1..]);
    }
  }

  /** Stripping after removing the leading whitespace is stripping. */
  lemma StripAfterStripLeft(s: string)
    ensures Strip(StripLeft(s)) == Strip(s)
  {
    StripLeftTwice(s);
  }

  /** Stripping after removing the trailing whitespace is stripping. */
  lemma {:induction false} StripAfterStripRight(s: string)
    ensures Strip(StripRight(s)) == Strip(s)
    decreases |s|
  {
    if |s| > 0 && IsSpace(s[|s| - 1]) {
      var y := s[..|s| - 1];
      assert s == y + [s[|s| - 1]];
      StripAfterStripRight(y);
      StripLeftSnoc(y, s[|s| - 1]);
      if StripLeft(y) != "" {
        var t := StripLeft(y) + [s[|s| - 1]];
        assert t[..|t| - 1] == StripLeft(y);
      }
    }
  }

  // ---------------------------------------------------------------------------
  // split

  /** Python's s.split(sep) for a one-character separator: never empty. */
  function Split(s: string, sep: char): (pieces: seq<string>)
    ensures |pieces| >= 1
    ensures forall k :: 0 <= k < |pieces| ==> !Contains(pieces[k], sep)
    decreases |s|
  {
    if exists k :: 0 <= k < |s| && s[k] == sep then
      var k := FirstIndex(s, sep);
      [s[..k]] + Split(s[k + 1..], sep)
    else
      [s]
  }

  /** The first position of c in s. */
  function FirstIndex(s: string, c: char): (k: nat)
    requires Contains(s, c)
    ensures k < |s| && s[k] == c && !Contains(s[..k], c)
    decreases |s|
  {
    if s[0] == c then 0
    else
      assert Contains(s[1..], c) by {
        var j :| 0 <= j < |s| && s[j] == c;
        assert s[1..][j - 1] == c;
      }
      1 + FirstIndex(s[1..], c)
  }

  /** The pieces joined back with the separator between them. */
  function Join(pieces: seq<string>, sep: char): string
    requires |pieces| >= 1
    decreases |pieces|
  {
    if |pieces| == 1 then pieces[0] else pieces[0] + [sep] + Join(pieces[1..], sep)
  }

  /** Splitting the join of separator-free pieces gives the pieces back. */
  lemma {:induction false} SplitJoin(pieces: seq<string>, sep: char)
    requires |pieces| >= 1
    requires forall k :: 0 <= k < |pieces| ==> !Contains(pieces[k], sep)
    ensures Split(Join(pieces, sep), sep) == pieces
    decreases |pieces|
  {
    var s := Join(pieces, sep);
    if |pieces| == 1 {
      assert !Contains(s, sep);
    } else {
      var head := pieces[0];
      var rest := Join(pieces[1..], sep);
      assert s == head + [sep] + rest;
      assert s[|head|] == sep;
      assert Contains(s, sep);
      var k := FirstIndex(s, sep);
      assert k == |head|;
      assert s[..k] == head;
      assert s[k + 1..] == rest;
      SplitJoin(pieces[1..], sep);
    }
  }

  /**
   * Python's s.split(sep, 1): the text before and after the first
   * separator, or the whole string when there is none.
   */
  function SplitOnce(s: string, sep: char): (pieces: seq<string>)
    ensures 1 <= |pieces| <= 2
    ensures |pieces| == 1 <==> !Contains(s, sep)
    ensures |pieces| == 1 ==> pieces[0] == s
    ensures |pieces| == 2 ==> s == pieces[0] + [sep] + pieces[1] && !Contains(pieces[0], sep)
  {
    if Contains(s, sep) then
      var k := FirstIndex(s, sep);
      assert s == s[..k] + [sep] + s[k + 1..];
      [s[..k], s[k + 1..]]
    else
      [s]
  }

  /** Joining one more piece adds the separator and the piece at the end. */
  lemma {:induction false} JoinSnoc(pieces: seq<string>, last: string, sep: char)
    requires |pieces| >= 1
    ensures Join(pieces + [last], sep) == Join(pieces, sep) + [sep] + last
    decreases |pieces|
  {
    if |pieces| == 1 {
      assert (pieces + [last])[1..] == [last];
    } else {
      assert (pieces + [last])[1..] == pieces[1..] + [last];
      JoinSnoc(pieces[1..], last, sep);
    }
  }

  /** Splitting at the first separator of a + [sep] + b, a holding none, gives a and b. */
  lemma SplitOnceAt(a: string, b: string, sep: char)
    requires !Contains(a, sep)
    ensures SplitOnce(a + [sep] + b, sep) == [a, b]
  {
    var s := a + [sep] + b;
    assert s[|a|] == sep;
    var k := FirstIndex(s, sep);
    assert k == |a|;
    assert s[..k] == a && s[k + 1..] == b;
  }

  /** The characters after the last occurrence of c (all of s when there is none). */
  function AfterLast(s: string, c: char): (r: string)
    ensures |r| <= |s| && r == s[|s| - |r|..]
    ensures forall k :: 0 <= k < |r| ==> r[k] != c
    ensures |r| < |s| ==> s[|s| - |r| - 1] == c
    decreases |s|
  {
    if |s| == 0 then ""
    else if s[|s| - 1] == c then ""
    else AfterLast(s[..|s| - 1], c) + [s[|s| - 1]]
  }

  /** s without its trailing occurrences of c. */
  function TrimRight(s: string, c: char): (r: string)
    ensures |r| <= |s| && r == s[..|r|]
    ensures |r| == 0 || r[|r| - 1] != c
    ensures forall k :: |r| <= k < |s| ==> s[k] == c
    decreases |s|
  {
    if |s| > 0 && s[|s| - 1] == c then TrimRight(s[..|s| - 1], c) else s
  }

  /**
   * re.sub with a literal pattern and a replacement without escapes: every
   * occurrence of pat, scanning from the left without overlaps, becomes rep.
   * Text in which pat's first character does not occur is left unchanged.
   */
  function ReplaceAll(s: string, pat: string, rep: string): (r: string)
    requires |pat| > 0
    ensures !Contains(s, pat[0]) ==> r == s
    decreases |s|
  {
    if |s| == 0 then ""
    else if StartsWith(s, pat) then rep + ReplaceAll(s[|pat|..], pat, rep)
    else
      assert !Contains(s, pat[0]) ==> !Contains(s[1..], pat[0]) && s == [s[0]] + s[1..];
      [s[0]] + ReplaceAll(s[1..], pat, rep)
  }

  /** Text in which pat's first character does not occur is copied, and the rest replaced on its own. */
  lemma {:induction false} ReplaceAllFreePrefix(a: string, b: string, pat: string, rep: string)
    requires |pat| > 0 && !Contains(a, pat[0])
    ensures ReplaceAll(a + b, pat, rep) == a + ReplaceAll(b, pat, rep)
    decreases |a|
  {
    if |a| == 0 {
      assert a + b == b;
    } else {
      var s := a + b;
      ReplaceAllSkipHead(s, pat, rep);
      assert s[1..] == a[1..] + b;
      TailWithout(a, pat[0]);
      ReplaceAllFreePrefix(a[1..], b, pat, rep);
      HeadAndTail(a, ReplaceAll(b, pat, rep));
    }
  }

  /** Where pat cannot start, the first character is copied. */
  lemma ReplaceAllSkipHead(s: string, pat: string, rep: string)
    requires |s| > 0 && |pat| > 0 && (s[0] != pat[0] || (|s| >= 2 && |pat| >= 2 && s[1] != pat[1]))
    ensures ReplaceAll(s, pat, rep) == [s[0]] + ReplaceAll(s[1..], pat, rep)
  {
    if |pat| <= |s| {
      assert s[..|pat|][0] == s[0];
      if |pat| >= 2 {
        assert s[..|pat|][1] == s[1];
      }
    }
  }

  lemma TailWithout(a: string, c: char)
    requires |a| > 0 && !Contains(a, c)
    ensures !Contains(a[1..], c)
  {
    forall k | 0 <= k < |a| - 1
      ensures a[1..][k] != c
    {
      assert a[1..][k] == a[k + 1];
    }
  }

  /** a, split into its first character and the rest, in front of t. */
  lemma HeadAndTail(a: string, t: string)
    requires |a| > 0
    ensures [a[0]] + (a[1..] + t) == a + t
  {
    assert a == [a[0]] + a[1..];
  }

  /** The first occurrence of pat becomes rep, and the search goes on after it. */
  lemma ReplaceAllOccurrence(a: string, b: string, pat: string, rep: string)
    requires |pat| > 0 && !Contains(a, pat[0])
    ensures ReplaceAll(a + pat + b, pat, rep) == a + rep + ReplaceAll(b, pat, rep)
  {
    assert a + pat + b == a + (pat + b);
    ReplaceAllFreePrefix(a, pat + b, pat, rep);
    ReplaceAllAtMatch(pat, b, rep);
  }

  lemma ReplaceAllAtMatch(pat: string, b: string, rep: string)
    requires |pat| > 0
    ensures ReplaceAll(pat + b, pat, rep) == rep + ReplaceAll(b, pat, rep)
  {
    assert (pat + b)[..|pat|] == pat;
    assert (pat + b)[|pat|..] == b;
  }

  /**
   * Text that differs from pat in its second character and holds pat's
   * first character nowhere else cannot take part in a match: it is copied.
   */
  lemma ReplaceAllMismatch(a: string, b: string, pat: string, rep: string)
    requires |pat| >= 2 && |a| >= 2 && a[1] != pat[1] && !Contains(a[1..], pat[0])
    ensures ReplaceAll(a + b, pat, rep) == a + ReplaceAll(b, pat, rep)
  {
    var s := a + b;
    ReplaceAllSkipHead(s, pat, rep);
    assert s[1..] == a[1..] + b;
    ReplaceAllFreePrefix(a[1..], b, pat, rep);
    HeadAndTail(a, ReplaceAll(b, pat, rep));
  }

  /** Text where pat starts nowhere is left unchanged. */
  lemma {:induction false} ReplaceAllNoOccurrence(s: string, pat: string, rep: string)
    requires |pat| > 0
    requires forall k :: 0 <= k < |s| ==> !StartsWith(s[k..], pat)
    ensures ReplaceAll(s, pat, rep) == s
    decreases |s|
  {
    if |s| > 0 {
      assert s[0..] == s;
      forall k | 0 <= k < |s| - 1
        ensures !StartsWith(s[1..][k..], pat)
      {
        assert s[1..][k..] == s[k + 1..];
      }
      ReplaceAllNoOccurrence(s[1..], pat, rep);
      assert s == [s[0]] + s[1..];
    }
  }

  // ---------------------------------------------------------------------------
  // Numbers as text

  function DigitChar(d: nat): (c: char)
    requires d < 10
    ensures IsDigit(c) && c as int - '0' as int == d
  {
    ('0' as int + d) as char
  }

  function DigitValue(c: char): (d: nat)
    requires IsDigit(c)
    ensures d < 10
  {
    c as int - '0' as int
  }

  /** Python's str(n) and C++'s stream output of a non-negative integer. */
  function NatToString(n: nat): (s: string)
    ensures |s| >= 1 && AllDigits(s)
    ensures |s| > 1 ==> s[0] != '0'
    decreases n
  {
    if n < 10 then [DigitChar(n)] else NatToString(n / 10) + [DigitChar(n % 10)]
  }

  /** Python's str(n) of any integer: a minus sign before the digits of a negative one. */
  function IntToString(n: int): (s: string)
    ensures n >= 0 ==> s == NatToString(n)
    ensures n < 0 ==> s == "-" + NatToString(-n)
  {
    if n < 0 then "-" + NatToString(-n) else NatToString(n)
  }

  /** The value of a run of decimal digits. */
  function DigitsValue(s: string): nat
    requires AllDigits(s)
    decreases |s|
  {
    if |s| == 0 then 0 else DigitsValue(s[..|s| - 1]) * 10 + DigitValue(s[|s| - 1])
  }

  lemma {:induction false} NatToStringValue(n: nat)
    ensures DigitsValue(NatToString(n)) == n
    decreases n
  {
    if n >= 10 {
      var s := NatToString(n);
      NatToStringValue(n / 10);
      assert s[..|s| - 1] == NatToString(n / 10);
    }
  }

  /** The longest prefix of digits. */
  function LeadingDigits(s: string): (d: string)
    ensures AllDigits(d) && |d| <= |s| && d == s[..|d|]
    ensures |d| == |s| || !IsDigit(s[|d|])
    decreases |s|
  {
    if |s| > 0 && IsDigit(s[0]) then [s[0]] + LeadingDigits(s[1..]) else []
  }

  const LONG_MIN: int := -0x8000_0000_0000_0000
  const LONG_MAX: int := 0x7FFF_FFFF_FFFF_FFFF

  /**
   * C's strtol(s, NULL, 10) with a 64-bit long: leading whitespace is
   * skipped, an optional sign is read, then the longest run of decimal
   * digits; no digits gives 0, and a value out of range is clamped to
   * LONG_MIN or LONG_MAX.
   */
  function StrToL(s: string): (r: int)
    ensures LONG_MIN <= r <= LONG_MAX
  {
    var t := StripLeft(s);
    var negative := |t| > 0 && t[0] == '-';
    var unsigned := if |t| > 0 && (t[0] == '-' || t[0] == '+') then t[1..] else t;
    var magnitude: int := DigitsValue(LeadingDigits(unsigned));
    if negative then (if magnitude > -LONG_MIN then LONG_MIN else -magnitude)
    else (if magnitude > LONG_MAX then LONG_MAX else magnitude)
  }

  /** The decimal text of a number that fits in a long reads back as that number. */
  lemma StrToLNatToString(n: nat)
    requires n <= LONG_MAX
    ensures StrToL(NatToString(n)) == n
  {
    var s := NatToString(n);
    assert !IsSpace(s[0]) && s[0] != '-' && s[0] != '+';
    assert StripLeft(s) == s;
    assert LeadingDigits(s) == s by {
      LeadingDigitsOfDigits(s);
    }
    NatToStringValue(n);
  }

  lemma {:induction false} LeadingDigitsOfDigits(s: string)
    requires AllDigits(s)
    ensures LeadingDigits(s) == s
    decreases |s|
  {
    if |s| > 0 {
      LeadingDigitsOfDigits(s[1..]);
    }
  }

  /** The conversion of a long to a 32-bit int: the value modulo 2^32, in two's complement. */
  function ToInt32(x: int): (r: int)
    ensures -0x8000_0000 <= r < 0x8000_0000
    ensures -0x8000_0000 <= x < 0x8000_0000 ==> r == x
  {
    (x + 0x8000_0000) % 0x1_0000_0000 - 0x8000_0000
  }
}
