/**
 * filename_from_pattern (shenidam.py:181-200): the output file name for the
 * i-th input track, made from a pattern with the placeholders {seq},
 * {seq/N}, {file}, {base}, {dir} and {ext}, and the POSIX path helpers it
 * relies on (os.path.basename, dirname and splitext).
 */
module Patterns {
  import opened Strings
  import opened Wrappers

  // ---------------------------------------------------------------------------
  // POSIX paths

  /** os.path.basename: what follows the last '/'. */
  function Basename(path: string): (name: string)
    ensures |name| <= |path| && name == path[|path| - |name|..]
    ensures forall k :: 0 <= k < |name| ==> name[k] != '/'
  {
    AfterLast(path, '/')
  }

  predicate AllSlashes(s: string)
  {
    forall k :: 0 <= k < |s| ==> s[k] == '/'
  }

  /**
   * os.path.dirname: everything up to the last '/', without its trailing
   * slashes unless it consists of slashes only; "" when there is no '/'.
   */
  function Dirname(path: string): (dir: string)
    ensures |dir| <= |path| && dir == path[..|dir|]
    ensures (forall k :: 0 <= k < |path| ==> path[k] != '/') ==> dir == ""
  {
    var head := path[..|path| - |Basename(path)|];
    if |head| > 0 && !AllSlashes(head) then TrimRight(head, '/') else head
  }

  /** The directory of a path and its base name make up the path again (when the directory has no trailing slashes). */
  lemma DirnameBasename(path: string)
    requires exists k :: 0 <= k < |path| && path[k] == '/'
    requires |path| - |Basename(path)| >= 2 ==> path[|path| - |Basename(path)| - 2] != '/'
    ensures Dirname(path) + "/" + Basename(path) == path || Dirname(path) + Basename(path) == path
  {
    var name := Basename(path);
    var head := path[..|path| - |name|];
    assert path == head + name;
    assert |head| > 0 by {
      var k :| 0 <= k < |path| && path[k] == '/';
    }
    assert head[|head| - 1] == '/';
    if |head| > 0 && !AllSlashes(head) {
      assert TrimRight(head, '/') == head[..|head| - 1];
      assert head == head[..|head| - 1] + "/";
    }
  }

  /**
   * os.path.splitext of a base name: the extension starts at the last '.',
   * provided some character before it is not a '.'; otherwise it is empty.
   */
  function SplitExt(name: string): (r: (string, string))
    ensures r.0 + r.1 == name
    ensures r.1 == "" || (r.1[0] == '.' && forall k :: 1 <= k < |r.1| ==> r.1[k] != '.')
    ensures r.1 != "" ==> !AllDots(r.0)
  {
    var tail := AfterLast(name, '.');
    if |tail| == |name| then (name, "")
    else
      var dot := |name| - |tail| - 1;
      if !AllDots(name[..dot]) then
        ExtensionAt(name, dot, tail);
        (name[..dot], name[dot..])
      else (name, "")
  }

  predicate AllDots(s: string)
  {
    forall k :: 0 <= k < |s| ==> s[k] == '.'
  }

  lemma ExtensionAt(name: string, dot: nat, tail: string)
    requires dot < |name| && name[dot] == '.' && tail == name[dot + 1..]
    requires forall k :: 0 <= k < |tail| ==> tail[k] != '.'
    ensures name[..dot] + name[dot..] == name
    ensures name[dot..][0] == '.' && forall k :: 1 <= k < |name[dot..]| ==> name[dot..][k] != '.'
  {
    assert name[dot..] == ['.'] + tail;
  }

  // ---------------------------------------------------------------------------
  // The {seq} placeholder

  /** str(n) left-padded with '0' to at least `width` characters, never cut. */
  function ZeroPadded(n: nat, width: nat): (s: string)
    ensures |s| == if |NatToString(n)| < width then width else |NatToString(n)|
    ensures s[|s| - |NatToString(n)|..] == NatToString(n)
    ensures forall k :: 0 <= k < |s| - |NatToString(n)| ==> s[k] == '0'
  {
    var digits := NatToString(n);
    if |digits| < width then seq(width - |digits|, _ => '0') + digits else digits
  }

  /** The padding loop of repl (shenidam.py:191-193): prepend '0' until the text is `width` long. */
  method PadWithZeros(n: nat, width: nat) returns (x: string)
    ensures x == ZeroPadded(n, width)
  {
    var digits := NatToString(n);
    x := digits;
    var j := |x|;
    while j < width
      invariant |digits| <= j && (j <= width || j == |digits|)
      invariant x == seq(j - |digits|, _ => '0') + digits
    {
      x := "0" + x;
      j := j + 1;
    }
  }

  /** Leading zeros do not change the value of a run of digits. */
  lemma {:induction false} LeadingZerosValue(zeros: string, digits: string)
    requires forall k :: 0 <= k < |zeros| ==> zeros[k] == '0'
    requires AllDigits(digits)
    ensures AllDigits(zeros + digits) && DigitsValue(zeros + digits) == DigitsValue(digits)
    decreases |digits|
  {
    if |digits| == 0 {
      assert zeros + digits == zeros;
      AllZerosValue(zeros);
    } else {
      var d := digits[..|digits| - 1];
      LeadingZerosValue(zeros, d);
      assert (zeros + digits)[..|zeros + digits| - 1] == zeros + d;
    }
  }

  lemma {:induction false} AllZerosValue(zeros: string)
    requires forall k :: 0 <= k < |zeros| ==> zeros[k] == '0'
    ensures AllDigits(zeros) && DigitsValue(zeros) == 0
    decreases |zeros|
  {
    if |zeros| > 0 {
      AllZerosValue(zeros[..|zeros| - 1]);
    }
  }

  /** The padded number reads back as the number. */
  lemma ZeroPaddedValue(n: nat, width: nat)
    ensures AllDigits(ZeroPadded(n, width)) && DigitsValue(ZeroPadded(n, width)) == n
  {
    var s := ZeroPadded(n, width);
    var digits := NatToString(n);
    LeadingZerosValue(s[..|s| - |digits|], digits);
    assert s == s[..|s| - |digits|] + digits;
    NatToStringValue(n);
  }

  /**
   * A match of the regular expression {seq(?:/(\d+))?} at the start of s:
   * its length and, for {seq/N}, the width N.
   */
  function SeqPlaceholder(s: string): (m: Option<(nat, Option<nat>)>)
    ensures m.Some? ==> 5 <= m.value.0 <= |s|
  {
    if StartsWith(s, "{seq}") then Some((5, None))
    else if StartsWith(s, "{seq/") then
      var d := LeadingDigits(s[5..]);
      if |d| > 0 && 5 + |d| < |s| && s[5 + |d|] == '}' then Some((6 + |d|, Some(DigitsValue(d))))
      else None
    else None
  }

  /**
   * The text repl puts in place of a {seq} match for the track number i:
   * digits that read back as i, at least as many as a given width.
   */
  function SeqText(i: nat, width: Option<nat>): (t: string)
    ensures AllDigits(t) && DigitsValue(t) == i
    ensures width.Some? ==> |t| >= width.value
  {
    match width
    case None => NatToStringValue(i); NatToString(i)
    case Some(n) => ZeroPaddedValue(i, n); ZeroPadded(i, n)
  }

  /**
   * re.sub(NUM_PATTERN, repl, s): every {seq} or {seq/N}, from the left,
   * replaced; text without '{' is left alone.
   */
  function SubstituteSeq(s: string, i: nat): (r: string)
    ensures !Contains(s, '{') ==> r == s
    decreases |s|
  {
    if |s| == 0 then ""
    else
      match SeqPlaceholder(s)
      case Some((len, width)) =>
        assert |s| >= 2 && s[0] == '{' && s[1] == 's' by {
          if |s| < 2 || s[0] != '{' || s[1] != 's' {
            SeqPlaceholderStart(s);
          }
        }
        SeqText(i, width) + SubstituteSeq(s[len..], i)
      case None =>
        assert !Contains(s, '{') ==> !Contains(s[1..], '{') && s == [s[0]] + s[1..];
        [s[0]] + SubstituteSeq(s[1..], i)
  }

  /** A match of NUM_PATTERN starts with "{s". */
  lemma SeqPlaceholderStart(s: string)
    requires |s| < 2 || s[0] != '{' || s[1] != 's'
    ensures SeqPlaceholder(s).None?
  {
    if |s| >= 5 {
      assert s[..5][0] == s[0] && s[..5][1] == s[1];
    }
  }

  /** {seq/N} becomes the track number padded to N digits. */
  lemma SeqWidthPlaceholder(i: nat, width: nat, rest: string)
    ensures SubstituteSeq("{seq/" + NatToString(width) + "}" + rest, i) ==
      ZeroPadded(i, width) + SubstituteSeq(rest, i)
  {
    var digits := NatToString(width);
    var s := "{seq/" + digits + "}" + rest;
    assert StartsWith(s, "{seq/") by {
      assert s[..5] == "{seq/";
    }
    assert !StartsWith(s, "{seq}") by {
      assert s[4] == '/';
    }
    assert s[5..] == digits + ("}" + rest);
    LeadingDigitsPrefix(digits, "}" + rest);
    NatToStringValue(width);
    assert s[5 + |digits|] == '}';
    assert SeqPlaceholder(s) == Some((6 + |digits|, Some(width)));
    assert s[6 + |digits|..] == rest;
  }

  /** {seq} becomes the track number. */
  lemma SeqPlainPlaceholder(i: nat, rest: string)
    ensures SubstituteSeq("{seq}" + rest, i) == NatToString(i) + SubstituteSeq(rest, i)
  {
    var s := "{seq}" + rest;
    assert s[..5] == "{seq}" && s[5..] == rest;
  }

  /** The leading digits of digits + rest, rest not starting with a digit, are those digits. */
  lemma {:induction false} LeadingDigitsPrefix(digits: string, rest: string)
    requires AllDigits(digits) && (|rest| == 0 || !IsDigit(rest[0]))
    ensures LeadingDigits(digits + rest) == digits
    decreases |digits|
  {
    if |digits| == 0 {
      assert digits + rest == rest;
    } else {
      assert (digits + rest)[1..] == digits[1..] + rest;
      LeadingDigitsPrefix(digits[1..], rest);
    }
  }

  /** Text holding no '{' is copied by the {seq} substitution, and the rest substituted on its own. */
  lemma {:induction false} SubstituteSeqFreePrefix(a: string, b: string, i: nat)
    requires !Contains(a, '{')
    ensures SubstituteSeq(a + b, i) == a + SubstituteSeq(b, i)
    decreases |a|
  {
    if |a| == 0 {
      assert a + b == b;
    } else {
      var s := a + b;
      assert s[0] == a[0] != '{';
      SeqPlaceholderStart(s);
      assert SubstituteSeq(s, i) == [s[0]] + SubstituteSeq(s[1..], i);
      assert s[1..] == a[1..] + b;
      TailWithout(a, '{');
      SubstituteSeqFreePrefix(a[1..], b, i);
      HeadAndTail(a, SubstituteSeq(b, i));
    }
  }

  /** Text whose second character is not 's' and which holds '{' only first is copied by the {seq} substitution. */
  lemma SubstituteSeqMismatch(a: string, b: string, i: nat)
    requires |a| >= 2 && a[1] != 's' && !Contains(a[1..], '{')
    ensures SubstituteSeq(a + b, i) == a + SubstituteSeq(b, i)
  {
    var s := a + b;
    assert s[1] == a[1];
    SeqPlaceholderStart(s);
    assert s[1..] == a[1..] + b;
    SubstituteSeqFreePrefix(a[1..], b, i);
    HeadAndTail(a, SubstituteSeq(b, i));
  }

  /** Text where no {seq} placeholder starts is left alone. */
  lemma {:induction false} SubstituteSeqNoMatch(s: string, i: nat)
    requires forall k :: 0 <= k < |s| ==> SeqPlaceholder(s[k..]).None?
    ensures SubstituteSeq(s, i) == s
    decreases |s|
  {
    if |s| > 0 {
      assert s[0..] == s;
      forall k | 0 <= k < |s| - 1
        ensures SeqPlaceholder(s[1..][k..]).None?
      {
        assert s[1..][k..] == s[k + 1..];
      }
      SubstituteSeqNoMatch(s[1..], i);
      assert s == [s[0]] + s[1..];
    }
  }

  // ---------------------------------------------------------------------------
  // The whole pattern

  /** The values of the name placeholders for one input file. */
  datatype PathParts = PathParts(file: string, base: string, dir: string, ext: string)

  /**
   * The placeholder values of filename_from_pattern (shenidam.py:182-186):
   * the base name, its two halves around the extension, and the directory,
   * "." when the path has none.
   */
  function PartsOf(filename: string): (p: PathParts)
    ensures p.file == Basename(filename) && (p.base, p.ext) == SplitExt(p.file)
    ensures p.dir == if Dirname(filename) == "" then "." else Dirname(filename)
    ensures p.base + p.ext == p.file && p.dir != ""
  {
    var basename := Basename(filename);
    var split := SplitExt(basename);
    var dirname := Dirname(filename);
    PathParts(basename, split.0, if dirname == "" then "." else dirname, split.1)
  }

  /** A file name without '{' gives placeholder values without '{'. */
  lemma PartsWithoutBrace(filename: string)
    requires !Contains(filename, '{')
    ensures PartsPlain(PartsOf(filename))
  {
    var file := Basename(filename);
    SliceWithoutBrace(filename, |filename| - |file|, |filename|);
    assert file == filename[|filename| - |file|..|filename|];
    SplitExtWithoutBrace(file);
    var dirname := Dirname(filename);
    SliceWithoutBrace(filename, 0, |dirname|);
    assert dirname == filename[0..|dirname|];
    assert !Contains(".", '{');
  }

  lemma SplitExtWithoutBrace(name: string)
    requires !Contains(name, '{')
    ensures !Contains(SplitExt(name).0, '{') && !Contains(SplitExt(name).1, '{')
  {
    var (base, ext) := SplitExt(name);
    SliceWithoutBrace(name, 0, |base|);
    assert base == name[0..|base|];
    SliceWithoutBrace(name, |base|, |name|);
    assert ext == name[|base|..|name|];
  }

  lemma SliceWithoutBrace(s: string, from: nat, to: nat)
    requires from <= to <= |s| && !Contains(s, '{')
    ensures !Contains(s[from..to], '{')
  {
    forall k | 0 <= k < to - from
      ensures s[from..to][k] != '{'
    {
      assert s[from..to][k] == s[from + k];
    }
  }

  /**
   * filename_from_pattern(i, filename, pattern) (shenidam.py:181-200): {seq}
   * first, then {file}, {base}, {dir} and {ext}, each over the result of the
   * previous one. A pattern without '{' names the same file for every track.
   */
  function FilenameFromPattern(i: nat, filename: string, pattern: string): (name: string)
    ensures !Contains(pattern, '{') ==> name == pattern
  {
    var p := PartsOf(filename);
    var s1 := SubstituteSeq(pattern, i);
    var s2 := ReplaceAll(s1, "{file}", p.file);
    var s3 := ReplaceAll(s2, "{base}", p.base);
    var s4 := ReplaceAll(s3, "{dir}", p.dir);
    ReplaceAll(s4, "{ext}", p.ext)
  }

  /** No placeholder of filename_from_pattern starts anywhere in s. */
  predicate PlaceholderFree(s: string)
  {
    forall k :: 0 <= k < |s| ==>
      && SeqPlaceholder(s[k..]).None?
      && !StartsWith(s[k..], "{file}") && !StartsWith(s[k..], "{base}")
      && !StartsWith(s[k..], "{dir}") && !StartsWith(s[k..], "{ext}")
  }

  /** A pattern without placeholders names the same file for every track. */
  lemma PlainPatternUnchanged(i: nat, filename: string, pattern: string)
    requires PlaceholderFree(pattern)
    ensures FilenameFromPattern(i, filename, pattern) == pattern
  {
    var p := PartsOf(filename);
    SubstituteSeqNoMatch(pattern, i);
    ReplaceAllNoOccurrence(pattern, "{file}", p.file);
    ReplaceAllNoOccurrence(pattern, "{base}", p.base);
    ReplaceAllNoOccurrence(pattern, "{dir}", p.dir);
    ReplaceAllNoOccurrence(pattern, "{ext}", p.ext);
  }

  /** A pattern with a brace that opens no placeholder, such as `out{1}.wav`, is one. */
  lemma BraceWithoutPlaceholder(i: nat, filename: string)
    ensures FilenameFromPattern(i, filename, "out{1}.wav") == "out{1}.wav"
  {
    var s := "out{1}.wav";
    forall k | 0 <= k < |s|
      ensures SeqPlaceholder(s[k..]).None? && !StartsWith(s[k..], "{file}") && !StartsWith(s[k..], "{base}")
      ensures !StartsWith(s[k..], "{dir}") && !StartsWith(s[k..], "{ext}")
    {
      if |s[k..]| >= 2 {
        assert s[k..][0] == s[k] && s[k..][1] == s[k + 1];
        assert s[k] != '{' || s[k + 1] == '1';
      }
      SeqPlaceholderStart(s[k..]);
    }
    PlainPatternUnchanged(i, filename, s);
  }

  // ---------------------------------------------------------------------------
  // The named placeholders

  /** The placeholders filename_from_pattern fills in by name. */
  datatype Name = File | Base | Dir | Ext

  /** A pattern read as literal text and placeholders. */
  datatype Piece = Literal(text: string) | SeqNumber(width: Option<nat>) | Named(name: Name)

  function NameText(n: Name): (t: string)
    ensures |t| >= 2 && t[0] == '{' && t[1] != 's' && !Contains(t[1..], '{')
  {
    match n
    case File => "{file}"
    case Base => "{base}"
    case Dir => "{dir}"
    case Ext => "{ext}"
  }

  /** The substitution, after the {seq} one, that fills the placeholder in. */
  function Pass(n: Name): (k: nat)
    ensures 1 <= k <= 4
  {
    match n
    case File => 1
    case Base => 2
    case Dir => 3
    case Ext => 4
  }

  function NameValue(n: Name, p: PathParts): string
  {
    match n
    case File => p.file
    case Base => p.base
    case Dir => p.dir
    case Ext => p.ext
  }

  function SeqPlaceholderText(width: Option<nat>): string
  {
    match width
    case None => "{seq}"
    case Some(n) => "{seq/" + NatToString(n) + "}"
  }

  /** How a piece is written in a pattern. */
  function PieceText(piece: Piece): string
  {
    match piece
    case Literal(t) => t
    case SeqNumber(w) => SeqPlaceholderText(w)
    case Named(n) => NameText(n)
  }

  /** The text of a pattern made of the pieces. */
  function PatternText(pieces: seq<Piece>): string
    decreases |pieces|
  {
    if pieces == [] then "" else PieceText(pieces[0]) + PatternText(pieces[1..])
  }

  /** What a piece stands for: literal text kept, track number and path parts put in. */
  function PieceValue(piece: Piece, i: nat, p: PathParts): string
  {
    match piece
    case Literal(t) => t
    case SeqNumber(w) => SeqText(i, w)
    case Named(n) => NameValue(n, p)
  }

  /** The name the pieces promise. */
  function Filled(pieces: seq<Piece>, i: nat, p: PathParts): string
    decreases |pieces|
  {
    if pieces == [] then "" else PieceValue(pieces[0], i, p) + Filled(pieces[1..], i, p)
  }

  lemma PiecesCons(piece: Piece, rest: seq<Piece>, i: nat, p: PathParts)
    ensures PatternText([piece] + rest) == PieceText(piece) + PatternText(rest)
    ensures Filled([piece] + rest, i, p) == PieceValue(piece, i, p) + Filled(rest, i, p)
  {
    assert ([piece] + rest)[1..] == rest;
  }

  /** How a piece reads after the first `passes` of the five substitutions. */
  function PieceAfter(piece: Piece, passes: nat, i: nat, p: PathParts): string
  {
    match piece
    case Literal(t) => t
    case SeqNumber(w) => if passes == 0 then SeqPlaceholderText(w) else SeqText(i, w)
    case Named(n) => if passes > Pass(n) then NameValue(n, p) else NameText(n)
  }

  function TextAfter(pieces: seq<Piece>, passes: nat, i: nat, p: PathParts): string
    decreases |pieces|
  {
    if pieces == [] then "" else PieceAfter(pieces[0], passes, i, p) + TextAfter(pieces[1..], passes, i, p)
  }

  predicate LiteralsPlain(pieces: seq<Piece>)
  {
    forall k :: 0 <= k < |pieces| ==> pieces[k].Literal? ==> !Contains(pieces[k].text, '{')
  }

  predicate PartsPlain(p: PathParts)
  {
    !Contains(p.file, '{') && !Contains(p.base, '{') && !Contains(p.dir, '{') && !Contains(p.ext, '{')
  }

  lemma DigitsPlain(t: string)
    requires AllDigits(t)
    ensures !Contains(t, '{')
  {
  }

  lemma {:induction false} TextBeforeAnyPass(pieces: seq<Piece>, i: nat, p: PathParts)
    ensures TextAfter(pieces, 0, i, p) == PatternText(pieces)
    decreases |pieces|
  {
    if pieces != [] {
      TextBeforeAnyPass(pieces[1..], i, p);
    }
  }

  lemma {:induction false} TextAfterAllPasses(pieces: seq<Piece>, i: nat, p: PathParts)
    ensures TextAfter(pieces, 5, i, p) == Filled(pieces, i, p)
    decreases |pieces|
  {
    if pieces != [] {
      TextAfterAllPasses(pieces[1..], i, p);
    }
  }

  /** The {seq} substitution turns every track-number placeholder into the track number and nothing else. */
  lemma {:induction false} SeqPass(pieces: seq<Piece>, i: nat, p: PathParts)
    requires LiteralsPlain(pieces)
    ensures SubstituteSeq(TextAfter(pieces, 0, i, p), i) == TextAfter(pieces, 1, i, p)
    decreases |pieces|
  {
    if pieces != [] {
      var rest := TextAfter(pieces[1..], 0, i, p);
      SeqPass(pieces[1..], i, p);
      match pieces[0]
      case Literal(t) =>
        SubstituteSeqFreePrefix(t, rest, i);
      case SeqNumber(w) =>
        if w.None? {
          SeqPlainPlaceholder(i, rest);
        } else {
          assert SeqPlaceholderText(w) + rest == "{seq/" + NatToString(w.value) + "}" + rest;
          SeqWidthPlaceholder(i, w.value, rest);
        }
      case Named(n) =>
        SubstituteSeqMismatch(NameText(n), rest, i);
    }
  }

  /** The substitution for one name fills in that placeholder and leaves the rest of the text as it was. */
  lemma {:induction false} NamePass(pieces: seq<Piece>, n: Name, pass: nat, pat: string, rep: string, i: nat, p: PathParts)
    requires LiteralsPlain(pieces) && PartsPlain(p)
    requires pass == Pass(n) && pat == NameText(n) && rep == NameValue(n, p)
    ensures ReplaceAll(TextAfter(pieces, pass, i, p), pat, rep) == TextAfter(pieces, pass + 1, i, p)
    decreases |pieces|
  {
    if pieces != [] {
      var rest := TextAfter(pieces[1..], pass, i, p);
      NamePass(pieces[1..], n, pass, pat, rep, i, p);
      NamePassHead(pieces[0], rest, n, pass, pat, rep, i, p);
    }
  }

  /** One piece under the substitution for one name. */
  lemma NamePassHead(piece: Piece, rest: string, n: Name, pass: nat, pat: string, rep: string, i: nat, p: PathParts)
    requires piece.Literal? ==> !Contains(piece.text, '{')
    requires PartsPlain(p)
    requires pass == Pass(n) && pat == NameText(n) && rep == NameValue(n, p)
    ensures ReplaceAll(PieceAfter(piece, pass, i, p) + rest, pat, rep)
      == PieceAfter(piece, pass + 1, i, p) + ReplaceAll(rest, pat, rep)
  {
    match piece
    case Literal(t) =>
      ReplaceAllFreePrefix(t, rest, pat, rep);
    case SeqNumber(w) =>
      DigitsPlain(SeqText(i, w));
      ReplaceAllFreePrefix(SeqText(i, w), rest, pat, rep);
    case Named(m) =>
      if m == n {
        ReplaceAllAtMatch(pat, rest, rep);
      } else if Pass(m) < Pass(n) {
        ReplaceAllFreePrefix(NameValue(m, p), rest, pat, rep);
      } else {
        ReplaceAllMismatch(NameText(m), rest, pat, rep);
      }
  }

  /**
   * The promise of filename_from_pattern: with no '{' in the literal text of
   * the pattern nor in the file name, every {seq} and {seq/N} becomes the
   * track number, and {file}, {base}, {dir} and {ext} become the base name,
   * the base name without extension, the directory ("." when there is none)
   * and the extension.
   */
  lemma NamedPlaceholders(i: nat, filename: string, pieces: seq<Piece>)
    requires LiteralsPlain(pieces) && !Contains(filename, '{')
    ensures FilenameFromPattern(i, filename, PatternText(pieces)) == Filled(pieces, i, PartsOf(filename))
  {
    var p := PartsOf(filename);
    PartsWithoutBrace(filename);
    FilledByPasses(pieces, i, p);
  }

  /** The five substitutions, one after the other, fill the pieces in. */
  lemma FilledByPasses(pieces: seq<Piece>, i: nat, p: PathParts)
    requires LiteralsPlain(pieces) && PartsPlain(p)
    ensures
      var s1 := SubstituteSeq(PatternText(pieces), i);
      var s2 := ReplaceAll(s1, "{file}", p.file);
      var s3 := ReplaceAll(s2, "{base}", p.base);
      var s4 := ReplaceAll(s3, "{dir}", p.dir);
      ReplaceAll(s4, "{ext}", p.ext) == Filled(pieces, i, p)
  {
    NamePass(pieces, Ext, 4, "{ext}", p.ext, i, p);
    TextBeforeAnyPass(pieces, i, p);
    SeqPass(pieces, i, p);
    NamePass(pieces, File, 1, "{file}", p.file, i, p);
    NamePass(pieces, Base, 2, "{base}", p.base, i, p);
    NamePass(pieces, Dir, 3, "{dir}", p.dir, i, p);
    TextAfterAllPasses(pieces, i, p);
  }

  /** For example, "{dir}/{base}{ext}" rebuilds the path from its parts. */
  lemma DirBaseExtPattern(i: nat, filename: string)
    requires !Contains(filename, '{')
    ensures var p := PartsOf(filename);
      FilenameFromPattern(i, filename, "{dir}" + "/" + "{base}" + "{ext}") == p.dir + "/" + p.base + p.ext
  {
    var pieces := DirBaseExt();
    DirBaseExtFilled(i, PartsOf(filename));
    DirBaseExtPlain();
    NamedPlaceholders(i, filename, pieces);
  }

  function DirBaseExt(): seq<Piece>
  {
    [Named(Dir), Literal("/"), Named(Base), Named(Ext)]
  }

  lemma DirBaseExtFilled(i: nat, p: PathParts)
    ensures PatternText(DirBaseExt()) == "{dir}" + "/" + "{base}" + "{ext}"
    ensures Filled(DirBaseExt(), i, p) == p.dir + "/" + p.base + p.ext
  {
    var ext := [Named(Ext)];
    var base := [Named(Base)] + ext;
    var slash := [Literal("/")] + base;
    assert [Named(Dir)] + slash == DirBaseExt();
    DirBaseExtText(ext, base, slash);
    PiecesCons(Named(Ext), [], i, p);
    PiecesCons(Named(Base), ext, i, p);
    PiecesCons(Literal("/"), base, i, p);
    PiecesCons(Named(Dir), slash, i, p);
  }

  lemma DirBaseExtText(ext: seq<Piece>, base: seq<Piece>, slash: seq<Piece>)
    requires ext == [Named(Ext)] && base == [Named(Base)] + ext && slash == [Literal("/")] + base
    ensures PatternText([Named(Dir)] + slash) == "{dir}" + "/" + "{base}" + "{ext}"
  {
    var none := PathParts("", "", "", "");
    PiecesCons(Named(Ext), [], 0, none);
    PiecesCons(Named(Base), ext, 0, none);
    PiecesCons(Literal("/"), base, 0, none);
    PiecesCons(Named(Dir), slash, 0, none);
    Regroup("{dir}", "/", "{base}", "{ext}");
  }

  lemma Regroup(a: string, b: string, c: string, d: string)
    ensures a + (b + (c + (d + ""))) == a + b + c + d
  {
  }

  lemma DirBaseExtPlain()
    ensures LiteralsPlain(DirBaseExt())
  {
    assert !Contains("/", '{');
  }
}
