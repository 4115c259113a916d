/**
 * The older audio-visual wrapper (shenidam-av.py): its command-line parser
 * `parse_params` and the checks `check_params` makes before processing. It
 * drives ffmpeg rather than avconv, has no mapped-output or mapping-file
 * options, and keeps the output entry in an attribute of its own.
 */
module AvLegacy {
  import opened Wrappers
  import opened Strings
  import AvWrapper

  /** The attributes of the file-processor model that this wrapper reads and writes. */
  datatype Settings = Settings(
    verbose: bool,
    quiet: bool,
    shenidam: string,
    ffmpeg: string,
    transcodeBase: Option<bool>,
    shenidamExtraArgs: string,
    baseFn: Option<string>,
    audioExportParams: string,
    tmpDir: string,
    inputTracks: seq<string>,
    outputPatterns: seq<AvWrapper.OutputParams>)

  /**
   * A freshly built FileProcessorModel (shenidam.py:366-381); the temporary
   * directory is the machine's. `outputPatterns` is empty until parse_params
   * succeeds (the attribute does not exist before that).
   */
  function Defaults(tmpDir: string): (m: Settings)
    ensures m.baseFn == None && m.transcodeBase == None && !m.verbose && !m.quiet
    ensures m.inputTracks == [] && m.outputPatterns == []
    ensures m.shenidam == "shenidam" && m.ffmpeg == "ffmpeg"
  {
    Settings(false, false, "shenidam", "ffmpeg", None, "", None, "-acodec pcm_s24le -f wav", tmpDir, [], [])
  }

  // ---------------------------------------------------------------------------
  // parse_params

  /** What a stripped argument is, as the `if`/`elif` chain of parse_params tells them apart. */
  datatype Param =
    | Verbose | AudioOnly | Quiet | ShenidamExecutable | FfmpegExecutable | TranscodeBase
    | ShenidamParams | NoTranscodeBase | Output | Base | AudioExportParams | AudioRemixParams
    | TemporaryDirectory | Positional

  function ParamOf(arg: string): Param
  {
    if arg == "-v" || arg == "--verbose" then Verbose
    else if arg == "-a" || arg == "--audio-only" then AudioOnly
    else if arg == "-q" || arg == "--quiet" then Quiet
    else if arg == "-se" || arg == "--shenidam-executable" then ShenidamExecutable
    else if arg == "-fe" || arg == "--ffmpeg-executable" then FfmpegExecutable
    else if arg == "-tb" || arg == "--transcode-base" then TranscodeBase
    else if arg == "-sp" || arg == "--shenidam-params" then ShenidamParams
    else if arg == "-ntb" || arg == "--no-transcode-base" then NoTranscodeBase
    else if arg == "-o" || arg == "--output" then Output
    else if arg == "-b" || arg == "--base" then Base
    else if arg == "-aep" || arg == "--audio-export-params" then AudioExportParams
    else if arg == "-arp" || arg == "--audio-remix-params" then AudioRemixParams
    else if arg == "-td" || arg == "--temporary-directory" then TemporaryDirectory
    else Positional
  }

  predicate TakesValue(p: Param)
  {
    p == ShenidamExecutable || p == FfmpegExecutable || p == ShenidamParams || p == Output
    || p == Base || p == AudioExportParams || p == AudioRemixParams || p == TemporaryDirectory
  }

  predicate IsFlag(p: Param)
  {
    p != Positional && !TakesValue(p)
  }

  /** The model together with parse_params' three locals. */
  datatype Scan = Scan(m: Settings, pattern: Option<string>, audioOnly: bool, remix: Option<string>)

  /** A flag option. */
  function Flag(p: Param, s: Scan): Scan
    requires IsFlag(p)
  {
    match p
    case Verbose => s.(m := s.m.(verbose := true))
    case AudioOnly => s.(audioOnly := true)
    case Quiet => s.(m := s.m.(quiet := true))
    case TranscodeBase => s.(m := s.m.(transcodeBase := Some(true)))
    case NoTranscodeBase => s.(m := s.m.(transcodeBase := Some(false)))
  }

  /** An option with its (stripped) value. */
  function WithValue(p: Param, s: Scan, value: string): Scan
    requires TakesValue(p)
  {
    match p
    case ShenidamExecutable => s.(m := s.m.(shenidam := value))
    case FfmpegExecutable => s.(m := s.m.(ffmpeg := value))
    case ShenidamParams => s.(m := s.m.(shenidamExtraArgs := value))
    case Output => s.(pattern := Some(value))
    case Base => s.(m := s.m.(baseFn := Some(value)))
    case AudioExportParams => s.(m := s.m.(audioExportParams := value))
    case AudioRemixParams => s.(remix := Some(value))
    case TemporaryDirectory => s.(m := s.m.(tmpDir := value))
  }

  /** Where the option loop ends: at the first non-option (or the end), or on a missing value. */
  datatype Outcome = Stopped(s: Scan, next: nat) | MissingValue(s: Scan)

  /** An argument as parse_params reads it: stripped, and what the stripped text names. */
  datatype Token = Token(text: string, param: Param)

  function Classify(args: seq<string>): (toks: seq<Token>)
    ensures |toks| == |args|
    ensures forall k :: 0 <= k < |args| ==> toks[k] == Token(Strip(args[k]), ParamOf(Strip(args[k])))
  {
    seq(|args|, k requires 0 <= k < |args| => Token(Strip(args[k]), ParamOf(Strip(args[k]))))
  }

  /** The option loop of parse_params from position i. */
  function Options(s: Scan, toks: seq<Token>, i: nat): (r: Outcome)
    requires i <= |toks|
    ensures r.Stopped? ==> i <= r.next <= |toks|
    ensures r.s.m.inputTracks == s.m.inputTracks && r.s.m.outputPatterns == s.m.outputPatterns
    decreases |toks| - i
  {
    if i == |toks| then Stopped(s, i)
    else
      var p := toks[i].param;
      if p == Positional then Stopped(s, i)
      else if IsFlag(p) then Options(Flag(p, s), toks, i + 1)
      else if i + 1 == |toks| then MissingValue(s)
      else Options(WithValue(p, s, toks[i + 1].text), toks, i + 2)
  }

  /** The option loop stops at the end or at an argument that names no option. */
  lemma {:induction false} StopsAtNonOption(s: Scan, toks: seq<Token>, i: nat)
    requires i <= |toks|
    ensures var r := Options(s, toks, i);
      r.Stopped? && r.next < |toks| ==> toks[r.next].param == Positional
    decreases |toks| - i
  {
    if i < |toks| {
      var p := toks[i].param;
      if p == Positional {
      } else if IsFlag(p) {
        StopsAtNonOption(Flag(p, s), toks, i + 1);
      } else if i + 1 < |toks| {
        StopsAtNonOption(WithValue(p, s, toks[i + 1].text), toks, i + 2);
      }
    }
  }

  /** The remix parameters used when `-arp` is not given, in ffmpeg's older option names. */
  function DefaultRemix(audioOnly: bool): string
  {
    if audioOnly then "-acodec copy" else "-vcodec copy -acodec copy"
  }

  /**
   * parse_params on sys.argv (whose first entry is the program name): the
   * return code and the model afterwards. Attributes set before a failure stay set.
   */
  function ParamsParsed(m: Settings, args: seq<string>): (r: (int, Settings))
    requires |args| >= 1
    ensures r.0 == 0 || r.0 == 1
    ensures r.0 == 0 ==> |r.1.outputPatterns| == 1 && |m.inputTracks| < |r.1.inputTracks| <= |m.inputTracks| + |args| - 1
    ensures r.0 == 1 ==> r.1.inputTracks == m.inputTracks && r.1.outputPatterns == m.outputPatterns
  {
    var toks := Classify(args);
    match Options(Scan(m, None, false, None), toks, 1)
    case MissingValue(s) => (1, s.m)
    case Stopped(s, i) =>
      if i == |toks| then (1, s.m)
      else
        (0, s.m.(inputTracks := s.m.inputTracks + AvWrapper.StripAll(args)[i..],
                 outputPatterns := [AvWrapper.OutputParams(s.pattern, s.audioOnly, s.remix.GetOr(DefaultRemix(s.audioOnly)))]))
  }

  /**
   * On success the tracks are the stripped arguments from the first one that
   * is not an option to the end, in order.
   */
  lemma TracksAfterOptions(m: Settings, args: seq<string>)
    requires |args| >= 1
    ensures var r := ParamsParsed(m, args);
      r.0 == 0 ==>
        var first := |args| - (|r.1.inputTracks| - |m.inputTracks|);
        1 <= first < |args| && Classify(args)[first].param == Positional
        && r.1.inputTracks[..|m.inputTracks|] == m.inputTracks
        && forall k :: first <= k < |args| ==> r.1.inputTracks[|m.inputTracks| + k - first] == Strip(args[k])
  {
    var toks := Classify(args);
    var o := Options(Scan(m, None, false, None), toks, 1);
    StopsAtNonOption(Scan(m, None, false, None), toks, 1);
    var r := ParamsParsed(m, args);
    if o.Stopped? && o.next < |toks| {
      assert r.1.inputTracks == m.inputTracks + AvWrapper.StripAll(args)[o.next..];
      assert |args| - (|r.1.inputTracks| - |m.inputTracks|) == o.next;
      assert toks[o.next].param == Positional;
    } else {
      assert r.0 == 1;
    }
  }

  /** An option that takes a value, reached as the last argument, fails. */
  lemma {:induction false} TrailingValueOptionFails(s: Scan, toks: seq<Token>, i: nat)
    requires 1 <= i < |toks|
    requires forall k :: i <= k < |toks| - 1 ==> IsFlag(toks[k].param)
    requires TakesValue(toks[|toks| - 1].param)
    ensures Options(s, toks, i) == MissingValue(Options(s, toks, i).s)
    decreases |toks| - i
  {
    if i < |toks| - 1 {
      TrailingValueOptionFails(Flag(toks[i].param, s), toks, i + 1);
    }
  }

  /** Flags followed by an option that is missing its value return 1. */
  lemma MissingValueFails(m: Settings, args: seq<string>)
    requires |args| >= 2
    requires forall k :: 1 <= k < |args| - 1 ==> IsFlag(Classify(args)[k].param)
    requires TakesValue(Classify(args)[|args| - 1].param)
    ensures ParamsParsed(m, args).0 == 1
  {
    TrailingValueOptionFails(Scan(m, None, false, None), Classify(args), 1);
  }

  /** When every argument is a flag, the loop runs to the end. */
  lemma {:induction false} FlagsRunToEnd(s: Scan, toks: seq<Token>, i: nat)
    requires i <= |toks|
    requires forall k :: i <= k < |toks| ==> IsFlag(toks[k].param)
    ensures Options(s, toks, i).Stopped? && Options(s, toks, i).next == |toks|
    decreases |toks| - i
  {
    if i < |toks| {
      FlagsRunToEnd(Flag(toks[i].param, s), toks, i + 1);
    }
  }

  /** Options and nothing else: there is no track, so the result is 1. */
  lemma NoTracksFails(m: Settings, args: seq<string>)
    requires |args| >= 1
    requires forall k :: 1 <= k < |args| ==> IsFlag(Classify(args)[k].param)
    ensures ParamsParsed(m, args).0 == 1
  {
    FlagsRunToEnd(Scan(m, None, false, None), Classify(args), 1);
  }

  /** Options none of which is `-tb` or `-ntb` leave `transcode_base` as it was. */
  lemma {:induction false} TranscodeChoiceKept(s: Scan, toks: seq<Token>, i: nat)
    requires i <= |toks|
    requires forall k :: i <= k < |toks| ==> toks[k].param != TranscodeBase && toks[k].param != NoTranscodeBase
    ensures Options(s, toks, i).s.m.transcodeBase == s.m.transcodeBase
    decreases |toks| - i
  {
    if i < |toks| {
      var p := toks[i].param;
      if p == Positional {
      } else if IsFlag(p) {
        TranscodeChoiceKept(Flag(p, s), toks, i + 1);
      } else if i + 1 < |toks| {
        TranscodeChoiceKept(WithValue(p, s, toks[i + 1].text), toks, i + 2);
      }
    }
  }

  /** The last of `-tb` and `-ntb` decides `transcode_base`. */
  lemma LastTranscodeChoiceWins(s: Scan, toks: seq<Token>, i: nat)
    requires i < |toks|
    requires toks[i].param == TranscodeBase || toks[i].param == NoTranscodeBase
    requires forall k :: i < k < |toks| ==> toks[k].param != TranscodeBase && toks[k].param != NoTranscodeBase
    ensures Options(s, toks, i).s.m.transcodeBase == Some(toks[i].param == TranscodeBase)
  {
    TranscodeChoiceKept(Flag(toks[i].param, s), toks, i + 1);
  }

  /** Options without `-arp` leave the remix parameters unset. */
  lemma {:induction false} RemixUnset(s: Scan, toks: seq<Token>, i: nat)
    requires i <= |toks| && s.remix == None
    requires forall k :: i <= k < |toks| ==> toks[k].param != AudioRemixParams
    ensures Options(s, toks, i).s.remix == None
    decreases |toks| - i
  {
    if i < |toks| {
      var p := toks[i].param;
      if p == Positional {
      } else if IsFlag(p) {
        RemixUnset(Flag(p, s), toks, i + 1);
      } else if i + 1 < |toks| {
        RemixUnset(WithValue(p, s, toks[i + 1].text), toks, i + 2);
      }
    }
  }

  /** Without `-arp` the single output entry carries the default remix parameters. */
  lemma DefaultRemixChosen(m: Settings, args: seq<string>)
    requires |args| >= 1
    requires forall k :: 1 <= k < |args| ==> Classify(args)[k].param != AudioRemixParams
    ensures var r := ParamsParsed(m, args);
      r.0 == 0 ==> r.1.outputPatterns[0].remixParams == DefaultRemix(r.1.outputPatterns[0].audioOnly)
  {
    RemixUnset(Scan(m, None, false, None), Classify(args), 1);
  }

  // ---------------------------------------------------------------------------
  // check_params

  /**
   * check_params: quiet silences verbose; a missing base, no tracks, a
   * missing or empty output pattern, an empty shenidam command or an empty
   * ffmpeg command each give 1; otherwise an unset `transcode_base` is filled
   * in by asking the shenidam command whether it can open the base
   * (`canOpen(command, base)`).
   */
  function ParamsChecked(m: Settings, canOpen: (string, string) -> bool): (r: (int, Settings))
    requires m.baseFn.Some? && |m.inputTracks| > 0 ==> |m.outputPatterns| > 0
    ensures r.1.verbose == (m.verbose && !m.quiet)
    ensures r.1 == m.(verbose := r.1.verbose, transcodeBase := r.1.transcodeBase)
    ensures r.0 == 0 <==>
      m.baseFn.Some? && |m.inputTracks| > 0
      && m.outputPatterns[0].pattern.Some? && m.outputPatterns[0].pattern.value != ""
      && m.shenidam != "" && m.ffmpeg != ""
    ensures r.0 == 1 ==> r.1.transcodeBase == m.transcodeBase
    ensures r.0 == 0 && m.transcodeBase.Some? ==> r.1.transcodeBase == m.transcodeBase
    ensures r.0 == 0 && m.transcodeBase.None? ==>
      r.1.transcodeBase == Some(!canOpen(m.shenidam, m.baseFn.value))
  {
    var m := if m.quiet then m.(verbose := false) else m;
    if m.baseFn.None? then (1, m)
    else if |m.inputTracks| == 0 then (1, m)
    else
      var op := m.outputPatterns[0].pattern;
      if op.None? || |op.value| == 0 then (1, m)
      else if |m.shenidam| == 0 then (1, m)
      else if |m.ffmpeg| == 0 then (1, m)
      else if m.transcodeBase.None? then (0, m.(transcodeBase := Some(!canOpen(m.shenidam, m.baseFn.value))))
      else (0, m)
  }

  /**
   * main's validation `parse_params(model) or check_params(model)`: a
   * command line that passes both leaves a model ready for processing.
   */
  function Accepted(m: Settings, args: seq<string>, canOpen: (string, string) -> bool): (r: (int, Settings))
    requires |args| >= 1
    ensures r.0 == 0 ==>
      r.1.baseFn.Some? && |r.1.inputTracks| > |m.inputTracks| && |r.1.outputPatterns| == 1
      && r.1.transcodeBase.Some? && !(r.1.quiet && r.1.verbose)
      && r.1.outputPatterns[0].pattern.Some? && r.1.outputPatterns[0].pattern.value != ""
      && r.1.shenidam != "" && r.1.ffmpeg != ""
  {
    var (code, parsed) := ParamsParsed(m, args);
    if code != 0 then (1, parsed)
    else
      var (checked, m') := ParamsChecked(parsed, canOpen);
      if checked != 0 then (1, m') else (0, m')
  }

  /** The model object that parse_params and check_params update in place. */
  class Model {
    var verbose: bool
    var quiet: bool
    var shenidam: string
    var ffmpeg: string
    var transcodeBase: Option<bool>
    var shenidamExtraArgs: string
    var baseFn: Option<string>
    var audioExportParams: string
    var tmpDir: string
    var inputTracks: seq<string>
    var outputPatterns: seq<AvWrapper.OutputParams>

    function State(): Settings
      reads this
    {
      Settings(verbose, quiet, shenidam, ffmpeg, transcodeBase, shenidamExtraArgs, baseFn,
               audioExportParams, tmpDir, inputTracks, outputPatterns)
    }

    constructor (tempDir: string)
      ensures State() == Defaults(tempDir)
    {
      verbose, quiet, shenidam, ffmpeg := false, false, "shenidam", "ffmpeg";
      transcodeBase, shenidamExtraArgs, baseFn := None, "", None;
      audioExportParams, tmpDir := "-acodec pcm_s24le -f wav", tempDir;
      inputTracks, outputPatterns := [], [];
    }

    /** parse_params (shenidam-av.py:81-151). */
    method ParseParams(args: seq<string>) returns (code: int)
      requires |args| >= 1
      modifies this
      ensures (code, State()) == ParamsParsed(old(State()), args)
    {
      var i, missing, pattern, audioOnly, remix := ScanOptions(args);
      ghost var scanned := State();
      if missing || i == |args| {
        return 1;
      }
      AppendTracks(args, i);
      if remix == None {
        remix := Some(DefaultRemix(audioOnly));
      }
      outputPatterns := [AvWrapper.OutputParams(pattern, audioOnly, remix.value)];
      assert State() == scanned.(inputTracks := scanned.inputTracks + AvWrapper.StripAll(args)[i..],
                                 outputPatterns := [AvWrapper.OutputParams(pattern, audioOnly, remix.value)]);
      return 0;
    }

    /**
     * The option loop (shenidam-av.py:88-143): where it stopped, or that an
     * option's value was missing, with the three locals.
     */
    method ScanOptions(args: seq<string>)
      returns (i: nat, missing: bool, pattern: Option<string>, audioOnly: bool, remix: Option<string>)
      requires |args| >= 1
      modifies this
      ensures Options(Scan(old(State()), None, false, None), Classify(args), 1) ==
        if missing then MissingValue(Scan(State(), pattern, audioOnly, remix))
        else Stopped(Scan(State(), pattern, audioOnly, remix), i)
    {
      i, missing := 1, false;
      pattern, audioOnly, remix := None, false, None;
      ghost var toks := Classify(args);
      while i < |args|
        invariant 1 <= i <= |args|
        invariant Options(Scan(State(), pattern, audioOnly, remix), toks, i)
          == Options(Scan(old(State()), None, false, None), toks, 1)
        decreases |args| - i
      {
        var arg := Strip(args[i]);
        i := i + 1;
        var p := ParamOf(arg);
        assert toks[i - 1].param == p;
        if p == Positional {
          i := i - 1;
          return;
        }
        if IsFlag(p) {
          pattern, audioOnly, remix := ApplyFlag(p, pattern, audioOnly, remix);
        } else {
          if i >= |args| {
            missing := true;
            return;
          }
          var value := Strip(args[i]);
          assert toks[i].text == value;
          pattern, audioOnly, remix := ApplyValue(p, value, pattern, audioOnly, remix);
          i := i + 1;
        }
      }
    }

    /** The loop appending the stripped tracks from position i on (shenidam-av.py:146-147). */
    method AppendTracks(args: seq<string>, i: nat)
      requires 1 <= i <= |args|
      modifies this`inputTracks
      ensures inputTracks == old(inputTracks) + AvWrapper.StripAll(args)[i..]
    {
      ghost var stripped := AvWrapper.StripAll(args);
      var j := i;
      while j < |args|
        invariant i <= j <= |args|
        invariant inputTracks == old(inputTracks) + stripped[i..j]
        decreases |args| - j
      {
        inputTracks := inputTracks + [Strip(args[j])];
        j := j + 1;
      }
      assert stripped[i..j] == stripped[i..];
    }

    /** One flag of the option loop. */
    method ApplyFlag(p: Param, pattern: Option<string>, audioOnly: bool, remix: Option<string>)
      returns (pattern': Option<string>, audioOnly': bool, remix': Option<string>)
      requires IsFlag(p)
      modifies this
      ensures Scan(State(), pattern', audioOnly', remix') == Flag(p, Scan(old(State()), pattern, audioOnly, remix))
    {
      pattern', audioOnly', remix' := pattern, audioOnly, remix;
      match p {
        case Verbose => verbose := true;
        case AudioOnly => audioOnly' := true;
        case Quiet => quiet := true;
        case TranscodeBase => transcodeBase := Some(true);
        case NoTranscodeBase => transcodeBase := Some(false);
      }
    }

    /** One option of the loop together with its value. */
    method ApplyValue(p: Param, value: string, pattern: Option<string>, audioOnly: bool, remix: Option<string>)
      returns (pattern': Option<string>, audioOnly': bool, remix': Option<string>)
      requires TakesValue(p)
      modifies this
      ensures Scan(State(), pattern', audioOnly', remix') == WithValue(p, Scan(old(State()), pattern, audioOnly, remix), value)
    {
      pattern', audioOnly', remix' := pattern, audioOnly, remix;
      match p {
        case ShenidamExecutable => shenidam := value;
        case FfmpegExecutable => ffmpeg := value;
        case ShenidamParams => shenidamExtraArgs := value;
        case Output => pattern' := Some(value);
        case Base => baseFn := Some(value);
        case AudioExportParams => audioExportParams := value;
        case AudioRemixParams => remix' := Some(value);
        case TemporaryDirectory => tmpDir := value;
      }
    }

    /** check_params (shenidam-av.py:154-175). */
    method CheckParams(canOpen: (string, string) -> bool) returns (code: int)
      requires baseFn.Some? && |inputTracks| > 0 ==> |outputPatterns| > 0
      modifies this
      ensures (code, State()) == ParamsChecked(old(State()), canOpen)
    {
      if quiet {
        verbose := false;
      }
      if baseFn.None? {
        return 1;
      }
      if |inputTracks| == 0 {
        return 1;
      }
      var op := outputPatterns[0].pattern;
      if op.None? || |op.value| == 0 {
        return 1;
      }
      if |shenidam| == 0 {
        return 1;
      }
      if |ffmpeg| == 0 {
        return 1;
      }
      if transcodeBase.None? {
        transcodeBase := Some(!canOpen(shenidam, baseFn.value));
      }
      return 0;
    }
  }
}
