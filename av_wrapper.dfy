/**
 * The audio-visual wrapper (python/shenidam_av.py): its command-line parser
 * `parse_params`, the checks `check_params` makes before any processing, and
 * the tab-separated mapping file `save_mapping` writes.
 */
module AvWrapper {
  import opened Wrappers
  import opened Strings
  import Frontend
  import Patterns

  /** One entry of `output_params`: the output pattern, the audio-only flag and the remix parameters. */
  datatype OutputParams = OutputParams(pattern: Option<string>, audioOnly: bool, remixParams: string)

  /** The attributes of the file-processor model that the wrapper reads and writes. */
  datatype Settings = Settings(
    verbose: bool,
    quiet: bool,
    hasMappedOutput: bool,
    outputMapping: Option<string>,
    shenidam: string,
    avconv: string,
    transcodeBase: Option<bool>,
    shenidamExtraArgs: string,
    baseFn: Option<string>,
    audioExportParams: string,
    tmpDir: string,
    inputTracks: seq<string>,
    outputParams: seq<OutputParams>)

  /**
   * A freshly built model; the temporary directory is the machine's.
   * `has_mapped_output`, `output_mapping` and `avconv` are not set by the
   * model's constructor, so they start as the wrapper's own defaults.
   */
  function Defaults(tmpDir: string): (m: Settings)
    ensures m.baseFn == None && m.transcodeBase == None
    ensures m.inputTracks == [] && m.outputParams == []
    ensures m.hasMappedOutput && m.outputMapping == None
  {
    Settings(false, false, true, None, "shenidam", "avconv", None, "",
             None, "-acodec pcm_s24le -f wav", tmpDir, [], [])
  }

  // ---------------------------------------------------------------------------
  // parse_params

  /** What a stripped argument is, as the `if`/`elif` chain of parse_params tells them apart. */
  datatype Param =
    | Verbose | NoAvOutput | AudioOnly | Quiet | OutputMapping | ShenidamExecutable
    | AvconvExecutable | TranscodeBase | ShenidamParams | NoTranscodeBase | Output | Base
    | AudioExportParams | AudioRemixParams | TemporaryDirectory | Positional

  /** The option names exactly as parse_params compares them; `-n`'s long form has one dash. */
  function ParamOfAsWritten(arg: string): (p: Param)
    ensures p == NoAvOutput <==> arg == "-n" || arg == "-no-av-output"
    ensures p != Positional ==> 2 <= |arg| && arg[0] == '-'
  {
    if arg == "-v" || arg == "--verbose" then Verbose
    else if arg == "-n" || arg == "-no-av-output" then NoAvOutput
    else if arg == "-a" || arg == "--audio-only" then AudioOnly
    else if arg == "-q" || arg == "--quiet" then Quiet
    else if arg == "-m" || arg == "--output-mapping" then OutputMapping
    else if arg == "-se" || arg == "--shenidam-executable" then ShenidamExecutable
    else if arg == "-ae" || arg == "--avconv-executable" then AvconvExecutable
    else if arg == "-tb" || arg == "--transcode-base" then TranscodeBase
    else if arg == "-sp" || arg == "--shenidam-params" then ShenidamParams
    else if arg == "-ntb" || arg == "--no-transcode-base" then NoTranscodeBase
    else if arg == "-o" || arg == "--output" then Output
    else if arg == "-b" || arg == "--base" then Base
    else if arg == "-aep" || arg == "--audio-export-params" then AudioExportParams
    else if arg == "-arp" || arg == "--audio-remix-params" then AudioRemixParams
    else if arg == "-td" || arg == "--temporary-directory" then TemporaryDirectory
    else Positional
  }

  /** The advertised long form `--no-av-output` is read as the option it names. */
  function ParamOf(arg: string): (p: Param)
    ensures arg == "--no-av-output" ==> p == NoAvOutput
    ensures arg != "--no-av-output" ==> p == ParamOfAsWritten(arg)
  {
    if arg == "--no-av-output" then NoAvOutput else ParamOfAsWritten(arg)
  }

  /** The usage text offers `--no-av-output`, but the comparison as written treats it as a track name. */
  lemma LongNoAvOutputAsWritten()
    ensures ParamOfAsWritten("--no-av-output") == Positional
    ensures ParamOf("--no-av-output") == NoAvOutput
  {
  }

  predicate TakesValue(p: Param)
  {
    p == OutputMapping || p == ShenidamExecutable || p == AvconvExecutable || p == ShenidamParams
    || p == Output || p == Base || p == AudioExportParams || p == AudioRemixParams
    || p == TemporaryDirectory
  }

  predicate IsFlag(p: Param)
  {
    p != Positional && !TakesValue(p)
  }

  /** The model together with parse_params' three locals. */
  datatype Scan = Scan(m: Settings, pattern: Option<string>, audioOnly: bool, remix: Option<string>)

  /** A flag option. */
  function Flag(p: Param, s: Scan): Scan
    requires IsFlag(p)
  {
    match p
    case Verbose => s.(m := s.m.(verbose := true))
    case NoAvOutput => s.(m := s.m.(hasMappedOutput := false))
    case AudioOnly => s.(audioOnly := true)
    case Quiet => s.(m := s.m.(quiet := true))
    case TranscodeBase => s.(m := s.m.(transcodeBase := Some(true)))
    case NoTranscodeBase => s.(m := s.m.(transcodeBase := Some(false)))
  }

  /** An option with its (stripped) value. */
  function WithValue(p: Param, s: Scan, value: string): Scan
    requires TakesValue(p)
  {
    match p
    case OutputMapping => s.(m := s.m.(outputMapping := Some(value)))
    case ShenidamExecutable => s.(m := s.m.(shenidam := value))
    case AvconvExecutable => s.(m := s.m.(avconv := value))
    case ShenidamParams => s.(m := s.m.(shenidamExtraArgs := value))
    case Output => s.(pattern := Some(value))
    case Base => s.(m := s.m.(baseFn := Some(value)))
    case AudioExportParams => s.(m := s.m.(audioExportParams := value))
    case AudioRemixParams => s.(remix := Some(value))
    case TemporaryDirectory => s.(m := s.m.(tmpDir := value))
  }

  /** Where the option loop ends: at the first non-option (or the end), or on a missing value. */
  datatype Outcome = Stopped(s: Scan, next: nat) | MissingValue(s: Scan)

  /** An argument as parse_params reads it: stripped, and what the stripped text names. */
  datatype Token = Token(text: string, param: Param)

  function Classify(args: seq<string>): (toks: seq<Token>)
    ensures |toks| == |args|
    ensures forall k :: 0 <= k < |args| ==> toks[k] == Token(Strip(args[k]), ParamOf(Strip(args[k])))
  {
    seq(|args|, k requires 0 <= k < |args| => Token(Strip(args[k]), ParamOf(Strip(args[k]))))
  }

  function StripAll(args: seq<string>): (r: seq<string>)
    ensures |r| == |args| && forall k :: 0 <= k < |args| ==> r[k] == Strip(args[k])
  {
    seq(|args|, k requires 0 <= k < |args| => Strip(args[k]))
  }

  /** The option loop of parse_params from position i. */
  function Options(s: Scan, toks: seq<Token>, i: nat): (r: Outcome)
    requires i <= |toks|
    ensures r.Stopped? ==> i <= r.next <= |toks|
    ensures r.s.m.inputTracks == s.m.inputTracks && r.s.m.outputParams == s.m.outputParams
    decreases |toks| - i
  {
    if i == |toks| then Stopped(s, i)
    else
      var p := toks[i].param;
      if p == Positional then Stopped(s, i)
      else if IsFlag(p) then Options(Flag(p, s), toks, i + 1)
      else if i + 1 == |toks| then MissingValue(s)
      else Options(WithValue(p, s, toks[i + 1].text), toks, i + 2)
  }

  /** The option loop stops at the end or at an argument that names no option. */
  lemma {:induction false} StopsAtNonOption(s: Scan, toks: seq<Token>, i: nat)
    requires i <= |toks|
    ensures var r := Options(s, toks, i);
      r.Stopped? && r.next < |toks| ==> toks[r.next].param == Positional
    decreases |toks| - i
  {
    if i < |toks| {
      var p := toks[i].param;
      if p == Positional {
      } else if IsFlag(p) {
        StopsAtNonOption(Flag(p, s), toks, i + 1);
      } else if i + 1 < |toks| {
        StopsAtNonOption(WithValue(p, s, toks[i + 1].text), toks, i + 2);
      }
    }
  }

  /** The remix parameters used when `-arp` is not given. */
  function DefaultRemix(audioOnly: bool): string
  {
    if audioOnly then "-c:a copy" else "-c:v copy -c:a copy"
  }

  /**
   * parse_params on sys.argv (whose first entry is the program name): the
   * return code and the model afterwards. Attributes set before a failure stay set.
   */
  function ParamsParsed(m: Settings, args: seq<string>): (r: (int, Settings))
    requires |args| >= 1
    ensures r.0 == 0 || r.0 == 1
    ensures r.0 == 0 ==> |r.1.outputParams| == 1 && |m.inputTracks| < |r.1.inputTracks| <= |m.inputTracks| + |args| - 1
    ensures r.0 == 1 ==> r.1.inputTracks == m.inputTracks && r.1.outputParams == m.outputParams
  {
    var toks := Classify(args);
    match Options(Scan(m, None, false, None), toks, 1)
    case MissingValue(s) => (1, s.m)
    case Stopped(s, i) =>
      if i == |toks| then (1, s.m)
      else
        (0, s.m.(inputTracks := s.m.inputTracks + StripAll(args)[i..],
                 outputParams := [OutputParams(s.pattern, s.audioOnly, s.remix.GetOr(DefaultRemix(s.audioOnly)))]))
  }

  /**
   * On success the tracks are the stripped arguments from the first one that
   * is not an option to the end, in order.
   */
  lemma TracksAfterOptions(m: Settings, args: seq<string>)
    requires |args| >= 1
    ensures var r := ParamsParsed(m, args);
      r.0 == 0 ==>
        var first := |args| - (|r.1.inputTracks| - |m.inputTracks|);
        1 <= first < |args| && Classify(args)[first].param == Positional
        && r.1.inputTracks[..|m.inputTracks|] == m.inputTracks
        && forall k :: first <= k < |args| ==> r.1.inputTracks[|m.inputTracks| + k - first] == Strip(args[k])
  {
    var toks := Classify(args);
    var o := Options(Scan(m, None, false, None), toks, 1);
    StopsAtNonOption(Scan(m, None, false, None), toks, 1);
    var r := ParamsParsed(m, args);
    if o.Stopped? && o.next < |toks| {
      assert r.1.inputTracks == m.inputTracks + StripAll(args)[o.next..];
      assert |args| - (|r.1.inputTracks| - |m.inputTracks|) == o.next;
      assert toks[o.next].param == Positional;
    } else {
      assert r.0 == 1;
    }
  }

  /** An option that takes a value, reached as the last argument, fails. */
  lemma {:induction false} TrailingValueOptionFails(s: Scan, toks: seq<Token>, i: nat)
    requires 1 <= i < |toks|
    requires forall k :: i <= k < |toks| - 1 ==> IsFlag(toks[k].param)
    requires TakesValue(toks[|toks| - 1].param)
    ensures Options(s, toks, i) == MissingValue(Options(s, toks, i).s)
    decreases |toks| - i
  {
    if i < |toks| - 1 {
      TrailingValueOptionFails(Flag(toks[i].param, s), toks, i + 1);
    }
  }

  /** Flags followed by an option that is missing its value return 1. */
  lemma MissingValueFails(m: Settings, args: seq<string>)
    requires |args| >= 2
    requires forall k :: 1 <= k < |args| - 1 ==> IsFlag(Classify(args)[k].param)
    requires TakesValue(Classify(args)[|args| - 1].param)
    ensures ParamsParsed(m, args).0 == 1
  {
    TrailingValueOptionFails(Scan(m, None, false, None), Classify(args), 1);
  }

  /** When every argument is a flag, the loop runs to the end. */
  lemma {:induction false} FlagsRunToEnd(s: Scan, toks: seq<Token>, i: nat)
    requires i <= |toks|
    requires forall k :: i <= k < |toks| ==> IsFlag(toks[k].param)
    ensures Options(s, toks, i).Stopped? && Options(s, toks, i).next == |toks|
    decreases |toks| - i
  {
    if i < |toks| {
      FlagsRunToEnd(Flag(toks[i].param, s), toks, i + 1);
    }
  }

  /** Options and nothing else: there is no track, so the result is 1. */
  lemma NoTracksFails(m: Settings, args: seq<string>)
    requires |args| >= 1
    requires forall k :: 1 <= k < |args| ==> IsFlag(Classify(args)[k].param)
    ensures ParamsParsed(m, args).0 == 1
  {
    FlagsRunToEnd(Scan(m, None, false, None), Classify(args), 1);
  }

  /** Once `-n` is seen, `has_mapped_output` stays False whatever follows. */
  lemma {:induction false} MappedOutputStaysOff(s: Scan, toks: seq<Token>, i: nat)
    requires i <= |toks| && !s.m.hasMappedOutput
    ensures !Options(s, toks, i).s.m.hasMappedOutput
    decreases |toks| - i
  {
    if i < |toks| {
      var p := toks[i].param;
      if p == Positional {
      } else if IsFlag(p) {
        MappedOutputStaysOff(Flag(p, s), toks, i + 1);
      } else if i + 1 < |toks| {
        MappedOutputStaysOff(WithValue(p, s, toks[i + 1].text), toks, i + 2);
      }
    }
  }

  /** `-n` reached by the option loop switches the mapped outputs off. */
  lemma NoAvOutputSticks(s: Scan, toks: seq<Token>, i: nat)
    requires i < |toks| && toks[i].param == NoAvOutput
    ensures !Options(s, toks, i).s.m.hasMappedOutput
  {
    MappedOutputStaysOff(Flag(NoAvOutput, s), toks, i + 1);
  }

  /** Options none of which is `-tb` or `-ntb` leave `transcode_base` as it was. */
  lemma {:induction false} TranscodeChoiceKept(s: Scan, toks: seq<Token>, i: nat)
    requires i <= |toks|
    requires forall k :: i <= k < |toks| ==> toks[k].param != TranscodeBase && toks[k].param != NoTranscodeBase
    ensures Options(s, toks, i).s.m.transcodeBase == s.m.transcodeBase
    decreases |toks| - i
  {
    if i < |toks| {
      var p := toks[i].param;
      if p == Positional {
      } else if IsFlag(p) {
        TranscodeChoiceKept(Flag(p, s), toks, i + 1);
      } else if i + 1 < |toks| {
        TranscodeChoiceKept(WithValue(p, s, toks[i + 1].text), toks, i + 2);
      }
    }
  }

  /** The last of `-tb` and `-ntb` decides `transcode_base`. */
  lemma LastTranscodeChoiceWins(s: Scan, toks: seq<Token>, i: nat)
    requires i < |toks|
    requires toks[i].param == TranscodeBase || toks[i].param == NoTranscodeBase
    requires forall k :: i < k < |toks| ==> toks[k].param != TranscodeBase && toks[k].param != NoTranscodeBase
    ensures Options(s, toks, i).s.m.transcodeBase == Some(toks[i].param == TranscodeBase)
  {
    TranscodeChoiceKept(Flag(toks[i].param, s), toks, i + 1);
  }

  /** Options without `-arp` leave the remix parameters unset. */
  lemma {:induction false} RemixUnset(s: Scan, toks: seq<Token>, i: nat)
    requires i <= |toks| && s.remix == None
    requires forall k :: i <= k < |toks| ==> toks[k].param != AudioRemixParams
    ensures Options(s, toks, i).s.remix == None
    decreases |toks| - i
  {
    if i < |toks| {
      var p := toks[i].param;
      if p == Positional {
      } else if IsFlag(p) {
        RemixUnset(Flag(p, s), toks, i + 1);
      } else if i + 1 < |toks| {
        RemixUnset(WithValue(p, s, toks[i + 1].text), toks, i + 2);
      }
    }
  }

  /** Without `-arp` the single output entry carries the default remix parameters. */
  lemma DefaultRemixChosen(m: Settings, args: seq<string>)
    requires |args| >= 1
    requires forall k :: 1 <= k < |args| ==> Classify(args)[k].param != AudioRemixParams
    ensures var r := ParamsParsed(m, args);
      r.0 == 0 ==> r.1.outputParams[0].remixParams == DefaultRemix(r.1.outputParams[0].audioOnly)
  {
    RemixUnset(Scan(m, None, false, None), Classify(args), 1);
  }

  // ---------------------------------------------------------------------------
  // check_params

  /**
   * How check_params ends: it returns a code, or an exception other than
   * ModelException escapes check_model and ends the program.
   */
  datatype Checked = Returned(code: int) | Crashed(error: string)

  /**
   * The model as check_model reads it: the pattern of each output entry, and
   * the `output_tmp_dir` and `ffmpeg` that the wrapper never sets, so they
   * keep the FileProcessorModel defaults None and "ffmpeg".
   */
  function CheckedView(m: Settings): (v: Frontend.CheckedModel)
    ensures |v.patterns| == |m.outputParams| && forall k :: 0 <= k < |m.outputParams| ==> v.patterns[k] == m.outputParams[k].pattern
    ensures v.baseFn == m.baseFn && v.inputTracks == m.inputTracks && v.tmpDir == m.tmpDir && v.outputTmpDir.None?
  {
    Frontend.CheckedModel(m.baseFn, m.inputTracks, seq(|m.outputParams|, k requires 0 <= k < |m.outputParams| => m.outputParams[k].pattern),
                          m.tmpDir, None, "ffmpeg", m.shenidam)
  }

  /** The try/except around check_model: a ModelException is only printed, anything else escapes. */
  function Caught(o: Frontend.CheckOutcome): (c: Checked)
    ensures c.Crashed? <==> o.Raised?
    ensures c.Returned? ==> c.code == 0
    ensures c.Crashed? ==> c.error == o.error
  {
    if o.Raised? then Crashed(o.error) else Returned(0)
  }

  /**
   * check_params: quiet silences verbose; a missing base, no tracks, or a
   * missing or empty pattern when mapped outputs are wanted each give 1;
   * otherwise an unset `transcode_base` is filled in by asking the shenidam
   * command whether it can open the base (`canOpen(command, base)`) and
   * check_model runs against the host: its ModelException is only printed,
   * so the result is 0 unless another exception escapes it.
   */
  function ParamsChecked(m: Settings, canOpen: (string, string) -> bool, host: Frontend.Host): (r: (Checked, Settings))
    requires m.baseFn.Some? && |m.inputTracks| > 0 ==> |m.outputParams| > 0
    ensures r.1.verbose == (m.verbose && !m.quiet)
    ensures r.1 == m.(verbose := r.1.verbose, transcodeBase := r.1.transcodeBase)
    ensures r.0 == Returned(1) <==>
      !(m.baseFn.Some? && |m.inputTracks| > 0
        && !(m.hasMappedOutput && (m.outputParams[0].pattern == None || m.outputParams[0].pattern == Some(""))))
    ensures r.0 != Returned(1) ==>
      r.0 == Caught(Frontend.CheckModel(host, Patterns.FilenameFromPattern, CheckedView(m)))
    ensures r.0 == Returned(1) ==> r.1.transcodeBase == m.transcodeBase
    ensures r.0 != Returned(1) && m.transcodeBase.Some? ==> r.1.transcodeBase == m.transcodeBase
    ensures r.0 != Returned(1) && m.transcodeBase.None? ==>
      r.1.transcodeBase == Some(!canOpen(m.shenidam, m.baseFn.value))
  {
    var m := if m.quiet then m.(verbose := false) else m;
    if m.baseFn.None? then (Returned(1), m)
    else if |m.inputTracks| == 0 then (Returned(1), m)
    else
      var op := m.outputParams[0].pattern;
      if m.hasMappedOutput && (op.None? || |op.value| == 0) then (Returned(1), m)
      else
        var m := if m.transcodeBase.None? then m.(transcodeBase := Some(!canOpen(m.shenidam, m.baseFn.value))) else m;
        (Caught(Frontend.CheckModel(host, Patterns.FilenameFromPattern, CheckedView(m))), m)
  }

  /**
   * `-n` without `-o`: check_params lets the missing pattern through, and
   * once the base and the tracks can be read, filename_from_pattern meets the
   * None pattern and the TypeError ends the program.
   */
  lemma NoPatternCrashes(m: Settings, canOpen: (string, string) -> bool, host: Frontend.Host)
    requires m.baseFn.Some? && Frontend.CanRead(host, m.baseFn.value)
    requires |m.inputTracks| > 0 && forall k :: 0 <= k < |m.inputTracks| ==> Frontend.CanRead(host, m.inputTracks[k])
    requires |m.outputParams| > 0 && m.outputParams[0].pattern.None? && !m.hasMappedOutput
    ensures ParamsChecked(m, canOpen, host).0 == Crashed("TypeError")
  {
    var v := CheckedView(m);
    Frontend.NonePatternRaises(host, Patterns.FilenameFromPattern, v);
  }

  /**
   * A command line whose every file check succeeds reaches the check of the
   * output temporary directory, which the wrapper leaves None: os.path.isdir
   * raises TypeError and the program ends before any processing.
   */
  lemma ValidCommandCrashes(m: Settings, canOpen: (string, string) -> bool, host: Frontend.Host)
    requires m.baseFn.Some? && Frontend.CanRead(host, m.baseFn.value)
    requires |m.inputTracks| > 0 && forall k :: 0 <= k < |m.inputTracks| ==> Frontend.CanRead(host, m.inputTracks[k])
    requires |m.outputParams| > 0 && m.outputParams[0].pattern.Some? && m.outputParams[0].pattern != Some("")
    requires forall j, k :: 0 <= j < |m.outputParams| && 0 <= k < |m.inputTracks| ==>
      Frontend.OutputWritable(host, Patterns.FilenameFromPattern, m.outputParams[j].pattern, m.inputTracks, k)
    requires Frontend.DirUsable(host, m.tmpDir)
    ensures ParamsChecked(m, canOpen, host).0 == Crashed("TypeError")
  {
    var v := CheckedView(m);
    Frontend.MissingOutputTmpDirRaises(host, Patterns.FilenameFromPattern, v);
  }

  /**
   * main's validation `parse_params(model) or check_params(model)`: a
   * command line that passes both leaves a model ready for processing.
   */
  function Accepted(m: Settings, args: seq<string>, canOpen: (string, string) -> bool, host: Frontend.Host): (r: (Checked, Settings))
    requires |args| >= 1
    ensures r.0 == Returned(0) ==>
      r.1.baseFn.Some? && |r.1.inputTracks| > |m.inputTracks| && |r.1.outputParams| == 1
      && r.1.transcodeBase.Some? && !(r.1.quiet && r.1.verbose)
      && (r.1.hasMappedOutput ==> r.1.outputParams[0].pattern.Some? && r.1.outputParams[0].pattern.value != "")
  {
    var (code, parsed) := ParamsParsed(m, args);
    if code != 0 then (Returned(1), parsed)
    else
      ParamsChecked(parsed, canOpen, host)
  }

  /** The model object that parse_params and check_params update in place. */
  class Model {
    var verbose: bool
    var quiet: bool
    var hasMappedOutput: bool
    var outputMapping: Option<string>
    var shenidam: string
    var avconv: string
    var transcodeBase: Option<bool>
    var shenidamExtraArgs: string
    var baseFn: Option<string>
    var audioExportParams: string
    var tmpDir: string
    var inputTracks: seq<string>
    var outputParams: seq<OutputParams>

    function State(): Settings
      reads this
    {
      Settings(verbose, quiet, hasMappedOutput, outputMapping, shenidam, avconv, transcodeBase,
               shenidamExtraArgs, baseFn, audioExportParams, tmpDir, inputTracks, outputParams)
    }

    constructor (tempDir: string)
      ensures State() == Defaults(tempDir)
    {
      verbose, quiet, hasMappedOutput, outputMapping := false, false, true, None;
      shenidam, avconv, transcodeBase, shenidamExtraArgs := "shenidam", "avconv", None, "";
      baseFn, audioExportParams, tmpDir := None, "-acodec pcm_s24le -f wav", tempDir;
      inputTracks, outputParams := [], [];
    }

    /** parse_params (python/shenidam_av.py:83-161). */
    method ParseParams(args: seq<string>) returns (code: int)
      requires |args| >= 1
      modifies this
      ensures (code, State()) == ParamsParsed(old(State()), args)
    {
      var i, missing, pattern, audioOnly, remix := ScanOptions(args);
      ghost var scanned := State();
      if missing || i == |args| {
        return 1;
      }
      AppendTracks(args, i);
      if remix == None {
        remix := Some(DefaultRemix(audioOnly));
      }
      outputParams := [OutputParams(pattern, audioOnly, remix.value)];
      assert State() == scanned.(inputTracks := scanned.inputTracks + StripAll(args)[i..],
                                 outputParams := [OutputParams(pattern, audioOnly, remix.value)]);
      return 0;
    }

    /**
     * The option loop (python/shenidam_av.py:90-152): where it stopped, or
     * that an option's value was missing, with the three locals.
     */
    method ScanOptions(args: seq<string>)
      returns (i: nat, missing: bool, pattern: Option<string>, audioOnly: bool, remix: Option<string>)
      requires |args| >= 1
      modifies this
      ensures Options(Scan(old(State()), None, false, None), Classify(args), 1) ==
        if missing then MissingValue(Scan(State(), pattern, audioOnly, remix))
        else Stopped(Scan(State(), pattern, audioOnly, remix), i)
    {
      i, missing := 1, false;
      pattern, audioOnly, remix := None, false, None;
      ghost var toks := Classify(args);
      while i < |args|
        invariant 1 <= i <= |args|
        invariant Options(Scan(State(), pattern, audioOnly, remix), toks, i)
          == Options(Scan(old(State()), None, false, None), toks, 1)
        decreases |args| - i
      {
        var arg := Strip(args[i]);
        i := i + 1;
        var p := ParamOf(arg);
        assert toks[i - 1].param == p;
        if p == Positional {
          i := i - 1;
          return;
        }
        if IsFlag(p) {
          pattern, audioOnly, remix := ApplyFlag(p, pattern, audioOnly, remix);
        } else {
          if i >= |args| {
            missing := true;
            return;
          }
          var value := Strip(args[i]);
          assert toks[i].text == value;
          pattern, audioOnly, remix := ApplyValue(p, value, pattern, audioOnly, remix);
          i := i + 1;
        }
      }
    }

    /** The loop appending the stripped tracks from position i on (python/shenidam_av.py:155-157). */
    method AppendTracks(args: seq<string>, i: nat)
      requires 1 <= i <= |args|
      modifies this`inputTracks
      ensures inputTracks == old(inputTracks) + StripAll(args)[i..]
    {
      ghost var toks := StripAll(args);
      var j := i;
      while j < |args|
        invariant i <= j <= |args|
        invariant inputTracks == old(inputTracks) + toks[i..j]
        decreases |args| - j
      {
        inputTracks := inputTracks + [Strip(args[j])];
        j := j + 1;
      }
      assert toks[i..j] == toks[i..];
    }

    /** One flag of the option loop. */
    method ApplyFlag(p: Param, pattern: Option<string>, audioOnly: bool, remix: Option<string>)
      returns (pattern': Option<string>, audioOnly': bool, remix': Option<string>)
      requires IsFlag(p)
      modifies this
      ensures Scan(State(), pattern', audioOnly', remix') == Flag(p, Scan(old(State()), pattern, audioOnly, remix))
    {
      pattern', audioOnly', remix' := pattern, audioOnly, remix;
      match p {
        case Verbose => verbose := true;
        case NoAvOutput => hasMappedOutput := false;
        case AudioOnly => audioOnly' := true;
        case Quiet => quiet := true;
        case TranscodeBase => transcodeBase := Some(true);
        case NoTranscodeBase => transcodeBase := Some(false);
      }
    }

    /** One option of the loop together with its value. */
    method ApplyValue(p: Param, value: string, pattern: Option<string>, audioOnly: bool, remix: Option<string>)
      returns (pattern': Option<string>, audioOnly': bool, remix': Option<string>)
      requires TakesValue(p)
      modifies this
      ensures Scan(State(), pattern', audioOnly', remix') == WithValue(p, Scan(old(State()), pattern, audioOnly, remix), value)
    {
      pattern', audioOnly', remix' := pattern, audioOnly, remix;
      match p {
        case OutputMapping => outputMapping := Some(value);
        case ShenidamExecutable => shenidam := value;
        case AvconvExecutable => avconv := value;
        case ShenidamParams => shenidamExtraArgs := value;
        case Output => pattern' := Some(value);
        case Base => baseFn := Some(value);
        case AudioExportParams => audioExportParams := value;
        case AudioRemixParams => remix' := Some(value);
        case TemporaryDirectory => tmpDir := value;
      }
    }

    /** check_params (python/shenidam_av.py:164-183). */
    method CheckParams(canOpen: (string, string) -> bool, host: Frontend.Host) returns (outcome: Checked)
      requires baseFn.Some? && |inputTracks| > 0 ==> |outputParams| > 0
      modifies this
      ensures (outcome, State()) == ParamsChecked(old(State()), canOpen, host)
    {
      if quiet {
        verbose := false;
      }
      if baseFn.None? {
        return Returned(1);
      }
      if |inputTracks| == 0 {
        return Returned(1);
      }
      var op := outputParams[0].pattern;
      if hasMappedOutput && (op.None? || |op.value| == 0) {
        return Returned(1);
      }
      if transcodeBase.None? {
        transcodeBase := Some(!canOpen(shenidam, baseFn.value));
      }
      outcome := Caught(Frontend.CheckModel(host, Patterns.FilenameFromPattern, CheckedView(State())));
    }
  }

  // ---------------------------------------------------------------------------
  // save_mapping

  /** Where a track was placed: the `determined_in` and `determined_length` values, as text. */
  datatype Placement = Placement(determinedIn: string, determinedLength: string)

  const MappingHeader: string := "FILE\tIN\tLENGTH"

  function MappingRow(filename: string, x: Placement): string
  {
    filename + "\t" + x.determinedIn + "\t" + x.determinedLength
  }

  /** One row per pair of `zip(input_tracks, mapping)`: as many as the shorter list. */
  function MappingRows(tracks: seq<string>, mapping: seq<Placement>): (rows: seq<string>)
    ensures |rows| == if |tracks| < |mapping| then |tracks| else |mapping|
    ensures forall k :: 0 <= k < |rows| ==> rows[k] == MappingRow(tracks[k], mapping[k])
  {
    var n := if |tracks| < |mapping| then |tracks| else |mapping|;
    seq(n, k requires 0 <= k < n => MappingRow(tracks[k], mapping[k]))
  }

  /** Each line followed by a newline. */
  function Lines(ls: seq<string>): string
  {
    if ls == [] then "" else Lines(ls[..|ls| - 1]) + ls[|ls| - 1] + "\n"
  }

  function MappingText(tracks: seq<string>, mapping: seq<Placement>): string
  {
    Lines([MappingHeader] + MappingRows(tracks, mapping))
  }

  /**
   * save_mapping (python/shenidam_av.py:213-218): the file name and the text
   * written, or nothing when `output_mapping` is None or empty.
   */
  method SaveMapping(outputMapping: Option<string>, tracks: seq<string>, mapping: seq<Placement>)
    returns (written: Option<(string, string)>)
    ensures written == if outputMapping.Some? && outputMapping.value != ""
      then Some((outputMapping.value, MappingText(tracks, mapping))) else None
  {
    if outputMapping.None? || outputMapping.value == "" {
      return None;
    }
    var text := MappingHeader + "\n";
    var k := 0;
    ghost var rows := MappingRows(tracks, mapping);
    assert Lines([MappingHeader]) == MappingHeader + "\n" by {
      assert [MappingHeader][..0] == [];
    }
    while k < |tracks| && k < |mapping|
      invariant 0 <= k <= |rows|
      invariant text == Lines([MappingHeader] + rows[..k])
      decreases |tracks| - k
    {
      assert ([MappingHeader] + rows[..k + 1])[..k + 1] == [MappingHeader] + rows[..k];
      text := text + MappingRow(tracks[k], mapping[k]) + "\n";
      k := k + 1;
    }
    assert rows[..k] == rows;
    return Some((outputMapping.value, text));
  }

  /** Joining lines and a final piece with newlines is writing each line with its newline. */
  lemma {:induction false} LinesJoin(ls: seq<string>, last: string)
    ensures Join(ls + [last], '\n') == Lines(ls) + last
    decreases |ls|
  {
    if ls != [] {
      var init := ls[..|ls| - 1];
      var x := ls[|ls| - 1];
      assert ls == init + [x];
      assert ls + [last] == (init + [x]) + [last];
      JoinSnoc(init + [x], last, '\n');
      LinesJoin(init, x);
    }
  }

  /** A mapping row holds no newline and splits at its tabs into the track name and the two placement values. */
  lemma RowFields(filename: string, x: Placement)
    requires !Contains(filename, '\t') && !Contains(x.determinedIn, '\t') && !Contains(x.determinedLength, '\t')
    requires !Contains(filename, '\n') && !Contains(x.determinedIn, '\n') && !Contains(x.determinedLength, '\n')
    ensures !Contains(MappingRow(filename, x), '\n')
    ensures Split(MappingRow(filename, x), '\t') == [filename, x.determinedIn, x.determinedLength]
  {
    var pieces := [filename, x.determinedIn, x.determinedLength];
    assert Join(pieces[1..], '\t') == x.determinedIn + ['\t'] + x.determinedLength by {
      assert pieces[1..][1..] == [x.determinedLength];
    }
    assert Join(pieces, '\t') == MappingRow(filename, x);
    SplitJoin(pieces, '\t');
    Frontend.NoSeparatorInConcat(filename, "\t", '\n');
    Frontend.NoSeparatorInConcat(filename + "\t", x.determinedIn, '\n');
    Frontend.NoSeparatorInConcat(filename + "\t" + x.determinedIn, "\t", '\n');
    Frontend.NoSeparatorInConcat(filename + "\t" + x.determinedIn + "\t", x.determinedLength, '\n');
  }

  /**
   * The mapping file reads back line by line: the header, one row per track
   * and placement, and nothing after the last newline; each row splits into
   * its three fields.
   */
  lemma MappingFileReadsBack(tracks: seq<string>, mapping: seq<Placement>)
    requires forall k :: 0 <= k < |tracks| ==> !Contains(tracks[k], '\t') && !Contains(tracks[k], '\n')
    requires forall k :: 0 <= k < |mapping| ==>
      !Contains(mapping[k].determinedIn, '\t') && !Contains(mapping[k].determinedIn, '\n')
      && !Contains(mapping[k].determinedLength, '\t') && !Contains(mapping[k].determinedLength, '\n')
    ensures Split(MappingText(tracks, mapping), '\n') == [MappingHeader] + MappingRows(tracks, mapping) + [""]
    ensures forall k :: 0 <= k < |MappingRows(tracks, mapping)| ==>
      Split(MappingRows(tracks, mapping)[k], '\t') == [tracks[k], mapping[k].determinedIn, mapping[k].determinedLength]
  {
    RowsHoldFields(tracks, mapping);
    var lines := [MappingHeader] + MappingRows(tracks, mapping) + [""];
    MappingLines(tracks, mapping);
    SplitJoin(lines, '\n');
  }

  /** Every mapping row is free of newlines and splits into its three fields. */
  lemma RowsHoldFields(tracks: seq<string>, mapping: seq<Placement>)
    requires forall k :: 0 <= k < |tracks| ==> !Contains(tracks[k], '\t') && !Contains(tracks[k], '\n')
    requires forall k :: 0 <= k < |mapping| ==>
      !Contains(mapping[k].determinedIn, '\t') && !Contains(mapping[k].determinedIn, '\n')
      && !Contains(mapping[k].determinedLength, '\t') && !Contains(mapping[k].determinedLength, '\n')
    ensures forall k :: 0 <= k < |MappingRows(tracks, mapping)| ==>
      !Contains(MappingRows(tracks, mapping)[k], '\n')
      && Split(MappingRows(tracks, mapping)[k], '\t') == [tracks[k], mapping[k].determinedIn, mapping[k].determinedLength]
  {
    var rows := MappingRows(tracks, mapping);
    forall k | 0 <= k < |rows|
      ensures !Contains(rows[k], '\n')
      ensures Split(rows[k], '\t') == [tracks[k], mapping[k].determinedIn, mapping[k].determinedLength]
    {
      RowFields(tracks[k], mapping[k]);
    }
  }

  /** The mapping text is its lines joined by newlines, none of which holds a newline itself. */
  lemma MappingLines(tracks: seq<string>, mapping: seq<Placement>)
    requires forall k :: 0 <= k < |MappingRows(tracks, mapping)| ==> !Contains(MappingRows(tracks, mapping)[k], '\n')
    ensures var lines := [MappingHeader] + MappingRows(tracks, mapping) + [""];
      && (forall k :: 0 <= k < |lines| ==> !Contains(lines[k], '\n'))
      && Join(lines, '\n') == MappingText(tracks, mapping)
  {
    var rows := MappingRows(tracks, mapping);
    var lines := [MappingHeader] + rows + [""];
    assert !Contains(MappingHeader, '\n') by {
      assert MappingHeader == ['F', 'I', 'L', 'E', '\t', 'I', 'N', '\t', 'L', 'E', 'N', 'G', 'T', 'H'];
    }
    forall k | 0 <= k < |lines|
      ensures !Contains(lines[k], '\n')
    {
      if 0 < k < |lines| - 1 {
        assert lines[k] == rows[k - 1];
      }
    }
    LinesJoin([MappingHeader] + rows, "");
    assert lines == ([MappingHeader] + rows) + [""];
    assert Lines([MappingHeader] + rows) + "" == Lines([MappingHeader] + rows);
  }
}
