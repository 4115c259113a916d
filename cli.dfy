/**
 * The command-line front end of shenidam (shenidam_main.cpp): the global
 * option state and the parse_options state machine over argv, the run-mode
 * decision of main, the majority vote of test_n, and the MESSAGE: lines
 * send_message writes to standard output.
 */
module Cli {
  import opened Strings

  // ---------------------------------------------------------------------------
  // Option state

  /** The program's global option variables, as one value. */
  datatype Config = Config(
    quiet: bool,
    test: bool,
    verbose: bool,
    baseSet: bool,
    defaultOutput: bool,
    sendMessages: bool,
    canOpenMode: bool,
    sizeTestTrack: real,
    inTracks: seq<string>,
    outTracks: seq<string>,
    baseFilename: string,
    sampleRate: real,
    numFiles: int,
    threshold: real,
    numTries: int,
    returnOnly: bool)

  /** The initial values of the globals (shenidam_main.cpp:67-82). */
  const Initial: Config := Config(
    quiet := false, test := false, verbose := false, baseSet := false,
    defaultOutput := false, sendMessages := false, canOpenMode := false,
    sizeTestTrack := 300.0, inTracks := [], outTracks := [], baseFilename := "",
    sampleRate := 16000.0, numFiles := 0, threshold := 1.0, numTries := 5,
    returnOnly := false)

  /** What one option does: parsing goes on at `next`, or parse_options returns `code`. */
  datatype Step = Continue(cfg: Config, next: nat) | Stop(code: int, cfg: Config)

  /** What parse_options returns, with the globals it leaves behind. */
  datatype Parsed = Parsed(code: int, cfg: Config)

  /** The options parse_options recognises, each under its short and its long name. */
  datatype OptionKind =
    | Quiet | ReturnOnly | Test | Verbose | NumberTracks | Base | Input | Output
    | DefaultOutput | SendMessages | SampleRate | NumTries | TestThreshold
    | TestTrackSize | CanOpenBase | Unknown

  /** The short and the long name of each option, as parse_options compares them (shenidam_main.cpp:206-345). */
  function NamesOf(kind: OptionKind): (names: (string, string))
    requires kind != Unknown
  {
    match kind
    case Quiet => ("-q", "--quiet")
    case ReturnOnly => ("-r", "--shenidam-return-only")
    case Test => ("-t", "--test")
    case Verbose => ("-v", "--verbose")
    case NumberTracks => ("-n", "--number-tracks")
    case Base => ("-b", "--base")
    case Input => ("-i", "--input")
    case Output => ("-o", "--output")
    case DefaultOutput => ("-d", "--default-output")
    case SendMessages => ("-m", "--send-messages")
    case SampleRate => ("-s", "--sample-rate")
    case NumTries => ("-nt", "--num-tries")
    case TestThreshold => ("-tt", "--test-threshold")
    case TestTrackSize => ("-ts", "--test-track-size")
    case CanOpenBase => ("-c", "--can-open-base")
  }

  /** The strcmp chain of parse_options: an argument is the option it names, anything else is unknown. */
  function KindOf(arg: string): (kind: OptionKind)
    ensures kind != Unknown ==> arg == NamesOf(kind).0 || arg == NamesOf(kind).1
  {
    if arg == "-q" || arg == "--quiet" then Quiet
    else if arg == "-r" || arg == "--shenidam-return-only" then ReturnOnly
    else if arg == "-t" || arg == "--test" then Test
    else if arg == "-v" || arg == "--verbose" then Verbose
    else if arg == "-n" || arg == "--number-tracks" then NumberTracks
    else if arg == "-b" || arg == "--base" then Base
    else if arg == "-i" || arg == "--input" then Input
    else if arg == "-o" || arg == "--output" then Output
    else if arg == "-d" || arg == "--default-output" then DefaultOutput
    else if arg == "-m" || arg == "--send-messages" then SendMessages
    else if arg == "-s" || arg == "--sample-rate" then SampleRate
    else if arg == "-nt" || arg == "--num-tries" then NumTries
    else if arg == "-tt" || arg == "--test-threshold" then TestThreshold
    else if arg == "-ts" || arg == "--test-track-size" then TestTrackSize
    else if arg == "-c" || arg == "--can-open-base" then CanOpenBase
    else Unknown
  }

  /** The options that read the following argument as their value. */
  predicate TakesValue(kind: OptionKind)
  {
    kind in {NumberTracks, Base, SampleRate, NumTries, TestThreshold, TestTrackSize}
  }

  /** The number of names -i and -o read: num_files, or 1 when it is still unset. */
  function TrackCount(numFiles: int): (n: int)
    ensures numFiles != 0 ==> n == numFiles
    ensures numFiles == 0 ==> n == 1
  {
    if numFiles == 0 then 1 else numFiles
  }

  /** The names a loop of `count` reads from position i pushes before it runs out of arguments. */
  function Available(args: seq<string>, i: nat, count: int): (names: seq<string>)
    requires i <= |args|
    ensures |names| == Min(Max(count, 0), |args| - i)
    ensures names == args[i..i + |names|]
  {
    args[i..i + Min(Max(count, 0), |args| - i)]
  }

  function Max(a: int, b: int): int { if a < b then b else a }
  function Min(a: int, b: int): int { if a < b then a else b }

  predicate IsFlag(kind: OptionKind)
  {
    kind in {Quiet, ReturnOnly, Test, Verbose, DefaultOutput, SendMessages, CanOpenBase}
  }

  /**
   * One pass of the parse_options loop on the option at position i
   * (shenidam_main.cpp:206-345): a flag, an option with a value, or -i / -o
   * with their list of names; anything else fails.
   */
  function ParseStep(c: Config, args: seq<string>, i: nat, toReal: string -> real): (s: Step)
    requires i < |args|
    ensures s.Continue? ==> i < s.next <= |args|
    ensures s.Stop? ==> s.code == 0 || s.code == 1
    ensures !c.returnOnly && s.cfg.returnOnly ==> s.Stop? && s.code == 0
  {
    var kind := KindOf(args[i]);
    if IsFlag(kind) then FlagStep(kind, c, i + 1)
    else if kind == Input || kind == Output then NamesStep(c, args, i + 1, kind == Output)
    else if TakesValue(kind) then
      if i + 1 == |args| then Stop(1, c) else ValueStep(kind, c, args[i + 1], i + 2, toReal)
    else Stop(1, c)
  }

  /** A flag: it sets its variable, -d only while no output names are set, and -r ends parsing with 0. */
  function FlagStep(kind: OptionKind, c: Config, next: nat): (s: Step)
    requires IsFlag(kind)
    ensures s.Continue? ==> s.next == next
    ensures s.Stop? ==> s.code == 0 || s.code == 1
    ensures !c.returnOnly && s.cfg.returnOnly ==> s.Stop? && s.code == 0
  {
    match kind
    case Quiet => Continue(c.(quiet := true), next)
    case ReturnOnly => Stop(0, c.(returnOnly := true))
    case Test => Continue(c.(test := true), next)
    case Verbose => Continue(c.(verbose := true), next)
    case DefaultOutput =>
      if |c.outTracks| > 0 then Stop(1, c) else Continue(c.(defaultOutput := true), next)
    case SendMessages => Continue(c.(sendMessages := true), next)
    case CanOpenBase => Continue(c.(canOpenMode := true), next)
  }

  /**
   * An option with its value: integers go through strtol and the conversion
   * to int, reals through strtod, which is the parameter toReal.
   */
  function ValueStep(kind: OptionKind, c: Config, value: string, next: nat, toReal: string -> real): (s: Step)
    requires TakesValue(kind)
    ensures s.Continue? ==> s.next == next
    ensures s.Stop? ==> s.code == 0 || s.code == 1
    ensures !c.returnOnly && s.cfg.returnOnly ==> s.Stop? && s.code == 0
  {
    match kind
    case NumberTracks =>
      // A repeated -n only prints an error message; the new value is taken.
      var c' := c.(numFiles := ToInt32(StrToL(value)));
      if c'.numFiles <= 0 then Stop(1, c') else Continue(c', next)
    case Base =>
      if c.baseSet then Stop(1, c) else Continue(c.(baseFilename := value, baseSet := true), next)
    case SampleRate =>
      var c' := c.(sampleRate := toReal(value));
      if c'.sampleRate <= 0.0 then Stop(1, c') else Continue(c', next)
    case NumTries =>
      var c' := c.(numTries := ToInt32(StrToL(value)));
      if c'.numTries <= 0 then Stop(1, c') else Continue(c', next)
    case TestThreshold =>
      var c' := c.(threshold := toReal(value));
      if c'.threshold <= 0.000001 then Stop(1, c') else Continue(c', next)
    case TestTrackSize =>
      // The value read is the track size, but the test is on the threshold.
      var c' := c.(sizeTestTrack := toReal(value));
      if c'.threshold <= 0.0 then Stop(1, c') else Continue(c', next)
  }

  /**
   * -i or -o: fails when the list is already set (or, for -o, when -d was
   * given); otherwise reads TrackCount(num_files) names from position i,
   * failing when the arguments run out first.
   */
  function NamesStep(c: Config, args: seq<string>, i: nat, output: bool): (s: Step)
    requires i <= |args|
    ensures s.Continue? ==> i <= s.next <= |args|
    ensures s.Stop? ==> s.code == 0 || s.code == 1
    ensures !c.returnOnly && s.cfg.returnOnly ==> s.Stop? && s.code == 0
  {
    var current := if output then c.outTracks else c.inTracks;
    if |current| > 0 || (output && c.defaultOutput) then Stop(1, c)
    else
      var count := TrackCount(c.numFiles);
      var names := current + Available(args, i, count);
      var c' := if output then c.(numFiles := count, outTracks := names)
                else c.(numFiles := count, inTracks := names);
      if |args| - i < count then Stop(1, c') else Continue(c', i + Max(count, 0))
  }

  /** parse_options from position i on, starting from the globals c. */
  function ParseFrom(c: Config, args: seq<string>, i: nat, toReal: string -> real): (r: Parsed)
    ensures r.code == 0 || r.code == 1
    ensures !c.returnOnly && r.cfg.returnOnly ==> r.code == 0
    ensures i >= |args| ==> r == Parsed(0, c)
    decreases |args| - i
  {
    if i >= |args| then Parsed(0, c)
    else
      match ParseStep(c, args, i, toReal)
      case Stop(code, c') => Parsed(code, c')
      case Continue(c', next) => ParseFrom(c', args, next, toReal)
  }

  /** parse_options on argv, argv[0] being the program name. */
  function Parse(args: seq<string>, toReal: string -> real): (r: Parsed)
    ensures r.code == 0 || r.code == 1
    ensures r.cfg.returnOnly ==> r.code == 0
    ensures |args| <= 1 ==> r == Parsed(0, Initial)
  {
    ParseFrom(Initial, args, 1, toReal)
  }

  // ---------------------------------------------------------------------------
  // Properties of the parser

  /** -r ends parsing with 0 whatever follows it. */
  lemma ReturnOnlyIgnoresRest(c: Config, args: seq<string>, i: nat, rest: seq<string>, toReal: string -> real)
    requires i < |args| && KindOf(args[i]) == ReturnOnly
    ensures ParseFrom(c, args + rest, i, toReal) == Parsed(0, c.(returnOnly := true))
  {
    assert (args + rest)[i] == args[i];
  }

  /** An option that needs a value fails when it is the last argument. */
  lemma MissingValueFails(c: Config, args: seq<string>, toReal: string -> real)
    requires |args| >= 1 && TakesValue(KindOf(args[|args| - 1]))
    ensures ParseFrom(c, args, |args| - 1, toReal).code == 1
  {
  }

  /** -i and -o fail when fewer names follow them than the number of tracks. */
  lemma MissingTrackNamesFail(c: Config, args: seq<string>, i: nat, toReal: string -> real)
    requires i < |args| && KindOf(args[i]) in {Input, Output}
    requires |args| - (i + 1) < TrackCount(c.numFiles)
    ensures ParseFrom(c, args, i, toReal).code == 1
  {
  }

  /** An argument that is no option fails. */
  lemma UnknownOptionFails(c: Config, args: seq<string>, i: nat, toReal: string -> real)
    requires i < |args| && KindOf(args[i]) == Unknown
    ensures ParseFrom(c, args, i, toReal).code == 1
  {
  }

  /** A second -b fails. */
  lemma SecondBaseFails(c: Config, args: seq<string>, i: nat, toReal: string -> real)
    requires c.baseSet && i < |args| && KindOf(args[i]) == Base
    ensures ParseFrom(c, args, i, toReal).code == 1
  {
  }

  /**
   * -i reads exactly the next TrackCount(num_files) arguments as the input
   * names, and parsing goes on right after them.
   */
  lemma InputReadsTrackCount(c: Config, args: seq<string>, i: nat, toReal: string -> real)
    requires i < |args| && KindOf(args[i]) == Input && c.inTracks == []
    requires TrackCount(c.numFiles) > 0 && i + 1 + TrackCount(c.numFiles) <= |args|
    ensures var n := TrackCount(c.numFiles);
      ParseStep(c, args, i, toReal) == Continue(c.(numFiles := n, inTracks := args[i + 1..i + 1 + n]), i + 1 + n)
  {
    var n := TrackCount(c.numFiles);
    assert [] + Available(args, i + 1, n) == args[i + 1..i + 1 + n];
  }

  /** What holds of the globals whenever parse_options has returned 0. */
  ghost predicate Sane(c: Config)
  {
    && c.sampleRate > 0.0
    && c.numTries > 0
    && c.threshold > 0.000001
    && c.numFiles >= 0
    && !(c.defaultOutput && |c.outTracks| > 0)
    && (|c.inTracks| > 0 || |c.outTracks| > 0 ==> c.numFiles > 0)
  }

  lemma FlagStepKeepsSane(kind: OptionKind, c: Config, next: nat)
    requires Sane(c) && IsFlag(kind)
    ensures var s := FlagStep(kind, c, next); s.Continue? || s.code == 0 ==> Sane(s.cfg)
  {
  }

  lemma ValueStepKeepsSane(kind: OptionKind, c: Config, value: string, next: nat, toReal: string -> real)
    requires Sane(c) && TakesValue(kind)
    ensures var s := ValueStep(kind, c, value, next, toReal); s.Continue? ==> Sane(s.cfg)
  {
  }

  lemma NamesStepKeepsSane(c: Config, args: seq<string>, i: nat, output: bool)
    requires Sane(c) && i <= |args|
    ensures var s := NamesStep(c, args, i, output); s.Continue? ==> Sane(s.cfg)
  {
  }

  lemma ParseStepKeepsSane(c: Config, args: seq<string>, i: nat, toReal: string -> real)
    requires Sane(c) && i < |args|
    ensures var s := ParseStep(c, args, i, toReal); s.Continue? || s.code == 0 ==> Sane(s.cfg)
  {
    var kind := KindOf(args[i]);
    if IsFlag(kind) {
      FlagStepKeepsSane(kind, c, i + 1);
    } else if kind == Input || kind == Output {
      NamesStepKeepsSane(c, args, i + 1, kind == Output);
    } else if TakesValue(kind) && i + 1 < |args| {
      ValueStepKeepsSane(kind, c, args[i + 1], i + 2, toReal);
    }
  }

  /**
   * Whatever the arguments, a parse that returns 0 leaves a positive sample
   * rate and number of tries, a threshold above 1e-6, a non-negative track
   * count, and never both -d and -o names.
   */
  lemma {:induction false} ParseFromKeepsSane(c: Config, args: seq<string>, i: nat, toReal: string -> real)
    requires Sane(c)
    ensures ParseFrom(c, args, i, toReal).code == 0 ==> Sane(ParseFrom(c, args, i, toReal).cfg)
    decreases |args| - i
  {
    if i < |args| {
      ParseStepKeepsSane(c, args, i, toReal);
      var s := ParseStep(c, args, i, toReal);
      if s.Continue? {
        ParseFromKeepsSane(s.cfg, args, s.next, toReal);
      }
    }
  }

  lemma ParseKeepsSane(args: seq<string>, toReal: string -> real)
    ensures Parse(args, toReal).code == 0 ==> Sane(Parse(args, toReal).cfg)
  {
    ParseFromKeepsSane(Initial, args, 1, toReal);
  }

  /** An option with its value present reads that value and moves past it. */
  lemma ValueOptionStep(c: Config, args: seq<string>, i: nat, toReal: string -> real)
    requires i + 1 < |args| && TakesValue(KindOf(args[i]))
    ensures ParseStep(c, args, i, toReal) == ValueStep(KindOf(args[i]), c, args[i + 1], i + 2, toReal)
  {
  }

  /**
   * -n is accepted again after the track count is set, for instance after
   * -i read its names with the default count of 1: parsing goes on with the
   * new count, so -o can then read more names than -i did.
   */
  lemma RepeatedTrackCountAccepted(c: Config, args: seq<string>, i: nat, toReal: string -> real)
    requires c.numFiles != 0 && i + 1 < |args| && KindOf(args[i]) == NumberTracks
    requires ToInt32(StrToL(args[i + 1])) > 0
    ensures ParseStep(c, args, i, toReal) ==
      Continue(c.(numFiles := ToInt32(StrToL(args[i + 1]))), i + 2)
  {
    ValueOptionStep(c, args, i, toReal);
  }

  /** -ts takes any value, a negative track size included, because it checks the threshold. */
  lemma TestTrackSizeNotChecked(c: Config, args: seq<string>, i: nat, toReal: string -> real)
    requires Sane(c) && i + 1 < |args| && KindOf(args[i]) == TestTrackSize
    ensures ParseStep(c, args, i, toReal) ==
      Continue(c.(sizeTestTrack := toReal(args[i + 1])), i + 2)
  {
    ValueOptionStep(c, args, i, toReal);
  }

  // ---------------------------------------------------------------------------
  // The globals as mutable state

  /** The global option variables, updated in place as parse_options walks argv. */
  class Options {
    var quiet: bool
    var test: bool
    var verbose: bool
    var baseSet: bool
    var defaultOutput: bool
    var sendMessages: bool
    var canOpenMode: bool
    var sizeTestTrack: real
    var inTracks: seq<string>
    var outTracks: seq<string>
    var baseFilename: string
    var sampleRate: real
    var numFiles: int
    var threshold: real
    var numTries: int
    var returnOnly: bool

    function State(): Config
      reads this
    {
      Config(quiet, test, verbose, baseSet, defaultOutput, sendMessages, canOpenMode,
             sizeTestTrack, inTracks, outTracks, baseFilename, sampleRate, numFiles,
             threshold, numTries, returnOnly)
    }

    /** The globals at program start. */
    constructor ()
      ensures State() == Initial
    {
      quiet, test, verbose, baseSet := false, false, false, false;
      defaultOutput, sendMessages, canOpenMode := false, false, false;
      sizeTestTrack := 300.0;
      inTracks, outTracks := [], [];
      baseFilename := "";
      sampleRate := 16000.0;
      numFiles := 0;
      threshold := 1.0;
      numTries := 5;
      returnOnly := false;
    }

    /** parse_options (shenidam_main.cpp:202-349). */
    method ParseOptions(args: seq<string>, toReal: string -> real) returns (code: int)
      modifies this
      ensures Parsed(code, State()) == ParseFrom(old(State()), args, 1, toReal)
    {
      var i := 1;
      while i < |args|
        invariant ParseFrom(State(), args, i, toReal) == ParseFrom(old(State()), args, 1, toReal)
        decreases |args| - i
      {
        var stop, stopCode, next := ParseArgument(args, i, toReal);
        if stop {
          return stopCode;
        }
        i := next;
      }
      return 0;
    }

    /** One pass of the parse_options loop. */
    method ParseArgument(args: seq<string>, i: nat, toReal: string -> real)
      returns (stop: bool, code: int, next: nat)
      requires i < |args|
      modifies this
      ensures ParseStep(old(State()), args, i, toReal) ==
        if stop then Stop(code, State()) else Continue(State(), next)
    {
      var kind := KindOf(args[i]);
      if IsFlag(kind) {
        stop, code := ApplyFlag(kind);
        next := i + 1;
      } else if kind == Input || kind == Output {
        stop, code, next := ApplyNames(args, i + 1, kind == Output);
      } else if TakesValue(kind) {
        if i + 1 == |args| {
          return true, 1, i + 1;
        }
        stop, code := ApplyValue(kind, args[i + 1], toReal);
        next := i + 2;
      } else {
        return true, 1, i + 1;
      }
    }

    /** A flag option. */
    method ApplyFlag(kind: OptionKind) returns (stop: bool, code: int)
      requires IsFlag(kind)
      modifies this
      ensures FlagStep(kind, old(State()), 0) ==
        if stop then Stop(code, State()) else Continue(State(), 0)
    {
      stop, code := false, 0;
      match kind {
        case Quiet => quiet := true;
        case ReturnOnly =>
          returnOnly := true;
          return true, 0;
        case Test => test := true;
        case Verbose => verbose := true;
        case DefaultOutput =>
          if |outTracks| > 0 {
            return true, 1;
          }
          defaultOutput := true;
        case SendMessages => sendMessages := true;
        case CanOpenBase => canOpenMode := true;
      }
    }

    /** An option with its value. */
    method ApplyValue(kind: OptionKind, value: string, toReal: string -> real) returns (stop: bool, code: int)
      requires TakesValue(kind)
      modifies this
      ensures ValueStep(kind, old(State()), value, 0, toReal) ==
        if stop then Stop(code, State()) else Continue(State(), 0)
    {
      if kind == NumberTracks || kind == NumTries {
        stop := ApplyInteger(kind, ToInt32(StrToL(value)));
      } else if kind == Base {
        stop := baseSet;
        if !baseSet {
          baseFilename := value;
          baseSet := true;
        }
      } else {
        stop := ApplyReal(kind, toReal(value));
      }
      code := if stop then 1 else 0;
    }

    /** -n or -nt with its value converted; a value that is not positive fails. */
    method ApplyInteger(kind: OptionKind, n: int) returns (stop: bool)
      requires kind == NumberTracks || kind == NumTries
      modifies this
      ensures kind == NumberTracks ==> State() == old(State()).(numFiles := n)
      ensures kind == NumTries ==> State() == old(State()).(numTries := n)
      ensures stop <==> n <= 0
    {
      if kind == NumberTracks {
        numFiles := n;
        stop := numFiles <= 0;
      } else {
        numTries := n;
        stop := numTries <= 0;
      }
    }

    /** -s, -tt or -ts with its value converted. */
    method ApplyReal(kind: OptionKind, x: real) returns (stop: bool)
      requires kind == SampleRate || kind == TestThreshold || kind == TestTrackSize
      modifies this
      ensures kind == SampleRate ==> State() == old(State()).(sampleRate := x) && (stop <==> x <= 0.0)
      ensures kind == TestThreshold ==> State() == old(State()).(threshold := x) && (stop <==> x <= 0.000001)
      ensures kind == TestTrackSize ==> State() == old(State()).(sizeTestTrack := x) && (stop <==> threshold <= 0.0)
    {
      match kind {
        case SampleRate =>
          sampleRate := x;
          stop := sampleRate <= 0.0;
        case TestThreshold =>
          threshold := x;
          stop := threshold <= 0.000001;
        case TestTrackSize =>
          sizeTestTrack := x;
          stop := threshold <= 0.0;
      }
    }

    /** -i or -o with the list of names after it. */
    method ApplyNames(args: seq<string>, i: nat, output: bool) returns (stop: bool, code: int, next: nat)
      requires i <= |args|
      modifies this
      ensures NamesStep(old(State()), args, i, output) ==
        if stop then Stop(code, State()) else Continue(State(), next)
    {
      stop, code, next := false, 0, i;
      if output && (defaultOutput || |outTracks| > 0) {
        return true, 1, i;
      }
      if !output && |inTracks| > 0 {
        return true, 1, i;
      }
      if numFiles == 0 {
        numFiles := 1;
      }
      var names, complete, after := ReadNames(args, i, numFiles);
      if output {
        outTracks := outTracks + names;
      } else {
        inTracks := inTracks + names;
      }
      if !complete {
        return true, 1, after;
      }
      next := after;
    }
  }

  /**
   * The name-reading loop of -i and -o (shenidam_main.cpp:257-261, 279-283):
   * up to `count` arguments from position i, failing when they run out first.
   */
  method ReadNames(args: seq<string>, i: nat, count: int) returns (names: seq<string>, complete: bool, next: nat)
    requires i <= |args|
    ensures names == Available(args, i, count)
    ensures complete <==> count <= |args| - i
    ensures complete ==> next == i + Max(count, 0)
  {
    names := [];
    next := i;
    var j := 0;
    while j < count
      invariant 0 <= j <= Max(count, 0) && next == i + j <= |args|
      invariant names == args[i..next]
    {
      if next == |args| {
        return names, false, next;
      }
      names := names + [args[next]];
      next := next + 1;
      j := j + 1;
    }
    complete := true;
  }

  // ---------------------------------------------------------------------------
  // Run mode

  /** What main does once the options are parsed: exit with a code, or run one mode. */
  datatype Mode = Exit(code: int) | RunTest(cfg: Config) | RunCanOpen(cfg: Config) | RunProcess(cfg: Config)

  predicate HasOutput(c: Config)
  {
    c.test || c.sendMessages || c.defaultOutput || |c.outTracks| > 0 || c.canOpenMode
  }

  predicate HasInput(c: Config)
  {
    c.test || |c.inTracks| > 0 || c.canOpenMode
  }

  /** The mode main (shenidam_main.cpp:555-601) chooses for the outcome of parse_options. */
  function Decide(p: Parsed): (m: Mode)
    ensures p.code != 0 ==> m == Exit(1)
    ensures p.code == 0 && p.cfg.returnOnly ==> m == Exit(0)
    ensures p.code == 0 && !p.cfg.returnOnly ==>
      (m.Exit? <==> !p.cfg.baseSet || !HasOutput(p.cfg) || !HasInput(p.cfg))
    ensures m.Exit? ==> m.code == 0 || m.code == 1
    ensures !m.Exit? ==> m.cfg == p.cfg.(verbose := p.cfg.verbose && !p.cfg.quiet)
    ensures m.RunTest? <==> p.code == 0 && !p.cfg.returnOnly && p.cfg.baseSet && p.cfg.test
    ensures m.RunCanOpen? ==> !p.cfg.test && p.cfg.canOpenMode
    ensures m.RunProcess? ==> !p.cfg.test && !p.cfg.canOpenMode && |p.cfg.inTracks| > 0
  {
    var c := p.cfg;
    if p.code != 0 then Exit(1)
    else if c.returnOnly then Exit(0)
    else
      var c' := if c.quiet && c.verbose then c.(verbose := false) else c;
      if !c.baseSet || !HasOutput(c) || !HasInput(c) then Exit(1)
      else if c.test then RunTest(c')
      else if c.canOpenMode then RunCanOpen(c')
      else RunProcess(c')
  }

  /** Every mode main runs starts from sane options with a base file and without verbose-and-quiet. */
  lemma DispatchedOptionsAreSane(args: seq<string>, toReal: string -> real)
    ensures var m := Decide(Parse(args, toReal));
      !m.Exit? ==> Sane(m.cfg) && m.cfg.baseSet && !(m.cfg.quiet && m.cfg.verbose)
  {
    ParseKeepsSane(args, toReal);
  }

  /** main (shenidam_main.cpp:555-601), up to the mode it runs. */
  method Run(args: seq<string>, toReal: string -> real) returns (mode: Mode)
    ensures mode == Decide(Parse(args, toReal))
  {
    var options := new Options();
    var code := options.ParseOptions(args, toReal);
    if code != 0 {
      return Exit(1);
    }
    if options.returnOnly {
      return Exit(0);
    }
    var hasOutput := options.test || options.sendMessages || options.defaultOutput
      || |options.outTracks| > 0 || options.canOpenMode;
    var hasInput := options.test || |options.inTracks| > 0 || options.canOpenMode;
    if options.quiet && options.verbose {
      options.verbose := false;
    }
    if !options.baseSet || !hasOutput || !hasInput {
      return Exit(1);
    }
    if options.test {
      mode := RunTest(options.State());
    } else if options.canOpenMode {
      mode := RunCanOpen(options.State());
    } else {
      mode := RunProcess(options.State());
    }
  }

  // ---------------------------------------------------------------------------
  // Majority vote

  /** The failures among the first k tries. */
  function Failures(outcome: nat -> bool, k: nat): (f: nat)
    decreases k
  {
    if k == 0 then 0 else Failures(outcome, k - 1) + (if outcome(k - 1) then 0 else 1)
  }

  lemma {:induction false} FailuresBounds(outcome: nat -> bool, j: nat, k: nat)
    requires j <= k
    ensures Failures(outcome, j) <= Failures(outcome, k) <= Failures(outcome, j) + (k - j)
    decreases k
  {
    if j < k {
      FailuresBounds(outcome, j, k - 1);
    }
  }

  /** After k tries the vote is decided: more than half failed, or more than half succeeded. */
  predicate Decided(outcome: nat -> bool, numTries: int, k: nat)
  {
    Failures(outcome, k) > numTries / 2 || k - Failures(outcome, k) > numTries / 2
  }

  /**
   * test_n (shenidam_main.cpp:470-506): try up to num_tries times, stopping as
   * soon as more than half failed (false) or more than half succeeded (true).
   * outcome(k) is what the k-th test_once call returns; `tries` counts the calls.
   */
  method TestN(outcome: nat -> bool, numTries: int) returns (passed: bool, tries: nat)
    ensures tries <= Max(numTries, 0)
    ensures forall k :: 0 < k < tries ==> !Decided(outcome, numTries, k)
    ensures tries < numTries ==> Decided(outcome, numTries, tries)
    ensures numTries > 0 ==> (passed <==> Failures(outcome, tries) <= numTries / 2)
    ensures numTries > 0 ==> (passed <==> Failures(outcome, numTries) <= numTries / 2)
    ensures numTries <= 0 ==> passed && tries == 0
  {
    var numSucceeded := 0;
    var numFailed := 0;
    tries := 0;
    while tries < numTries
      invariant tries <= Max(numTries, 0)
      invariant numFailed == Failures(outcome, tries) && numSucceeded == tries - numFailed
      invariant forall k :: 0 < k <= tries ==> !Decided(outcome, numTries, k)
    {
      if !outcome(tries) {
        numFailed := numFailed + 1;
      } else {
        numSucceeded := numSucceeded + 1;
      }
      tries := tries + 1;
      if numFailed > numTries / 2 {
        FailuresBounds(outcome, tries, numTries);
        return false, tries;
      } else if numSucceeded > numTries / 2 {
        FailuresBounds(outcome, tries, numTries);
        return true, tries;
      }
    }
    if numTries > 0 {
      assert !Decided(outcome, numTries, tries);
    }
    passed := true;
  }

  // ---------------------------------------------------------------------------
  // Messages

  /** std::string's operator<: lexicographic order. */
  predicate LexLess(a: string, b: string)
    decreases |a|
  {
    if |a| == 0 then |b| > 0
    else if |b| == 0 then false
    else a[0] < b[0] || (a[0] == b[0] && LexLess(a[1..], b[1..]))
  }

  /** The entries of a std::map<std::string, std::string>, which it visits by ascending key. */
  type StringMap = kv: seq<(string, string)> | KeysAscending(kv) witness []

  predicate KeysAscending(kv: seq<(string, string)>)
  {
    forall j, k :: 0 <= j < k < |kv| ==> LexLess(kv[j].0, kv[k].0)
  }

  /** The "key:value;" pieces of the entries, in order. */
  function Entries(kv: seq<(string, string)>): string
    decreases |kv|
  {
    if |kv| == 0 then "" else Entries(kv[..|kv| - 1]) + kv[|kv| - 1].0 + ":" + kv[|kv| - 1].1 + ";"
  }

  /** One line send_message writes: "MESSAGE:", the event, ';', the entries, a newline. */
  function MessageLine(event: string, kv: seq<(string, string)>): (line: string)
    ensures StartsWith(line, "MESSAGE:") && line[|line| - 1] == '\n'
  {
    "MESSAGE:" + event + ";" + Entries(kv) + "\n"
  }

  /** Standard output, as the text written to it. */
  class Console {
    var written: string

    constructor ()
      ensures written == ""
    {
      written := "";
    }

    /** send_message(event) (shenidam_main.cpp:87-93). */
    method SendEvent(sendMessages: bool, event: string)
      modifies this
      ensures written == old(written) + (if sendMessages then MessageLine(event, []) else "")
    {
      if sendMessages {
        written := written + "MESSAGE:" + event + ";" + "\n";
      }
    }

    /** send_message(event, key, value) (shenidam_main.cpp:95-101). */
    method SendKeyValue(sendMessages: bool, event: string, key: string, value: string)
      modifies this
      ensures written == old(written) + (if sendMessages then MessageLine(event, [(key, value)]) else "")
    {
      if sendMessages {
        assert [(key, value)][..0] == [];
        assert Entries([(key, value)]) == key + ":" + value + ";";
        written := written + "MESSAGE:" + event + ";" + key + ":" + value + ";" + "\n";
      }
    }

    /** send_message(event, kv) (shenidam_main.cpp:103-116): one piece per entry, by ascending key. */
    method SendMap(sendMessages: bool, event: string, kv: StringMap)
      modifies this
      ensures written == old(written) + (if sendMessages then MessageLine(event, kv) else "")
    {
      if sendMessages {
        ghost var before := written;
        written := written + "MESSAGE:" + event + ";";
        var start := written;
        var j := 0;
        while j < |kv|
          invariant 0 <= j <= |kv|
          invariant written == start + Entries(kv[..j])
        {
          assert kv[..j + 1][..j] == kv[..j];
          assert Entries(kv[..j + 1]) == Entries(kv[..j]) + kv[j].0 + ":" + kv[j].1 + ";";
          written := written + kv[j].0 + ":" + kv[j].1 + ";";
          j := j + 1;
        }
        assert kv[..j] == kv;
        written := written + "\n";
        assert written == before + ("MESSAGE:" + event + ";" + Entries(kv) + "\n");
      }
    }
  }

  /** get_default_output_filename (shenidam_main.cpp:370-373). */
  function DefaultOutputFilename(input: string): (name: string)
    ensures |name| == |input| + 9 && name[..|input|] == input && name[|input|..] == ".shenidam"
  {
    input + ".shenidam"
  }
}
