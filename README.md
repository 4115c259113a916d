# shenidam, modelled in Dafny

shenidam locates audio tracks inside a longer base recording. Given the
base and a track, it returns the in-point of the track in the base and the
track's length, both in base samples. It is made of these parts:

- A C library with two generations of the alignment engine:
  - `src/shenidam.c` runs a coarse FFT cross-correlation at a working
    rate, then refines the result at the base's own rate.
  - `shenidam.c` is the older engine. It has a list of spectral filters
    and no refinement.
- A command-line tool, `shenidam_main.cpp`. It parses options, chooses a
  run mode, runs a majority-vote self test and writes `MESSAGE:` lines.
- A Python front end, `shenidam.py`. It parses those lines, builds the
  tool's command line, names output files from patterns and reports
  progress.
- Two wrapper scripts for audio-video files, `python/shenidam_av.py` and
  `shenidam-av.py`. Each parses its own command line and checks it.

The model has one module per source file:

| module | file | models |
|---|---|---|
| `Api` | `api.dfy` | status codes, sample formats, resampler quality identifiers, and the foreign resampler and normaliser as parameters |
| `Signal` | `signal.dfy` | round/ceil on reals, `get_common_size`, `resize`, circular and linear correlation, first argmax |
| `Engine` | `engine.dfy` | the session of `src/shenidam.c` as a class; create, set quality, set base, get range, refine, destroy |
| `LegacyEngine` | `legacy_engine.dfy` | the legacy session of `shenidam.c`, with its NULL-terminated filter list |
| `Strings` | `strings.dfy` | the string operations both front ends rely on (strip, split, `str(n)`, `strtol`) |
| `Cli` | `cli.dfy` | `parse_options` over the global option state, `main`'s mode choice, `test_n`, `send_message` |
| `Patterns` | `patterns.dfy` | `filename_from_pattern` and the POSIX path helpers it uses |
| `Frontend` | `frontend.dfy` | `_parse_event`, `Shenidam.__call__`, `CancelableProgressNotifier`, `shenidam_updater`, remix defaults, `check_model` |
| `AvWrapper` | `av_wrapper.dfy` | `parse_params`, `check_params` and `save_mapping` of `python/shenidam_av.py` |
| `AvLegacy` | `av_legacy.dfy` | `parse_params` and `check_params` of `shenidam-av.py` |

How the model represents things:

- Samples are reals. The arithmetic is exact, with no float rounding.
- `round` and `ceil` are written out. `round` rounds halves away from zero.
- The FFT round trip of the current engine is replaced by what it
  computes: the circular cross-correlation `r[i] = Σ_k t[k]·b[(k+i) mod N]`.
  The unnormalised transform adds a positive factor `N`, which does not
  move the first maximum.
- The legacy engine keeps its transforms as a parameter. Its filters may
  rewrite the spectra arbitrarily, so there is no closed form to replace
  them with.
- State the source updates in place is a class:
  - the engine sessions;
  - the command-line tool's global options and standard output;
  - the progress notifier and the file processor;
  - the wrappers' model object.

  Each class method is proved against a function on the class's state, and
  the properties are lemmas about those functions.
- Two `parse_options` behaviours are modelled as written:
  - A second `-n` only prints an error and takes the new count
    (`Cli.RepeatedTrackCountAccepted`).
  - `-ts` checks `threshold` rather than the track size it has just read
    (`Cli.TestTrackSizeNotChecked`).
- The legacy filter-count loop in `shenidam.c:267` increments and tests
  the pointer `cur`, not the entry it points at, so as written it never
  stops. `LegacySession.AddFrequentialFilter` counts the entries before the
  NULL sentinel, which is the evident intent. The `realloc` that follows
  asks for `sizeof(void*)*n + 2` bytes where `n + 2` filter slots are
  written; the model grows the list by one entry and keeps the sentinel.
- `python/shenidam_av.py` imports a module `shenidam` that provides
  `encode` (line 30), which shenidam.py does not define; that module is not
  part of this model. The model pairs the wrapper with shenidam.py's
  `check_model` (shenidam.py:398-416). If the imported module's
  `check_model` is that one, it reads `output_tmp_dir`, which the
  `FileProcessorModel` leaves at None and the wrapper never sets;
  `os.path.isdir(None)` raises TypeError, which `check_params` does not
  catch, so every command line whose files all check out ends the wrapper
  there (`AvWrapper.ValidCommandCrashes`). The file system and
  `subprocess.call` are a `Frontend.Host` parameter; the exceptions other
  than ModelException are the outcome `Raised`.

## Model

| member | source | states |
|---|---|---|
| Signal.Max | src/shenidam.c:33-36 | the result is one of the two arguments and at least both |
| Signal.Min | src/shenidam.c:38-41 | the result is one of the two arguments and at most both |
| Signal.Round | src/shenidam.c:514-519 | C `round`: the nearest integer, halves away from zero, on either sign |
| Signal.Ceil | src/shenidam.c:357 | C `ceil`: the least integer not below the argument |
| Signal.LeastPowerOfTwoAtLeastIsPowerOfTwo | src/shenidam.c:256-264 | the computed size is a power of two whose half is below the request, or 1 |
| Signal.LeastPowerOfTwoAtLeastIsLeast | src/shenidam.c:256-264 | no power of two at or above the request is smaller than the computed size |
| Signal.LeastPowerOfTwoUnique | src/shenidam.c:256-264 | those properties determine the size uniquely |
| Signal.PowerOfTwoBelowHalf | src/shenidam.c:256-264 | a power of two below another is at most half of it |
| Signal.CommonSize | src/shenidam.c:256-264 | `get_common_size` returns the least power of two at or above the request, and 1 for a request of at most 1 |
| Signal.Resize | src/shenidam.c:190-197 | exactly the requested number of samples: the first min(in, out) are the input in order, the rest are 0 |
| Signal.SumAppend | src/shenidam.c:397-409 | a sum over a concatenation is the sum of the two sums |
| Signal.SumOfZeros | src/shenidam.c:397-409 | a sum of zeros is 0 |
| Signal.RingIndex | src/shenidam.c:483-492 | the index k+i wraps around the padded length |
| Signal.CircularCorrelation | src/shenidam.c:483-492 | the correlation buffer has the padded length |
| Signal.FirstArgmax | src/shenidam.c:494-504 | the index of the first maximum: no earlier entry reaches it, no entry exceeds it |
| Signal.FirstMaxIndex | src/shenidam.c:494-504 | the scan keeping only strictly larger values returns the first maximum |
| Engine.ErrorMessage | src/shenidam.c:70-84 | the text of each known status code, and "Unknown error" exactly for the others |
| Engine.ConvertToSamples | src/shenidam.c:218-242 | a known format gives status 0 and the same samples in order; an unknown one gives 1 |
| Engine.Session.constructor | src/shenidam.c:266-287 | working rate stored, threads clamped to at least 1, no base, fastest sinc converter |
| Engine.SetResamplingQuality | src/shenidam.c:288-300 | NULL handle gives NULL_OBJECT; a converter outside 0..4 gives INVALID_ARGUMENT with the session unchanged; otherwise the converter is stored and SUCCESS returned |
| Engine.SetQualityStatusAsWritten | src/shenidam.c:288-300 | as written, an accepted converter returns no status |
| Engine.WorkingBase | src/shenidam.c:318-329 | the working copy of the base is no longer than its duration at the working rate |
| Engine.SetBaseAudio | src/shenidam.c:301-333 | checks NULL, then an existing base, then the format, in that order, leaving the session unchanged on error; on success stores both copies of the base and its rate |
| Engine.Destroy | src/shenidam.c:523-535 | NULL handle gives NULL_OBJECT; otherwise both base copies are released |
| Engine.ScaledLength | src/shenidam.c:375 | ceil(n·ratio): the least count covering the scaled length |
| Engine.TrackAtRate | src/shenidam.c:459-474 | the prepared track is no longer than its scaled length, or its own length when the rates agree |
| Engine.CoarseIndex | src/shenidam.c:494-504 | the peak index lies inside the padded correlation |
| Engine.CoarseLag | src/shenidam.c:505-512 | the lag is the first-maximum index or that index minus the padded size, and lies in [threshold − size, threshold] |
| Engine.Unwrap | src/shenidam.c:505-508 | the lag is the index or the index less the padded size, the one in the window of that size ending at the threshold |
| Engine.CoarseInPoint | src/shenidam.c:510-511 | the lag scaled by base/working rate and rounded to within half a sample; unchanged at equal rates |
| Engine.LengthAtRate | src/shenidam.c:517 | round(n·to/from): the nearest count to the track's duration in base samples |
| Engine.UnwrappedIndexIsLinearLag | src/shenidam.c:478-512 | with both signals padded to at least their joint length, each circular correlation value is the linear correlation at the unwrapped lag |
| Engine.CoarseLagMaximizesCorrelation | src/shenidam.c:478-512 | the coarse lag maximises the linear correlation over every lag of the search window |
| Engine.Radius | src/shenidam.c:356-357 | the radius is ceil(base rate / working rate) |
| Engine.PlacementTerms | src/shenidam.c:401-408 | one product per base index of the overlap |
| Engine.PlacementScore | src/shenidam.c:401-408 | an empty overlap, or a placement that puts only silent track samples over it, scores 0 |
| Engine.PlacementScoreStep | src/shenidam.c:401-408 | extending the overlap by one base index adds that index's product |
| Engine.PlacementSum | src/shenidam.c:401-408 | the inner loop adds up base[p]·track[p − place] over the overlap |
| Engine.WindowSums | src/shenidam.c:397-409 | there are 2·radius+1 window sums |
| Engine.PrepareTrack | src/shenidam.c:459-474 | status 0 exactly for a known format, and then the track converted, normalised and resampled |
| Engine.CoarseSearch | src/shenidam.c:475-512 | pad, correlate, take the first maximum and unwrap: the result is the coarse lag |
| Engine.ComputeWindowSums | src/shenidam.c:397-409 | the window loop fills slot j+radius with the score of placement inPoint − j |
| Engine.Refined | src/shenidam.c:356-423 | unchanged for radius ≤ 1 or no overlap; otherwise within ±radius of the coarse in-point |
| Engine.RefinedPlacementIsBest | src/shenidam.c:411-423 | the refined placement scores at least as well as every placement in the radius and strictly better than every later one |
| Engine.RefinedShortOverlapMovesByRadius | src/shenidam.c:397-423 | when the shrunk overlap is empty, every sum is 0 and the in-point grows by the radius |
| Engine.OverlapEndAsWritten | src/shenidam.c:383 | the end lies within half a sample of the in-point plus the length scaled by base/track rate, never before the in-point |
| Engine.OverlapEndAsWrittenOverrunsTrack | src/shenidam.c:383 | as written, a half-rate track makes the window read track sample 300 of a 200-sample track |
| Engine.OverlapEndAsWrittenAgreesAtEqualRates | src/shenidam.c:383 | at equal rates the as-written end is the in-point plus the track length |
| Engine.AsWrittenWindowReadsInBounds | src/shenidam.c:397-409 | at equal rates every index the window loop reads lies in both buffers |
| Engine.RefineStatusAsWritten | src/shenidam.c:335-425 | as written, the function returns no status exactly when it refines |
| Engine.RefineAudioRange | src/shenidam.c:335-425 | NULL_OBJECT, BASE_SIGNAL_NOT_SET, INVALID_ARGUMENT in that order; SUCCESS exactly when refinement is skipped or done; the new in-point is the refined one |
| Engine.GetAudioRange | src/shenidam.c:427-521 | NULL_OBJECT, BASE_SIGNAL_NOT_SET, INVALID_ARGUMENT for rate, count, format; on success, length round(n·base/track) and the refined, scaled coarse lag as in-point, session untouched |
| LegacyEngine.ConjTimes | shenidam.c:376 | conj(a)·b of real values is their product |
| LegacyEngine.ApplyFilters | shenidam.c:368-373 | filtering keeps the number of coefficients |
| LegacyEngine.ApplyFiltersIgnoresExtraData | shenidam.c:368-373 | data entries past the last filter are never read |
| LegacyEngine.AddedFilterRunsLast | shenidam.c:254-277 | a filter added after the others runs last, on their output, with its own data |
| LegacyEngine.ErrorMessage | shenidam.c:58-72 | the text of each known status code, and "Unknown error" exactly for the others |
| LegacyEngine.ConvertToSamples | shenidam.c:188-209 | all seven formats, single precision included, give 0 and the same samples; an unknown one gives 1 |
| LegacyEngine.ConjProduct | shenidam.c:374-377 | the product has one coefficient per input coefficient |
| LegacyEngine.FilteredCorrelation | shenidam.c:340-380 | the filtered correlation has the padded length |
| LegacyEngine.LegacyLag | shenidam.c:381-395 | the first maximum, minus the padded size exactly when it exceeds size − n/2 |
| LegacyEngine.LegacyUnwrap | shenidam.c:392-395 | the lag is the index or the index less the padded size, between −(n/2) and size − n/2 |
| LegacyEngine.ScaledInPoint | shenidam.c:396 | the lag scaled by real/working rate and rounded to within half a sample; unchanged at equal rates |
| LegacyEngine.Entries | shenidam.c:263-275 | the callbacks before the sentinel, in order |
| LegacyEngine.LegacySession.Filters | shenidam.c:263-275 | one data entry per registered filter |
| LegacyEngine.CountTestAsWritten | shenidam.c:266-270 | the test `(cur++) != NULL` holds at every step for a non-NULL array |
| LegacyEngine.CountLoopAsWrittenPassesSentinel | shenidam.c:266-270 | the test still holds at the sentinel's position, so the count runs past it |
| LegacyEngine.SlotsAsWritten | shenidam.c:271-272 | `size·n + 2` bytes hold n slots when pointers are wider than two bytes |
| LegacyEngine.ReallocAsWrittenTooSmall | shenidam.c:271-275 | fewer slots than the n + 1 data and n + 2 filter entries written |
| LegacyEngine.LegacySession.constructor | shenidam.c:234-252 | the working rate, no base, a filter list holding only the sentinel |
| LegacyEngine.LegacySession.AddFrequentialFilter | shenidam.c:254-277 | a NULL callback gives INVALID_ARGUMENT; otherwise the filter and its data are appended before a new sentinel and SUCCESS returned |
| LegacyEngine.LegacySession.SetBaseAudio | shenidam.c:279-306 | ALREADY_SET_BASE_SIGNAL, then INVALID_ARGUMENT, with nothing changed; on success the resampled base and the real rate |
| LegacyEngine.LegacySession.Destroy | shenidam.c:402-417 | the base and the filter list are released |
| LegacyEngine.RunFilters | shenidam.c:368-373 | every filter runs in list order, with its data, on both spectra |
| LegacyEngine.PrepareTrack | shenidam.c:334-349 | status 0 exactly for a known format, and then the track at the working rate |
| LegacyEngine.FilteredCorrelate | shenidam.c:350-380 | pad, transform, filter, multiply and transform back |
| LegacyEngine.FilteredSearch | shenidam.c:350-395 | the legacy lag of the filtered correlation |
| LegacyEngine.ConjugateProduct | shenidam.c:374-377 | each track coefficient replaced by its conjugate times the base's |
| LegacyEngine.GetAudioRange | shenidam.c:308-400 | BASE_SIGNAL_NOT_SET, then INVALID_ARGUMENT for rate, count and format; on success both outputs scaled by real/working rate, the length from the resampled track |
| Strings.StartsWith | shenidam.py:117 | `startswith`: the prefix fits and matches |
| Strings.StripLeftFacts | shenidam.py:101 | the removed prefix is whitespace and the rest starts with a non-space |
| Strings.StripRightFacts | shenidam.py:101 | the removed suffix is whitespace and the rest ends with a non-space |
| Strings.Strip | shenidam.py:101 | no whitespace at either end of the result |
| Strings.StripNoEdgeSpace | shenidam.py:101 | stripping a string without edge whitespace changes nothing |
| Strings.StripAfterStripLeft | shenidam.py:101 | `str.strip` after removing the leading white space is `str.strip` |
| Strings.StripAfterStripRight | shenidam.py:101 | `str.strip` after removing the trailing white space is `str.strip` |
| Strings.Split | shenidam.py:100 | `split`: never empty, and no piece holds the separator |
| Strings.FirstIndex | shenidam.py:102 | the first position of the character |
| Strings.SplitJoin | shenidam.py:100 | splitting the join of separator-free pieces gives the pieces back |
| Strings.SplitOnce | shenidam.py:102 | `split(sep, 1)`: the text before and after the first separator, or the whole string |
| Strings.JoinSnoc | shenidam.py:100 | joining one more piece adds the separator and the piece |
| Strings.SplitOnceAt | shenidam.py:102 | splitting a + sep + b, a holding no separator, gives a and b |
| Strings.AfterLast | shenidam.py:182 | the characters after the last occurrence of the character |
| Strings.TrimRight | shenidam.py:184 | the string without its trailing occurrences of the character |
| Strings.ReplaceAll | shenidam.py:196-199 | `re.sub` with a literal pattern and replacement: text without the pattern's first character is left alone |
| Strings.ReplaceAllFreePrefix | shenidam.py:196-199 | a prefix without the pattern's first character is kept as it is, and the rest is substituted |
| Strings.ReplaceAllAtMatch | shenidam.py:196-199 | an occurrence at the start becomes the replacement, and the scan resumes after it |
| Strings.ReplaceAllOccurrence | shenidam.py:196-199 | in a + pattern + b, with no pattern character in a, the occurrence becomes the replacement and a is kept |
| Strings.ReplaceAllMismatch | shenidam.py:196-199 | a piece that starts like the pattern but differs at its second character is kept |
| Strings.ReplaceAllNoOccurrence | shenidam.py:196-199 | text where the pattern starts at no position is returned unchanged |
| Strings.DigitChar | shenidam.py:188 | the decimal digit of a value below 10 |
| Strings.NatToString | shenidam.py:188 | `str(n)`: digits only, no leading zero |
| Strings.IntToString | shenidam.py:188 | `str(n)` of a negative number is a minus sign before its digits |
| Strings.NatToStringValue | shenidam.py:188 | `str(n)` reads back as n |
| Strings.LeadingDigits | shenidam_main.cpp:232 | the longest prefix of digits |
| Strings.StrToL | shenidam_main.cpp:232 | `strtol` clamps to the range of a long |
| Strings.StrToLNatToString | shenidam_main.cpp:232 | the decimal text of a number that fits in a long reads back as that number |
| Strings.ToInt32 | shenidam_main.cpp:232 | the conversion to int keeps a value that fits and wraps the others into 32 bits |
| Cli.TrackCount | shenidam_main.cpp:253-256 | `num_files`, or 1 when it is unset |
| Cli.Available | shenidam_main.cpp:257-261 | the names -i and -o can read before the arguments run out |
| Cli.ParseStep | shenidam_main.cpp:206-345 | one option moves parsing forward and never past the end |
| Cli.KindOf | shenidam_main.cpp:206-345 | an argument that is recognised is the short or the long name of its option |
| Cli.ParseFrom | shenidam_main.cpp:202-349 | returns 0 or 1; 0 at the end of the arguments; -r makes it 0 |
| Cli.Parse | shenidam_main.cpp:202-349 | from the initial globals: 0 or 1, 0 whenever -r was read, 0 with the initial globals for no option |
| Cli.FlagStep | shenidam_main.cpp:208-341 | a flag moves to the next argument |
| Cli.ValueStep | shenidam_main.cpp:225-337 | an option with a value moves past the value |
| Cli.NamesStep | shenidam_main.cpp:246-284 | -i and -o move past the names they read |
| Cli.ReturnOnlyIgnoresRest | shenidam_main.cpp:212-216 | -r returns 0 at once whatever follows |
| Cli.MissingValueFails | shenidam_main.cpp:227-330 | an option that needs a value, as the last argument, returns 1 |
| Cli.MissingTrackNamesFail | shenidam_main.cpp:246-284 | -i or -o with fewer names left than the track count returns 1 |
| Cli.UnknownOptionFails | shenidam_main.cpp:342-345 | an unknown option returns 1 |
| Cli.SecondBaseFails | shenidam_main.cpp:239-245 | a second -b returns 1 |
| Cli.InputReadsTrackCount | shenidam_main.cpp:246-262 | -i reads exactly TrackCount(num_files) names and parsing goes on after them |
| Cli.FlagStepKeepsSane | shenidam_main.cpp:208-341 | a flag keeps the option invariants |
| Cli.ValueStepKeepsSane | shenidam_main.cpp:225-337 | an accepted value keeps the option invariants |
| Cli.NamesStepKeepsSane | shenidam_main.cpp:246-293 | -i and -o keep the option invariants, -o never together with -d |
| Cli.ParseStepKeepsSane | shenidam_main.cpp:206-345 | each step keeps the option invariants |
| Cli.ParseFromKeepsSane | shenidam_main.cpp:202-349 | a parse returning 0 leaves positive rate and tries, threshold above 1e-6, and never -d with -o |
| Cli.ParseKeepsSane | shenidam_main.cpp:202-349 | the same from the initial globals |
| Cli.ValueOptionStep | shenidam_main.cpp:225-337 | an option with its value present reads it and moves past it |
| Cli.RepeatedTrackCountAccepted | shenidam_main.cpp:225-238 | a second -n is accepted and replaces the count |
| Cli.TestTrackSizeNotChecked | shenidam_main.cpp:328-337 | -ts accepts any track size, because it checks the threshold |
| Cli.Options.constructor | shenidam_main.cpp:67-82 | the globals' initial values |
| Cli.Options.ParseOptions | shenidam_main.cpp:202-349 | the loop over argv returns the code and leaves the globals that `ParseFrom` gives |
| Cli.Options.ParseArgument | shenidam_main.cpp:206-345 | one pass of the loop is `ParseStep` |
| Cli.Options.ApplyFlag | shenidam_main.cpp:208-341 | a flag updates the globals as `FlagStep` says |
| Cli.Options.ApplyValue | shenidam_main.cpp:225-337 | an option with its value updates the globals as `ValueStep` says |
| Cli.Options.ApplyInteger | shenidam_main.cpp:225-317 | -n and -nt store the value and stop on a value ≤ 0 |
| Cli.Options.ApplyReal | shenidam_main.cpp:298-337 | -s, -tt and -ts store the value and stop on their own bounds, -ts on the threshold |
| Cli.Options.ApplyNames | shenidam_main.cpp:246-284 | -i and -o update the globals as `NamesStep` says |
| Cli.ReadNames | shenidam_main.cpp:257-261 | the names available, and whether all the count were there |
| Cli.Decide | shenidam_main.cpp:555-601 | exit 1 on a parse error, 0 for -r, 1 without a base, output or input; then test, can-open, process in that priority, quiet overriding verbose |
| Cli.DispatchedOptionsAreSane | shenidam_main.cpp:555-601 | every mode run starts from sane options with a base and not both quiet and verbose |
| Cli.Run | shenidam_main.cpp:555-601 | `main` chooses the mode `Decide` gives |
| Cli.FailuresBounds | shenidam_main.cpp:477-494 | failures grow by at most one per try |
| Cli.TestN | shenidam_main.cpp:470-506 | stops at the first try where more than half failed or succeeded; the result is "at most half failed", which the remaining tries cannot change |
| Cli.MessageLine | shenidam_main.cpp:103-116 | a line starts with "MESSAGE:" and ends with a newline |
| Cli.Console.constructor | shenidam_main.cpp:87-116 | nothing written yet |
| Cli.Console.SendEvent | shenidam_main.cpp:87-93 | writes "MESSAGE:event;" and a newline only when messages are on |
| Cli.Console.SendKeyValue | shenidam_main.cpp:95-101 | writes the event and one "key:value;" piece only when messages are on |
| Cli.Console.SendMap | shenidam_main.cpp:103-116 | writes the event and one piece per entry, by ascending key, only when messages are on |
| Cli.DefaultOutputFilename | shenidam_main.cpp:370-373 | the input name followed by ".shenidam" |
| Patterns.Basename | shenidam.py:182 | the part of the path after its last '/' |
| Patterns.Dirname | shenidam.py:184 | a prefix of the path, empty when there is no '/' |
| Patterns.DirnameBasename | shenidam.py:182-184 | directory and base name make up the path again |
| Patterns.SplitExt | shenidam.py:183 | base name and extension concatenate to the name; the extension is empty or one leading '.' followed by no other |
| Patterns.ZeroPadded | shenidam.py:188-194 | `str(i)` left-padded with '0' to the width, never cut |
| Patterns.PadWithZeros | shenidam.py:192-193 | the padding loop builds the zero-padded text |
| Patterns.LeadingZerosValue | shenidam.py:192-193 | leading zeros do not change a number's value |
| Patterns.AllZerosValue | shenidam.py:192-193 | a run of zeros has value 0 |
| Patterns.ZeroPaddedValue | shenidam.py:188-194 | the padded text reads back as i |
| Patterns.SeqPlaceholder | shenidam.py:41 | a `{seq}` or `{seq/N}` match lies within the text |
| Patterns.SeqText | shenidam.py:186-193 | the text `repl` returns is digits only, reads back as i, and is at least as wide as asked |
| Patterns.SubstituteSeq | shenidam.py:195 | `re.sub(NUM_PATTERN, repl, pattern)`: text without '{' is left alone |
| Patterns.SeqPlaceholderStart | shenidam.py:41 | no match starts anywhere but at "{s" |
| Patterns.SeqWidthPlaceholder | shenidam.py:188-195 | `{seq/N}` becomes i padded to N digits |
| Patterns.SeqPlainPlaceholder | shenidam.py:188-195 | `{seq}` becomes `str(i)` |
| Patterns.LeadingDigitsPrefix | shenidam.py:41 | the width read from `{seq/N}` is the whole run of digits |
| Patterns.SubstituteSeqFreePrefix | shenidam.py:195 | a prefix without '{' is kept and the rest is substituted |
| Patterns.SubstituteSeqMismatch | shenidam.py:195 | a '{' not followed by 's' starts no match and is kept |
| Patterns.SubstituteSeqNoMatch | shenidam.py:195 | text where no match starts is returned unchanged |
| Patterns.PartsOf | shenidam.py:182-186 | the file is the base name, base and extension are its `splitext`, the directory is the dirname or "." exactly when that is empty |
| Patterns.PartsWithoutBrace | shenidam.py:182-186 | a file name without '{' gives parts without '{' |
| Patterns.SplitExtWithoutBrace | shenidam.py:183 | `splitext` of a name without '{' gives parts without '{' |
| Patterns.FilenameFromPattern | shenidam.py:181-200 | a pattern without '{' is returned unchanged |
| Patterns.PlainPatternUnchanged | shenidam.py:181-200 | a pattern in which no placeholder starts at any position is returned unchanged |
| Patterns.BraceWithoutPlaceholder | shenidam.py:181-200 | braces that form no placeholder, as in "out{1}.wav", are kept |
| Patterns.NameText | shenidam.py:42-45 | each named placeholder starts with '{', then a character other than 's', and holds no second '{' |
| Patterns.Pass | shenidam.py:196-199 | the named substitutions run as passes 1 to 4, after the `{seq}` pass |
| Patterns.PiecesCons | shenidam.py:181-200 | a pattern and its filled text are built piece by piece |
| Patterns.TextBeforeAnyPass | shenidam.py:195 | before any pass the text is the pattern |
| Patterns.TextAfterAllPasses | shenidam.py:199 | after the five passes every placeholder is filled in |
| Patterns.SeqPass | shenidam.py:195 | the `{seq}` pass fills exactly the `{seq}` and `{seq/N}` pieces |
| Patterns.NamePass | shenidam.py:196-199 | each named pass fills exactly the pieces of its name |
| Patterns.NamePassHead | shenidam.py:196-199 | one piece of a named pass, followed by any rest |
| Patterns.FilledByPasses | shenidam.py:195-199 | the five substitutions in order give the filled pattern |
| Patterns.NamedPlaceholders | shenidam.py:181-200 | for a pattern of literals without '{' and placeholders, and a file name without '{', the result is every placeholder replaced by its value: `{seq}`/`{seq/N}` by i, `{file}` by the base name, `{base}` and `{ext}` by its `splitext`, `{dir}` by the dirname or "." |
| Patterns.DirBaseExtPattern | shenidam.py:181-200 | "{dir}/{base}{ext}" names the file's directory, base name and extension |
| Patterns.DirBaseExtFilled | shenidam.py:181-200 | the pieces of "{dir}/{base}{ext}" and their filled text |
| Patterns.DigitsPlain | shenidam.py:188 | the digits of `str(i)` hold no '{' |
| Frontend.ParseEvent | shenidam.py:98-109 | the loop over the ';' pieces builds the parsed event |
| Frontend.AddPiece | shenidam.py:101-108 | keeps every key, adds at most one, changes no other key's value, and keeps keys and values stripped; a piece without ':' maps its stripped text to None |
| Frontend.AddKeyValuePiece | shenidam.py:101-108 | a piece `key:value` with a ':'-free key maps the stripped key to the stripped value, which may hold further ':' |
| Frontend.EventFields | shenidam.py:100-108 | keys and values stripped, at most one key per piece |
| Frontend.ParsedEvent | shenidam.py:98-109 | `_parse_event`: keys and values stripped, at least one key and at most one per ';' piece |
| Frontend.StorePiece | shenidam.py:100-108 | one stripped piece split at its first ':' is stored |
| Frontend.Delivered | shenidam.py:116-118 | a line reaches the callback exactly when it starts with "MESSAGE:", and its event then has a "MESSAGE" key |
| Frontend.MessageKeyPresent | shenidam.py:98-109 | a "MESSAGE:" line always parses to an event with a "MESSAGE" key |
| Frontend.FirstPieceKeepsPrefix | shenidam.py:100 | the first piece of such a line starts with "MESSAGE:" |
| Frontend.MessagePieceKey | shenidam.py:101-108 | such a piece adds the key "MESSAGE" |
| Frontend.MessageKeyPlain | shenidam.py:101-108 | the key "MESSAGE" has no ':' and no edge whitespace |
| Frontend.StripKeepsMessagePrefix | shenidam.py:101 | stripping keeps the "MESSAGE:" prefix |
| Frontend.KeyStays | shenidam.py:100-108 | later pieces only add or overwrite keys |
| Frontend.AddPieceKeeps | shenidam.py:105-108 | a key once present stays present |
| Frontend.EventFieldsAppend | shenidam.py:100-108 | the pieces are read from first to last |
| Frontend.EventFieldsSnoc | shenidam.py:100-108 | the pieces are read from first to last, by index |
| Frontend.AddNewlinePiece | shenidam.py:105-106 | the newline after the last ';' maps the empty key to None |
| Frontend.EntryPieces | shenidam_main.cpp:109-112 | one "key:value" piece per entry, in order |
| Frontend.MessageLineJoin | shenidam_main.cpp:107-113 | the written line is the ';'-join of its pieces |
| Frontend.AddEntryPiece | shenidam.py:107-108 | a well-formed piece stores its value under its key |
| Frontend.EventFieldsOfEntries | shenidam.py:98-109 | reading the event and entry pieces gives the event and the entries, last write winning |
| Frontend.MessageRoundTrip | shenidam.py:98-118 | parsing a `send_message` line gives MESSAGE → event, each key → its value, and "" → None |
| Frontend.MessageLineSplit | shenidam.py:100 | the line splits into the event piece, the entry pieces and the newline |
| Frontend.PiecesHaveNoSeparator | shenidam.py:100 | no piece holds a ';' |
| Frontend.NoSeparatorInConcat | shenidam.py:100 | concatenation adds no separator |
| Frontend.ReadBackEntry | shenidam.py:98-109 | each key sent reads back as its own value |
| Frontend.LastWriteWins | shenidam.py:105-108 | a later duplicate key overwrites an earlier one |
| Frontend.LexLessDistinct | shenidam_main.cpp:108-112 | keys in ascending order are distinct |
| Frontend.Call | shenidam.py:124-136 | ValueError exactly for no inputs or a mismatched output count; otherwise the command starts with the quoted executable and -m |
| Frontend.BuildCommand | shenidam.py:124-136 | the += loops build that command |
| Frontend.AppendQuoted | shenidam.py:129-135 | each name in double quotes followed by a space, in order |
| Frontend.CommandIsAccepted | shenidam.py:124-136 | the command built is one `parse_options` accepts, reading back count, base, inputs and outputs, and `main` runs the alignment |
| Frontend.CommandHeadSteps | shenidam.py:136 | -m, -n, -b and -i are read back in that order |
| Frontend.NamesStepReads | shenidam_main.cpp:246-284 | -i or -o followed by exactly the announced names stores them |
| Frontend.MessagesAndCountSteps | shenidam.py:136 | -m sets the messages on and -n reads the count back |
| Frontend.MessagesStep | shenidam_main.cpp:294-297 | -m switches the messages on and moves to the next argument |
| Frontend.CountStep | shenidam_main.cpp:225-238 | -n followed by `str(n)` sets the track count to n |
| Frontend.BaseStep | shenidam_main.cpp:239-245 | a first -b stores the base name |
| Frontend.KindOfCommandOptions | shenidam.py:136 | the options the command uses are the ones the tool knows |
| Frontend.TrackCountReadBack | shenidam.py:136 | `str(n)` read back by strtol and the int conversion gives n |
| Frontend.Capped | shenidam.py:220-221 | the level is capped at 1 and otherwise unchanged |
| Frontend.MajorProgress | shenidam.py:218-222 | the fraction of major steps begun, capped at 1, and never negative |
| Frontend.MinorProgress | shenidam.py:228-235 | at most 1, the major level when there are no minor levels, and never below it |
| Frontend.MinorProgressWithinMajorStep | shenidam.py:230 | a minor level lies between its major step and the next |
| Frontend.ShareIsFraction | shenidam.py:230 | a minor share is a fraction between 0 and 1 |
| Frontend.StepWithinBounds | shenidam.py:230 | a share of one major step stays inside that step |
| Frontend.CancelableProgressNotifier.constructor | shenidam.py:202-211 | empty queue, not canceled, major level −1, no minor levels |
| Frontend.CancelableProgressNotifier.UpdateMajor | shenidam.py:212-222 | raises before any change when canceled and asked to; otherwise next major level, label cleared, minor level 0, minor count + 1, level reported |
| Frontend.CancelableProgressNotifier.UpdateMinor | shenidam.py:223-235 | the same check; a major level below 0 lifted to 0, minor level + 1, level reported |
| Frontend.CancelableProgressNotifier.Report | shenidam.py:222 | puts a level of at most 1 on the queue |
| Frontend.CancelableProgressNotifier.SetMajorText | shenidam.py:236-238 | stores the label and reports it |
| Frontend.CancelableProgressNotifier.SetMinorText | shenidam.py:239-240 | reports the label, " - " and the text |
| Frontend.CancelableProgressNotifier.Refresh | shenidam.py:241-243 | raises exactly when canceled |
| Frontend.CancelableProgressNotifier.Cancel | shenidam.py:244-245 | only the flag changes |
| Frontend.FileProcessor.constructor | shenidam.py:348-350 | no track converted yet |
| Frontend.FileProcessor.ShenidamUpdater | shenidam.py:267-279 | unknown events ignored; a progress event has `update_minor`'s effects (major level lifted to 0, minor level + 1, the new level reported) and then reports the track's text, every other notifier field kept; only wrote-file counts a track, by exactly one |
| Frontend.RemixParamsBuiltInDefaults | shenidam.py:359-361 | None or "default" becomes "-acodec copy" or "-vcodec copy -acodec copy" |
| Frontend.RemixParamsIdempotent | shenidam.py:359-361 | choosing the parameters twice changes nothing |
| Frontend.BuiltInDefaultsAreNotMarker | shenidam.py:263-264 | the built-in defaults are not the "default" marker |
| Frontend.RemixParams | shenidam.py:359-361 | given parameters other than "default" are used as they are; otherwise the model's default for the kind of output |
| Frontend.ReadProblem | shenidam.py:393-397 | no ModelException exactly when the path is not a directory and is readable |
| Frontend.WriteProblem | shenidam.py:384-392 | no ModelException exactly when the path is not a directory and it, or its directory when it does not exist, is writable |
| Frontend.TracksReadProblem | shenidam.py:404-405 | no problem exactly when every track can be read |
| Frontend.OutputsProblem | shenidam.py:407-408 | no problem exactly when every output of the pattern can be written; a None pattern raises TypeError |
| Frontend.PatternsProblem | shenidam.py:406-408 | no problem exactly when every output of every pattern can be written; only TypeError escapes |
| Frontend.CheckModel | shenidam.py:398-416 | passes exactly when base, tracks, outputs, both temporary directories and both programs are usable; any other exception is a TypeError or an OSError |
| Frontend.NonePatternRaises | shenidam.py:398-408 | with readable files, a None first pattern raises TypeError |
| Frontend.MissingOutputTmpDirRaises | shenidam.py:398-412 | with every file check passed, a None output temporary directory raises TypeError |
| Frontend.IntendedCheckModel | shenidam.py:253 | with the output temporary directory falling back to the temporary directory, it passes exactly when everything is usable, and a model with a base and patterns raises only OSError |
| Frontend.AllPatternsNoTypeError | shenidam.py:406-408 | patterns that are all present raise no TypeError |
| Frontend.SomePatternNoTypeError | shenidam.py:407-408 | a present pattern raises no TypeError |
| AvWrapper.Defaults | shenidam.py:366-381 | a fresh model: no base, no tracks, no outputs, mapped output on, no mapping file |
| AvWrapper.ParamOf | python/shenidam_av.py:93-152 | `--no-av-output` names the option the usage text advertises; every other argument is read as written |
| AvWrapper.ParamOfAsWritten | python/shenidam_av.py:90-152 | `-n` is read only as "-n" or "-no-av-output"; every recognised option starts with '-' |
| AvWrapper.LongNoAvOutputAsWritten | python/shenidam_av.py:95 | as written, `--no-av-output` is taken for a track name |
| AvWrapper.Classify | python/shenidam_av.py:91 | each argument stripped, with the option it names |
| AvWrapper.StripAll | python/shenidam_av.py:155-157 | each argument stripped, in order |
| AvWrapper.Options | python/shenidam_av.py:90-152 | the option loop stops inside the arguments and never touches tracks or outputs |
| AvWrapper.StopsAtNonOption | python/shenidam_av.py:150-152 | the loop ends at the end or at the first argument naming no option |
| AvWrapper.ParamsParsed | python/shenidam_av.py:83-161 | 0 or 1; on 0, one output entry and at least one track added; on 1, tracks and outputs untouched |
| AvWrapper.TracksAfterOptions | python/shenidam_av.py:150-157 | on success the tracks are the stripped arguments from the first non-option on, in order |
| AvWrapper.TrailingValueOptionFails | python/shenidam_av.py:102-147 | an option that takes a value, reached as the last argument, ends the loop on a missing value |
| AvWrapper.MissingValueFails | python/shenidam_av.py:101-147 | such a command line returns 1 |
| AvWrapper.FlagsRunToEnd | python/shenidam_av.py:90-152 | flags alone run the loop to the end |
| AvWrapper.NoTracksFails | python/shenidam_av.py:153-154 | with no positional argument the result is 1 |
| AvWrapper.MappedOutputStaysOff | python/shenidam_av.py:95-96 | once off, mapped output stays off |
| AvWrapper.NoAvOutputSticks | python/shenidam_av.py:95-96 | -n switches mapped output off |
| AvWrapper.TranscodeChoiceKept | python/shenidam_av.py:116-124 | without -tb or -ntb the choice is kept |
| AvWrapper.LastTranscodeChoiceWins | python/shenidam_av.py:116-124 | the last of -tb and -ntb decides |
| AvWrapper.RemixUnset | python/shenidam_av.py:133-137 | without -arp the remix parameters stay unset |
| AvWrapper.DefaultRemixChosen | python/shenidam_av.py:158-160 | without -arp the single output entry carries "-c:v copy -c:a copy", or "-c:a copy" when audio-only |
| AvWrapper.CheckedView | shenidam.py:366-381 | what check_model reads: the output patterns, and no output temporary directory |
| AvWrapper.Caught | python/shenidam_av.py:179-182 | a ModelException gives 0; any other exception ends the program |
| AvWrapper.ParamsChecked | python/shenidam_av.py:164-183 | quiet forces verbose off; 1 exactly for no base, no tracks, or a missing or empty pattern with mapped output; the probe fills in an unset transcode choice; otherwise check_model's outcome, where only a ModelException is caught |
| AvWrapper.NoPatternCrashes | python/shenidam_av.py:164-183 | with shenidam.py's `check_model`: `-n` without `-o`, with readable files, ends in TypeError |
| AvWrapper.ValidCommandCrashes | python/shenidam_av.py:179-182 | with shenidam.py's `check_model`: a command line whose files all check out ends in TypeError at the output temporary directory |
| AvWrapper.Accepted | python/shenidam_av.py:219-223 | a command line passing both checks has a base, tracks and one output entry |
| AvWrapper.Model.constructor | shenidam.py:379-381 | the model starts with the defaults |
| AvWrapper.Model.ParseParams | python/shenidam_av.py:83-161 | the code and model `ParamsParsed` gives |
| AvWrapper.Model.ScanOptions | python/shenidam_av.py:90-152 | the loop over the options ends as `Options` says |
| AvWrapper.Model.AppendTracks | python/shenidam_av.py:155-157 | the stripped arguments appended in order |
| AvWrapper.Model.ApplyFlag | python/shenidam_av.py:93-124 | one flag updates the model as `Flag` says |
| AvWrapper.Model.ApplyValue | python/shenidam_av.py:101-149 | one option with its value updates the model as `WithValue` says |
| AvWrapper.Model.CheckParams | python/shenidam_av.py:164-183 | the outcome and model `ParamsChecked` gives |
| AvWrapper.MappingRows | python/shenidam_av.py:217-218 | one row per pair of the shorter of tracks and placements |
| AvWrapper.SaveMapping | python/shenidam_av.py:213-218 | writes the header and one row per pair only when a mapping file is named |
| AvWrapper.LinesJoin | python/shenidam_av.py:216-218 | lines each followed by a newline are their newline-join |
| AvWrapper.RowFields | python/shenidam_av.py:218 | a row holds no newline and splits at its tabs into its three fields |
| AvWrapper.RowsHoldFields | python/shenidam_av.py:217-218 | every row does |
| AvWrapper.MappingLines | python/shenidam_av.py:216-218 | the mapping text is its lines joined by newlines |
| AvWrapper.MappingFileReadsBack | python/shenidam_av.py:213-218 | the file reads back as the header, one row per pair and nothing after the last newline |
| AvLegacy.Defaults | shenidam.py:366-381 | a fresh model: no base, no tracks, no outputs, commands "shenidam" and "ffmpeg" |
| AvLegacy.Classify | shenidam-av.py:89 | each argument stripped, with the option it names |
| AvLegacy.Options | shenidam-av.py:88-143 | the option loop stops inside the arguments and never touches tracks or outputs |
| AvLegacy.StopsAtNonOption | shenidam-av.py:141-143 | the loop ends at the end or at the first argument naming no option |
| AvLegacy.ParamsParsed | shenidam-av.py:81-151 | 0 or 1; on 0, one output entry and at least one track added; on 1, tracks and outputs untouched |
| AvLegacy.TracksAfterOptions | shenidam-av.py:141-147 | on success the tracks are the stripped arguments from the first non-option on, in order |
| AvLegacy.TrailingValueOptionFails | shenidam-av.py:98-138 | an option that takes a value, reached as the last argument, ends the loop on a missing value |
| AvLegacy.MissingValueFails | shenidam-av.py:97-138 | such a command line returns 1 |
| AvLegacy.FlagsRunToEnd | shenidam-av.py:88-143 | flags alone run the loop to the end |
| AvLegacy.NoTracksFails | shenidam-av.py:144-145 | with no positional argument the result is 1 |
| AvLegacy.TranscodeChoiceKept | shenidam-av.py:107-115 | without -tb or -ntb the choice is kept |
| AvLegacy.LastTranscodeChoiceWins | shenidam-av.py:107-115 | the last of -tb and -ntb decides |
| AvLegacy.RemixUnset | shenidam-av.py:124-128 | without -arp the remix parameters stay unset |
| AvLegacy.DefaultRemixChosen | shenidam-av.py:148-150 | without -arp the stored triple carries "-vcodec copy -acodec copy", or "-acodec copy" when audio-only |
| AvLegacy.ParamsChecked | shenidam-av.py:154-175 | quiet forces verbose off; 1 exactly for no base, no tracks, an empty pattern, or an empty shenidam or ffmpeg command; the probe fills in only an unset transcode choice |
| AvLegacy.Accepted | shenidam-av.py:201-205 | a command line passing both checks has a base, tracks, a pattern and both commands |
| AvLegacy.Model.constructor | shenidam.py:379-381 | the model starts with the defaults |
| AvLegacy.Model.ParseParams | shenidam-av.py:81-151 | the code and model `ParamsParsed` gives |
| AvLegacy.Model.ScanOptions | shenidam-av.py:88-143 | the loop over the options ends as `Options` says |
| AvLegacy.Model.AppendTracks | shenidam-av.py:146-147 | the stripped arguments appended in order |
| AvLegacy.Model.ApplyFlag | shenidam-av.py:91-115 | one flag updates the model as `Flag` says |
| AvLegacy.Model.ApplyValue | shenidam-av.py:97-140 | one option with its value updates the model as `WithValue` says |
| AvLegacy.Model.CheckParams | shenidam-av.py:154-175 | the code and model `ParamsChecked` gives |

## Left out

- The FFTW transforms, their plans and threads (`fft`, `ifft`, `fftwf_init_threads`): the current engine's correlation is stated as the circular sum they compute; the legacy engine takes the transforms as a parameter whose only contract is the output length.
- `resize_f` of src/shenidam.c: unused by the library.
- libsamplerate's `src_simple`: a parameter whose only contract is that it returns no more samples than requested.
- `normalize`: a length-preserving parameter; its float arithmetic and `sqrt` are not modelled.
- Float rounding of sample values, of `round`/`ceil` on rate ratios and of summation order: all arithmetic is exact.
- `Engine.Session.constructor`: the source leaves the base rate uninitialised until a base is set; the model starts it at 0.
- Allocation failures (`setjmp`/`longjmp`, `ALLOCATION_ERROR` returns) and freeing memory: allocation always succeeds.
- The `int*` in-point of the legacy header versus `intmax_t*` in src/shenidam.c: in-points are unbounded integers.
- libsndfile I/O and the audio processing of `shenidam_main.cpp` (`read_sndfile_average`, `copy_partial_sndfile`, `process_audio`, `can_open_base`), the random self test (`randn`, `test_once`, `do_test`), and `usage`. `Cli.TestN` takes each try's outcome as a parameter.
- `strtod`: a parameter `toReal` of the option parser.
- Standard output and standard error beyond the `MESSAGE:` lines: error messages are not modelled.
- Subprocesses, threads and the file system in shenidam.py (`ProcessRunner`, `StreamReader`, `convert`, `run_command`, `extract_audio`, `run_shenidam`, `can_open`, `TemporaryFile`): `can_open` is a parameter of the wrappers' checks; `check_model` sees the file system and `subprocess.call` only through `Frontend.Host`, whose answers are arbitrary and fixed for one call.
- `Frontend.CheckModel`: the messages of exceptions other than ModelException, and the failures of `os.access` on a non-string path, are reduced to the names TypeError and OSError.
- `AvLegacy.ParamsChecked`: shenidam-av.py does not call `check_model`, so its checks stop at the parsed command line.
- `Patterns.FilenameFromPattern`: `re.sub` reads backslash escapes in the replacement text (the track number, base name, extension or directory); the model copies that text literally. The result differs when the inserted text holds a backslash: `\n` and `\t` become control characters, `\1` or `\g<…>` raise an error, and an unknown escape such as `\d` raises `re.error` on Python 3.7 and later but is kept on Python 2.
- `Engine.SetBaseAudio`: requires a positive sample rate; the source does not check it, and a zero or negative rate divides by zero in the resampling ratio, which the model does not follow.
- `LegacyEngine.LegacySession.SetBaseAudio`: requires a positive sample rate for the same reason; the source does not check it either.
- `Frontend.CancelableProgressNotifier`: the queue is a sequence of messages; the thread-safe queue is not modelled.
- `Frontend.ParseEvent`: Python's dictionary is a map; its insertion order is not modelled.
- `Frontend.Call`: stops at the command text; running the command and reading its output are not modelled.
- `AvWrapper.Defaults`: `has_mapped_output`, `output_mapping` and `avconv` are read by python/shenidam_av.py but not set by the `FileProcessorModel` of shenidam.py; the model starts them as True, None and "avconv". The wrapper also binds `unicode = shenidam.encode` (python/shenidam_av.py:30), and shenidam.py defines no `encode`: with shenidam.py as its `shenidam` module the wrapper would stop with an AttributeError on import. The model takes `encode` as the identity on the stripped arguments and pairs the wrapper with shenidam.py's `FileProcessorModel` and `check_model` all the same; the module the wrapper really imports is not part of this model.
- `AvLegacy.ParamsParsed`: the triple goes to `output_patterns_with_audio_only_flag_and_remix_params`, which the processor does not read; the model stores it as written.
- The `main` functions of both wrappers beyond their validation, `usage`, `remix_audio` and the conversion pipeline.
- qshenidam.py, the Qt interface: not part of this model.
- `Patterns.Dirname`: POSIX `os.path.dirname` only; no Windows paths.
- `Strings.Strip`: ASCII whitespace only, no Unicode whitespace.

## Findings

| source | as written | input that shows it | evidently intended | confidence | as-written member | corrected member |
|---|---|---|---|---|---|---|
| src/shenidam.c:383 | the overlap end scales the resampled track length, already at the base rate, by base/track rate a second time | track at 8000 Hz, base at 16000 Hz: a 200-sample resampled track placed at 0 in a 1000-sample base gives end 400, and the window reads track sample 300 | the end is the in-point plus the resampled track's length | not executed | Engine.OverlapEndAsWrittenOverrunsTrack | Engine.RefineAudioRange |
| src/shenidam.c:288-300 | `shenidam_set_resampling_quality` stores the converter and reaches the end of the function without a `return` | any non-NULL session with converter 2 | return SUCCESS after storing | not executed | Engine.SetQualityStatusAsWritten | Engine.SetResamplingQuality |
| src/shenidam.c:411-425 | `shenidam_refine_audio_range` updates the in-point and reaches the end without a `return` | a base at 48000 Hz with working rate 16000 Hz (radius 3) and a track overlapping it | return SUCCESS after refining | not executed | Engine.RefineStatusAsWritten | Engine.RefineAudioRange |
| shenidam.py:411 | if the imported module's `check_model` is shenidam.py:398-416, it calls `os.path.isdir(model.output_tmp_dir)`, which is None in every model `python/shenidam_av.py` builds; the TypeError escapes `check_params`, which catches only ModelException (python/shenidam_av.py:179-182) | any command line with a readable base, readable tracks and writable outputs | fall back to `tmp_dir` as the processor does at shenidam.py:253 | not executed | AvWrapper.ValidCommandCrashes | Frontend.IntendedCheckModel |
| shenidam.c:267 | the count loop tests the pointer `cur++`, not the entry `*cur`, so it does not stop at the NULL sentinel | any filter list, including the empty one | count the entries before the sentinel | not executed | LegacyEngine.CountLoopAsWrittenPassesSentinel | LegacyEngine.LegacySession.AddFrequentialFilter |
| shenidam.c:271-272 | `realloc` asks for `sizeof(ptr)*n + 2` bytes, room for n pointers, then writes filter slots n and n + 1 and data slot n | a list with one filter and 8-byte pointers: 10 bytes for the 3 filter slots written | `sizeof(ptr)*(n + 2)` bytes | not executed | LegacyEngine.ReallocAsWrittenTooSmall | LegacyEngine.LegacySession.AddFrequentialFilter |
| python/shenidam_av.py:95 | the long form of `-n` is compared as `-no-av-output`, while the usage text at line 189 offers `--no-av-output` | the argument `--no-av-output` ends the options and becomes a track name | `--no-av-output` switches mapped output off | not executed | AvWrapper.LongNoAvOutputAsWritten | AvWrapper.ParamOf |
