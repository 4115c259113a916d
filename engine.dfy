/**
 * The alignment engine of src/shenidam.c. A session holds a base recording
 * twice: at its own rate ("full resolution") and resampled to the working
 * rate. A track is located in the base in two stages. The coarse stage
 * cross-correlates the track and the base at the working rate through
 * zero-padded FFTs and takes the lag of the first maximum. The refine stage
 * scans, at the base's own rate, the placements within one working-rate
 * sample of the coarse one.
 *
 * Samples are reals. The FFT round trip is replaced by the circular
 * cross-correlation it computes, and resampling and normalisation are
 * collaborators (Api.Dsp).
 */
module Engine {
  import opened Wrappers
  import opened Api
  import opened Signal

  /** shenidam_get_error_message: a text for each status code. */
  function ErrorMessage(error: int): (msg: string)
    ensures error == INVALID_ARGUMENT ==> msg == "Invalid argument"
    ensures error == ALREADY_SET_BASE_SIGNAL ==> msg == "Base signal already set"
    ensures error == BASE_SIGNAL_NOT_SET ==> msg == "Base signal not set"
    ensures error == NULL_OBJECT ==> msg == "NULL shenidam object"
    ensures msg == "Unknown error" <==> !(INVALID_ARGUMENT <= error <= NULL_OBJECT)
  {
    if error == INVALID_ARGUMENT then "Invalid argument"
    else if error == ALREADY_SET_BASE_SIGNAL then "Base signal already set"
    else if error == BASE_SIGNAL_NOT_SET then "Base signal not set"
    else if error == NULL_OBJECT then "NULL shenidam object"
    else "Unknown error"
  }

  /**
   * convert_to_samples: widens the caller's samples to the engine's sample
   * type. Single-precision input is copied as it is; the other known formats
   * are converted one sample at a time; an unknown format fails with status 1.
   * The numeric value of a sample does not change under the widening, so the
   * output holds the input's values.
   */
  method ConvertToSamples(format: int, samplesIn: seq<real>) returns (status: int, samplesOut: seq<real>)
    ensures status == 0 <==> IsKnownFormat(format)
    ensures status != 0 ==> status == 1 && samplesOut == []
    ensures status == 0 ==> samplesOut == samplesIn
  {
    var out := new real[|samplesIn|](_ => 0.0);
    if format == FORMAT_SINGLE {
      forall k | 0 <= k < out.Length {
        out[k] := samplesIn[k];
      }
      return 0, out[..];
    }
    if !IsKnownFormat(format) {
      return 1, [];
    }
    var k := 0;
    while k < |samplesIn|
      invariant 0 <= k <= |samplesIn|
      invariant forall j :: 0 <= j < k ==> out[j] == samplesIn[j]
    {
      out[k] := samplesIn[k];
      k := k + 1;
    }
    return 0, out[..];
  }

  /** The record shenidam_t_impl behind a handle. A missing buffer is None (the C NULL). */
  class Session {
    var workingSampleRate: real
    var baseSampleRate: real
    /** The normalised base resampled to the working rate. */
    var baseWorking: Option<seq<real>>
    /** The normalised base at its own rate. */
    var baseFullres: Option<seq<real>>
    var numThreads: int
    var srcConverter: int

    ghost predicate Valid()
      reads this
    {
      && workingSampleRate > 0.0
      && numThreads >= 1
      && IsConverter(srcConverter)
      && (baseWorking.Some? <==> baseFullres.Some?)
      && (baseWorking.Some? ==> baseSampleRate > 0.0)
    }

    /**
     * shenidam_create: no base yet, at least one thread, the fastest sinc
     * converter. The source leaves the base rate uninitialised until a base
     * is set; here it starts at 0.
     */
    constructor (workingRate: real, threads: int)
      requires workingRate > 0.0
      ensures Valid()
      ensures workingSampleRate == workingRate
      ensures numThreads == (if threads <= 1 then 1 else threads)
      ensures baseWorking == None && baseFullres == None
      ensures srcConverter == SRC_SINC_FASTEST
    {
      workingSampleRate := workingRate;
      baseSampleRate := 0.0;
      baseWorking := None;
      baseFullres := None;
      numThreads := if threads <= 1 then 1 else threads;
      srcConverter := SRC_SINC_FASTEST;
    }
  }

  /**
   * shenidam_set_resampling_quality: a NULL handle or a converter outside
   * 0..4 is refused; otherwise the converter is stored. The source falls off
   * the end of the function after storing (see SetQualityStatusAsWritten);
   * here it reports SUCCESS.
   */
  method SetResamplingQuality(s: Session?, converter: int) returns (err: int)
    requires s != null ==> s.Valid()
    modifies s
    ensures s != null ==> s.Valid()
    ensures s == null ==> err == NULL_OBJECT
    ensures s != null && !IsConverter(converter) ==> err == INVALID_ARGUMENT && unchanged(s)
    ensures s != null && IsConverter(converter) ==>
      && err == SUCCESS
      && s.srcConverter == converter
      && s.workingSampleRate == old(s.workingSampleRate)
      && s.baseSampleRate == old(s.baseSampleRate)
      && s.baseWorking == old(s.baseWorking)
      && s.baseFullres == old(s.baseFullres)
      && s.numThreads == old(s.numThreads)
  {
    if s == null {
      return NULL_OBJECT;
    }
    if converter < 0 || converter > 4 {
      return INVALID_ARGUMENT;
    }
    s.srcConverter := converter;
    err := SUCCESS;
  }

  /**
   * The status shenidam_set_resampling_quality returns as written: None
   * stands for the indeterminate value of a function that ends without a
   * return statement.
   */
  function SetQualityStatusAsWritten(isNull: bool, converter: int): (status: Option<int>)
    ensures isNull ==> status == Some(NULL_OBJECT)
    ensures !isNull && !IsConverter(converter) ==> status == Some(INVALID_ARGUMENT)
    ensures !isNull && IsConverter(converter) ==> status.None?
  {
    if isNull then Some(NULL_OBJECT)
    else if converter < 0 || converter > 4 then Some(INVALID_ARGUMENT)
    else None
  }

  /** The working-rate copy of a base: normalised, then resampled from its own rate to the working rate. */
  function WorkingBase(dsp: Dsp, converter: int, workingRate: real, samples: seq<real>, sampleRate: real): (r: seq<real>)
    requires workingRate > 0.0 && sampleRate > 0.0
    ensures |r| <= LengthAtRate(|samples|, workingRate, sampleRate)
  {
    dsp.resample(dsp.normalize(samples), workingRate / sampleRate, LengthAtRate(|samples|, workingRate, sampleRate), converter)
  }

  /**
   * shenidam_set_base_audio: a base can be set once per session. The
   * normalised samples are kept at full resolution and, resampled to the
   * working rate, as the working copy.
   */
  method SetBaseAudio(s: Session?, format: int, samples: seq<real>, sampleRate: real, dsp: Dsp) returns (err: int)
    requires s != null ==> s.Valid()
    requires s != null && s.baseWorking.None? && IsKnownFormat(format) ==> sampleRate > 0.0
    modifies s
    ensures s != null ==> s.Valid()
    ensures s == null ==> err == NULL_OBJECT
    ensures s != null && old(s.baseWorking).Some? ==> err == ALREADY_SET_BASE_SIGNAL && unchanged(s)
    ensures s != null && old(s.baseWorking).None? && !IsKnownFormat(format) ==> err == INVALID_ARGUMENT && unchanged(s)
    ensures s != null && old(s.baseWorking).None? && IsKnownFormat(format) ==>
      && err == SUCCESS
      && s.baseFullres == Some(dsp.normalize(samples))
      && |s.baseFullres.value| == |samples|
      && s.baseWorking == Some(WorkingBase(dsp, s.srcConverter, s.workingSampleRate, samples, sampleRate))
      && s.baseSampleRate == sampleRate
      && s.workingSampleRate == old(s.workingSampleRate)
      && s.numThreads == old(s.numThreads)
      && s.srcConverter == old(s.srcConverter)
  {
    if s == null {
      return NULL_OBJECT;
    }
    if s.baseWorking.Some? {
      return ALREADY_SET_BASE_SIGNAL;
    }
    var status, base := ConvertToSamples(format, samples);
    if status != 0 {
      return INVALID_ARGUMENT;
    }
    base := dsp.normalize(base);
    s.baseFullres := Some(base);
    var requested := LengthAtRate(|samples|, s.workingSampleRate, sampleRate);
    var working := dsp.resample(base, s.workingSampleRate / sampleRate, requested, s.srcConverter);
    s.baseWorking := Some(working);
    s.baseSampleRate := sampleRate;
    err := SUCCESS;
  }

  /**
   * shenidam_destroy: refuses a NULL handle, otherwise releases both copies
   * of the base. The record itself is freed too, which a model with garbage
   * collection does not show.
   */
  method Destroy(s: Session?) returns (err: int)
    modifies s
    ensures s == null ==> err == NULL_OBJECT
    ensures s != null ==> err == SUCCESS && s.baseWorking == None && s.baseFullres == None
  {
    if s == null {
      return NULL_OBJECT;
    }
    s.baseWorking := None;
    s.baseFullres := None;
    err := SUCCESS;
  }

  // ---------------------------------------------------------------------------
  // Coarse alignment

  /** A length scaled by a positive rate ratio and rounded up: ceil(n·ratio). */
  function ScaledLength(n: nat, ratio: real): (r: nat)
    requires ratio > 0.0
    ensures n as real * ratio <= r as real < n as real * ratio + 1.0
  {
    assert n as real * ratio >= 0.0;
    Ceil(n as real * ratio)
  }

  /**
   * A track brought to a target rate: normalised, then, unless the rates
   * already agree, resampled into ceil(n·ratio) samples.
   */
  function TrackAtRate(dsp: Dsp, converter: int, targetRate: real, samples: seq<real>, trackRate: real): (r: seq<real>)
    requires targetRate > 0.0 && trackRate > 0.0
    ensures |r| <= Max(|samples|, ScaledLength(|samples|, targetRate / trackRate))
  {
    var normalized := dsp.normalize(samples);
    var ratio := targetRate / trackRate;
    if ratio != 1.0 then dsp.resample(normalized, ratio, ScaledLength(|samples|, ratio), converter)
    else normalized
  }

  /** The length the track and the base are zero-padded to: a power of two holding both. */
  function CommonLength(track: seq<real>, base: seq<real>): nat
  {
    LeastPowerOfTwoAtLeast(|track| + |base|)
  }

  /** Indices of the correlation above this one stand for negative lags. */
  function Threshold(commonSize: int, trackLen: int, baseLen: int): int
  {
    if trackLen < baseLen then commonSize - trackLen else baseLen
  }

  /**
   * The unwrapped lag of a correlation index: the index itself or the index
   * less the common size, the one that falls in the common-size window ending
   * at the threshold.
   */
  function Unwrap(index: int, commonSize: int, trackLen: int, baseLen: int): (lag: int)
    ensures lag == index || lag == index - commonSize
    ensures 0 <= index < commonSize && 0 <= Threshold(commonSize, trackLen, baseLen) < commonSize ==>
      Threshold(commonSize, trackLen, baseLen) - commonSize < lag <= Threshold(commonSize, trackLen, baseLen)
  {
    if index > Threshold(commonSize, trackLen, baseLen) then index - commonSize else index
  }

  /** The index of the first maximum of the circular correlation of the padded signals. */
  function CoarseIndex(track: seq<real>, base: seq<real>): (i: nat)
    ensures i < CommonLength(track, base)
  {
    var n := CommonLength(track, base);
    FirstArgmax(CircularCorrelation(Padded(track, n), Padded(base, n)))
  }

  /**
   * The lag, in working-rate samples, at which the track best matches the
   * base: the coarse index, unwrapped to a negative lag above the threshold.
   */
  function CoarseLag(track: seq<real>, base: seq<real>): (lag: int)
    ensures var n := CommonLength(track, base);
      && 0 < lag + n && lag < n
      && Threshold(n, |track|, |base|) - n <= lag <= Threshold(n, |track|, |base|)
      && (lag == CoarseIndex(track, base) || lag == CoarseIndex(track, base) - n)
  {
    Unwrap(CoarseIndex(track, base), CommonLength(track, base), |track|, |base|)
  }

  /** The duration of n samples at rate `from` counted at rate `to`, rounded: round(n·to/from). */
  function LengthAtRate(n: nat, to: real, from: real): (r: nat)
    requires to > 0.0 && from > 0.0
    ensures r as real - 0.5 <= n as real * to / from < r as real + 0.5
  {
    assert n as real * to / from >= 0.0;
    Round(n as real * to / from)
  }

  /** The coarse in-point at the base's own rate: the working-rate lag scaled and rounded. */
  function CoarseInPoint(lag: int, baseRate: real, workingRate: real): (p: int)
    requires workingRate > 0.0
    ensures lag as real * (baseRate / workingRate) - 0.5 <= p as real <= lag as real * (baseRate / workingRate) + 0.5
    ensures baseRate == workingRate ==> p == lag
  {
    assert baseRate == workingRate ==> baseRate / workingRate == 1.0;
    Round(lag as real * (baseRate / workingRate))
  }

  /**
   * Alias-free unwrapping: once both signals are zero-padded to n >= |t| + |b|,
   * the circular correlation at index i equals the linear correlation at the
   * unwrapped lag, with no wrapped-around contribution.
   */
  lemma UnwrappedIndexIsLinearLag(t: seq<real>, b: seq<real>, n: nat, i: nat)
    requires |t| + |b| <= n && i < n
    ensures CircularCorrelation(Padded(t, n), Padded(b, n))[i] == LinearCorrelation(t, b, Unwrap(i, n, |t|, |b|))
  {
    var tp, bp := Padded(t, n), Padded(b, n);
    var lag := Unwrap(i, n, |t|, |b|);
    var terms := CorrelationTerms(tp, bp, i);
    var linear := LinearTerms(t, b, lag);
    forall k | 0 <= k < |t|
      ensures terms[k] == linear[k]
    {
      if i > Threshold(n, |t|, |b|) && k + i < n {
        assert At(b, k + i) == 0.0 && At(b, k + lag) == 0.0;
      }
    }
    assert terms[..|t|] == linear;
    var tail := terms[|t|..];
    assert forall k :: 0 <= k < |tail| ==> tail[k] == 0.0;
    SumOfZeros(tail);
    assert terms == linear + tail;
    SumAppend(linear, tail);
  }

  /**
   * The coarse lag maximises the linear correlation of the track with the
   * base over every lag the search window covers.
   */
  lemma CoarseLagMaximizesCorrelation(track: seq<real>, base: seq<real>, lag: int)
    requires var n := CommonLength(track, base);
      Threshold(n, |track|, |base|) - n < lag <= Threshold(n, |track|, |base|) && lag < n
    ensures LinearCorrelation(track, base, lag) <= LinearCorrelation(track, base, CoarseLag(track, base))
  {
    var n := CommonLength(track, base);
    var r := CircularCorrelation(Padded(track, n), Padded(base, n));
    var i: nat := if lag >= 0 then lag else lag + n;
    assert Unwrap(i, n, |track|, |base|) == lag;
    UnwrappedIndexIsLinearLag(track, base, n, i);
    UnwrappedIndexIsLinearLag(track, base, n, CoarseIndex(track, base));
    assert r[i] <= r[CoarseIndex(track, base)];
  }

  // ---------------------------------------------------------------------------
  // Refinement

  /** The refinement radius: base samples per working-rate sample, rounded up. */
  function Radius(baseRate: real, workingRate: real): (r: int)
    requires workingRate > 0.0
    ensures baseRate / workingRate <= r as real < baseRate / workingRate + 1.0
  {
    Ceil(baseRate / workingRate)
  }

  /** Σ base[p]·track[p − place] over lo <= p < hi: how well the track placed at `place` matches there. */
  function PlacementScore(base: seq<real>, track: seq<real>, place: int, lo: int, hi: int): (score: real)
    ensures hi <= lo ==> score == 0.0
    ensures SilentOver(track, lo - place, hi - place) ==> score == 0.0
  {
    var terms := PlacementTerms(base, track, place, lo, hi);
    if SilentOver(track, lo - place, hi - place) then
      assert forall m :: 0 <= m < |terms| ==> terms[m] == At(base, lo + m) * At(track, lo + m - place);
      SumOfZeros(terms);
      Sum(terms)
    else Sum(terms)
  }

  /** Every sample of s from index lo up to hi (exclusive), zero outside s, is zero. */
  predicate SilentOver(s: seq<real>, lo: int, hi: int)
  {
    forall k :: lo <= k < hi ==> At(s, k) == 0.0
  }

  function PlacementTerms(base: seq<real>, track: seq<real>, place: int, lo: int, hi: int): (r: seq<real>)
    ensures |r| == Max(hi - lo, 0)
  {
    seq(Max(hi - lo, 0), m requires 0 <= m < Max(hi - lo, 0) => At(base, lo + m) * At(track, lo + m - place))
  }

  lemma PlacementScoreStep(base: seq<real>, track: seq<real>, place: int, lo: int, hi: int)
    requires lo <= hi
    ensures PlacementScore(base, track, place, lo, hi + 1)
         == PlacementScore(base, track, place, lo, hi) + At(base, hi) * At(track, hi - place)
  {
    var s := PlacementTerms(base, track, place, lo, hi + 1);
    assert s[..|s| - 1] == PlacementTerms(base, track, place, lo, hi);
  }

  /**
   * The inner loop of refine: the products base[p]·track[p − place] added up
   * for lo <= p < hi. The source adds them straight into the zeroed buffer
   * slot; the sum is the same.
   */
  method PlacementSum(base: seq<real>, track: seq<real>, place: int, lo: int, hi: int) returns (sum: real)
    requires 0 <= lo && hi <= |base|
    requires lo < hi ==> 0 <= lo - place && hi - place <= |track|
    ensures sum == PlacementScore(base, track, place, lo, hi)
  {
    sum := 0.0;
    var p := lo;
    while p < hi
      invariant lo <= p <= Max(lo, hi)
      invariant sum == PlacementScore(base, track, place, lo, p)
    {
      PlacementScoreStep(base, track, place, lo, p);
      sum := sum + base[p] * track[p - place];
      p := p + 1;
    }
    if hi < lo {
      assert PlacementTerms(base, track, place, lo, hi) == [] == PlacementTerms(base, track, place, lo, p);
    }
  }

  /**
   * The 2·radius + 1 window sums of refine: entry k scores the placement
   * inPoint − (k − radius) over the overlap shrunk by the radius at both ends.
   */
  function WindowSums(base: seq<real>, track: seq<real>, inPoint: int, radius: nat): (r: seq<real>)
    ensures |r| == 2 * radius + 1
  {
    var lo := Max(0, inPoint) + radius;
    var hi := Min(|base|, inPoint + |track|) - radius;
    seq(2 * radius + 1, k requires 0 <= k < 2 * radius + 1 => PlacementScore(base, track, inPoint - (k - radius), lo, hi))
  }

  /**
   * The track preparation shared by refine and get_audio_range: convert,
   * normalise, and resample to the target rate unless the rates agree.
   */
  method PrepareTrack(format: int, samples: seq<real>, targetRate: real, trackRate: real, converter: int, dsp: Dsp)
    returns (status: int, track: seq<real>)
    requires targetRate > 0.0 && trackRate > 0.0
    ensures status == 0 <==> IsKnownFormat(format)
    ensures status == 0 ==> track == TrackAtRate(dsp, converter, targetRate, samples, trackRate)
  {
    var converted;
    status, converted := ConvertToSamples(format, samples);
    if status != 0 {
      return status, [];
    }
    track := dsp.normalize(converted);
    var ratio := targetRate / trackRate;
    if ratio != 1.0 {
      track := dsp.resample(track, ratio, ScaledLength(|samples|, ratio), converter);
    }
  }

  /**
   * The coarse search of get_audio_range: pad both signals to the common
   * size, correlate them, take the first maximum and unwrap it to a lag.
   */
  method CoarseSearch(track: seq<real>, base: seq<real>) returns (lag: int)
    ensures lag == CoarseLag(track, base)
  {
    var commonSize := CommonSize(|track| + |base|);
    var paddedTrack := Resize(track, commonSize);
    var paddedBase := Resize(base, commonSize);
    // The forward transforms, the conjugate product and the inverse transform.
    var convolved := CircularCorrelation(paddedTrack, paddedBase);
    assert commonSize == CommonLength(track, base);
    assert convolved == CircularCorrelation(Padded(track, CommonLength(track, base)), Padded(base, CommonLength(track, base)));
    var index := FirstMaxIndex(convolved);
    assert index == FirstArgmax(convolved);
    assert index == CoarseIndex(track, base);
    lag := index;
    if lag > (if |track| < |base| then commonSize - |track| else |base|) {
      lag := lag - commonSize;
    }
  }

  /**
   * The window loop of refine: the calloc'ed buffer of 2·radius + 1 sums,
   * slot j + radius scoring the placement inPoint − j.
   */
  method ComputeWindowSums(base: seq<real>, track: seq<real>, inPoint: int, radius: nat) returns (sums: seq<real>)
    requires Max(0, inPoint) <= Min(|base|, inPoint + |track|)
    ensures sums == WindowSums(base, track, inPoint, radius)
  {
    ghost var expected := WindowSums(base, track, inPoint, radius);
    var lo := Max(0, inPoint) + radius;
    var hi := Min(|base|, inPoint + |track|) - radius;
    var buffer := new real[2 * radius + 1](_ => 0.0);
    var j: int := -(radius as int);
    while j <= radius
      invariant 0 <= j + radius <= 2 * radius + 1
      invariant forall k :: 0 <= k < j + radius ==> buffer[k] == expected[k]
    {
      var sum := PlacementSum(base, track, inPoint - j, lo, hi);
      assert sum == expected[j + radius];
      buffer[j + radius] := sum;
      j := j + 1;
    }
    sums := buffer[..];
  }

  /**
   * The refined in-point: unchanged when the radius is at most 1 or the
   * track does not overlap the base, otherwise the placement of the first
   * maximal window sum.
   */
  function Refined(base: seq<real>, track: seq<real>, inPoint: int, radius: int): (r: int)
    ensures radius <= 1 || Max(0, inPoint) > Min(|base|, inPoint + |track|) ==> r == inPoint
    ensures inPoint - Max(radius, 0) <= r <= inPoint + Max(radius, 0)
  {
    if radius <= 1 || Max(0, inPoint) > Min(|base|, inPoint + |track|) then inPoint
    else inPoint - (FirstArgmax(WindowSums(base, track, inPoint, radius)) - radius)
  }

  /**
   * The refined in-point scores at least as well as every placement within
   * the radius, and strictly better than every later one.
   */
  lemma RefinedPlacementIsBest(base: seq<real>, track: seq<real>, inPoint: int, radius: int, place: int)
    requires radius > 1 && Max(0, inPoint) <= Min(|base|, inPoint + |track|)
    requires inPoint - radius <= place <= inPoint + radius
    ensures var lo := Max(0, inPoint) + radius;
      var hi := Min(|base|, inPoint + |track|) - radius;
      var best := Refined(base, track, inPoint, radius);
      && PlacementScore(base, track, place, lo, hi) <= PlacementScore(base, track, best, lo, hi)
      && (place > best ==> PlacementScore(base, track, place, lo, hi) < PlacementScore(base, track, best, lo, hi))
  {
    var sums := WindowSums(base, track, inPoint, radius);
    var k := FirstArgmax(sums);
    var j := inPoint + radius - place;
    assert sums[j] <= sums[k];
    assert j < k ==> sums[j] < sums[k];
  }

  /**
   * When the overlap is no longer than twice the radius the window sums are
   * all zero, the first of them wins, and the track moves forward by the
   * whole radius.
   */
  lemma RefinedShortOverlapMovesByRadius(base: seq<real>, track: seq<real>, inPoint: int, radius: int)
    requires radius > 1 && Max(0, inPoint) <= Min(|base|, inPoint + |track|)
    requires Min(|base|, inPoint + |track|) - Max(0, inPoint) <= 2 * radius
    ensures Refined(base, track, inPoint, radius) == inPoint + radius
  {
    var sums := WindowSums(base, track, inPoint, radius);
    forall k | 0 <= k < |sums|
      ensures sums[k] == 0.0
    {
      var lo := Max(0, inPoint) + radius;
      var hi := Min(|base|, inPoint + |track|) - radius;
      assert sums[k] == PlacementScore(base, track, inPoint - (k - radius), lo, hi);
      assert PlacementTerms(base, track, inPoint - (k - radius), lo, hi) == [];
    }
    var k := FirstArgmax(sums);
    assert sums[0] == sums[k];
  }

  /**
   * The end of the overlap as src/shenidam.c:383 computes it: the resampled
   * track length, already at the base rate, is scaled by base/track rate once more.
   */
  function OverlapEndAsWritten(inPoint: int, resampledLen: nat, baseRate: real, trackRate: real): (end: int)
    requires trackRate > 0.0
    ensures resampledLen as real * baseRate / trackRate - 0.5 <= (end - inPoint) as real <= resampledLen as real * baseRate / trackRate + 0.5
    ensures baseRate >= 0.0 ==> end >= inPoint
  {
    inPoint + Round(resampledLen as real * baseRate / trackRate)
  }

  /**
   * With a track at half the base rate the as-written overlap end lies twice
   * the track's length past its start: for a 200-sample resampled track
   * placed at 0 in a 1000-sample base with radius 2, base sample 300 is in
   * the window while track sample 300 does not exist.
   */
  lemma OverlapEndAsWrittenOverrunsTrack()
    ensures OverlapEndAsWritten(0, 200, 16000.0, 8000.0) == 400
    ensures var hi := Min(1000, OverlapEndAsWritten(0, 200, 16000.0, 8000.0)) - 2;
      Max(0, 0) + 2 <= 300 < hi && 300 - 0 + 0 >= 200
  {
    assert 200.0 * 16000.0 / 8000.0 == 400.0;
  }

  /** When the rates agree the as-written end coincides with the corrected one. */
  lemma OverlapEndAsWrittenAgreesAtEqualRates(inPoint: int, len: nat, rate: real)
    requires rate > 0.0
    ensures OverlapEndAsWritten(inPoint, len, rate, rate) == inPoint + len
  {
    assert len as real * rate / rate == len as real;
  }

  /**
   * The as-written window loop reads inside both buffers when the track
   * already has the base's rate (no resampling, so the track keeps its n
   * samples): every base index p of the shrunk overlap and every shift j
   * within the radius address existing samples.
   */
  lemma AsWrittenWindowReadsInBounds(baseLen: nat, inPoint: int, n: nat, rate: real, radius: nat, p: int, j: int)
    requires rate > 0.0
    requires Max(0, inPoint) + radius <= p < Min(baseLen, OverlapEndAsWritten(inPoint, n, rate, rate)) - radius
    requires 0 <= j + radius && j <= radius
    ensures 0 <= p < baseLen
    ensures 0 <= p - inPoint + j < n
  {
    OverlapEndAsWrittenAgreesAtEqualRates(inPoint, n, rate);
  }

  /**
   * The status shenidam_refine_audio_range returns as written: None stands
   * for the indeterminate value once the in-point has been updated.
   */
  function RefineStatusAsWritten(isNull: bool, baseSet: bool, trackRate: real, numSamples: nat,
                                 radius: int, knownFormat: bool, overlaps: bool): (status: Option<int>)
    ensures isNull ==> status == Some(NULL_OBJECT)
    ensures status.None? <==> !isNull && baseSet && trackRate > 0.0 && numSamples > 0 && radius > 1 && knownFormat && overlaps
  {
    if isNull then Some(NULL_OBJECT)
    else if !baseSet then Some(BASE_SIGNAL_NOT_SET)
    else if trackRate <= 0.0 || numSamples == 0 then Some(INVALID_ARGUMENT)
    else if radius <= 1 then Some(SUCCESS)
    else if !knownFormat then Some(INVALID_ARGUMENT)
    else if !overlaps then Some(SUCCESS)
    else None
  }

  /**
   * shenidam_refine_audio_range: checks the handle, the base, the rate and
   * the length, then, when the base rate exceeds the working rate by more
   * than one sample, moves the in-point to the best placement within the
   * radius. The overlap end is the corrected one (the track's own length;
   * see OverlapEndAsWritten), and a successful refinement reports SUCCESS
   * where the source falls off the end (see RefineStatusAsWritten).
   */
  method RefineAudioRange(s: Session?, format: int, samples: seq<real>, trackRate: real, inPoint: int, dsp: Dsp)
    returns (err: int, refined: int)
    requires s != null ==> s.Valid()
    ensures s == null ==> err == NULL_OBJECT
    ensures s != null && s.baseWorking.None? ==> err == BASE_SIGNAL_NOT_SET
    ensures s != null && s.baseWorking.Some? && (trackRate <= 0.0 || |samples| == 0) ==> err == INVALID_ARGUMENT
    ensures err == SUCCESS <==>
      && s != null && s.baseWorking.Some? && trackRate > 0.0 && |samples| > 0
      && (Radius(s.baseSampleRate, s.workingSampleRate) <= 1 || IsKnownFormat(format))
    ensures err != SUCCESS ==> refined == inPoint
    ensures err == SUCCESS ==>
      refined == Refined(s.baseFullres.value, TrackAtRate(dsp, s.srcConverter, s.baseSampleRate, samples, trackRate),
                         inPoint, Radius(s.baseSampleRate, s.workingSampleRate))
  {
    refined := inPoint;
    if s == null {
      return NULL_OBJECT, inPoint;
    }
    if s.baseWorking.None? {
      return BASE_SIGNAL_NOT_SET, inPoint;
    }
    if trackRate <= 0.0 || |samples| == 0 {
      return INVALID_ARGUMENT, inPoint;
    }
    var radius := Ceil(s.baseSampleRate / s.workingSampleRate);
    if radius <= 1 {
      return SUCCESS, inPoint;
    }
    var base := s.baseFullres.value;
    var status, track := PrepareTrack(format, samples, s.baseSampleRate, trackRate, s.srcConverter, dsp);
    if status != 0 {
      return INVALID_ARGUMENT, inPoint;
    }

    var overlapIn := Max(0, inPoint);
    var overlapOut := Min(|base|, inPoint + |track|);
    if overlapIn > overlapOut {
      return SUCCESS, inPoint;
    }
    var sums := ComputeWindowSums(base, track, inPoint, radius);
    var iMax := FirstMaxIndex(sums);
    refined := inPoint - (iMax - radius);
    err := SUCCESS;
  }

  /**
   * shenidam_get_audio_range: locates a track in the base. After the checks
   * the track is brought to the working rate, both signals are zero-padded
   * to a common power-of-two length and cross-correlated, the first maximum
   * is unwrapped to a lag, scaled to the base's rate, and refined. The
   * refinement's own status is ignored. The length is the track's duration
   * in base samples.
   */
  method GetAudioRange(s: Session?, format: int, samples: seq<real>, trackRate: real, dsp: Dsp)
    returns (err: int, inPoint: int, length: nat)
    requires s != null ==> s.Valid()
    ensures s == null ==> err == NULL_OBJECT
    ensures s != null && s.baseWorking.None? ==> err == BASE_SIGNAL_NOT_SET
    ensures s != null && s.baseWorking.Some? && (trackRate <= 0.0 || |samples| == 0 || !IsKnownFormat(format)) ==>
      err == INVALID_ARGUMENT
    ensures err == SUCCESS <==> s != null && s.baseWorking.Some? && trackRate > 0.0 && |samples| > 0 && IsKnownFormat(format)
    ensures err == SUCCESS ==> length == LengthAtRate(|samples|, s.baseSampleRate, trackRate)
    ensures err == SUCCESS ==>
      var working := TrackAtRate(dsp, s.srcConverter, s.workingSampleRate, samples, trackRate);
      var coarse := CoarseInPoint(CoarseLag(working, s.baseWorking.value), s.baseSampleRate, s.workingSampleRate);
      inPoint == Refined(s.baseFullres.value, TrackAtRate(dsp, s.srcConverter, s.baseSampleRate, samples, trackRate),
                         coarse, Radius(s.baseSampleRate, s.workingSampleRate))
  {
    inPoint, length := 0, 0;
    if s == null {
      return NULL_OBJECT, 0, 0;
    }
    if s.baseWorking.None? {
      return BASE_SIGNAL_NOT_SET, 0, 0;
    }
    if trackRate <= 0.0 || |samples| == 0 {
      return INVALID_ARGUMENT, 0, 0;
    }
    var status, track := PrepareTrack(format, samples, s.workingSampleRate, trackRate, s.srcConverter, dsp);
    if status != 0 {
      return INVALID_ARGUMENT, 0, 0;
    }
    var lag := CoarseSearch(track, s.baseWorking.value);
    inPoint := CoarseInPoint(lag, s.baseSampleRate, s.workingSampleRate);
    length := LengthAtRate(|samples|, s.baseSampleRate, trackRate);
    var refineErr, refined := RefineAudioRange(s, format, samples, trackRate, inPoint, dsp);
    assert refineErr == SUCCESS;
    inPoint := refined;
    err := SUCCESS;
  }
}
