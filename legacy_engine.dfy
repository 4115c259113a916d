/**
 * The older alignment engine, shenidam.c. It has a single working-rate copy
 * of the base, no refinement, and a NULL-terminated list of frequential
 * filters. Each filter rewrites the Fourier coefficients of both the track
 * and the base before they are multiplied. The unwrap threshold depends
 * only on the track, and the reported length comes from the resampled track.
 *
 * The forward and inverse real transforms are collaborators (Spectral): a
 * filter may change the spectra arbitrarily, so the correlation is stated
 * through the transforms rather than as a sum.
 */
module LegacyEngine {
  import opened Wrappers
  import opened Api
  import opened Signal
  import Engine

  datatype Complex = Complex(re: real, im: real)

  /** conjf(a)·b. */
  function ConjTimes(a: Complex, b: Complex): (c: Complex)
    ensures a.im == 0.0 && b.im == 0.0 ==> c == Complex(a.re * b.re, 0.0)
  {
    Complex(a.re * b.re + a.im * b.im, a.re * b.im - a.im * b.re)
  }

  /** A real-to-complex transform of n samples yields n/2 + 1 coefficients. */
  type Forward = f: seq<real> -> seq<Complex>
    | forall x :: |f(x)| == |x| / 2 + 1
    witness (x: seq<real>) => seq(|x| / 2 + 1, _ => Complex(0.0, 0.0))

  /** The complex-to-real transform back to n samples. */
  type Inverse = f: (seq<Complex>, nat) -> seq<real>
    | forall y, n :: |f(y, n)| == n
    witness (y: seq<Complex>, n: nat) => seq(n, _ => 0.0)

  datatype Spectral = Spectral(forward: Forward, inverse: Inverse)

  /**
   * A frequential_filter_cb: rewrites the coefficients in place, given their
   * count and the user data registered with it (a pointer, here a token).
   */
  type Filter = f: (seq<Complex>, int) -> seq<Complex>
    | forall x, data :: |f(x, data)| == |x|
    witness (x: seq<Complex>, data: int) => x

  /** Filters applied in list order, each with its own data. */
  function ApplyFilters(filters: seq<Filter>, data: seq<int>, x: seq<Complex>): (r: seq<Complex>)
    requires |filters| <= |data|
    ensures |r| == |x|
    decreases |filters|
  {
    if |filters| == 0 then x
    else
      var last := |filters| - 1;
      filters[last](ApplyFilters(filters[..last], data, x), data[last])
  }

  /** Data entries past the filters are never read. */
  lemma {:induction false} ApplyFiltersIgnoresExtraData(filters: seq<Filter>, data: seq<int>, extra: seq<int>, x: seq<Complex>)
    requires |filters| <= |data|
    ensures ApplyFilters(filters, data + extra, x) == ApplyFilters(filters, data, x)
    decreases |filters|
  {
    if |filters| > 0 {
      ApplyFiltersIgnoresExtraData(filters[..|filters| - 1], data, extra, x);
    }
  }

  /** A filter registered after the others runs after them, on their output, with its own data. */
  lemma AddedFilterRunsLast(filters: seq<Filter>, data: seq<int>, filter: Filter, d: int, x: seq<Complex>)
    requires |filters| == |data|
    ensures ApplyFilters(filters + [filter], data + [d], x) == filter(ApplyFilters(filters, data, x), d)
  {
    assert (filters + [filter])[..|filters|] == filters;
    ApplyFiltersIgnoresExtraData(filters, data, [d], x);
  }

  /** shenidam_get_error_message of the legacy engine. */
  function ErrorMessage(error: int): (msg: string)
    ensures error == INVALID_ARGUMENT ==> msg == "Invalid argument"
    ensures error == ALREADY_SET_BASE_SIGNAL ==> msg == "Base signal already set"
    ensures error == BASE_SIGNAL_NOT_SET ==> msg == "Base signal not set"
    ensures error == ALLOCATION_ERROR ==> msg == "Could not allocate memory"
    ensures msg == "Unknown error" <==>
      !(INVALID_ARGUMENT <= error <= BASE_SIGNAL_NOT_SET || error == ALLOCATION_ERROR)
  {
    if error == INVALID_ARGUMENT then "Invalid argument"
    else if error == ALREADY_SET_BASE_SIGNAL then "Base signal already set"
    else if error == BASE_SIGNAL_NOT_SET then "Base signal not set"
    else if error == ALLOCATION_ERROR then "Could not allocate memory"
    else "Unknown error"
  }

  /**
   * convert_to_samples of the legacy engine: every known format, single
   * precision included, goes through the same element-wise conversion; an
   * unknown format fails with status 1.
   */
  method ConvertToSamples(format: int, samplesIn: seq<real>) returns (status: int, samplesOut: seq<real>)
    ensures status == 0 <==> IsKnownFormat(format)
    ensures status != 0 ==> status == 1 && samplesOut == []
    ensures status == 0 ==> samplesOut == samplesIn
  {
    if !IsKnownFormat(format) {
      return 1, [];
    }
    var out := new real[|samplesIn|](_ => 0.0);
    var k := 0;
    while k < |samplesIn|
      invariant 0 <= k <= |samplesIn|
      invariant forall j :: 0 <= j < k ==> out[j] == samplesIn[j]
    {
      out[k] := samplesIn[k];
      k := k + 1;
    }
    return 0, out[..];
  }

  /** The legacy unwrap: indices above common size − trackLen/2 (integer division) stand for negative lags. */
  function LegacyUnwrap(index: int, commonSize: int, trackLen: nat): (lag: int)
    ensures lag == index || lag == index - commonSize
    ensures 0 <= index < commonSize && trackLen / 2 <= commonSize ==> -(trackLen / 2) <= lag <= commonSize - trackLen / 2
  {
    if index > commonSize - trackLen / 2 then index - commonSize else index
  }

  /** The pointwise product of the conjugated track spectrum with the base spectrum. */
  function ConjProduct(tf: seq<Complex>, bf: seq<Complex>): (r: seq<Complex>)
    requires |tf| == |bf|
    ensures |r| == |tf|
  {
    seq(|tf|, i requires 0 <= i < |tf| => ConjTimes(tf[i], bf[i]))
  }

  /** The filtered correlation of the padded signals: inverse(conj(F·track)·F·base). */
  function FilteredCorrelation(spectral: Spectral, filters: seq<Filter>, data: seq<int>,
                               track: seq<real>, base: seq<real>): (r: seq<real>)
    requires |filters| <= |data|
    ensures |r| == Engine.CommonLength(track, base)
  {
    var n := Engine.CommonLength(track, base);
    var tf := ApplyFilters(filters, data, spectral.forward(Padded(track, n)));
    var bf := ApplyFilters(filters, data, spectral.forward(Padded(base, n)));
    spectral.inverse(ConjProduct(tf, bf), n)
  }

  /** The legacy coarse lag: the first maximum of the filtered correlation, unwrapped. */
  function LegacyLag(spectral: Spectral, filters: seq<Filter>, data: seq<int>,
                     track: seq<real>, base: seq<real>): (lag: int)
    requires |filters| <= |data|
    ensures var n := Engine.CommonLength(track, base);
      && n - |track| / 2 - n <= lag <= n - |track| / 2
      && (lag == FirstArgmax(FilteredCorrelation(spectral, filters, data, track, base))
          || lag == FirstArgmax(FilteredCorrelation(spectral, filters, data, track, base)) - n)
  {
    var n := Engine.CommonLength(track, base);
    LegacyUnwrap(FirstArgmax(FilteredCorrelation(spectral, filters, data, track, base)), n, |track|)
  }

  /** A NULL-terminated filter array: callbacks followed by exactly one sentinel. */
  predicate IsFilterList(slots: seq<Option<Filter>>)
  {
    && |slots| >= 1
    && slots[|slots| - 1].None?
    && (forall k :: 0 <= k < |slots| - 1 ==> slots[k].Some?)
  }

  /** The callbacks before the sentinel. */
  function Entries(slots: seq<Option<Filter>>): (fs: seq<Filter>)
    requires IsFilterList(slots)
    ensures |fs| == |slots| - 1
    ensures forall k :: 0 <= k < |fs| ==> slots[k] == Some(fs[k])
  {
    seq(|slots| - 1, k requires 0 <= k < |slots| - 1 && slots[k].Some? => slots[k].value)
  }

  /**
   * The loop test `(cur++) != NULL` of shenidam_add_frequential_filter as
   * written, after `steps` passes: it compares the pointer, which starts at
   * the array's address and only grows, not the entry it points to.
   */
  function CountTestAsWritten(address: nat, steps: nat): (goesOn: bool)
    ensures address > 0 ==> goesOn
  {
    address + steps != 0
  }

  /**
   * The counting loop as written does not stop at the sentinel: for a filter
   * list at a non-NULL address it goes on past the last slot.
   */
  lemma CountLoopAsWrittenPassesSentinel(slots: seq<Option<Filter>>, address: nat)
    requires IsFilterList(slots) && address > 0
    ensures slots[|slots| - 1].None? && CountTestAsWritten(address, |slots|)
  {
  }

  /** The slots realloc(p, size·n + 2) provides for pointers of `size` bytes. */
  function SlotsAsWritten(n: nat, size: nat): (slots: nat)
    requires size > 0
    ensures size > 2 ==> slots == n
  {
    if size > 2 then
      assert size * (n + 1) == size * n + size;
      DivBetween(size * n + 2, size, n);
      (size * n + 2) / size
    else (size * n + 2) / size
  }

  lemma DivBetween(x: nat, d: nat, q: nat)
    requires d > 0 && d * q <= x < d * (q + 1)
    ensures d > 0 && x / d == q
  {
    var r := x / d;
    assert x == d * r + x % d && 0 <= x % d < d;
    if r < q {
      MulMono(d, r + 1, q);
      assert false;
    } else if r > q {
      MulMono(d, q + 1, r);
      assert false;
    }
  }

  lemma MulMono(d: nat, a: int, b: int)
    requires a <= b
    ensures d * a <= d * b
  {
  }

  /**
   * With pointers wider than two bytes, the reallocated filter and data
   * arrays hold n slots, so writing slots n and n + 1 falls outside them; the
   * two entries the method adds need n + 2 filter slots and n + 1 data slots.
   */
  lemma ReallocAsWrittenTooSmall(n: nat, size: nat)
    requires size > 2
    ensures SlotsAsWritten(n, size) < n + 1 < n + 2
  {
  }

  /**
   * The legacy session record. Its filter array is a list of slots ended by
   * the NULL sentinel (None), with one data pointer per filter.
   */
  class LegacySession {
    /** The working rate (base_sample_rate in the source). */
    var workingRate: real
    /** The base's own rate (base_real_sample_rate). */
    var realRate: real
    /** The normalised base at the working rate. */
    var base: Option<seq<real>>
    var filterSlots: seq<Option<Filter>>
    var filterData: seq<int>

    ghost predicate Valid()
      reads this
    {
      && workingRate > 0.0
      && IsFilterList(filterSlots)
      && |filterData| == |filterSlots| - 1
      && (base.Some? ==> realRate > 0.0)
    }

    /** The filters before the sentinel, in registration order. */
    ghost function Filters(): (fs: seq<Filter>)
      reads this
      requires Valid()
      ensures |fs| == |filterSlots| - 1 == |filterData|
    {
      Entries(filterSlots)
    }

    /** shenidam_create: the working rate, no base, a filter list holding only the sentinel. */
    constructor (baseSampleRate: real)
      requires baseSampleRate > 0.0
      ensures Valid()
      ensures workingRate == baseSampleRate
      ensures base == None
      ensures filterSlots == [None] && filterData == []
      ensures Filters() == []
    {
      workingRate := baseSampleRate;
      realRate := 0.0;
      base := None;
      filterSlots := [None];
      filterData := [];
    }

    /**
     * shenidam_add_frequential_filter: refuses a NULL callback; otherwise
     * puts the callback and its data at index n, the number of filters
     * before the sentinel, and a new sentinel after it. The source counts
     * with `while ((cur++) != NULL)`, which tests the pointer rather than the
     * entry and never stops, and reallocates size·n + 2 bytes rather than
     * room for n + 2 slots; the loop here counts the entries before the
     * sentinel and the lists grow by the slots written, as intended.
     */
    method AddFrequentialFilter(callback: Option<Filter>, data: int) returns (err: int)
      requires Valid()
      modifies this
      ensures Valid()
      ensures callback.None? ==> err == INVALID_ARGUMENT && unchanged(this)
      ensures callback.Some? ==>
        && err == SUCCESS
        && Filters() == old(Filters()) + [callback.value]
        && filterData == old(filterData) + [data]
        && workingRate == old(workingRate) && realRate == old(realRate) && base == old(base)
    {
      if callback.None? {
        return INVALID_ARGUMENT;
      }
      var n := 0;
      while filterSlots[n].Some?
        invariant 0 <= n < |filterSlots|
        decreases |filterSlots| - n
      {
        n := n + 1;
      }
      assert n == |filterSlots| - 1;
      filterSlots := filterSlots[..n] + [callback, None];
      filterData := filterData[..n] + [data];
      err := SUCCESS;
    }

    /**
     * shenidam_set_base_audio: a base can be set once. The normalised base
     * is resampled to the working rate with the fastest sinc converter and
     * stored with the base's own rate.
     */
    method SetBaseAudio(format: int, samples: seq<real>, sampleRate: real, dsp: Dsp) returns (err: int)
      requires Valid()
      requires base.None? && IsKnownFormat(format) ==> sampleRate > 0.0
      modifies this
      ensures Valid()
      ensures old(base).Some? ==> err == ALREADY_SET_BASE_SIGNAL && unchanged(this)
      ensures old(base).None? && !IsKnownFormat(format) ==> err == INVALID_ARGUMENT && unchanged(this)
      ensures old(base).None? && IsKnownFormat(format) ==>
        && err == SUCCESS
        && base == Some(Engine.WorkingBase(dsp, SRC_SINC_FASTEST, workingRate, samples, sampleRate))
        && realRate == sampleRate
        && workingRate == old(workingRate)
        && filterSlots == old(filterSlots) && filterData == old(filterData)
    {
      if base.Some? {
        return ALREADY_SET_BASE_SIGNAL;
      }
      var status, converted := ConvertToSamples(format, samples);
      if status != 0 {
        return INVALID_ARGUMENT;
      }
      converted := dsp.normalize(converted);
      var requested := Engine.LengthAtRate(|samples|, workingRate, sampleRate);
      var working := dsp.resample(converted, workingRate / sampleRate, requested, SRC_SINC_FASTEST);
      base := Some(working);
      realRate := sampleRate;
      err := SUCCESS;
    }

    /**
     * shenidam_destroy: releases the base and the filter list. The record
     * itself is freed too, which a model with garbage collection does not show.
     */
    method Destroy() returns (err: int)
      modifies this
      ensures err == SUCCESS && base == None && filterSlots == [None] && filterData == []
    {
      base := None;
      filterSlots := [None];
      filterData := [];
      err := SUCCESS;
    }
  }

  /**
   * The filter loop of shenidam_get_audio_range: walks the slots up to the
   * sentinel and applies each filter, with its data, to the track spectrum
   * and then to the base spectrum.
   */
  method RunFilters(s: LegacySession, trackF: seq<Complex>, baseF: seq<Complex>)
    returns (trackOut: seq<Complex>, baseOut: seq<Complex>)
    requires s.Valid()
    ensures trackOut == ApplyFilters(s.Filters(), s.filterData, trackF)
    ensures baseOut == ApplyFilters(s.Filters(), s.filterData, baseF)
  {
    trackOut, baseOut := trackF, baseF;
    var k := 0;
    while s.filterSlots[k].Some?
      invariant 0 <= k < |s.filterSlots|
      invariant trackOut == ApplyFilters(s.Filters()[..k], s.filterData, trackF)
      invariant baseOut == ApplyFilters(s.Filters()[..k], s.filterData, baseF)
      decreases |s.filterSlots| - k
    {
      assert s.Filters()[..k + 1][..k] == s.Filters()[..k];
      var filter := s.filterSlots[k].value;
      trackOut := filter(trackOut, s.filterData[k]);
      baseOut := filter(baseOut, s.filterData[k]);
      k := k + 1;
    }
    assert s.Filters()[..k] == s.Filters();
  }

  /** The in-point at the base's own rate: round(lag·real/working). */
  function ScaledInPoint(lag: int, realRate: real, workingRate: real): (p: int)
    requires workingRate > 0.0
    ensures lag as real * realRate / workingRate - 0.5 <= p as real <= lag as real * realRate / workingRate + 0.5
    ensures realRate == workingRate ==> p == lag
  {
    assert realRate == workingRate ==> lag as real * realRate / workingRate == lag as real;
    Round(lag as real * realRate / workingRate)
  }

  /** Conversion, normalisation and resampling of a track to the working rate. */
  method PrepareTrack(format: int, samples: seq<real>, workingRate: real, sampleRate: real, dsp: Dsp)
    returns (status: int, track: seq<real>)
    requires workingRate > 0.0 && sampleRate > 0.0
    ensures status == 0 <==> IsKnownFormat(format)
    ensures status == 0 ==> track == Engine.TrackAtRate(dsp, SRC_SINC_FASTEST, workingRate, samples, sampleRate)
  {
    var converted;
    status, converted := ConvertToSamples(format, samples);
    if status != 0 {
      return status, [];
    }
    track := dsp.normalize(converted);
    var ratio := workingRate / sampleRate;
    if ratio != 1.0 {
      track := dsp.resample(track, ratio, Engine.ScaledLength(|samples|, ratio), SRC_SINC_FASTEST);
    }
  }

  /**
   * The transform part of the legacy get_audio_range: pad, transform, filter,
   * multiply, transform back, take the first maximum and unwrap it.
   */
  method FilteredSearch(s: LegacySession, track: seq<real>, base: seq<real>, spectral: Spectral) returns (lag: int)
    requires s.Valid()
    ensures lag == LegacyLag(spectral, s.Filters(), s.filterData, track, base)
  {
    var commonSize := CommonSize(|track| + |base|);
    var convolved := FilteredCorrelate(s, track, base, spectral, commonSize);
    var index := FirstMaxIndex(convolved);
    lag := index;
    if lag > commonSize - |track| / 2 {
      lag := lag - commonSize;
    }
  }

  /** Pad both signals to the common size, transform, filter, multiply and transform back. */
  method FilteredCorrelate(s: LegacySession, track: seq<real>, base: seq<real>, spectral: Spectral, commonSize: nat)
    returns (convolved: seq<real>)
    requires s.Valid() && commonSize == Engine.CommonLength(track, base)
    ensures convolved == FilteredCorrelation(spectral, s.Filters(), s.filterData, track, base)
  {
    var paddedTrack := Resize(track, commonSize);
    var paddedBase := Resize(base, commonSize);
    var trackF := spectral.forward(paddedTrack);
    var baseF := spectral.forward(paddedBase);
    trackF, baseF := RunFilters(s, trackF, baseF);
    var product := ConjugateProduct(trackF, baseF);
    convolved := spectral.inverse(product, commonSize);
  }

  /**
   * shenidam_get_audio_range of the legacy engine: after the checks the
   * track is brought to the working rate, both signals are padded to a
   * common power-of-two size and transformed, the filters run on both
   * spectra, the conjugate product is transformed back, and the first
   * maximum is unwrapped and scaled to the base's own rate. The length is
   * the resampled track's length scaled the same way.
   */
  method GetAudioRange(s: LegacySession, format: int, samples: seq<real>, sampleRate: real, dsp: Dsp, spectral: Spectral)
    returns (err: int, inPoint: int, length: nat)
    requires s.Valid()
    ensures s.base.None? ==> err == BASE_SIGNAL_NOT_SET
    ensures s.base.Some? && (sampleRate <= 0.0 || |samples| == 0 || !IsKnownFormat(format)) ==> err == INVALID_ARGUMENT
    ensures err == SUCCESS <==> s.base.Some? && sampleRate > 0.0 && |samples| > 0 && IsKnownFormat(format)
    ensures err == SUCCESS ==>
      var track := Engine.TrackAtRate(dsp, SRC_SINC_FASTEST, s.workingRate, samples, sampleRate);
      && inPoint == ScaledInPoint(LegacyLag(spectral, s.Filters(), s.filterData, track, s.base.value), s.realRate, s.workingRate)
      && length == Engine.LengthAtRate(|track|, s.realRate, s.workingRate)
  {
    inPoint, length := 0, 0;
    if s.base.None? {
      return BASE_SIGNAL_NOT_SET, 0, 0;
    }
    if sampleRate <= 0.0 || |samples| == 0 {
      return INVALID_ARGUMENT, 0, 0;
    }
    var status, track := PrepareTrack(format, samples, s.workingRate, sampleRate, dsp);
    if status != 0 {
      return INVALID_ARGUMENT, 0, 0;
    }
    var lag := FilteredSearch(s, track, s.base.value, spectral);
    inPoint := ScaledInPoint(lag, s.realRate, s.workingRate);
    length := Engine.LengthAtRate(|track|, s.realRate, s.workingRate);
    err := SUCCESS;
  }

  /** The product loop: each track coefficient replaced, in place, by its conjugate times the base's. */
  method ConjugateProduct(trackF: seq<Complex>, baseF: seq<Complex>) returns (product: seq<Complex>)
    requires |trackF| == |baseF|
    ensures product == ConjProduct(trackF, baseF)
  {
    var buffer := new Complex[|trackF|](i requires 0 <= i < |trackF| => trackF[i]);
    var i := 0;
    while i < buffer.Length
      invariant 0 <= i <= buffer.Length
      invariant forall j :: 0 <= j < i ==> buffer[j] == ConjTimes(trackF[j], baseF[j])
      invariant forall j :: i <= j < buffer.Length ==> buffer[j] == trackF[j]
    {
      buffer[i] := ConjTimes(buffer[i], baseF[i]);
      i := i + 1;
    }
    product := buffer[..];
  }
}
