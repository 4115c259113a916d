/**
 * The public constants of the shenidam C library (include/shenidam.h and the
 * legacy shenidam.h) and the foreign collaborators the engines call:
 * libsamplerate's src_simple and the library's amplitude normalisation.
 */
module Api {

  // Sample formats a caller may hand in (include/shenidam.h:40-48).
  const FORMAT_BYTE: int := 0
  const FORMAT_SHORT: int := 1
  const FORMAT_INT: int := 2
  const FORMAT_LONG: int := 3
  const FORMAT_LONG_LONG: int := 4
  const FORMAT_SINGLE: int := 5
  const FORMAT_DOUBLE: int := 6

  predicate IsKnownFormat(format: int)
  {
    FORMAT_BYTE <= format <= FORMAT_DOUBLE
  }

  // Status codes (include/shenidam.h:50-57; the legacy header has no NULL_OBJECT).
  const SUCCESS: int := 0
  const INVALID_ARGUMENT: int := 1
  const ALREADY_SET_BASE_SIGNAL: int := 2
  const BASE_SIGNAL_NOT_SET: int := 3
  const NULL_OBJECT: int := 4
  const ALLOCATION_ERROR: int := 100

  // libsamplerate converter identifiers (its src_converter enumeration).
  const SRC_SINC_BEST_QUALITY: int := 0
  const SRC_SINC_MEDIUM_QUALITY: int := 1
  const SRC_SINC_FASTEST: int := 2
  const SRC_ZERO_ORDER_HOLD: int := 3
  const SRC_LINEAR: int := 4

  predicate IsConverter(converter: int)
  {
    SRC_SINC_BEST_QUALITY <= converter <= SRC_LINEAR
  }

  /**
   * src_simple: resample a signal by a ratio into a buffer of the requested
   * number of frames with a converter; it reports how many frames it
   * generated, never more than requested. Which samples it produces is
   * libsamplerate's business.
   */
  type Resampler = f: (seq<real>, real, nat, int) -> seq<real>
    | forall x, ratio, requested, converter :: |f(x, ratio, requested, converter)| <= requested
    witness (x: seq<real>, ratio: real, requested: nat, converter: int) => []

  /** normalize: rescales the samples in place, so the length is kept. */
  type Normalizer = f: seq<real> -> seq<real>
    | forall x :: |f(x)| == |x|
    witness (x: seq<real>) => x

  /** The signal processing the engines delegate. */
  datatype Dsp = Dsp(resample: Resampler, normalize: Normalizer)
}
