/**
 * Exact arithmetic shared by both alignment engines: C's round/ceil on reals,
 * powers of two (get_common_size), zero padding (resize), the circular and the
 * linear cross-correlation, and the first maximum of a buffer (the argmax loops).
 */
module Signal {

  /** The inline max helper of src/shenidam.c. */
  function Max(a: int, b: int): (r: int)
    ensures r >= a && r >= b && (r == a || r == b)
  {
    if a > b then a else b
  }

  /** The inline min helper of src/shenidam.c. */
  function Min(a: int, b: int): (r: int)
    ensures r <= a && r <= b && (r == a || r == b)
  {
    if a < b then a else b
  }

  /** C's round(): to the nearest integer, halves away from zero. */
  function Round(x: real): (r: int)
    ensures x >= 0.0 ==> r >= 0 && r as real - 0.5 <= x < r as real + 0.5
    ensures x < 0.0 ==> r <= 0 && r as real - 0.5 < x <= r as real + 0.5
  {
    if x >= 0.0 then (x + 0.5).Floor else -((0.5 - x).Floor)
  }

  /** C's ceil(): the least integer not below x. */
  function Ceil(x: real): (r: int)
    ensures x <= r as real < x + 1.0
    ensures x >= 0.0 ==> r >= 0
  {
    -((-x).Floor)
  }

  // ---------------------------------------------------------------------------
  // Powers of two

  predicate IsPowerOfTwo(n: int)
    decreases if n > 0 then n else 0
  {
    n == 1 || (n >= 2 && n % 2 == 0 && IsPowerOfTwo(n / 2))
  }

  /** The least power of two at or above m (the value get_common_size computes). */
  function LeastPowerOfTwoAtLeast(m: nat): (r: nat)
    ensures 1 <= r && m <= r
    decreases m
  {
    if m <= 1 then 1 else 2 * LeastPowerOfTwoAtLeast((m + 1) / 2)
  }

  /** A power of two below another one is at most half of it. */
  lemma {:induction false} PowerOfTwoBelowHalf(p: int, r: int)
    requires IsPowerOfTwo(p) && IsPowerOfTwo(r) && p < r
    ensures p <= r / 2
    decreases r
  {
    if p != 1 {
      PowerOfTwoBelowHalf(p / 2, r / 2);
    }
  }

  /** LeastPowerOfTwoAtLeast(m) is a power of two whose half is below m. */
  lemma {:induction false} LeastPowerOfTwoAtLeastIsPowerOfTwo(m: nat)
    ensures IsPowerOfTwo(LeastPowerOfTwoAtLeast(m))
    ensures LeastPowerOfTwoAtLeast(m) == 1 || LeastPowerOfTwoAtLeast(m) / 2 < m
    decreases m
  {
    if m > 1 {
      LeastPowerOfTwoAtLeastIsPowerOfTwo((m + 1) / 2);
    }
  }

  /** No power of two at or above m is below LeastPowerOfTwoAtLeast(m). */
  lemma LeastPowerOfTwoAtLeastIsLeast(m: nat, p: int)
    requires IsPowerOfTwo(p) && m <= p
    ensures LeastPowerOfTwoAtLeast(m) <= p
  {
    var l := LeastPowerOfTwoAtLeast(m);
    LeastPowerOfTwoAtLeastIsPowerOfTwo(m);
    if p < l {
      PowerOfTwoBelowHalf(p, l);
    }
  }

  /** The three properties determine the least power of two uniquely. */
  lemma LeastPowerOfTwoUnique(m: nat, r: int)
    requires IsPowerOfTwo(r) && m <= r && (r == 1 || r / 2 < m)
    ensures r == LeastPowerOfTwoAtLeast(m)
  {
    var l := LeastPowerOfTwoAtLeast(m);
    LeastPowerOfTwoAtLeastIsPowerOfTwo(m);
    if l < r {
      PowerOfTwoBelowHalf(l, r);
    }
  }

  /**
   * get_common_size (src/shenidam.c:256-264, shenidam.c:224-232): doubles 1
   * until it reaches the requested size.
   */
  method CommonSize(minimalSize: nat) returns (res: nat)
    ensures IsPowerOfTwo(res) && minimalSize <= res
    ensures res == 1 || res / 2 < minimalSize
    ensures res == LeastPowerOfTwoAtLeast(minimalSize)
  {
    res := 1;
    while res < minimalSize
      invariant IsPowerOfTwo(res)
      invariant res == 1 || res / 2 < minimalSize
    {
      res := res * 2;
    }
    LeastPowerOfTwoUnique(minimalSize, res);
  }

  // ---------------------------------------------------------------------------
  // Buffers

  /** The k-th sample, or 0 outside the buffer: what a zero-padded copy holds there. */
  function At(s: seq<real>, k: int): real
  {
    if 0 <= k < |s| then s[k] else 0.0
  }

  /** s cut or zero-padded to n samples. */
  function Padded(s: seq<real>, n: nat): (r: seq<real>)
    ensures |r| == n
  {
    seq(n, k requires 0 <= k < n => At(s, k))
  }

  /**
   * resize (src/shenidam.c:190-197, shenidam.c:167-175): a zeroed buffer of
   * numSamplesOut samples into which the first min(in, out) input samples are copied.
   */
  method Resize(samplesIn: seq<real>, numSamplesOut: nat) returns (res: seq<real>)
    ensures |res| == numSamplesOut
    ensures forall k :: 0 <= k < Min(|samplesIn|, numSamplesOut) ==> res[k] == samplesIn[k]
    ensures forall k :: |samplesIn| <= k < numSamplesOut ==> res[k] == 0.0
    ensures res == Padded(samplesIn, numSamplesOut)
  {
    var buffer := new real[numSamplesOut](_ => 0.0);
    var count := Min(numSamplesOut, |samplesIn|);
    var k := 0;
    while k < count
      invariant 0 <= k <= count
      invariant forall j :: 0 <= j < k ==> buffer[j] == samplesIn[j]
      invariant forall j :: k <= j < numSamplesOut ==> buffer[j] == 0.0
    {
      buffer[k] := samplesIn[k];
      k := k + 1;
    }
    res := buffer[..];
  }

  // ---------------------------------------------------------------------------
  // Sums and correlations

  function Sum(s: seq<real>): real
    decreases |s|
  {
    if |s| == 0 then 0.0 else Sum(s[..|s| - 1]) + s[|s| - 1]
  }

  lemma {:induction false} SumAppend(a: seq<real>, b: seq<real>)
    ensures Sum(a + b) == Sum(a) + Sum(b)
    decreases |b|
  {
    if |b| == 0 {
      assert a + b == a;
    } else {
      SumAppend(a, b[..|b| - 1]);
      assert (a + b)[..|a + b| - 1] == a + b[..|b| - 1];
    }
  }

  lemma {:induction false} SumOfZeros(s: seq<real>)
    requires forall k :: 0 <= k < |s| ==> s[k] == 0.0
    ensures Sum(s) == 0.0
    decreases |s|
  {
    if |s| > 0 {
      SumOfZeros(s[..|s| - 1]);
    }
  }

  /** Position x + y of a ring of n cells, for x, y already on the ring: (x + y) mod n. */
  function RingIndex(x: nat, y: nat, n: nat): (r: nat)
    requires x < n && y < n
    ensures r < n && r == (x + y) % n
  {
    if x + y < n then x + y else x + y - n
  }

  /** The terms t[k]·b[(k + i) mod N] of the circular correlation at index i. */
  function CorrelationTerms(t: seq<real>, b: seq<real>, i: nat): (r: seq<real>)
    requires |t| == |b| && i < |b|
    ensures |r| == |t|
  {
    seq(|t|, k requires 0 <= k < |t| => t[k] * b[RingIndex(k, i, |b|)])
  }

  /**
   * The circular cross-correlation r[i] = Σ_k t[k]·b[(k + i) mod N]: what the
   * inverse transform of conj(FFT(t))·FFT(b) holds, up to the positive factor N
   * of the unnormalised FFTW transforms.
   */
  function CircularCorrelation(t: seq<real>, b: seq<real>): (r: seq<real>)
    requires |t| == |b|
    ensures |r| == |t|
  {
    seq(|t|, i requires 0 <= i < |t| => Sum(CorrelationTerms(t, b, i)))
  }

  /** The linear cross-correlation Σ_k t[k]·b[k + lag], b being 0 outside its samples. */
  function LinearCorrelation(t: seq<real>, b: seq<real>, lag: int): real
  {
    Sum(LinearTerms(t, b, lag))
  }

  function LinearTerms(t: seq<real>, b: seq<real>, lag: int): (r: seq<real>)
    ensures |r| == |t|
  {
    seq(|t|, k requires 0 <= k < |t| => t[k] * At(b, k + lag))
  }

  // ---------------------------------------------------------------------------
  // First maximum

  /** k is the first index at which r reaches its maximum. */
  predicate IsFirstMax(r: seq<real>, k: int)
  {
    && 0 <= k < |r|
    && (forall j :: 0 <= j < |r| ==> r[j] <= r[k])
    && (forall j :: 0 <= j < k ==> r[j] < r[k])
  }

  function FirstArgmax(r: seq<real>): (k: nat)
    requires |r| > 0
    ensures IsFirstMax(r, k)
    decreases |r|
  {
    if |r| == 1 then 0
    else
      var k := FirstArgmax(r[..|r| - 1]);
      if r[|r| - 1] > r[k] then |r| - 1 else k
  }

  /**
   * The scans for the largest value (src/shenidam.c:494-504 and 413-422,
   * shenidam.c:381-391): a strictly larger value replaces the current one, so
   * the first maximum wins. The source starts from -DBL_MAX, below every
   * finite sample, so its first iteration always takes r[0]; here the scan
   * starts from r[0].
   */
  method FirstMaxIndex(r: seq<real>) returns (index: nat)
    requires |r| > 0
    ensures IsFirstMax(r, index)
    ensures index == FirstArgmax(r)
  {
    index := 0;
    var maxv := r[0];
    var i := 1;
    while i < |r|
      invariant 1 <= i <= |r| && index < i && maxv == r[index]
      invariant index == FirstArgmax(r[..i])
    {
      assert r[..i + 1][..i] == r[..i];
      if r[i] > maxv {
        maxv := r[i];
        index := i;
      }
      i := i + 1;
    }
    assert r[..i] == r;
  }
}
