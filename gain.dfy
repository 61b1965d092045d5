/**
 * Block processing shared by the monitor and the record callbacks: gain,
 * clipping to the 16-bit range, truncation to int16 and the peak meter.
 *
 * The gain is held as integer tenths `k` (the slider value; `current_gain` is
 * `k / 10.0`), so each sample is `trunc(clip(s * k / 10, -32768, 32767))`
 * computed exactly over the rationals.
 */
module Gain {

  const Int16Min: int := -32768
  const Int16Max: int := 32767

  /** A sample as `np.frombuffer(..., dtype=np.int16)` delivers it. */
  type Int16 = x: int | -32768 <= x <= 32767

  /** The gain slider position, 1 to 40, starting at 20. */
  type Tenths = k: int | 1 <= k <= 40 witness 20

  /** The gain `onMonitor` resets to when monitoring starts: 2.0. */
  const DefaultGain: Tenths := 20

  /** Division by ten rounding toward zero, as `astype(np.int16)` truncates. */
  function TruncDiv10(p: int): (q: int)
    ensures 0 <= p ==> 0 <= 10 * q <= p < 10 * q + 10
    ensures p < 0 ==> 10 * q - 10 < p <= 10 * q <= 0
  {
    if p >= 0 then p / 10 else -((-p) / 10)
  }

  /** One sample times the gain, clipped to the int16 range and cast back to int16. */
  function ScaleSample(s: Int16, k: Tenths): (r: Int16)
    ensures var p := s as int * k as int;
      && (0 <= p ==> 0 <= 10 * r <= p)
      && (p < 0 ==> p <= 10 * r <= 0)
      && (10 * Int16Min <= p <= 10 * Int16Max ==> -10 < p - 10 * r < 10)
  {
    var p: int := s as int * k as int;
    if p > 10 * Int16Max then Int16Max
    else if p < 10 * Int16Min then Int16Min
    else TruncDiv10(p)
  }

  /** The processed block: one scaled sample per input sample, in order. */
  function Amplify(block: seq<Int16>, k: Tenths): (out: seq<Int16>)
    ensures |out| == |block|
    ensures forall i :: 0 <= i < |block| ==> out[i] == ScaleSample(block[i], k)
  {
    seq(|block|, i requires 0 <= i < |block| => ScaleSample(block[i], k))
  }

  // ---------------------------------------------------------------------------
  // Reference definition over the reals

  /** Rounding toward zero of a real, as `astype` does to a float64. */
  function TruncReal(x: real): (r: int)
    ensures 0.0 <= x ==> 0 <= r && r as real <= x < r as real + 1.0
    ensures x < 0.0 ==> r <= 0 && r as real - 1.0 < x <= r as real
  {
    if x >= 0.0 then x.Floor else -((-x).Floor)
  }

  /** Clipping to the int16 range, as `np.clip` does. */
  function ClipReal(x: real): (r: real)
    ensures Int16Min as real <= r <= Int16Max as real
    ensures Int16Min as real <= x <= Int16Max as real ==> r == x
  {
    if x < Int16Min as real then Int16Min as real
    else if x > Int16Max as real then Int16Max as real
    else x
  }

  /**
   * The integer computation is exactly "multiply by k/10, clip to the int16
   * range, truncate toward zero", evaluated without rounding.
   */
  lemma ScaleSampleIsClipThenTruncate(s: Int16, k: Tenths)
    ensures ScaleSample(s, k) == TruncReal(ClipReal((s as int * k as int) as real / 10.0))
  {
  }

  /** A gain of 10 tenths (1.0) leaves every int16 sample as it was. */
  lemma UnityGain(block: seq<Int16>)
    ensures Amplify(block, 10) == block
  {
  }

  /** More input never gives less output: scaling, clipping and truncating are all monotone. */
  lemma {:induction false} ScaleSampleMonotone(s1: Int16, s2: Int16, k: Tenths)
    requires s1 <= s2
    ensures ScaleSample(s1, k) <= ScaleSample(s2, k)
  {
    var p1: int, p2: int := s1 as int * k as int, s2 as int * k as int;
    assert p1 <= p2 by { MulMonotone(s1, s2, k); }
    TruncDiv10Monotone(p1, p2);
  }

  lemma MulMonotone(s1: int, s2: int, k: nat)
    requires s1 <= s2
    ensures s1 * k <= s2 * k
  {
  }

  lemma TruncDiv10Monotone(p1: int, p2: int)
    requires p1 <= p2
    ensures TruncDiv10(p1) <= TruncDiv10(p2)
  {
    if p1 >= 0 {
      assert p1 / 10 <= p2 / 10;
    } else if p2 < 0 {
      assert (-p2) / 10 <= (-p1) / 10;
    }
  }

  // ---------------------------------------------------------------------------
  // Peak meter

  /**
   * `np.abs` on an int16 array: the absolute value, except that -32768 has no
   * positive int16 counterpart and wraps to itself.
   */
  function Int16Abs(x: Int16): (r: Int16)
    ensures x != Int16Min ==> r >= 0 && (r == x || r == -x)
    ensures x == Int16Min ==> r == Int16Min
  {
    if x == Int16Min then Int16Min else if x < 0 then -x else x
  }

  /** The largest int16 absolute value of a non-empty block, as numpy computes it. */
  function PeakAbs(block: seq<Int16>): (p: Int16)
    requires |block| > 0
    ensures forall i :: 0 <= i < |block| ==> Int16Abs(block[i]) <= p
    ensures exists i :: 0 <= i < |block| && Int16Abs(block[i]) == p
  {
    if |block| == 1 then Int16Abs(block[0])
    else
      var rest := PeakAbs(block[1..]);
      assert forall i :: 1 <= i < |block| ==> block[i] == block[1..][i - 1];
      if Int16Abs(block[0]) >= rest then Int16Abs(block[0]) else rest
  }

  /**
   * The value written to `peak_level_db`: the silence sentinel `-100`, or
   * `20 * log10(peak / 32767)` for the recorded positive `peak`, which the
   * model keeps without evaluating the logarithm.
   */
  datatype PeakLevel = SilenceFloor | LogPeak(peak: int)

  const SilenceDb: real := -100.0

  function PeakLevelOf(block: seq<Int16>): (l: PeakLevel)
    requires |block| > 0
    ensures l.LogPeak? ==> 0 < l.peak <= Int16Max
  {
    var peak := PeakAbs(block);
    if peak > 0 then LogPeak(peak) else SilenceFloor
  }

  /**
   * The meter reads silence exactly when no sample of the processed block has
   * a positive int16 absolute value, i.e. every sample is 0 or -32768.
   */
  lemma PeakSilentIff(block: seq<Int16>)
    requires |block| > 0
    ensures PeakLevelOf(block) == SilenceFloor <==>
            forall i :: 0 <= i < |block| ==> block[i] == 0 || block[i] == Int16Min
  {
  }

  /** Otherwise the meter records the largest int16 absolute value of the block. */
  lemma PeakLoudIsMax(block: seq<Int16>, i: int)
    requires 0 <= i < |block| && Int16Abs(block[i]) > 0
    ensures PeakLevelOf(block).LogPeak?
    ensures Int16Abs(block[i]) <= PeakLevelOf(block).peak
  {
  }

  /**
   * Because of the int16 wrap of `np.abs`, a loud input driven into the
   * negative rail reads as silence: -20000 at gain 2.0 clips to -32768.
   */
  lemma NegativeRailReadsAsSilence()
    ensures Amplify([-20000], DefaultGain) == [Int16Min as Int16]
    ensures PeakLevelOf(Amplify([-20000], DefaultGain)) == SilenceFloor
  {
  }
}
