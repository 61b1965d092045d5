/**
 * What the 100 ms display refresh computes: the elapsed time split into
 * hours, minutes, seconds and milliseconds, and the level gauge position.
 * Elapsed time is held in integer milliseconds.
 */
module Display {

  datatype TimeParts = TimeParts(hours: int, minutes: int, seconds: int, millis: int)

  /** The remainder of `x` by `d`, rounded toward zero as Python's `int()` truncates. */
  function TruncRem(x: int, d: int): (r: int)
    requires d > 0
    ensures 0 <= x ==> 0 <= r < d
    ensures x < 0 ==> -d < r <= 0
  {
    if x >= 0 then x % d else -((-x) % d)
  }

  /**
   * The four fields `update_display` shows for an elapsed time of `ms`
   * milliseconds: whole hours, the minutes and the seconds within them (Python's
   * floor division and modulo, which for the positive divisors here are Dafny's
   * Euclidean ones), and the fractional second in milliseconds, truncated
   * toward zero as `int()` does.
   */
  function SplitTime(ms: int): (t: TimeParts)
    ensures 0 <= t.minutes < 60 && 0 <= t.seconds < 60 && -1000 < t.millis < 1000
  {
    TimeParts(ms / 3600000, (ms % 3600000) / 60000, (ms % 60000) / 1000, TruncRem(ms, 1000))
  }

  /** The time in milliseconds that four displayed fields stand for. */
  function Compose(t: TimeParts): (ms: int)
    ensures t.hours >= 0 && t.minutes >= 0 && t.seconds >= 0 && t.millis >= 0 ==> ms >= 0
  {
    t.hours * 3600000 + t.minutes * 60000 + t.seconds * 1000 + t.millis
  }

  /** For a non-negative elapsed time the four fields are the mixed-radix digits of it. */
  lemma {:induction false} SplitTimeRoundTrip(ms: int)
    requires ms >= 0
    ensures SplitTime(ms).hours >= 0 && 0 <= SplitTime(ms).millis
    ensures Compose(SplitTime(ms)) == ms
  {
    var h, r := ms / 3600000, ms % 3600000;
    var m, r2 := r / 60000, r % 60000;
    assert ms % 60000 == r2 by {
      assert ms == h * 3600000 + m * 60000 + r2;
      assert ms == (h * 60 + m) * 60000 + r2;
    }
    var s, r3 := r2 / 1000, r2 % 1000;
    assert ms % 1000 == r3 by {
      assert ms == (h * 3600 + m * 60 + s) * 1000 + r3;
    }
  }

  /** For a negative elapsed time the hours go negative and the milliseconds take the sign. */
  lemma NegativeSplit()
    ensures SplitTime(-1500) == TimeParts(-1, 59, 58, -500)
  {
  }

  /**
   * `map_db_to_gauge`: -60 dB and below reads 0, above 0 dB reads 100, and in
   * between the linear position truncated by `int()`.
   */
  function MapDbToGauge(db: real): (g: int)
    ensures 0 <= g <= 100
    ensures db < -60.0 ==> g == 0
    ensures db > 0.0 ==> g == 100
  {
    if db < -60.0 then 0
    else if db > 0.0 then 100
    else ((db - -60.0) / (0.0 - -60.0) * 100.0).Floor
  }

  /** A louder peak never moves the gauge down. */
  lemma MapDbToGaugeMonotone(db1: real, db2: real)
    requires db1 <= db2
    ensures MapDbToGauge(db1) <= MapDbToGauge(db2)
  {
  }

  /** The ends of the linear range: -60 dB reads 0 and 0 dB reads 100; the silence sentinel reads 0. */
  lemma MapDbToGaugeEnds()
    ensures MapDbToGauge(-60.0) == 0
    ensures MapDbToGauge(0.0) == 100
    ensures MapDbToGauge(-100.0) == 0
  {
  }
}
