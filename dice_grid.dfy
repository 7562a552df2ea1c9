/** The musical time grid shared by every dice (src/client/shared/Dice.js,
    lines 6-13) and the quantization arithmetic of `startSound` (lines 38-43).
    All constants are exact rationals; times are in seconds. */
module DiceGrid {

  const ReleaseTime: real := 0.1
  const AttackTime: real := 0.003
  const Bpm: real := 128.0
  const MeasuresInPattern: real := 4.0
  const BeatsPerMeasure: real := 4.0
  const BeatDuration: real := 60.0 / Bpm
  const SixteenthBeatDuration: real := BeatDuration / 4.0
  const PatternDuration: real := MeasuresInPattern * BeatsPerMeasure * BeatDuration

  /** Number of sixteenth ticks in one pattern. */
  const SixteenthsInPattern: int := 64

  /** The grid in closed form: a tick is 15/128 s and a pattern is exactly 64 ticks (7.5 s). */
  lemma GridInClosedForm()
    ensures SixteenthBeatDuration == 15.0 / 128.0
    ensures PatternDuration == 7.5
    ensures PatternDuration == SixteenthsInPattern as real * SixteenthBeatDuration
  {
  }

  /** JavaScript's `Math.ceil`: the least integer not below `x`. */
  function Ceil(x: real): (n: int)
    ensures n as real - 1.0 < x <= n as real
  {
    -((-x).Floor)
  }

  /** Rounding toward zero, as JavaScript's `%` does with its implicit quotient. */
  function Trunc(x: real): (n: int)
    ensures 0.0 <= x ==> 0 <= n && n as real <= x < n as real + 1.0
    ensures x <= 0.0 ==> n <= 0 && n as real - 1.0 < x <= n as real
  {
    if x >= 0.0 then x.Floor else -((-x).Floor)
  }

  /** JavaScript's `t % patternDuration`: the remainder takes the sign of `t`. */
  function PatternRemainder(t: real): (r: real)
    ensures 0.0 <= t ==> 0.0 <= r < PatternDuration
    ensures t <= 0.0 ==> -PatternDuration < r <= 0.0
    ensures Trunc(t / PatternDuration) as real * PatternDuration == t - r
  {
    t - PatternDuration * Trunc(t / PatternDuration) as real
  }

  /** JavaScript's `n % 64` on a tick count (the remainder has the sign of `n`). */
  function TickInPattern(n: int): (r: int)
    ensures 0 <= n ==> 0 <= r < SixteenthsInPattern
    ensures n <= 0 ==> -SixteenthsInPattern < r <= 0
    ensures (n - r) % SixteenthsInPattern == 0
  {
    if n >= 0 then
      n % SixteenthsInPattern
    else
      var q, m := (-n) / SixteenthsInPattern, (-n) % SixteenthsInPattern;
      assert -n == q * SixteenthsInPattern + m;
      assert n + m == (-q) * SixteenthsInPattern;
      -m
  }

  /** `numSixteenthBeats`: the index of the first tick at or after `syncTime`. */
  function NumSixteenthBeats(syncTime: real): (n: int)
    ensures (n - 1) as real * SixteenthBeatDuration < syncTime <= n as real * SixteenthBeatDuration
  {
    Ceil(syncTime / SixteenthBeatDuration)
  }

  /** `quantizedSyncTime`: `syncTime` rounded up to the sixteenth grid. */
  function QuantizedSyncTime(syncTime: real): (q: real)
    ensures syncTime <= q < syncTime + SixteenthBeatDuration
  {
    NumSixteenthBeats(syncTime) as real * SixteenthBeatDuration
  }

  /** Position inside the pattern at which a sound started on tick `n` begins. */
  function TickStartTime(n: int): (r: real)
    ensures n >= 0 ==> 0.0 <= r < PatternDuration
    ensures n <= 0 ==> -PatternDuration < r <= 0.0
  {
    PatternRemainder(n as real * SixteenthBeatDuration)
  }

  /** `startTime`: the offset inside the pattern for a start requested at `syncTime`. */
  function StartTime(syncTime: real): (r: real)
    ensures -PatternDuration < r < PatternDuration
    ensures syncTime > -SixteenthBeatDuration ==> 0.0 <= r < PatternDuration
  {
    TickStartTime(NumSixteenthBeats(syncTime))
  }

  /** The quantized time is the LEAST multiple of a tick that is not before `syncTime`. */
  lemma QuantizedIsLeastTick(syncTime: real, m: int)
    requires syncTime <= m as real * SixteenthBeatDuration
    ensures NumSixteenthBeats(syncTime) <= m
    ensures QuantizedSyncTime(syncTime) <= m as real * SixteenthBeatDuration
  {
  }

  /** Every sync time in the half-open tick interval ((n-1)·tick, n·tick] rounds up to tick n. */
  lemma QuantizedOnTick(syncTime: real, n: int)
    requires (n - 1) as real * SixteenthBeatDuration < syncTime <= n as real * SixteenthBeatDuration
    ensures NumSixteenthBeats(syncTime) == n
    ensures QuantizedSyncTime(syncTime) == n as real * SixteenthBeatDuration
  {
  }

  /** The start offset of tick `n` is a whole number of ticks: `TickInPattern(n)` of them, with
      JavaScript's sign convention. */
  lemma {:induction false} TickStartInTicks(n: int)
    ensures TickStartTime(n) == TickInPattern(n) as real * SixteenthBeatDuration
  {
    var t := n as real * SixteenthBeatDuration;
    assert t / PatternDuration == n as real / 64.0;
    if n >= 0 {
      var q := n / 64;
      assert q * 64 <= n < q * 64 + 64;
      assert (n as real / 64.0).Floor == q;
    } else {
      var q := (-n) / 64;
      assert q * 64 <= -n < q * 64 + 64;
      assert ((-n) as real / 64.0).Floor == q;
      assert -(n as real / 64.0) == (-n) as real / 64.0;
    }
  }

  /** A start on a non-negative tick begins inside the pattern, on a whole tick. */
  lemma StartTimeInPattern(syncTime: real)
    requires NumSixteenthBeats(syncTime) >= 0
    ensures 0.0 <= StartTime(syncTime) < PatternDuration
    ensures 0 <= TickInPattern(NumSixteenthBeats(syncTime)) < SixteenthsInPattern
    ensures StartTime(syncTime)
         == TickInPattern(NumSixteenthBeats(syncTime)) as real * SixteenthBeatDuration
  {
    TickStartInTicks(NumSixteenthBeats(syncTime));
  }

  /** Phase alignment: two requests that round up to the same tick start at the same
      point of the pattern. */
  lemma SameTickSameStart(t1: real, t2: real, n: int)
    requires (n - 1) as real * SixteenthBeatDuration < t1 <= n as real * SixteenthBeatDuration
    requires (n - 1) as real * SixteenthBeatDuration < t2 <= n as real * SixteenthBeatDuration
    ensures QuantizedSyncTime(t1) == QuantizedSyncTime(t2)
    ensures StartTime(t1) == StartTime(t2)
  {
    QuantizedOnTick(t1, n);
    QuantizedOnTick(t2, n);
  }

  /** Phase alignment: ticks one pattern apart start at the same offset, provided both lie
      on the same side of zero (JavaScript's `%` keeps the dividend's sign). */
  lemma TickStartPeriodic(n: int)
    requires n >= 0 || n + SixteenthsInPattern <= 0
    ensures TickStartTime(n) == TickStartTime(n + SixteenthsInPattern)
  {
    TickStartInTicks(n);
    TickStartInTicks(n + SixteenthsInPattern);
    var a := if n >= 0 then n else -n - 64;
    var q, m := a / 64, a % 64;
    assert a == q * 64 + m && 0 <= m < 64;
    assert a + 64 == (q + 1) * 64 + m;
    assert (a + 64) % 64 == m;
    assert TickInPattern(n) == TickInPattern(n + 64);
  }

  /** The sign restriction above is needed: tick -1 starts one tick before the pattern's
      origin, while tick 63 starts one tick before its end. */
  lemma TickStartNotPeriodicAcrossZero()
    ensures TickStartTime(-1) == -SixteenthBeatDuration
    ensures TickStartTime(63) == PatternDuration - SixteenthBeatDuration
    ensures TickStartTime(-1) != TickStartTime(-1 + SixteenthsInPattern)
  {
    TickStartInTicks(-1);
    TickStartInTicks(63);
  }

  /** A worked instance: a request at sync time 12.34 s is quantized to tick 106, that is
      12.421875 s, which lies 4.921875 s into the pattern. */
  lemma WorkedExample()
    ensures NumSixteenthBeats(12.34) == 106
    ensures QuantizedSyncTime(12.34) == 12.421875
    ensures StartTime(12.34) == 4.921875
  {
    QuantizedOnTick(12.34, 106);
    TickStartInTicks(106);
  }
}
