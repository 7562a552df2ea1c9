/** The sensor client (src/client/sensor/SensorExperience.js): a low-pass filter over the
    accelerometer stream, the classification of the filtered vector into the face ("edge")
    the device rests on, the `edge` messages sent to the server when that face changes,
    and the mute and stop handlers acting on the device's own dice. */
module SensorClient {
  import opened Optional
  import opened SharedDice

  // ---------------------------------------------------------------------------
  // The low-pass filter

  /** One component of `Lowpass.input`: `out += k * (in - out)`. */
  function Smooth(out: real, input: real, k: real): (r: real)
    ensures r - input == (1.0 - k) * (out - input)
  {
    out + k * (input - out)
  }

  /** The filter's three components after one input `data`. */
  function Smoothed(out: seq<real>, data: seq<real>, k: real): (r: seq<real>)
    requires |out| == 3 && |data| >= 3
    ensures |r| == 3
    ensures forall i :: 0 <= i < 3 ==> r[i] == Smooth(out[i], data[i], k)
  {
    [Smooth(out[0], data[0], k), Smooth(out[1], data[1], k), Smooth(out[2], data[2], k)]
  }

  function Min(a: real, b: real): real { if a <= b then a else b }
  function Max(a: real, b: real): real { if a <= b then b else a }
  function Abs(x: real): real { if x < 0.0 then -x else x }

  /** For 0 ≤ k ≤ 1 the new output lies between the old output and the input, and it is
      closer to the input by the factor 1 − k. With k = 1 it is the input, with k = 0 the
      old output. */
  lemma SmoothBetween(out: real, input: real, k: real)
    requires 0.0 <= k <= 1.0
    ensures Min(out, input) <= Smooth(out, input, k) <= Max(out, input)
    ensures Abs(input - Smooth(out, input, k)) == (1.0 - k) * Abs(input - out)
    ensures k == 1.0 ==> Smooth(out, input, k) == input
    ensures k == 0.0 ==> Smooth(out, input, k) == out
  {
    var d := input - out;
    assert input - Smooth(out, input, k) == (1.0 - k) * d;
    if d >= 0.0 {
      assert 0.0 <= k * d <= d;
    } else {
      assert d <= k * d <= 0.0;
    }
  }

  function Power(b: real, n: nat): real
  {
    if n == 0 then 1.0 else b * Power(b, n - 1)
  }

  /** The output after the same input is fed `n` times. */
  function SmoothRepeated(out: real, input: real, k: real, n: nat): real
  {
    if n == 0 then out else Smooth(SmoothRepeated(out, input, k, n - 1), input, k)
  }

  /** Each sample shrinks the signed distance to a constant input by the factor 1 − k. */
  lemma {:induction false} SignedDistanceAfter(out: real, input: real, k: real, n: nat)
    ensures input - SmoothRepeated(out, input, k, n) == Power(1.0 - k, n) * (input - out)
  {
    if n > 0 {
      var prev := SmoothRepeated(out, input, k, n - 1);
      SignedDistanceAfter(out, input, k, n - 1);
      assert input - Smooth(prev, input, k) == (1.0 - k) * (input - prev);
    }
  }

  lemma {:induction false} PowerNonNegative(b: real, n: nat)
    requires 0.0 <= b
    ensures 0.0 <= Power(b, n)
  {
    if n > 0 {
      PowerNonNegative(b, n - 1);
    }
  }

  /** A constant input is approached geometrically: after `n` samples the distance to the
      input is (1 − k)^n times the initial distance. */
  lemma SmoothConverges(out: real, input: real, k: real, n: nat)
    requires 0.0 <= k <= 1.0
    ensures Abs(input - SmoothRepeated(out, input, k, n)) == Power(1.0 - k, n) * Abs(input - out)
  {
    SignedDistanceAfter(out, input, k, n);
    PowerNonNegative(1.0 - k, n);
  }

  /** `Lowpass`. The coefficient `k` is computed by `setCutoff` from `Math.exp`; here it is a
      given real. `output` is one array, updated in place and handed out by `input`. */
  class Lowpass {
    var k: real
    const output: array<real>

    constructor (k: real)
      ensures this.k == k
      ensures fresh(output) && output[..] == [0.0, 0.0, 0.0]
    {
      this.k := k;
      output := new real[3] [0.0, 0.0, 0.0];
    }

    /** `input(data)`: filter one sample and return the filter's own output array. */
    method Input(data: seq<real>) returns (r: array<real>)
      requires output.Length == 3 && |data| >= 3
      modifies output
      ensures r == output
      ensures output[..] == Smoothed(old(output[..]), data, k)
    {
      output[0] := output[0] + k * (data[0] - output[0]);
      output[1] := output[1] + k * (data[1] - output[1]);
      output[2] := output[2] + k * (data[2] - output[2]);
      r := output;
      assert output[..] == [output[0], output[1], output[2]];
    }
  }

  // ---------------------------------------------------------------------------
  // Face classification

  /** `a` is strictly larger in magnitude than both `b` and `c`. */
  predicate Dominates(a: real, b: real, c: real)
  {
    Abs(a) > Abs(b) && Abs(a) > Abs(c)
  }

  /** The edge of the filtered vector (x, y, z): the face of the strictly dominant axis and
      its sign, or 0 when no axis is strictly dominant. */
  function Classify(x: real, y: real, z: real): (e: int)
    ensures 0 <= e <= 6
    ensures e != 0 <==> Dominates(x, y, z) || Dominates(y, x, z) || Dominates(z, x, y)
    ensures e == 5 <==> Dominates(x, y, z) && x > 0.0
    ensures e == 2 <==> Dominates(x, y, z) && x < 0.0
    ensures e == 1 <==> Dominates(y, x, z) && y > 0.0
    ensures e == 6 <==> Dominates(y, x, z) && y < 0.0
    ensures e == 3 <==> Dominates(z, x, y) && z > 0.0
    ensures e == 4 <==> Dominates(z, x, y) && z < 0.0
  {
    var absX, absY, absZ := Abs(x), Abs(y), Abs(z);
    if absX > absY && absX > absZ then
      (if x > 0.0 then 5 else 2)
    else if absY > absX && absY > absZ then
      (if y > 0.0 then 1 else 6)
    else if absZ > absX && absZ > absY then
      (if z > 0.0 then 3 else 4)
    else
      0
  }

  /** Turning the device over maps each face to the opposite one: opposite faces sum to 7. */
  lemma OppositeFaces(x: real, y: real, z: real)
    ensures Classify(x, y, z) == 0 <==> Classify(-x, -y, -z) == 0
    ensures Classify(x, y, z) != 0 ==> Classify(x, y, z) + Classify(-x, -y, -z) == 7
  {
  }

  /** A tie for the largest magnitude yields 0, not a pick by axis priority. */
  lemma TieYieldsNoEdge(x: real, y: real, z: real)
    requires Abs(x) == Abs(y) >= Abs(z) || Abs(x) == Abs(z) >= Abs(y) || Abs(y) == Abs(z) >= Abs(x)
    ensures Classify(x, y, z) == 0
  {
  }

  // ---------------------------------------------------------------------------
  // Edge-change emission

  /** The last classified edge (`this.edge`) and the `edge` messages sent so far. */
  datatype EdgeTracker = EdgeTracker(edge: int, sent: seq<int>)

  /** A new classification `e`: sent, and stored, only when it differs from the last. */
  function Track(t: EdgeTracker, e: int): (r: EdgeTracker)
    ensures r.edge == e
    ensures r.sent == t.sent || r.sent == t.sent + [e]
    ensures r.sent == t.sent <==> e == t.edge
  {
    if e != t.edge then EdgeTracker(e, t.sent + [e]) else t
  }

  /** A message is sent iff the edge changed; afterwards the stored edge is the new one,
      so the same classification again sends nothing. */
  lemma TrackSendsOnChange(t: EdgeTracker, e: int)
    ensures Track(t, e).edge == e
    ensures Track(t, e).sent == (if e != t.edge then t.sent + [e] else t.sent)
    ensures Track(Track(t, e), e) == Track(t, e)
  {
  }

  /** The sent messages never repeat an edge twice in a row, and the last one sent is the
      stored edge. */
  ghost predicate NoRepeats(t: EdgeTracker)
  {
    && (forall i :: 0 < i < |t.sent| ==> t.sent[i - 1] != t.sent[i])
    && (|t.sent| > 0 ==> t.sent[|t.sent| - 1] == t.edge)
  }

  lemma TrackKeepsNoRepeats(t: EdgeTracker, e: int)
    requires NoRepeats(t)
    ensures NoRepeats(Track(t, e))
  {
  }

  // ---------------------------------------------------------------------------
  // The client object

  /** The sensor client after `start`: the filter (`accGravLowpass`) and the dice exist.
      `isMuted` starts `undefined` (`None`). Messages to the server are recorded in `sent`. */
  class SensorExperience {
    var edge: int
    var isMuted: Option<bool>
    var sent: seq<int>
    const accGravLowpass: Lowpass
    const dice: Dice

    ghost predicate Valid()
      reads this, accGravLowpass, dice
    {
      accGravLowpass.output.Length == 3 && dice.Valid()
    }

    function Tracker(): EdgeTracker
      reads this
    {
      EdgeTracker(edge, sent)
    }

    constructor (k: real, sync: SyncClock, buffers: seq<AudioBuffer>)
      ensures Valid()
      ensures edge == 0 && isMuted == None && sent == []
      ensures fresh(accGravLowpass) && fresh(accGravLowpass.output) && fresh(dice)
      ensures accGravLowpass.k == k && accGravLowpass.output[..] == [0.0, 0.0, 0.0]
      ensures dice.sync == sync && dice.buffers == buffers && dice.State() == DiceState(None, [], 0)
    {
      edge := 0;
      isMuted := None;
      sent := [];
      accGravLowpass := new Lowpass(k);
      dice := new Dice(sync, buffers);
    }

    /** `onAccelerationIncludingGravity(data)`. */
    method OnAccelerationIncludingGravity(data: seq<real>)
      requires Valid() && |data| >= 3
      modifies this, accGravLowpass.output
      ensures Valid()
      ensures accGravLowpass.output[..] == Smoothed(old(accGravLowpass.output[..]), data, accGravLowpass.k)
      ensures Tracker() == Track(old(Tracker()),
                Classify(accGravLowpass.output[0], accGravLowpass.output[1], accGravLowpass.output[2]))
      ensures isMuted == old(isMuted)
    {
      var filtered := accGravLowpass.Input(data);
      var x, y, z := filtered[0], filtered[1], filtered[2];
      var absX, absY, absZ := Abs(x), Abs(y), Abs(z);
      var e := 0;

      if absX > absY && absX > absZ {
        if x > 0.0 {
          e := 5;
        } else {
          e := 2;
        }
      } else if absY > absX && absY > absZ {
        if y > 0.0 {
          e := 1;
        } else {
          e := 6;
        }
      } else if absZ > absX && absZ > absY {
        if z > 0.0 {
          e := 3;
        } else {
          e := 4;
        }
      }

      if e != edge {
        sent := sent + [e];
        edge := e;
      }
    }

    /** `onStop()`: release the dice's voice now. */
    method OnStop(now: real)
      requires Valid()
      modifies dice
      ensures Valid()
      ensures dice.State() == Stop(old(dice.State()), now)
    {
      dice.StopSound(now);
    }

    /** `onMute(mute)`: only a change of value acts, and only a change to muted stops the dice. */
    method OnMute(mute: bool, now: real)
      requires Valid()
      modifies this, dice
      ensures Valid()
      ensures isMuted == Some(mute)
      ensures dice.State() == if old(isMuted) != Some(mute) && mute then Stop(old(dice.State()), now)
                                                                   else old(dice.State())
      ensures Tracker() == old(Tracker())
    {
      if Some(mute) != isMuted {
        if mute {
          dice.StopSound(now);
        }
        isMuted := Some(mute);
      }
    }
  }
}
