/** Basic mode: seven sources encoded into one first-order sound field and decoded to two ears. */
module Ambisonics {
  import opened Complexes

  const SOURCES: nat := 7
  const INPUT_CHANNELS: nat := 8
  const LFE: nat := 3
  const ONE_OVER_SQRT_TWO: real := 0.70710678
  const DECODE_COS: real := ONE_OVER_SQRT_TWO
  const DECODE_SIN: real := ONE_OVER_SQRT_TWO
  const WIDTH_GAIN: real := 2.0
  const DECODE_NORMALIZATION: real := 0.4805061
  const LFE_GAIN: real := 0.5

  /** Cosine and sine of each speaker's azimuth. */
  datatype Directions = Directions(cos: seq<real>, sin: seq<real>)

  ghost predicate OnCircle(d: Directions) {
    |d.cos| == |d.sin| == SOURCES
    && forall i | 0 <= i < SOURCES :: Times(d.cos[i], d.cos[i]) + Times(d.sin[i], d.sin[i]) == 1.0
  }

  function WeightedSum(x: seq<real>, w: seq<real>): real
    requires |x| == |w|
  {
    if x == [] then 0.0 else WeightedSum(x[..|x| - 1], w[..|x| - 1]) + Times(x[|x| - 1], w[|x| - 1])
  }

  lemma WeightedSumStep(x: seq<real>, w: seq<real>, n: nat)
    requires |x| == |w| && n < |x|
    ensures WeightedSum(x[..n + 1], w[..n + 1]) == WeightedSum(x[..n], w[..n]) + Times(x[n], w[n])
  {
    assert x[..n + 1][..n] == x[..n] && w[..n + 1][..n] == w[..n];
  }

  function Constant(w: real, n: nat): (ws: seq<real>)
    ensures |ws| == n
  {
    seq(n, _ => w)
  }

  /** Adds every source to the field: W without direction, X to the front, Y to the left. */
  method Encode(sources: seq<real>, d: Directions) returns (w: real, x: real, y: real)
    requires |sources| == |d.cos| == |d.sin| == SOURCES
    ensures w == WeightedSum(sources, Constant(ONE_OVER_SQRT_TWO, SOURCES))
    ensures x == WeightedSum(sources, d.cos) && y == WeightedSum(sources, d.sin)
  {
    hide Times, WeightedSum;
    var k := Constant(ONE_OVER_SQRT_TWO, SOURCES);
    EmptySum(sources, k);
    EmptySum(sources, d.cos);
    EmptySum(sources, d.sin);
    w, x, y := 0.0, 0.0, 0.0;
    for i := 0 to SOURCES
      invariant w == WeightedSum(sources[..i], k[..i])
      invariant x == WeightedSum(sources[..i], d.cos[..i]) && y == WeightedSum(sources[..i], d.sin[..i])
    {
      WeightedSumStep(sources, k, i);
      WeightedSumStep(sources, d.cos, i);
      WeightedSumStep(sources, d.sin, i);
      w := w + Times(sources[i], ONE_OVER_SQRT_TWO);
      x := x + Times(sources[i], d.cos[i]);
      y := y + Times(sources[i], d.sin[i]);
    }
    assert sources[..SOURCES] == sources && k[..SOURCES] == k && d.cos[..SOURCES] == d.cos && d.sin[..SOURCES] == d.sin;
  }

  lemma EmptySum(x: seq<real>, w: seq<real>)
    requires |x| == |w|
    ensures WeightedSum(x[..0], w[..0]) == 0.0
  {
  }

  // ------------------------------------------------------ what one source contributes

  /** The share of a source at this azimuth in the left ear; the right ear has the sine turned round. */
  function EarGain(c: real, s: real): real {
    (ONE_OVER_SQRT_TWO * ONE_OVER_SQRT_TWO + c * DECODE_COS + s * DECODE_SIN * WIDTH_GAIN) * DECODE_NORMALIZATION
  }

  /** The literal constants keep every azimuth's share within one, by Cauchy-Schwarz:
      (c + 2 s)^2 is at most 5 (c^2 + s^2). */
  lemma EarGainIsBounded(c: real, s: real)
    requires Times(c, c) + Times(s, s) == 1.0
    ensures -1.0 <= EarGain(c, s) <= 1.0
  {
    var r := c + 2.0 * s;
    var o := 2.0 * c - s;
    SquareSign(o);
    assert Times(r, r) + Times(o, o) == 5.0 by {
      Expand(c, s);
    }
    RootBound(r, 2.236068);
    assert EarGain(c, s) == (ONE_OVER_SQRT_TWO * ONE_OVER_SQRT_TWO + ONE_OVER_SQRT_TWO * r) * DECODE_NORMALIZATION;
  }

  lemma Expand(c: real, s: real)
    ensures Times(c + 2.0 * s, c + 2.0 * s) + Times(2.0 * c - s, 2.0 * c - s) == 5.0 * (Times(c, c) + Times(s, s))
  {
  }

  lemma RootBound(r: real, b: real)
    requires Times(r, r) <= 5.0 && b > 0.0 && b * b >= 5.0
    ensures -b <= r <= b
  {
    if r > b {
      TimesPositive(r - b, r + b);
    } else if r < -b {
      TimesPositive(b - r, -b - r);
    }
  }

  function EarGains(d: Directions, left: bool): (g: seq<real>)
    requires |d.cos| == |d.sin|
    ensures |g| == |d.cos|
  {
    seq(|d.cos|, i requires 0 <= i < |d.cos| => EarGain(d.cos[i], if left then d.sin[i] else -d.sin[i]))
  }

  /** The field sampled at the virtual speaker of one ear. */
  function Decode(w: real, x: real, y: real, left: bool): real {
    var side := y * DECODE_SIN * WIDTH_GAIN;
    (w * ONE_OVER_SQRT_TWO + x * DECODE_COS + if left then side else -side) * DECODE_NORMALIZATION
  }

  lemma DecodeStep(w: real, x: real, y: real, left: bool, a: real, c: real, s: real)
    ensures Decode(w + Times(a, ONE_OVER_SQRT_TWO), x + Times(a, c), y + Times(a, s), left)
         == Decode(w, x, y, left) + Times(a, EarGain(c, if left then s else -s))
  {
  }

  /** Decoding the summed field is the same as weighing each source by its own share. */
  lemma {:induction false} DecodeIsWeighted(x: seq<real>, d: Directions, left: bool)
    requires |x| == |d.cos| == |d.sin|
    ensures Decode(WeightedSum(x, Constant(ONE_OVER_SQRT_TWO, |x|)), WeightedSum(x, d.cos), WeightedSum(x, d.sin), left)
         == WeightedSum(x, EarGains(d, left))
  {
    hide EarGain, Times;
    if x == [] {
    } else {
      hide Decode;
      var n := |x| - 1;
      var e := Directions(d.cos[..n], d.sin[..n]);
      DecodeIsWeighted(x[..n], e, left);
      assert Constant(ONE_OVER_SQRT_TWO, |x|)[..n] == Constant(ONE_OVER_SQRT_TWO, n);
      assert EarGains(d, left)[..n] == EarGains(e, left);
      DecodeStep(WeightedSum(x[..n], Constant(ONE_OVER_SQRT_TWO, n)), WeightedSum(x[..n], e.cos), WeightedSum(x[..n], e.sin),
                 left, x[n], d.cos[n], d.sin[n]);
    }
  }

  // ------------------------------------------------------ the bound

  function SumOfAbs(x: seq<real>): real {
    if x == [] then 0.0 else SumOfAbs(x[..|x| - 1]) + Abs(x[|x| - 1])
  }

  lemma TimesBound(a: real, g: real)
    requires -1.0 <= g <= 1.0
    ensures Abs(Times(a, g)) <= Abs(a)
  {
    if a > 0.0 {
      if g < 1.0 { TimesPositive(a, 1.0 - g); }
      if g > -1.0 { TimesPositive(a, g + 1.0); }
    } else if a < 0.0 {
      if g < 1.0 { TimesPositive(-a, 1.0 - g); }
      if g > -1.0 { TimesPositive(-a, g + 1.0); }
    }
  }

  lemma {:induction false} WeightedSumBound(x: seq<real>, g: seq<real>)
    requires |x| == |g| && forall i | 0 <= i < |g| :: -1.0 <= g[i] <= 1.0
    ensures Abs(WeightedSum(x, g)) <= SumOfAbs(x)
  {
    hide Times;
    if x == [] {
    } else {
      WeightedSumBound(x[..|x| - 1], g[..|x| - 1]);
      TimesBound(x[|x| - 1], g[|x| - 1]);
    }
  }

  // ------------------------------------------------------ the stage

  /** The seven sources of a frame, without the bass channel. */
  function Sources(frame: seq<real>): (s: seq<real>)
    requires |frame| == INPUT_CHANNELS
    ensures |s| == SOURCES
  {
    [frame[0], frame[1], frame[2], frame[4], frame[5], frame[6], frame[7]]
  }

  /** What one ear hears of a frame: each source by its share, and half the bass channel. */
  function EarSample(frame: seq<real>, d: Directions, left: bool): real
    requires |frame| == INPUT_CHANNELS && |d.cos| == |d.sin| == SOURCES
  {
    WeightedSum(Sources(frame), EarGains(d, left)) + LFE_GAIN * frame[LFE]
  }

  /** No output sample exceeds the sum of the sources' magnitudes and half the bass channel's. */
  lemma OutputIsBounded(frame: seq<real>, d: Directions, left: bool)
    requires |frame| == INPUT_CHANNELS && OnCircle(d)
    ensures Abs(EarSample(frame, d, left)) <= SumOfAbs(Sources(frame)) + LFE_GAIN * Abs(frame[LFE])
  {
    hide WeightedSum, EarGain;
    forall i | 0 <= i < SOURCES ensures -1.0 <= EarGains(d, left)[i] <= 1.0 {
      TimesNegated(d.sin[i], d.sin[i]);
      EarGainIsBounded(d.cos[i], if left then d.sin[i] else -d.sin[i]);
    }
    WeightedSumBound(Sources(frame), EarGains(d, left));
  }

  function Mirror(d: Directions): Directions {
    Directions(d.cos, seq(|d.sin|, i requires 0 <= i < |d.sin| => -d.sin[i]))
  }

  /** Mirroring all speakers swaps the ears. */
  lemma MirrorSwapsEars(frame: seq<real>, d: Directions, left: bool)
    requires |frame| == INPUT_CHANNELS && |d.cos| == |d.sin| == SOURCES
    ensures EarSample(frame, Mirror(d), left) == EarSample(frame, d, !left)
  {
    hide EarGain, WeightedSum;
    assert EarGains(Mirror(d), left) == EarGains(d, !left);
  }

  method ProcessFrame(d: Directions, frame: seq<real>) returns (left: real, right: real)
    requires |d.cos| == |d.sin| == SOURCES && |frame| == INPUT_CHANNELS
    ensures left == EarSample(frame, d, true) && right == EarSample(frame, d, false)
  {
    hide WeightedSum, EarGain;
    var sources := Sources(frame);
    var w, x, y := Encode(sources, d);
    var side := y * DECODE_SIN * WIDTH_GAIN;
    left := (w * ONE_OVER_SQRT_TWO + x * DECODE_COS + side) * DECODE_NORMALIZATION + LFE_GAIN * frame[LFE];
    right := (w * ONE_OVER_SQRT_TWO + x * DECODE_COS - side) * DECODE_NORMALIZATION + LFE_GAIN * frame[LFE];
    DecodeIsWeighted(sources, d, true);
    DecodeIsWeighted(sources, d, false);
  }

  /** Sample `k` of the interleaved output for the interleaved input `x`. */
  function OutputSample(x: seq<real>, d: Directions, k: nat): real
    requires |d.cos| == |d.sin| == SOURCES && 8 * (k / 2) + 8 <= |x|
  {
    EarSample(x[8 * (k / 2)..8 * (k / 2) + 8], d, k % 2 == 0)
  }

  // ------------------------------------------------------ which ear hears what

  lemma {:induction false} SumOfNothing(x: seq<real>, w: seq<real>)
    requires |x| == |w| && forall j | 0 <= j < |x| :: x[j] == 0.0
    ensures WeightedSum(x, w) == 0.0
  {
    if x != [] {
      SumOfNothing(x[..|x| - 1], w[..|x| - 1]);
      assert Times(0.0, w[|x| - 1]) == 0.0;
    }
  }

  lemma {:induction false} SumOfOne(x: seq<real>, w: seq<real>, i: nat)
    requires |x| == |w| && i < |x| && forall j | 0 <= j < |x| :: j != i ==> x[j] == 0.0
    ensures WeightedSum(x, w) == Times(x[i], w[i])
  {
    var n := |x| - 1;
    if i == n {
      SumOfNothing(x[..n], w[..n]);
    } else {
      SumOfOne(x[..n], w[..n], i);
      assert Times(0.0, w[n]) == 0.0;
    }
  }

  lemma {:induction false} SumOfBoth(x: seq<real>, y: seq<real>, z: seq<real>, w: seq<real>)
    requires |x| == |y| == |z| == |w| && forall j | 0 <= j < |z| :: z[j] == x[j] + y[j]
    ensures WeightedSum(z, w) == WeightedSum(x, w) + WeightedSum(y, w)
  {
    if x != [] {
      var n := |x| - 1;
      SumOfBoth(x[..n], y[..n], z[..n], w[..n]);
      assert Times(x[n] + y[n], w[n]) == Times(x[n], w[n]) + Times(y[n], w[n]);
    }
  }

  /** The input channel of a source: the bass channel lies between the third and the fourth. */
  predicate ChannelOf(i: nat, c: nat) {
    i < SOURCES && c == if i < 3 then i else i + 1
  }

  /** In frame `f`, one channel holds `a` and the others are silent. */
  predicate Alone(x: seq<real>, f: nat, c: nat, a: real)
    requires 8 * f + 8 <= |x|
  {
    x[8 * f..8 * f + 8] == seq(8, j => if j == c then a else 0.0)
  }

  lemma AloneInEar(x: seq<real>, d: Directions, f: nat, i: nat, c: nat, a: real, left: bool)
    requires |d.cos| == |d.sin| == SOURCES && 8 * f + 8 <= |x| && ChannelOf(i, c) && Alone(x, f, c, a)
    ensures OutputSample(x, d, 2 * f + if left then 0 else 1) == Times(a, EarGain(d.cos[i], if left then d.sin[i] else -d.sin[i]))
  {
    hide WeightedSum, EarGain;
    var frame := x[8 * f..8 * f + 8];
    assert frame[c] == a && frame[LFE] == 0.0 && |frame| == 8;
    assert Sources(frame)[i] == a;
    assert forall j | 0 <= j < SOURCES :: j != i ==> Sources(frame)[j] == 0.0;
    SumOfOne(Sources(frame), EarGains(d, left), i);
  }

  lemma EarGainSides(a: real, c: real, s: real)
    ensures Times(a, EarGain(c, s)) - Times(a, EarGain(c, -s)) == 4.0 * 0.70710678 * 0.4805061 * Times(a, s)
    ensures Times(a, EarGain(c, s)) + Times(a, EarGain(c, -s)) == 2.0 * 0.70710678 * 0.4805061 * Times(a, 0.70710678 + c)
  {
  }

  /** One source alone: the ears differ by the same positive share of its sine, the left one louder
      exactly when the source is on the left; together they follow its cosine, louder to the front. */
  lemma OneSourceIsHeard(x: seq<real>, d: Directions, f: nat, i: nat, c: nat, a: real)
    requires |d.cos| == |d.sin| == SOURCES && 8 * f + 8 <= |x| && ChannelOf(i, c) && Alone(x, f, c, a)
    ensures var left, right := OutputSample(x, d, 2 * f), OutputSample(x, d, 2 * f + 1);
            && left - right == 4.0 * 0.70710678 * 0.4805061 * Times(a, d.sin[i])
            && left + right == 2.0 * 0.70710678 * 0.4805061 * Times(a, 0.70710678 + d.cos[i])
            && (a > 0.0 ==> (left > right <==> d.sin[i] > 0.0) && (left < right <==> d.sin[i] < 0.0))
  {
    AloneInEar(x, d, f, i, c, a, true);
    AloneInEar(x, d, f, i, c, a, false);
    EarGainSides(a, d.cos[i], d.sin[i]);
    if a > 0.0 && d.sin[i] > 0.0 {
      TimesPositive(a, d.sin[i]);
    } else if a > 0.0 && d.sin[i] < 0.0 {
      TimesPositive(a, -d.sin[i]);
      TimesNegative(a, d.sin[i]);
    } else if a > 0.0 {
      TimesNegative(a, 0.0);
    }
    hide OutputSample, EarGain, Times;
  }

  /** Of two sources of the same level the one further to the front is louder in both ears together. */
  lemma FrontIsLouder(x: seq<real>, d: Directions, f: nat, i: nat, c: nat, y: seq<real>, g: nat, j: nat, e: nat, a: real)
    requires |d.cos| == |d.sin| == SOURCES && a > 0.0
    requires 8 * f + 8 <= |x| && ChannelOf(i, c) && Alone(x, f, c, a)
    requires 8 * g + 8 <= |y| && ChannelOf(j, e) && Alone(y, g, e, a)
    ensures OutputSample(x, d, 2 * f) + OutputSample(x, d, 2 * f + 1) < OutputSample(y, d, 2 * g) + OutputSample(y, d, 2 * g + 1)
       <==> d.cos[i] < d.cos[j]
  {
    OneSourceIsHeard(x, d, f, i, c, a);
    OneSourceIsHeard(y, d, g, j, e, a);
    hide OutputSample, Alone;
    TimesOrder(a, 0.70710678 + d.cos[i], 0.70710678 + d.cos[j]);
    hide Times;
  }

  lemma TimesOrder(a: real, x: real, y: real)
    requires a > 0.0
    ensures Times(a, x) < Times(a, y) <==> x < y
  {
    if x < y {
      TimesPositive(a, y - x);
    } else if y < x {
      TimesPositive(a, x - y);
    }
  }

  /** The bound is reached: this direction on the circle comes through at more than 0.9999 of its level. */
  lemma BoundIsTight(x: seq<real>, d: Directions, f: nat, i: nat, c: nat, a: real)
    requires |d.cos| == |d.sin| == SOURCES && 8 * f + 8 <= |x| && ChannelOf(i, c) && Alone(x, f, c, a) && a > 0.0
    requires d.cos[i] == 105.0 / 233.0 && d.sin[i] == 208.0 / 233.0
    ensures Times(d.cos[i], d.cos[i]) + Times(d.sin[i], d.sin[i]) == 1.0
    ensures 0.9999 * a <= OutputSample(x, d, 2 * f) <= a
  {
    AloneInEar(x, d, f, i, c, a, true);
    hide OutputSample;
    var g := EarGain(105.0 / 233.0, 208.0 / 233.0);
    assert 0.9999 < g < 1.0;
    TimesPositive(a, g - 0.9999);
    TimesPositive(a, 1.0 - g);
  }

  /** The bass channel alone reaches both ears at half its level. */
  lemma BassIsHeardInBoth(x: seq<real>, d: Directions, f: nat, a: real)
    requires |d.cos| == |d.sin| == SOURCES && 8 * f + 8 <= |x| && Alone(x, f, 3, a)
    ensures OutputSample(x, d, 2 * f) == OutputSample(x, d, 2 * f + 1) == 0.5 * a
  {
    hide EarGain, WeightedSum;
    var frame := x[8 * f..8 * f + 8];
    assert frame[LFE] == a;
    assert forall j | 0 <= j < SOURCES :: Sources(frame)[j] == 0.0;
    SumOfNothing(Sources(frame), EarGains(d, true));
    SumOfNothing(Sources(frame), EarGains(d, false));
  }

  /** What is heard of two frames added is what is heard of each, added: with the sources one by one,
      that is every frame. */
  lemma FramesSuperpose(x: seq<real>, y: seq<real>, z: seq<real>, d: Directions, k: nat)
    requires |d.cos| == |d.sin| == SOURCES && |x| == |y| == |z| && 8 * (k / 2) + 8 <= |x|
    requires forall j | 0 <= j < |z| :: z[j] == x[j] + y[j]
    ensures OutputSample(z, d, k) == OutputSample(x, d, k) + OutputSample(y, d, k)
  {
    hide EarGain, WeightedSum;
    var n := 8 * (k / 2);
    var u, v, w := x[n..n + 8], y[n..n + 8], z[n..n + 8];
    SumOfBoth(Sources(u), Sources(v), Sources(w), EarGains(d, k % 2 == 0));
  }

  method ProcessFrames(d: Directions, input: array<real>, output: array<real>, frames: nat)
    requires |d.cos| == |d.sin| == SOURCES && input != output
    requires 8 * frames <= input.Length && 2 * frames <= output.Length
    modifies output
    ensures forall k | 0 <= k < 2 * frames :: output[k] == OutputSample(input[..], d, k)
    ensures forall k | 2 * frames <= k < output.Length :: output[k] == old(output[k])
  {
    hide EarSample;
    ghost var x := input[..];
    for f := 0 to frames
      invariant input[..] == x
      invariant forall k | 0 <= k < 2 * f :: output[k] == OutputSample(x, d, k)
      invariant forall k | 2 * frames <= k < output.Length :: output[k] == old(output[k])
    {
      var frame := input[8 * f..8 * f + 8];
      var left, right := ProcessFrame(d, frame);
      assert OutputSample(x, d, 2 * f) == left && OutputSample(x, d, 2 * f + 1) == right;
      hide OutputSample;
      output[2 * f] := left;
      output[2 * f + 1] := right;
    }
  }

  /** Seven-one in, stereo out; any other channel counts give silence. */
  method Process(d: Directions, input: array<real>, inputChannels: nat, output: array<real>, outputChannels: nat, frames: nat)
    requires |d.cos| == |d.sin| == SOURCES && input != output
    requires frames * inputChannels <= input.Length && frames * outputChannels <= output.Length
    modifies output
    ensures inputChannels != INPUT_CHANNELS || outputChannels != 2 ==>
              forall k | 0 <= k < frames * outputChannels :: output[k] == 0.0
    ensures inputChannels == INPUT_CHANNELS && outputChannels == 2 ==>
              8 * frames <= input.Length && 2 * frames <= output.Length
              && forall k | 0 <= k < 2 * frames :: output[k] == OutputSample(input[..], d, k)
    ensures forall k | frames * outputChannels <= k < output.Length :: output[k] == old(output[k])
  {
    hide OutputSample;
    if inputChannels != INPUT_CHANNELS || outputChannels != 2 {
      for k := 0 to frames * outputChannels
        invariant forall j | 0 <= j < k :: output[j] == 0.0
        invariant forall j | frames * outputChannels <= j < output.Length :: output[j] == old(output[j])
      {
        output[k] := 0.0;
      }
    } else {
      ProcessFrames(d, input, output, frames);
    }
  }
}
