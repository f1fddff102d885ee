/** The law by which one rendering fades into another, shared by every crossfade in the daemon. */
module Fades {
  import opened Lists

  /** The share of the new rendering `n` frames into a fade of `length` frames. */
  function Gain(n: nat, length: nat): real
    requires length > 0
  {
    Min(n, length) as real / length as real
  }

  function Blend(from: real, to: real, gain: real): real {
    from * (1.0 - gain) + to * gain
  }

  /** The code counts what is left of the fade; this is the same law. */
  lemma GainFromRemaining(remaining: nat, length: nat)
    requires remaining <= length && length > 0
    ensures 1.0 - remaining as real / length as real == Gain(length - remaining, length)
  {
    var l := length as real;
    DivideDifference(l, remaining as real);
    assert (length - remaining) as real == l - remaining as real;
  }

  lemma DivideDifference(l: real, r: real)
    requires l > 0.0
    ensures (l - r) / l == 1.0 - r / l
  {
    DivideSum(l - r, r, l);
    assert l / l == 1.0;
  }

  lemma DivideSum(a: real, b: real, l: real)
    requires l > 0.0
    ensures (a + b) / l == a / l + b / l
  {
  }

  lemma DivideOrder(a: real, b: real, l: real)
    requires l > 0.0 && a <= b
    ensures a / l <= b / l
  {
  }

  /** A fade starts all old, ends all new, never leaves that range, and moves by at most
      1/length per frame, through both of its ends. */
  lemma GainIsSmooth(n: nat, length: nat)
    requires length > 0
    ensures Gain(0, length) == 0.0
    ensures n >= length ==> Gain(n, length) == 1.0
    ensures 0.0 <= Gain(n, length) <= 1.0
    ensures 0.0 <= Gain(n + 1, length) - Gain(n, length) <= 1.0 / length as real
  {
    var l := length as real;
    assert 0.0 / l == 0.0 && l / l == 1.0;
    DivideOrder(0.0, Min(n, length) as real, l);
    DivideOrder(Min(n, length) as real, l, l);
    DivideOrder(Min(n, length) as real, Min(n + 1, length) as real, l);
    if n < length {
      DivideSum(Min(n, length) as real, 1.0, l);
      assert (n + 1) as real == n as real + 1.0;
    } else {
      DivideOrder(0.0, 1.0, l);
    }
  }

  /** Going the share `g` of the way from `a` over the distance `d`. */
  lemma ShareOfWay(a: real, d: real, g: real)
    requires d >= 0.0 && 0.0 <= g <= 1.0
    ensures a <= Blend(a, a + d, g) <= a + d
    ensures a - d <= Blend(a, a - d, g) <= a
  {
    var p := d * g;
    assert 0.0 <= p <= d;
    assert Blend(a, a + d, g) == a + p;
    assert Blend(a, a - d, g) == a - p;
  }

  /** Every blended sample lies between the two renderings. */
  lemma BlendIsBetween(from: real, to: real, gain: real)
    requires 0.0 <= gain <= 1.0
    ensures from <= to ==> from <= Blend(from, to, gain) <= to
    ensures to <= from ==> to <= Blend(from, to, gain) <= from
  {
    hide Blend;
    if from <= to {
      ShareOfWay(from, to - from, gain);
      assert from + (to - from) == to;
    } else {
      ShareOfWay(from, from - to, gain);
      assert from - (from - to) == to;
    }
  }

  lemma BlendEnds(from: real, to: real)
    ensures Blend(from, to, 0.0) == from && Blend(from, to, 1.0) == to
  {
  }

  // ------------------------------------------------------ interleaved samples

  lemma FrameOfSample(frame: nat, channel: nat, channels: nat)
    requires channel < channels
    ensures (frame * channels + channel) / channels == frame
  {
    var q := (frame * channels + channel) / channels;
    QuotientUnique(frame * channels + channel, channels, frame, channel, q, (frame * channels + channel) % channels);
  }

  lemma QuotientUnique(a: nat, size: nat, q: nat, r: nat, p: nat, s: nat)
    requires a == q * size + r && r < size
    requires a == p * size + s && s < size
    ensures q == p
  {
    if q < p { NextMultiple(q, p, size); }
    if p < q { NextMultiple(p, q, size); }
  }

  lemma {:induction false} NextMultiple(a: nat, b: nat, size: nat)
    requires a < b
    ensures a * size + size <= b * size
  {
    if a + 1 < b { NextMultiple(a, b - 1, size); }
  }

  lemma SampleInRange(frame: nat, frames: nat, channel: nat, channels: nat)
    requires frame < frames && channel < channels
    ensures frame * channels + channel < frames * channels
    ensures frame * channels + channels == (frame + 1) * channels <= frames * channels
  {
    NextMultiple(frame, frames, channels);
  }

  /** Sample `k` of a block that starts `n` frames into a fade. */
  function FadeSample(from: seq<real>, to: seq<real>, n: nat, length: nat, channels: nat, k: nat): real
    requires k < |from| && k < |to| && channels > 0 && length > 0
  {
    Blend(from[k], to[k], Gain(n + k / channels, length))
  }

  /** The blend loop: frame by frame, channel by channel, with the count of frames left to fade. */
  method BlendBlock(from: seq<real>, to: seq<real>, output: array<real>, frames: nat, channels: nat,
                    length: nat, remaining: nat) returns (left: nat)
    requires channels > 0 && 0 < remaining <= length
    requires |from| == |to| == frames * channels <= output.Length
    modifies output
    ensures left == remaining - Min(remaining, frames)
    ensures forall k | 0 <= k < frames * channels :: output[k] == FadeSample(from, to, length - remaining, length, channels, k)
    ensures forall k | frames * channels <= k < output.Length :: output[k] == old(output[k])
  {
    hide Blend;
    hide Gain;
    left := remaining;
    ghost var n := length - remaining;
    var start := 0;
    for frame := 0 to frames
      invariant start == frame * channels <= frames * channels
      invariant left == remaining - Min(remaining, frame)
      invariant forall k | 0 <= k < start :: output[k] == FadeSample(from, to, n, length, channels, k)
      invariant forall k | frames * channels <= k < output.Length :: output[k] == old(output[k])
    {
      var newGain := 1.0 - left as real / length as real;
      FrameGain(frame, remaining, left, length);
      SampleInRange(frame, frames, 0, channels);
      for channel := 0 to channels
        invariant forall k | 0 <= k < start + channel :: output[k] == FadeSample(from, to, n, length, channels, k)
        invariant forall k | frames * channels <= k < output.Length :: output[k] == old(output[k])
      {
        SampleInRange(frame, frames, channel, channels);
        FrameOfSample(frame, channel, channels);
        output[start + channel] := Blend(from[start + channel], to[start + channel], newGain);
      }
      start := start + channels;
      if left > 0 {
        left := left - 1;
      }
    }
  }

  lemma FrameGain(frame: nat, remaining: nat, left: nat, length: nat)
    requires 0 < remaining <= length && left == remaining - Min(remaining, frame)
    ensures 1.0 - left as real / length as real == Gain(length - remaining + frame, length)
  {
    GainFromRemaining(left, length);
    if frame > remaining {
      assert left == 0 && Min(length, length) == Min(length - remaining + frame, length);
    }
  }

  // ------------------------------------------------------ whole fades

  /** What is heard `k` samples after the start of a fade between two streams. */
  function Law(from: nat -> real, to: nat -> real, length: nat, channels: nat, k: nat): real
    requires channels > 0 && length > 0
  {
    Blend(from(k), to(k), Gain(k / channels, length))
  }

  /** The stretch of a stream a block of `frames` frames renders, `n` frames in. */
  function Block(stream: nat -> real, n: nat, frames: nat, channels: nat): (b: seq<real>)
    ensures |b| == frames * channels
  {
    seq(frames * channels, (k: nat) => stream(n * channels + k))
  }

  lemma FrameShift(n: nat, k: nat, channels: nat)
    requires channels > 0
    ensures (n * channels + k) / channels == n + k / channels
  {
    var q, r := k / channels, k % channels;
    assert k == q * channels + r;
    assert n * channels + k == (n + q) * channels + r;
    FrameOfSample(n + q, r, channels);
  }

  /** `y` has gone the share n/length of the way from `a` to `b`, and all of it once the fade is over. */
  predicate OnTheWay(a: real, b: real, y: real, n: nat, length: nat) {
    length as real * (y - a) == Min(n, length) as real * (b - a)
  }

  lemma BlendIsOnTheWay(a: real, b: real, n: nat, length: nat)
    requires length > 0
    ensures OnTheWay(a, b, Blend(a, b, Gain(n, length)), n, length)
  {
    var l, g := length as real, Gain(n, length);
    assert l * g == Min(n, length) as real;
    assert Blend(a, b, g) - a == g * (b - a);
    assert l * (g * (b - a)) == (l * g) * (b - a);
  }

  /** The fade is linear in its samples: at every frame and channel the output has gone exactly the
      share of the way from the old rendering to the new one that frames have passed of the fade. */
  lemma FadeIsLinear(from: seq<real>, to: seq<real>, n: nat, length: nat, channels: nat, k: nat)
    requires k < |from| && k < |to| && channels > 0 && length > 0
    ensures var y := FadeSample(from, to, n, length, channels, k);
            length as real * (y - from[k]) == Min(n + k / channels, length) as real * (to[k] - from[k])
  {
    BlendIsOnTheWay(from[k], to[k], n + k / channels, length);
  }

  lemma LawIsLinear(from: nat -> real, to: nat -> real, length: nat, channels: nat, k: nat)
    requires channels > 0 && length > 0
    ensures OnTheWay(from(k), to(k), Law(from, to, length, channels, k), k / channels, length)
  {
    BlendIsOnTheWay(from(k), to(k), k / channels, length);
  }

  lemma Cancel(l: real, x: real, y: real)
    requires l > 0.0 && l * x == l * y
    ensures x == y
  {
  }

  lemma EvenStep(l: real, n: real, d: real, y: real, z: real)
    requires l > 0.0 && l * y == n * d && l * z == (n + 1.0) * d
    ensures z - y == d / l
  {
    var r := d / l;
    assert r * l == d;
    assert l * (z - y) == l * z - l * y == d;
    Cancel(l, z - y, r);
  }

  lemma AllTheWay(a: real, b: real, y: real, n: nat, length: nat)
    requires 0 < length <= n && OnTheWay(a, b, y, n, length)
    ensures y == b
  {
    var l, m := length as real, Min(n, length) as real;
    assert l * (y - a) == m * (b - a);
    SameShare(l, m, y - a, b - a);
  }

  lemma SameShare(l: real, m: real, x: real, y: real)
    requires l > 0.0 && l == m && l * x == m * y
    ensures x == y
  {
    Cancel(l, x, y);
  }

  lemma NextOnTheWay(a: real, b: real, y: real, z: real, n: nat, length: nat)
    requires length > 0 && OnTheWay(a, b, y, n, length) && OnTheWay(a, b, z, n + 1, length)
    ensures z - y == if n < length then (b - a) / length as real else 0.0
    ensures n >= length ==> y == b
  {
    var l := length as real;
    if n < length {
      assert Min(n, length) == n && Min(n + 1, length) == n + 1;
      assert (n + 1) as real == n as real + 1.0;
      EvenStep(l, n as real, b - a, y - a, z - a);
    } else {
      AllTheWay(a, b, y, n, length);
      AllTheWay(a, b, z, n + 1, length);
    }
  }

  lemma NextFrame(k: nat, channels: nat)
    requires channels > 0
    ensures (k + channels) / channels == k / channels + 1
  {
    FrameShift(1, k, channels);
    assert 1 * channels + k == k + channels;
  }

  /** Between two constant streams the output moves by exactly the same step every frame until the
      fade is over, and not at all from then on. */
  lemma ConstantFadeIsEven(a: real, b: real, length: nat, channels: nat, k: nat)
    requires length > 0 && channels > 0
    ensures var from: nat -> real, to: nat -> real := _ => a, _ => b;
            Law(from, to, length, channels, k + channels) - Law(from, to, length, channels, k)
            == if k / channels < length then (b - a) / length as real else 0.0
  {
    var from: nat -> real, to: nat -> real := _ => a, _ => b;
    NextFrame(k, channels);
    LawIsLinear(from, to, length, channels, k);
    LawIsLinear(from, to, length, channels, k + channels);
    hide OnTheWay, Law;
    NextOnTheWay(a, b, Law(from, to, length, channels, k), Law(from, to, length, channels, k + channels), k / channels, length);
  }

  /** A block inside a fade follows the law at its place. */
  lemma BlockFollowsLaw(from: nat -> real, to: nat -> real, n: nat, frames: nat, length: nat, channels: nat, k: nat)
    requires channels > 0 && length > 0 && k < frames * channels
    ensures FadeSample(Block(from, n, frames, channels), Block(to, n, frames, channels), n, length, channels, k)
         == Law(from, to, length, channels, n * channels + k)
  {
    FrameShift(n, k, channels);
  }

  /** After the fade the law is the new stream alone. */
  lemma LawAfterFade(from: nat -> real, to: nat -> real, length: nat, channels: nat, n: nat, k: nat)
    requires channels > 0 && 0 < length <= n
    ensures Law(from, to, length, channels, n * channels + k) == to(n * channels + k)
  {
    FrameShift(n, k, channels);
    GainIsSmooth(n + k / channels, length);
    BlendEnds(from(n * channels + k), to(n * channels + k));
  }
}
