/** Direct convolution of a sample stream with filter taps, the algebra of filters built by
    scaling, convolving and delaying, and the tap-building code that relies on it. */
module Convolution {
  import opened RealSums

  /** The signal `s`, silent before its start and after its end. */
  function At(s: seq<real>, i: int): real {
    if 0 <= i < |s| then s[i] else 0.0
  }

  function DirectTerm(h: seq<real>, x: seq<real>, n: int): nat -> real {
    (k: nat) => At(h, k) * At(x, n - k)
  }

  /** Sample `n` of the stream `x` filtered by the taps `h`: the sum of h[k] * x[n - k]. */
  function Direct(h: seq<real>, x: seq<real>, n: int): real {
    Sum(|h|, DirectTerm(h, x, n))
  }

  /** The whole stream `x` filtered by `h`. */
  function Filtered(h: seq<real>, x: seq<real>): (y: seq<real>)
    ensures |y| == |x|
  {
    seq(|x|, (n: nat) => Direct(h, x, n))
  }

  lemma ZeroTerm(h: seq<real>, x: seq<real>, n: int, k: nat)
    requires At(h, k) == 0.0 || At(x, n - k) == 0.0
    ensures DirectTerm(h, x, n)(k) == 0.0
  {
  }

  /** Output depends only on input already seen: later input cannot change it. */
  lemma DirectIsCausal(h: seq<real>, x: seq<real>, later: seq<real>, n: int)
    requires n < |x|
    ensures Direct(h, x + later, n) == Direct(h, x, n)
  {
    forall k: nat | k < |h| ensures DirectTerm(h, x + later, n)(k) == DirectTerm(h, x, n)(k) {
      assert At(x + later, n - k) == At(x, n - k);
    }
    SumEqual(|h|, DirectTerm(h, x + later, n), DirectTerm(h, x, n));
  }

  lemma DirectBeforeStart(h: seq<real>, x: seq<real>, n: int)
    requires n < 0
    ensures Direct(h, x, n) == 0.0
  {
    forall k: nat | k < |h| ensures DirectTerm(h, x, n)(k) == 0.0 {
      ZeroTerm(h, x, n, k);
    }
    SumTruncate(0, |h|, DirectTerm(h, x, n));
  }

  // ------------------------------------------------------ filter algebra

  function Scaled(c: real, h: seq<real>): (r: seq<real>)
    ensures |r| == |h|
  {
    seq(|h|, (k: nat) requires k < |h| => h[k] * c)
  }

  /** `delay` zero taps in front of `h`. */
  function Delayed(h: seq<real>, delay: nat): (r: seq<real>)
    ensures |r| == |h| + delay
  {
    seq(delay, (k: nat) => 0.0) + h
  }

  /** The taps of two filters applied one after the other. */
  function Product(a: seq<real>, b: seq<real>): (r: seq<real>)
    ensures |r| == if a == [] || b == [] then 0 else |a| + |b| - 1
  {
    if a == [] || b == [] then [] else seq(|a| + |b| - 1, (m: nat) => Direct(a, b, m))
  }

  lemma DirectHead(h: seq<real>, x: seq<real>, n: int)
    requires h != []
    ensures Direct(h, x, n) == h[0] * At(x, n) + Direct(h[1..], x, n - 1)
  {
    var terms, later := DirectTerm(h, x, n), DirectTerm(h[1..], x, n - 1);
    FirstTerm(h, x, n);
    forall k: nat | k < |h| - 1 ensures Tail(terms)(k) == later(k) {
      TermShifts(h, x, n, k);
    }
    hide DirectTerm, At, Sum, Tail;
    SumHead(|h| - 1, terms);
    SumEqual(|h| - 1, Tail(terms), later);
  }

  lemma FirstTerm(h: seq<real>, x: seq<real>, n: int)
    requires h != []
    ensures DirectTerm(h, x, n)(0) == h[0] * At(x, n)
  {
  }

  lemma TermShifts(h: seq<real>, x: seq<real>, n: int, k: nat)
    requires h != []
    ensures DirectTerm(h, x, n)(k + 1) == DirectTerm(h[1..], x, n - 1)(k)
  {
    assert At(h, k + 1) == At(h[1..], k);
    assert n - (k + 1) == n - 1 - k;
  }

  /** Zero taps beyond the end of the filter do not change the sum. */
  lemma DirectPadded(h: seq<real>, x: seq<real>, n: int, size: nat)
    requires |h| <= size
    ensures Sum(size, DirectTerm(h, x, n)) == Direct(h, x, n)
  {
    forall k: nat | |h| <= k < size ensures DirectTerm(h, x, n)(k) == 0.0 {
      ZeroTerm(h, x, n, k);
    }
    SumTruncate(|h|, size, DirectTerm(h, x, n));
  }

  /** The output is linear in the taps. */
  lemma DirectLinear(c: real, f: seq<real>, g: seq<real>, h: seq<real>, x: seq<real>, n: int)
    requires |f| <= |h| && |g| <= |h|
    requires forall k: nat | k < |h| :: At(h, k) == c * At(f, k) + At(g, k)
    ensures Direct(h, x, n) == c * Direct(f, x, n) + Direct(g, x, n)
  {
    hide DirectTerm;
    hide ScaledTerm;
    hide At;
    var size := |h|;
    var cf := ScaledTerm(c, f, x, n);
    forall k: nat | k < size
      ensures DirectTerm(h, x, n)(k) == cf(k) + DirectTerm(g, x, n)(k)
      ensures cf(k) == c * DirectTerm(f, x, n)(k)
    {
      LinearTerm(c, f, g, h, x, n, k);
    }
    SumScale(size, c, DirectTerm(f, x, n), cf);
    SumAdd(size, cf, DirectTerm(g, x, n), DirectTerm(h, x, n));
    DirectPadded(f, x, n, size);
    DirectPadded(g, x, n, size);
  }

  function ScaledTerm(c: real, f: seq<real>, x: seq<real>, n: int): nat -> real {
    (k: nat) => c * DirectTerm(f, x, n)(k)
  }

  lemma LinearTerm(c: real, f: seq<real>, g: seq<real>, h: seq<real>, x: seq<real>, n: int, k: nat)
    requires At(h, k) == c * At(f, k) + At(g, k)
    ensures ScaledTerm(c, f, x, n)(k) == c * DirectTerm(f, x, n)(k)
    ensures DirectTerm(h, x, n)(k) == ScaledTerm(c, f, x, n)(k) + DirectTerm(g, x, n)(k)
  {
    hide At;
    Spread(c, At(f, k), At(g, k), At(x, n - k));
  }

  lemma Spread(c: real, f: real, g: real, y: real)
    ensures (c * f + g) * y == c * (f * y) + g * y
  {
  }

  lemma DirectScaled(c: real, h: seq<real>, x: seq<real>, n: int)
    ensures Direct(Scaled(c, h), x, n) == c * Direct(h, x, n)
  {
    DirectLinear(c, h, [], Scaled(c, h), x, n);
  }

  lemma {:induction false} DirectDelayed(h: seq<real>, delay: nat, x: seq<real>, n: int)
    ensures Direct(Delayed(h, delay), x, n) == Direct(h, x, n - delay)
  {
    if delay == 0 {
      assert Delayed(h, 0) == h;
    } else {
      DirectHead(Delayed(h, delay), x, n);
      assert Delayed(h, delay)[1..] == Delayed(h, delay - 1);
      DirectDelayed(h, delay - 1, x, n - 1);
    }
  }

  /** The taps of a product: those of the first tap alone plus, one later, those of the rest. */
  lemma ProductHead(a: seq<real>, b: seq<real>, k: nat)
    requires a != [] && b != [] && k < |a| + |b| - 1
    ensures At(Product(a, b), k) == a[0] * At(b, k) + At(Delayed(Product(a[1..], b), 1), k)
  {
    DirectHead(a, b, k);
    var rest := a[1..];
    if k == 0 {
      DirectBeforeStart(rest, b, k - 1);
    } else if rest != [] {
      assert Product(rest, b)[k - 1] == Direct(rest, b, k - 1);
    }
  }

  /** Filtering by a product of filters is filtering by one and then by the other. */
  lemma {:induction false} ProductIsCascade(a: seq<real>, b: seq<real>, x: seq<real>, n: int)
    requires n < |x|
    ensures Direct(Product(a, b), x, n) == Direct(a, Filtered(b, x), n)
  {
    hide Direct;
    hide DirectTerm;
    if a == [] {
      NoTaps(x, n);
      NoTaps(Filtered(b, x), n);
    } else if b == [] {
      NoTaps(x, n);
      SilentInput(a, x, n);
    } else {
      var rest := a[1..];
      ProductPeeled(a, b, x, n);
      ProductIsCascade(rest, b, x, n - 1);
      DirectHead(a, Filtered(b, x), n);
      if n < 0 { DirectBeforeStart(b, x, n); }
    }
  }

  lemma NoTaps(x: seq<real>, n: int)
    ensures Direct([], x, n) == 0.0
  {
  }

  lemma SilentInput(a: seq<real>, x: seq<real>, n: int)
    ensures Direct(a, Filtered([], x), n) == 0.0
  {
    forall k: nat | k < |a| ensures DirectTerm(a, Filtered([], x), n)(k) == 0.0 {
      ZeroTerm(a, Filtered([], x), n, k);
    }
    SumTruncate(0, |a|, DirectTerm(a, Filtered([], x), n));
  }

  lemma ProductPeeled(a: seq<real>, b: seq<real>, x: seq<real>, n: int)
    requires a != [] && b != []
    ensures Direct(Product(a, b), x, n) == a[0] * Direct(b, x, n) + Direct(Product(a[1..], b), x, n - 1)
  {
    hide Direct;
    var tail := Delayed(Product(a[1..], b), 1);
    forall k: nat | k < |Product(a, b)| ensures At(Product(a, b), k) == a[0] * At(b, k) + At(tail, k) {
      ProductHead(a, b, k);
    }
    DirectLinear(a[0], b, tail, Product(a, b), x, n);
    DirectDelayed(Product(a[1..], b), 1, x, n);
  }

  // ------------------------------------------------------ tap building

  /** The nested accumulation loops that convolve two tap vectors. */
  method Convolve(a: seq<real>, b: seq<real>) returns (out: seq<real>)
    ensures out == Product(a, b)
  {
    if |a| == 0 || |b| == 0 {
      return [];
    }
    out := seq(|a| + |b| - 1, (m: nat) => 0.0);
    for i := 0 to |a|
      invariant |out| == |a| + |b| - 1
      invariant forall m: nat | m < |out| :: out[m] == Sum(i, DirectTerm(a, b, m))
    {
      for j := 0 to |b|
        invariant |out| == |a| + |b| - 1
        invariant forall m: nat | m < |out| ::
          out[m] == Sum(if i <= m < i + j then i + 1 else i, DirectTerm(a, b, m))
      {
        assert DirectTerm(a, b, i + j)(i) == a[i] * b[j];
        out := out[i + j := out[i + j] + a[i] * b[j]];
      }
      forall m: nat | m < |out| ensures out[m] == Sum(i + 1, DirectTerm(a, b, m)) {
        if !(i <= m < i + |b|) {
          ZeroTerm(a, b, m, i);
        }
      }
    }
  }

  /** How many zero taps a reported delay becomes: rounded half away from zero, never negative. */
  function IntegerDelay(delay: real): (d: nat)
    ensures delay <= 0.0 ==> d == 0
    ensures delay > 0.0 ==> d as real - 0.5 <= delay < d as real + 0.5
  {
    if delay <= 0.0 then 0 else (delay + 0.5).Floor
  }

  /** Allocates a zeroed vector and copies the taps in behind the delay. */
  method BuildDelayedHrtfFilter(taps: seq<real>, delay: real) returns (delayed: seq<real>)
    ensures delayed == Delayed(taps, IntegerDelay(delay))
  {
    var intDelay := IntegerDelay(delay);
    delayed := seq(|taps| + intDelay, (k: nat) => 0.0);
    for i := 0 to |taps|
      invariant |delayed| == |taps| + intDelay
      invariant forall k | 0 <= k < intDelay :: delayed[k] == 0.0
      invariant forall k | 0 <= k < i :: delayed[intDelay + k] == taps[k]
    {
      delayed := delayed[intDelay + i := taps[i]];
    }
    assert delayed[intDelay..] == taps;
    assert delayed[..intDelay] == seq(intDelay, (k: nat) => 0.0);
  }

  /** The low shelf as the code builds it from low-pass taps: scale all, then add one to the first. */
  method BuildBoostShelf(gain: real, lowpass: seq<real>) returns (taps: seq<real>)
    requires lowpass != []
    ensures taps == Shelf(gain, lowpass)
  {
    taps := lowpass;
    var factor := gain - 1.0;
    for i := 0 to |lowpass|
      invariant |taps| == |lowpass|
      invariant forall k | 0 <= k < i :: taps[k] == Scaled(factor, lowpass)[k]
      invariant forall k | i <= k < |lowpass| :: taps[k] == lowpass[k]
    {
      var tap := taps[i];
      taps := taps[i := tap * factor];
    }
    taps := taps[0 := taps[0] + 1.0];
  }

  function Shelf(gain: real, lowpass: seq<real>): (taps: seq<real>)
    requires lowpass != []
    ensures |taps| == |lowpass|
  {
    var scaled := Scaled(gain - 1.0, lowpass);
    scaled[0 := scaled[0] + 1.0]
  }

  /** The shelf passes the signal itself through and adds the low-passed signal at gain - 1. */
  lemma ShelfResponse(gain: real, lowpass: seq<real>, x: seq<real>, n: int)
    requires lowpass != []
    ensures Direct(Shelf(gain, lowpass), x, n) == At(x, n) + (gain - 1.0) * Direct(lowpass, x, n)
  {
    DirectLinear(gain - 1.0, lowpass, [1.0], Shelf(gain, lowpass), x, n);
    DirectHead([1.0], x, n);
    assert Direct([], x, n - 1) == 0.0;
  }

  /** At gain 1 the shelf is a unit impulse: it passes the signal through unchanged. */
  lemma UnityShelf(lowpass: seq<real>, x: seq<real>, n: int)
    requires lowpass != []
    ensures Direct(Shelf(1.0, lowpass), x, n) == At(x, n)
  {
    var shelf := Shelf(1.0, lowpass);
    forall k: nat | k < |shelf| ensures DirectTerm(shelf, x, n)(k) == DirectTerm([1.0], x, n)(k) {
      NoGain(lowpass[k]);
      assert At(shelf, k) == At([1.0], k);
    }
    SumEqual(|shelf|, DirectTerm(shelf, x, n), DirectTerm([1.0], x, n));
    DirectPadded([1.0], x, n, |shelf|);
    DirectHead([1.0], x, n);
    NoTaps(x, n - 1);
  }

  lemma NoGain(tap: real)
    ensures tap * (1.0 - 1.0) == 0.0
  {
  }
}
