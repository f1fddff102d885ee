/** Convolution commutes, and a voice's combined taps are a chain of simple processors. */
module FilterCascade {
  import opened RealSums
  import opened Convolution

  /** The output is linear in the input. */
  lemma DirectLinearInput(c: real, h: seq<real>, u: seq<real>, v: seq<real>, y: seq<real>, n: int)
    requires forall i: int :: At(y, i) == c * At(u, i) + At(v, i)
    ensures Direct(h, y, n) == c * Direct(h, u, n) + Direct(h, v, n)
  {
    hide At;
    hide DirectTerm;
    hide ScaledTerm;
    var cu := ScaledTerm(c, h, u, n);
    forall k: nat | k < |h|
      ensures cu(k) == c * DirectTerm(h, u, n)(k)
      ensures DirectTerm(h, y, n)(k) == cu(k) + DirectTerm(h, v, n)(k)
    {
      LinearInputTerm(c, h, u, v, y, n, k);
    }
    SumScale(|h|, c, DirectTerm(h, u, n), cu);
    SumAdd(|h|, cu, DirectTerm(h, v, n), DirectTerm(h, y, n));
  }

  lemma LinearInputTerm(c: real, h: seq<real>, u: seq<real>, v: seq<real>, y: seq<real>, n: int, k: nat)
    requires At(y, n - k) == c * At(u, n - k) + At(v, n - k)
    ensures ScaledTerm(c, h, u, n)(k) == c * DirectTerm(h, u, n)(k)
    ensures DirectTerm(h, y, n)(k) == ScaledTerm(c, h, u, n)(k) + DirectTerm(h, v, n)(k)
  {
    hide At;
    SpreadRight(At(h, k), c, At(u, n - k), At(v, n - k));
  }

  lemma SpreadRight(h: real, c: real, u: real, v: real)
    ensures h * (c * u + v) == c * (h * u) + h * v
  {
  }

  /** Filtering a unit impulse gives the taps back. */
  lemma {:induction false} ImpulseResponse(b: seq<real>, n: int)
    ensures Direct(b, [1.0], n) == At(b, n)
  {
    if b != [] {
      DirectHead(b, [1.0], n);
      ImpulseResponse(b[1..], n - 1);
    }
  }

  lemma DelayedInput(b: seq<real>, v: seq<real>, n: int)
    ensures Direct(b, Delayed(v, 1), n) == Direct(b, v, n - 1)
  {
    forall k: nat | k < |b| ensures DirectTerm(b, Delayed(v, 1), n)(k) == DirectTerm(b, v, n - 1)(k) {
      assert At(Delayed(v, 1), n - k) == At(v, n - 1 - k);
    }
    SumEqual(|b|, DirectTerm(b, Delayed(v, 1), n), DirectTerm(b, v, n - 1));
  }

  lemma {:induction false} DirectCommutes(a: seq<real>, b: seq<real>, n: int)
    ensures Direct(a, b, n) == Direct(b, a, n)
  {
    hide Direct;
    if a == [] {
      NoTaps(b, n);
      NothingIn(b, n);
    } else {
      var rest := a[1..];
      DirectHead(a, b, n);
      DirectCommutes(rest, b, n - 1);
      forall i: int ensures At(a, i) == a[0] * At([1.0], i) + At(Delayed(rest, 1), i) {
        HeadSignal(a, i);
      }
      DirectLinearInput(a[0], b, [1.0], Delayed(rest, 1), a, n);
      ImpulseResponse(b, n);
      DelayedInput(b, rest, n);
    }
  }

  lemma HeadSignal(a: seq<real>, i: int)
    requires a != []
    ensures At(a, i) == a[0] * At([1.0], i) + At(Delayed(a[1..], 1), i)
  {
    if i != 0 { assert At([1.0], i) == 0.0; }
  }

  lemma NothingIn(b: seq<real>, n: int)
    ensures Direct(b, [], n) == 0.0
  {
    forall k: nat | k < |b| ensures DirectTerm(b, [], n)(k) == 0.0 {
      ZeroTerm(b, [], n, k);
    }
    SumTruncate(0, |b|, DirectTerm(b, [], n));
  }

  lemma ProductCommutes(a: seq<real>, b: seq<real>)
    ensures Product(a, b) == Product(b, a)
  {
    hide Direct;
    forall m: nat | m < |Product(a, b)| ensures Product(a, b)[m] == Product(b, a)[m] {
      DirectCommutes(a, b, m);
    }
  }

  // ------------------------------------------------------ voices

  /** The stream `y`, `delay` samples late. */
  function Late(y: seq<real>, delay: nat): (r: seq<real>)
    ensures |r| == |y|
  {
    seq(|y|, (n: nat) => At(y, n - delay))
  }

  /** The taps one ear of a voice is loaded with. */
  function VoiceTaps(far: seq<real>, gain: real, shelf: seq<real>, delay: nat): seq<real> {
    Delayed(Product(Scaled(gain, far), shelf), delay)
  }

  /** Scaling the taps is scaling the input. */
  lemma ScaledInput(c: real, h: seq<real>, x: seq<real>)
    ensures Filtered(Scaled(c, h), x) == Filtered(h, Scaled(c, x))
  {
    hide Direct;
    forall n: nat | n < |x| ensures Filtered(Scaled(c, h), x)[n] == Filtered(h, Scaled(c, x))[n] {
      DirectScaled(c, h, x, n);
      ScaledSignal(c, x);
      DirectLinearInput(c, h, x, [], Scaled(c, x), n);
      NothingIn(h, n);
    }
  }

  lemma ScaledSignal(c: real, x: seq<real>)
    ensures forall i: int :: At(Scaled(c, x), i) == c * At(x, i) + At([], i)
  {
  }

  /** A voice renders what scaling, far-field filtering, near-field filtering and an integer
      delay, applied in turn, would render. */
  lemma VoiceIsCascade(far: seq<real>, gain: real, shelf: seq<real>, delay: nat, x: seq<real>)
    ensures Filtered(VoiceTaps(far, gain, shelf, delay), x)
         == Late(Filtered(shelf, Filtered(far, Scaled(gain, x))), delay)
  {
    hide Direct;
    var scaled := Scaled(gain, far);
    var inner := Filtered(scaled, x);
    ScaledInput(gain, far, x);
    forall n: nat | n < |x|
      ensures Filtered(VoiceTaps(far, gain, shelf, delay), x)[n] == Late(Filtered(shelf, inner), delay)[n]
    {
      DirectDelayed(Product(scaled, shelf), delay, x, n);
      ProductCommutes(scaled, shelf);
      ProductIsCascade(shelf, scaled, x, n - delay);
      var y := Filtered(shelf, inner);
      assert Late(y, delay)[n] == At(y, n - delay);
      if n < delay {
        DirectBeforeStart(shelf, inner, n - delay);
      } else {
        assert At(y, n - delay) == y[n - delay] == Direct(shelf, inner, n - delay);
      }
    }
  }
}
