/** One second-order filter section, run sample by sample in Direct Form II Transposed. */
module Biquad {
  import opened Complexes
  import opened Convolution
  import opened EqDesign

  datatype Section = Section(c: Coefficients, z1: real, z2: real)

  function AtRest(c: Coefficients): Section {
    Section(c, 0.0, 0.0)
  }

  /** One sample through a section. */
  function Step(s: Section, x: real): (real, Section) {
    var y := Times(s.c.b0, x) + s.z1;
    (y, Section(s.c, Times(s.c.b1, x) - Times(s.c.a1, y) + s.z2, Times(s.c.b2, x) - Times(s.c.a2, y)))
  }

  class Biquad {
    var coefficients: Coefficients
    var z1: real
    var z2: real

    ghost function State(): Section
      reads this
    {
      Section(coefficients, z1, z2)
    }

    /** A fresh section passes its input through. */
    constructor ()
      ensures State() == AtRest(Coefficients(1.0, 0.0, 0.0, 0.0, 0.0))
    {
      coefficients, z1, z2 := Coefficients(1.0, 0.0, 0.0, 0.0, 0.0), 0.0, 0.0;
    }

    method ProcessSample(x: real) returns (y: real)
      modifies this
      ensures (y, State()) == Step(old(State()), x)
    {
      hide Times;
      y := Times(coefficients.b0, x) + z1;
      z1 := Times(coefficients.b1, x) - Times(coefficients.a1, y) + z2;
      z2 := Times(coefficients.b2, x) - Times(coefficients.a2, y);
    }

    /** Retuning keeps the running state. */
    method SetCoefficients(m: Maths, t: FilterType, frequencyHz: real, gainDb: real, q: real, sampleRate: real)
      requires Sound(m) && sampleRate * 0.49 >= 1.0
      modifies this
      ensures State() == old(State()).(c := Design(m, t, frequencyHz, gainDb, q, sampleRate))
    {
      hide Sound;
      SettingsAreAdmissible(m, frequencyHz, gainDb, q, sampleRate);
      var w := Angle(m, frequencyHz, sampleRate);
      var cosW0 := m.cos(w);
      var alpha := Alpha(m, w, q);
      var A := m.amplitude(gainDb);
      CookbookIsStable(t, cosW0, alpha, A, m.sqrt(A));
      var p := Cookbook(t, cosW0, alpha, A, m.sqrt(A));
      hide Cookbook, Angle, Alpha;
      coefficients := Normalised(p);
    }
  }

  /** A whole stretch of samples, one after the other. */
  function Run(s: Section, x: seq<real>): (r: (seq<real>, Section))
    ensures |r.0| == |x| && r.1.c == s.c
  {
    if x == [] then ([], s)
    else
      var (y, t) := Run(s, x[..|x| - 1]);
      var (last, u) := Step(t, x[|x| - 1]);
      (y + [last], u)
  }

  lemma RunStep(s: Section, x: seq<real>, last: real)
    ensures var (y, t) := Run(s, x); var (z, u) := Step(t, last);
            Run(s, x + [last]) == (y + [z], u)
  {
    assert (x + [last])[..|x|] == x;
  }

  /** Cutting a stretch in two changes nothing. */
  lemma {:induction false} RunInPieces(s: Section, x: seq<real>, more: seq<real>)
    ensures var (y, t) := Run(s, x); var (z, u) := Run(t, more);
            Run(s, x + more) == (y + z, u)
  {
    hide Step;
    if more == [] {
      assert x + more == x;
      assert Run(s, x).0 + [] == Run(s, x).0;
    } else {
      var init, last := more[..|more| - 1], more[|more| - 1];
      RunInPieces(s, x, init);
      assert x + more == (x + init) + [last];
      RunStep(s, x + init, last);
      var (y, t) := Run(s, x);
      var (z, u) := Run(t, init);
      assert (y + z) + [Step(u, last).0] == y + (z + [Step(u, last).0]);
    }
  }

  // ------------------------------------------------------ the difference equation

  function Combine(c: Coefficients, x0: real, x1: real, x2: real, y1: real, y2: real): real {
    Times(c.b0, x0) + Times(c.b1, x1) + Times(c.b2, x2) - Times(c.a1, y1) - Times(c.a2, y2)
  }

  /** `y` answers `x` by the section's difference equation. */
  ghost predicate Solves(c: Coefficients, x: seq<real>, y: seq<real>) {
    && |y| == |x|
    && (forall n | 0 <= n < |x| :: y[n] == Combine(c, x[n], At(x, n - 1), At(x, n - 2), At(y, n - 1), At(y, n - 2)))
  }

  /** The two delay registers as the last two samples in and out leave them. */
  function Registers(c: Coefficients, x1: real, x2: real, y1: real, y2: real): Section {
    Section(c, Times(c.b1, x1) - Times(c.a1, y1) + (Times(c.b2, x2) - Times(c.a2, y2)), Times(c.b2, x1) - Times(c.a2, y1))
  }

  lemma StepCombines(c: Coefficients, x0: real, x1: real, x2: real, y1: real, y2: real)
    ensures var y0 := Combine(c, x0, x1, x2, y1, y2);
            Step(Registers(c, x1, x2, y1, y2), x0) == (y0, Registers(c, x0, x1, y0, y1))
  {
    hide Times;
  }

  lemma RegistersAtRest(c: Coefficients)
    ensures Registers(c, 0.0, 0.0, 0.0, 0.0) == AtRest(c)
  {
  }

  lemma {:induction false} RunSolves(c: Coefficients, x: seq<real>)
    ensures var (y, t) := Run(AtRest(c), x);
            && Solves(c, x, y)
            && t == Registers(c, At(x, |x| - 1), At(x, |x| - 2), At(y, |x| - 1), At(y, |x| - 2))
  {
    hide Step, Combine, Registers;
    if x == [] {
      RegistersAtRest(c);
    } else {
      var init, last := x[..|x| - 1], x[|x| - 1];
      assert x == init + [last];
      hide Run;
      RunSolves(c, init);
      var y := Run(AtRest(c), init).0;
      StepCombines(c, last, At(init, |init| - 1), At(init, |init| - 2), At(y, |init| - 1), At(y, |init| - 2));
      RunStep(AtRest(c), init, last);
      SolvesStep(c, init, y, last);
    }
  }

  /** A solution goes on with the sample the equation asks for. */
  lemma SolvesStep(c: Coefficients, x: seq<real>, y: seq<real>, last: real)
    requires Solves(c, x, y)
    ensures var n := |x|; var next := Combine(c, last, At(x, n - 1), At(x, n - 2), At(y, n - 1), At(y, n - 2));
            && Solves(c, x + [last], y + [next])
            && At(x + [last], n) == last && At(x + [last], n - 1) == At(x, n - 1)
            && At(y + [next], n) == next && At(y + [next], n - 1) == At(y, n - 1)
  {
    hide Combine;
    var n := |x|;
    var next := Combine(c, last, At(x, n - 1), At(x, n - 2), At(y, n - 1), At(y, n - 2));
    var u, v := x + [last], y + [next];
    forall k | 0 <= k < |u|
      ensures v[k] == Combine(c, u[k], At(u, k - 1), At(u, k - 2), At(v, k - 1), At(v, k - 2))
    {
      assert At(u, k - 1) == At(x, k - 1) && At(u, k - 2) == At(x, k - 2);
      assert At(v, k - 1) == At(y, k - 1) && At(v, k - 2) == At(y, k - 2);
    }
  }

  /** From rest, what a section puts out is the one signal that solves its difference equation, for
      every input. */
  lemma {:induction false} RunIsTheSolution(c: Coefficients, x: seq<real>, y: seq<real>)
    ensures Solves(c, x, y) <==> y == Run(AtRest(c), x).0
  {
    RunSolves(c, x);
    if Solves(c, x, y) {
      SolutionIsUnique(c, x, y, Run(AtRest(c), x).0);
    }
  }

  lemma {:induction false} SolutionIsUnique(c: Coefficients, x: seq<real>, y: seq<real>, z: seq<real>)
    requires Solves(c, x, y) && Solves(c, x, z)
    ensures y == z
  {
    hide Combine;
    for n := 0 to |x|
      invariant forall k | 0 <= k < n :: y[k] == z[k]
    {
      assert At(y, n - 1) == At(z, n - 1) && At(y, n - 2) == At(z, n - 2);
    }
  }

  // ------------------------------------------------------ the flat band

  /** Numerator and denominator agree. */
  predicate Flat(c: Coefficients) {
    c.b0 == 1.0 && c.b1 == c.a1 && c.b2 == c.a2
  }

  lemma FlatStep(c: Coefficients, x: real)
    requires Flat(c)
    ensures Step(AtRest(c), x) == (x, AtRest(c))
  {
    assert Times(1.0, x) == x;
  }

  lemma {:induction false} FlatIsIdentity(c: Coefficients, x: seq<real>)
    requires Flat(c)
    ensures Run(AtRest(c), x) == (x, AtRest(c))
  {
    hide Step;
    if x != [] {
      FlatIsIdentity(c, x[..|x| - 1]);
      FlatStep(c, x[|x| - 1]);
      assert x[..|x| - 1] + [x[|x| - 1]] == x;
    }
  }

  lemma AmplitudeFromGain(alpha: real, A: real)
    requires alpha > 0.0 && A > 0.0
    ensures alpha * A == alpha / A <==> A == 1.0
  {
    var q := alpha / A;
    assert q * A == alpha;
    assert alpha * A - q == q * (A * A - 1.0);
    Quotient(alpha, A);
    if A > 1.0 {
      TimesPositive(A - 1.0, A + 1.0);
      TimesPositive(q, A * A - 1.0);
    } else if A < 1.0 {
      TimesPositive(1.0 - A, A + 1.0);
      TimesPositive(q, 1.0 - A * A);
    }
  }

  lemma NormalisedFlatIff(p: Prototype)
    requires p.a0 != 0.0 && p.b1 == p.a1 && (p.b0 == p.a0 ==> p.b2 == p.a2)
    ensures Normalised(p).b0 == 1.0 <==> p.b0 == p.a0
    ensures p.b0 == p.a0 ==> Flat(Normalised(p))
  {
    assert p.a0 / p.a0 == 1.0;
    assert Normalised(p).b0 * p.a0 == p.b0;
  }

  lemma PeakingFlatIff(m: Maths, frequency: real, gainDb: real, q: real, sampleRate: real)
    requires Sound(m) && sampleRate * 0.49 >= 1.0
    ensures var c := Design(m, Peaking, frequency, gainDb, q, sampleRate);
            (c.b0 == 1.0 <==> gainDb == 0.0) && (gainDb == 0.0 ==> Flat(c))
  {
    hide Angle, Alpha, Normalised;
    SettingsAreAdmissible(m, frequency, gainDb, q, sampleRate);
    var w := Angle(m, frequency, sampleRate);
    var alpha, A := Alpha(m, w, q), m.amplitude(gainDb);
    CookbookIsStable(Peaking, m.cos(w), alpha, A, m.sqrt(A));
    AmplitudeFromGain(alpha, A);
    NormalisedFlatIff(Cookbook(Peaking, m.cos(w), alpha, A, m.sqrt(A)));
  }

  /** A peaking band started at rest is the exact identity on every input if and only if its gain is
      zero decibels. */
  lemma PeakingIsIdentityIff(m: Maths, frequency: real, gainDb: real, q: real, sampleRate: real)
    requires Sound(m) && sampleRate * 0.49 >= 1.0
    ensures var c := Design(m, Peaking, frequency, gainDb, q, sampleRate);
            (forall x :: Run(AtRest(c), x).0 == x) <==> gainDb == 0.0
  {
    hide Design, Sound;
    PeakingFlatIff(m, frequency, gainDb, q, sampleRate);
    var c := Design(m, Peaking, frequency, gainDb, q, sampleRate);
    if gainDb == 0.0 {
      forall x ensures Run(AtRest(c), x).0 == x { FlatIsIdentity(c, x); }
    } else {
      var impulse := [1.0];
      assert Run(AtRest(c), impulse[..0]) == ([], AtRest(c));
      assert Run(AtRest(c), impulse).0 == [c.b0];
    }
  }
}
