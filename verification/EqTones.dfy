/** What a running band does to a tone: once its input is a tone the band is made for, its output is
    the asked gain times the input, apart from its own dying oscillation. */
module EqTones {
  import opened Complexes
  import opened Convolution
  import opened EqDesign
  import opened Biquad

  /** A tone whose cosine per sample is `c`, from the first sample on. */
  ghost predicate Tone(x: seq<real>, c: real) {
    forall n | 2 <= n < |x| :: ToneAt(x, c, n)
  }

  predicate ToneAt(x: seq<real>, c: real, n: nat)
    requires 2 <= n < |x|
  {
    x[n] == 2.0 * Times(c, x[n - 1]) - x[n - 2]
  }

  /** Feeding back its own last two values through a section's denominator, from the third on: the
      section's free oscillation, which dies out because the section is stable. */
  ghost predicate Rings(c: Coefficients, e: seq<real>) {
    forall n | 2 <= n < |e| :: RingsAt(c, e, n)
  }

  predicate RingsAt(c: Coefficients, e: seq<real>, n: nat)
    requires 2 <= n < |e|
  {
    e[n] == -Times(c.a1, e[n - 1]) - Times(c.a2, e[n - 2])
  }

  /** The output less `g` times the input. */
  function Excess(y: seq<real>, x: seq<real>, g: real): (e: seq<real>)
    requires |y| == |x|
    ensures |e| == |x|
  {
    seq(|x|, n requires 0 <= n < |x| => y[n] - Times(g, x[n]))
  }

  /** On three samples in a row, the section's numerator is `g` times its denominator. */
  predicate ScaledAt(d: Coefficients, g: real, x0: real, x1: real, x2: real) {
    Times(d.b0, x0) + Times(d.b1, x1) + Times(d.b2, x2)
    == Times(g, x0) + Times(g, Times(d.a1, x1)) + Times(g, Times(d.a2, x2))
  }

  predicate ScaledFrom(d: Coefficients, g: real, x: seq<real>, n: nat)
    requires 2 <= n < |x|
  {
    ScaledAt(d, g, x[n], x[n - 1], x[n - 2])
  }

  lemma FeedbackSplits(a: real, y: real, g: real, x: real)
    ensures Times(a, y - Times(g, x)) == Times(a, y) - Times(g, Times(a, x))
  {
  }

  lemma ExcessStep(d: Coefficients, g: real, x0: real, x1: real, x2: real, y1: real, y2: real)
    requires ScaledAt(d, g, x0, x1, x2)
    ensures Combine(d, x0, x1, x2, y1, y2) - Times(g, x0)
         == -Times(d.a1, y1 - Times(g, x1)) - Times(d.a2, y2 - Times(g, x2))
  {
    FeedbackSplits(d.a1, y1, g, x1);
    FeedbackSplits(d.a2, y2, g, x2);
    hide Times;
  }

  lemma ExcessRings(d: Coefficients, g: real, x: seq<real>, y: seq<real>, n: nat)
    requires 2 <= n < |x| && Solves(d, x, y) && ScaledFrom(d, g, x, n)
    ensures RingsAt(d, Excess(y, x, g), n)
  {
    hide Combine, ScaledAt, Times;
    assert y[n] == Combine(d, x[n], At(x, n - 1), At(x, n - 2), At(y, n - 1), At(y, n - 2));
    ExcessStep(d, g, x[n], x[n - 1], x[n - 2], y[n - 1], y[n - 2]);
  }

  /** A section that scales its input by `g` puts out `g` times the input and its own free oscillation. */
  lemma InputIsScaled(d: Coefficients, g: real, x: seq<real>)
    requires forall n | 2 <= n < |x| :: ScaledFrom(d, g, x, n)
    ensures Rings(d, Excess(Run(AtRest(d), x).0, x, g))
  {
    hide ScaledFrom, Run, AtRest, Solves, RingsAt, Excess;
    var y := Run(AtRest(d), x).0;
    RunIsTheSolution(d, x, y);
    forall n | 2 <= n < |x| ensures RingsAt(d, Excess(y, x, g), n) {
      ExcessRings(d, g, x, y, n);
    }
  }

  // ------------------------------------------------------ tones

  /** For the tone of cosine `c`, the section's numerator is `g` times its denominator. */
  predicate Scales(d: Coefficients, c: real, g: real) {
    && d.b0 * (2.0 * c) + d.b1 == g * (2.0 * c + d.a1)
    && d.b2 - d.b0 == g * (d.a2 - 1.0)
  }

  lemma ToneThrough(d: Coefficients, c: real, g: real, x1: real, x2: real)
    requires Scales(d, c, g)
    ensures ScaledAt(d, g, 2.0 * Times(c, x1) - x2, x1, x2)
  {
    assert d.b0 * (2.0 * (c * x1) - x2) + d.b1 * x1 + d.b2 * x2
        == (d.b0 * (2.0 * c) + d.b1) * x1 + (d.b2 - d.b0) * x2;
    assert g * (2.0 * (c * x1) - x2) + g * (d.a1 * x1) + g * (d.a2 * x2)
        == (g * (2.0 * c + d.a1)) * x1 + (g * (d.a2 - 1.0)) * x2;
  }

  lemma ToneIsScaled(d: Coefficients, c: real, g: real, x: seq<real>)
    requires Scales(d, c, g) && Tone(x, c)
    ensures Rings(d, Excess(Run(AtRest(d), x).0, x, g))
  {
    hide Scales, ScaledAt, Run, AtRest, Times, Rings;
    forall n | 2 <= n < |x| ensures ScaledFrom(d, g, x, n) {
      assert ToneAt(x, c, n);
      ToneThrough(d, c, g, x[n - 1], x[n - 2]);
    }
    InputIsScaled(d, g, x);
  }

  // ------------------------------------------------------ the designs

  /** The same for coefficients before normalisation. */
  predicate ScalesUnnormalised(p: Prototype, c: real, g: real) {
    && p.b0 * (2.0 * c) + p.b1 == g * (p.a0 * (2.0 * c) + p.a1)
    && p.b2 - p.b0 == g * (p.a2 - p.a0)
  }

  lemma NormalisedScales(p: Prototype, c: real, g: real)
    requires p.a0 != 0.0 && ScalesUnnormalised(p, c, g)
    ensures Scales(Normalised(p), c, g)
  {
    var i := 1.0 / p.a0;
    Inverted(p.b0, p.a0, i);
    Inverted(p.b1, p.a0, i);
    Inverted(p.b2, p.a0, i);
    Inverted(p.a1, p.a0, i);
    Inverted(p.a2, p.a0, i);
    Inverted(p.a0, p.a0, i);
    assert i * (p.b0 * (2.0 * c) + p.b1) == i * (g * (p.a0 * (2.0 * c) + p.a1));
    assert i * (p.b2 - p.b0) == i * (g * (p.a2 - p.a0));
    assert p.a0 * i == 1.0;
    GatherOne(i, p.b0, p.b1, c);
    GatherOne(i, p.a0, p.a1, c);
  }

  lemma Inverted(x: real, a: real, i: real)
    requires a != 0.0 && i == 1.0 / a
    ensures x / a == x * i
  {
    assert i * a == 1.0;
    var q := x / a;
    assert q * a == x;
    assert q * a * i == x * i;
  }

  lemma GatherOne(i: real, b: real, d: real, c: real)
    ensures i * (b * (2.0 * c) + d) == (b * i) * (2.0 * c) + d * i
  {
  }

  lemma PeakScales(c: real, alpha: real, A: real, rootA: real)
    requires A > 0.0
    ensures ScalesUnnormalised(Cookbook(Peaking, c, alpha, A, rootA), c, Times(A, A))
  {
    var q := alpha / A;
    assert q * A == alpha;
    assert (A * A) * (2.0 * c * q) == 2.0 * c * (alpha * A);
    assert (A * A) * (-2.0 * q) == -2.0 * (alpha * A);
    assert (1.0 + alpha * A) * (2.0 * c) + -2.0 * c == 2.0 * c * (alpha * A);
    assert (1.0 + q) * (2.0 * c) + -2.0 * c == 2.0 * c * q;
  }

  /** A tone at the centre of a peaking band comes out at exactly the asked gain: the amplitude, ten to
      the fortieth part of the decibels, squared. */
  lemma PeakGivesTheAskedGain(m: Maths, frequency: real, gainDb: real, q: real, sampleRate: real, x: seq<real>)
    requires Sound(m) && sampleRate * 0.49 >= 1.0
    ensures var d := Design(m, Peaking, frequency, gainDb, q, sampleRate);
            var A := m.amplitude(gainDb);
            Tone(x, m.cos(Angle(m, frequency, sampleRate))) ==> Rings(d, Excess(Run(AtRest(d), x).0, x, Times(A, A)))
  {
    hide Angle, Alpha, Run, AtRest, Tone, Rings, Excess, Scales, Normalised, ScalesUnnormalised;
    SettingsAreAdmissible(m, frequency, gainDb, q, sampleRate);
    var w := Angle(m, frequency, sampleRate);
    var c, alpha, A := m.cos(w), Alpha(m, w, q), m.amplitude(gainDb);
    hide Sound;
    CookbookIsStable(Peaking, c, alpha, A, m.sqrt(A));
    PeakScales(c, alpha, A, m.sqrt(A));
    NormalisedScales(Cookbook(Peaking, c, alpha, A, m.sqrt(A)), c, Times(A, A));
    if Tone(x, c) {
      ToneIsScaled(Design(m, Peaking, frequency, gainDb, q, sampleRate), c, Times(A, A), x);
    }
  }

  lemma NotchScales(c: real, alpha: real, A: real, rootA: real)
    requires A > 0.0
    ensures ScalesUnnormalised(Cookbook(Notch, c, alpha, A, rootA), c, 0.0)
  {
  }

  /** A notch removes the tone at its centre: nothing but its own dying oscillation comes out. */
  lemma NotchRemovesTheTone(m: Maths, frequency: real, gainDb: real, q: real, sampleRate: real, x: seq<real>)
    requires Sound(m) && sampleRate * 0.49 >= 1.0
    ensures var d := Design(m, Notch, frequency, gainDb, q, sampleRate);
            Tone(x, m.cos(Angle(m, frequency, sampleRate))) ==> Rings(d, Run(AtRest(d), x).0)
  {
    hide Angle, Alpha, Run, AtRest, Tone, Rings, Scales, Normalised, ScalesUnnormalised;
    SettingsAreAdmissible(m, frequency, gainDb, q, sampleRate);
    var w := Angle(m, frequency, sampleRate);
    var c, alpha, A := m.cos(w), Alpha(m, w, q), m.amplitude(gainDb);
    hide Sound;
    CookbookIsStable(Notch, c, alpha, A, m.sqrt(A));
    NotchScales(c, alpha, A, m.sqrt(A));
    NormalisedScales(Cookbook(Notch, c, alpha, A, m.sqrt(A)), c, 0.0);
    if Tone(x, c) {
      var d := Design(m, Notch, frequency, gainDb, q, sampleRate);
      ToneIsScaled(d, c, 0.0, x);
      NoExcess(Run(AtRest(d), x).0, x);
    }
  }

  lemma NoExcess(y: seq<real>, x: seq<real>)
    requires |y| == |x|
    ensures Excess(y, x, 0.0) == y
  {
  }

  // ------------------------------------------------------ the ends of the spectrum

  /** A constant signal, or one that changes sign with every sample. */
  ghost predicate EndTone(x: seq<real>, fastest: bool) {
    forall n | 1 <= n < |x| :: EndToneAt(x, fastest, n)
  }

  predicate EndToneAt(x: seq<real>, fastest: bool, n: nat)
    requires 1 <= n < |x|
  {
    x[n] == if fastest then -x[n - 1] else x[n - 1]
  }

  /** The same over the normalised coefficients. */
  lemma NormalisedEnds(p: Prototype, g: real, fastest: bool)
    requires p.a0 != 0.0 && NumeratorAtEnd(p, fastest) == Times(g, DenominatorAtEnd(p, fastest))
    ensures var d := Normalised(p);
            if fastest then d.b0 - d.b1 + d.b2 == Times(g, 1.0 - d.a1 + d.a2) else d.b0 + d.b1 + d.b2 == Times(g, 1.0 + d.a1 + d.a2)
  {
    var i := 1.0 / p.a0;
    Inverted(p.b0, p.a0, i);
    Inverted(p.b1, p.a0, i);
    Inverted(p.b2, p.a0, i);
    Inverted(p.a1, p.a0, i);
    Inverted(p.a2, p.a0, i);
    Inverted(p.a0, p.a0, i);
    assert p.a0 * i == 1.0;
    assert NumeratorAtEnd(p, fastest) * i == Times(g, DenominatorAtEnd(p, fastest) * i);
    if fastest {
      SumTimes(p.b0, -p.b1, p.b2, i);
      SumTimes(p.a0, -p.a1, p.a2, i);
    } else {
      SumTimes(p.b0, p.b1, p.b2, i);
      SumTimes(p.a0, p.a1, p.a2, i);
    }
    hide Times;
  }

  lemma SumTimes(a: real, b: real, c: real, i: real)
    ensures (a + b + c) * i == a * i + b * i + c * i && -b * i == -(b * i)
  {
  }

  lemma GainOfSum(g: real, a1: real, a2: real, x: real)
    ensures Times(Times(g, 1.0 + a1 + a2), x) == Times(g, x) + Times(g, Times(a1, x)) + Times(g, Times(a2, x))
  {
  }

  lemma SumOver(a: real, b: real, c: real, x: real)
    ensures Times(a + b + c, x) == Times(a, x) + Times(b, x) + Times(c, x)
  {
  }

  lemma EndThrough(d: Coefficients, g: real, fastest: bool, x2: real)
    requires if fastest then d.b0 - d.b1 + d.b2 == Times(g, 1.0 - d.a1 + d.a2) else d.b0 + d.b1 + d.b2 == Times(g, 1.0 + d.a1 + d.a2)
    ensures ScaledAt(d, g, x2, if fastest then -x2 else x2, x2)
  {
    hide Times;
    if fastest {
      SumOver(d.b0, -d.b1, d.b2, x2);
      GainOfSum(g, -d.a1, d.a2, x2);
      TimesNegative(d.b1, x2);
      TimesNegative(d.a1, x2);
    } else {
      SumOver(d.b0, d.b1, d.b2, x2);
      GainOfSum(g, d.a1, d.a2, x2);
    }
  }

  lemma EndIsScaled(p: Prototype, g: real, fastest: bool, x: seq<real>)
    requires p.a0 != 0.0 && NumeratorAtEnd(p, fastest) == Times(g, DenominatorAtEnd(p, fastest))
    requires EndTone(x, fastest)
    ensures Rings(Normalised(p), Excess(Run(AtRest(Normalised(p)), x).0, x, g))
  {
    NormalisedEnds(p, g, fastest);
    hide ScaledAt, Run, AtRest, Times, Rings, Normalised, NumeratorAtEnd, DenominatorAtEnd;
    forall n | 2 <= n < |x| ensures ScaledFrom(Normalised(p), g, x, n) {
      assert EndToneAt(x, fastest, n) && EndToneAt(x, fastest, n - 1);
      EndThrough(Normalised(p), g, fastest, x[n - 2]);
    }
    InputIsScaled(Normalised(p), g, x);
  }

  /** A constant signal, and one that changes sign with every sample, come out at the gain each type
      stands for: one, none, or for a shelf's own end exactly the asked gain. */
  lemma EndsGetTheirGain(m: Maths, t: FilterType, frequency: real, gainDb: real, q: real, sampleRate: real,
                         fastest: bool, x: seq<real>)
    requires Sound(m) && sampleRate * 0.49 >= 1.0
    ensures var d := Design(m, t, frequency, gainDb, q, sampleRate);
            EndTone(x, fastest) ==>
              Rings(d, Excess(Run(AtRest(d), x).0, x, EndGain(t, m.amplitude(gainDb), fastest)))
  {
    hide Angle, Alpha, Run, AtRest, EndTone, Rings, Excess, Normalised, EndGain, NumeratorAtEnd, DenominatorAtEnd;
    SettingsAreAdmissible(m, frequency, gainDb, q, sampleRate);
    var w := Angle(m, frequency, sampleRate);
    var c, alpha, A := m.cos(w), Alpha(m, w, q), m.amplitude(gainDb);
    hide Sound;
    CookbookIsStable(t, c, alpha, A, m.sqrt(A));
    ResponseAtEnds(t, c, alpha, A, m.sqrt(A), fastest);
    hide Cookbook;
    if EndTone(x, fastest) {
      EndIsScaled(Cookbook(t, c, alpha, A, m.sqrt(A)), EndGain(t, A, fastest), fastest, x);
    }
  }
}
