/** The coefficients of one equaliser band, after the W3C Audio EQ Cookbook. Trigonometry, root and
    power come in as functions with the few properties the design rests on. */
module EqDesign {
  import opened Complexes

  datatype FilterType = Peaking | LowShelf | HighShelf | LowPass | HighPass | Notch

  /** Coefficients already divided by a0. */
  datatype Coefficients = Coefficients(b0: real, b1: real, b2: real, a1: real, a2: real)

  datatype Prototype = Prototype(b0: real, b1: real, b2: real, a0: real, a1: real, a2: real)

  /** `amplitude` turns a gain in decibels into ten to its fortieth part. */
  datatype Maths = Maths(pi: real, cos: real -> real, sin: real -> real, sqrt: real -> real, amplitude: real -> real)

  ghost predicate Sound(m: Maths) {
    && m.pi > 0.0
    && (forall w | 0.0 < w < m.pi :: m.sin(w) > 0.0 && -1.0 < m.cos(w) < 1.0)
    && (forall w :: Times(m.cos(w), m.cos(w)) + Times(m.sin(w), m.sin(w)) == 1.0)
    && (forall x | x > 0.0 :: m.sqrt(x) > 0.0 && Times(m.sqrt(x), m.sqrt(x)) == x)
    && (forall g :: m.amplitude(g) > 0.0 && (m.amplitude(g) == 1.0 <==> g == 0.0))
    && (forall g :: Times(m.amplitude(g), m.amplitude(-g)) == 1.0)
  }

  function Clamp(x: real, lo: real, hi: real): (r: real)
    requires lo <= hi
    ensures lo <= r <= hi
  {
    if x < lo then lo else if hi < x then hi else x
  }

  function Max(a: real, b: real): real {
    if a < b then b else a
  }

  /** The centre frequency as an angle, kept away from both ends of the half circle. */
  function Angle(m: Maths, frequency: real, sampleRate: real): real
    requires sampleRate * 0.49 >= 1.0
  {
    2.0 * m.pi * Clamp(frequency, 1.0, sampleRate * 0.49) / sampleRate
  }

  function Alpha(m: Maths, w: real, q: real): real {
    m.sin(w) / (2.0 * Max(q, 0.05))
  }

  function Cookbook(t: FilterType, c: real, alpha: real, A: real, rootA: real): Prototype
    requires A > 0.0
  {
    match t
    case Peaking =>
      Prototype(1.0 + alpha * A, -2.0 * c, 1.0 - alpha * A, 1.0 + alpha / A, -2.0 * c, 1.0 - alpha / A)
    case LowShelf =>
      var s := 2.0 * rootA * alpha;
      Prototype(A * ((A + 1.0) - (A - 1.0) * c + s), 2.0 * A * ((A - 1.0) - (A + 1.0) * c),
                A * ((A + 1.0) - (A - 1.0) * c - s), (A + 1.0) + (A - 1.0) * c + s,
                -2.0 * ((A - 1.0) + (A + 1.0) * c), (A + 1.0) + (A - 1.0) * c - s)
    case HighShelf =>
      var s := 2.0 * rootA * alpha;
      Prototype(A * ((A + 1.0) + (A - 1.0) * c + s), -2.0 * A * ((A - 1.0) + (A + 1.0) * c),
                A * ((A + 1.0) + (A - 1.0) * c - s), (A + 1.0) - (A - 1.0) * c + s,
                2.0 * ((A - 1.0) - (A + 1.0) * c), (A + 1.0) - (A - 1.0) * c - s)
    case LowPass =>
      Prototype((1.0 - c) / 2.0, 1.0 - c, (1.0 - c) / 2.0, 1.0 + alpha, -2.0 * c, 1.0 - alpha)
    case HighPass =>
      Prototype((1.0 + c) / 2.0, -(1.0 + c), (1.0 + c) / 2.0, 1.0 + alpha, -2.0 * c, 1.0 - alpha)
    case Notch =>
      Prototype(1.0, -2.0 * c, 1.0, 1.0 + alpha, -2.0 * c, 1.0 - alpha)
  }

  function Normalised(p: Prototype): Coefficients
    requires p.a0 != 0.0
  {
    Coefficients(p.b0 / p.a0, p.b1 / p.a0, p.b2 / p.a0, p.a1 / p.a0, p.a2 / p.a0)
  }

  predicate Admissible(c: real, alpha: real, A: real, rootA: real) {
    -1.0 < c < 1.0 && alpha > 0.0 && A > 0.0 && rootA > 0.0
  }

  /** The triangle of stable denominators. */
  predicate Triangle(p: Prototype) {
    p.a0 > 0.0 && -p.a0 < p.a2 < p.a0 && -(p.a0 + p.a2) < p.a1 < p.a0 + p.a2
  }

  /** For a shelf: u + v and u - v are 2 A (1 + c) and 2 (1 - c), both positive. */
  lemma ShelfTerms(A: real, c: real)
    requires A > 0.0 && -1.0 < c < 1.0
    ensures -((A + 1.0) + (A - 1.0) * c) < (A - 1.0) + (A + 1.0) * c < (A + 1.0) + (A - 1.0) * c
    ensures -((A + 1.0) - (A - 1.0) * c) < (A - 1.0) - (A + 1.0) * c < (A + 1.0) - (A - 1.0) * c
  {
    TimesPositive(A, 1.0 + c);
    TimesPositive(A, 1.0 - c);
  }

  lemma ShelfTriangle(p: Prototype, u: real, v: real, s: real)
    requires s > 0.0 && -u < v < u
    requires p.a0 == u + s && p.a2 == u - s && (p.a1 == 2.0 * v || p.a1 == -2.0 * v)
    ensures Triangle(p)
  {
  }

  lemma ShelfWidth(alpha: real, rootA: real)
    requires alpha > 0.0 && rootA > 0.0
    ensures 2.0 * rootA * alpha > 0.0
  {
    TimesPositive(rootA, alpha);
  }

  lemma LowShelfIsStable(c: real, alpha: real, A: real, rootA: real)
    requires Admissible(c, alpha, A, rootA)
    ensures Triangle(Cookbook(LowShelf, c, alpha, A, rootA))
  {
    ShelfTerms(A, c);
    ShelfWidth(alpha, rootA);
    hide Triangle;
    ShelfTriangle(Cookbook(LowShelf, c, alpha, A, rootA),
                  (A + 1.0) + (A - 1.0) * c, (A - 1.0) + (A + 1.0) * c, 2.0 * rootA * alpha);
  }

  lemma HighShelfIsStable(c: real, alpha: real, A: real, rootA: real)
    requires Admissible(c, alpha, A, rootA)
    ensures Triangle(Cookbook(HighShelf, c, alpha, A, rootA))
  {
    ShelfTerms(A, c);
    ShelfWidth(alpha, rootA);
    hide Triangle;
    ShelfTriangle(Cookbook(HighShelf, c, alpha, A, rootA),
                  (A + 1.0) - (A - 1.0) * c, (A - 1.0) - (A + 1.0) * c, 2.0 * rootA * alpha);
  }

  lemma CookbookIsStable(t: FilterType, c: real, alpha: real, A: real, rootA: real)
    requires Admissible(c, alpha, A, rootA)
    ensures Triangle(Cookbook(t, c, alpha, A, rootA))
  {
    match t
    case Peaking => Quotient(alpha, A);
    case LowShelf => hide *; LowShelfIsStable(c, alpha, A, rootA);
    case HighShelf => hide *; HighShelfIsStable(c, alpha, A, rootA);
    case _ =>
  }

  lemma Quotient(x: real, y: real)
    requires x > 0.0 && y > 0.0
    ensures x / y > 0.0
  {
  }

  lemma Ratio(x: real, d: real)
    requires d > 0.0 && -d < x < d
    ensures -1.0 < x / d < 1.0
  {
    RatioOrder(x, d, d);
    RatioOrder(-d, x, d);
    assert d / d == 1.0 && -d / d == -1.0;
  }

  lemma RatioOrder(x: real, y: real, d: real)
    requires d > 0.0 && x < y
    ensures x / d < y / d
  {
  }

  lemma RatioSum(x: real, y: real, d: real)
    requires d != 0.0
    ensures (x + y) / d == x / d + y / d && (-x) / d == -(x / d)
  {
  }

  lemma NormalisedTriangle(p: Prototype)
    requires Triangle(p)
    ensures var c := Normalised(p); -1.0 < c.a2 < 1.0 && -(1.0 + c.a2) < c.a1 < 1.0 + c.a2
  {
    Ratio(p.a2, p.a0);
    RatioOrder(p.a1, p.a0 + p.a2, p.a0);
    RatioOrder(-(p.a0 + p.a2), p.a1, p.a0);
    RatioSum(p.a0, p.a2, p.a0);
    RatioSum(p.a0 + p.a2, 0.0, p.a0);
    assert p.a0 / p.a0 == 1.0;
  }

  /** `z` is a pole of the section: z^2 + a1 z + a2 = 0. */
  predicate Pole(c: Coefficients, z: Complex) {
    Add(Add(Mul(z, z), Mul(Real(c.a1), z)), Real(c.a2)) == ZERO
  }

  /** (r - 1) (r - a2) + (1 + a2 + a1) r is the polynomial: positive from 1 on. */
  lemma NoPoleBeyondOne(a1: real, a2: real, r: real)
    requires a2 < 1.0 && -(1.0 + a2) < a1 && r >= 1.0
    ensures r * r + a1 * r + a2 > 0.0
  {
    TimesPositive(1.0 + a2 + a1, r);
    if r > 1.0 {
      TimesPositive(r - 1.0, r - a2);
    }
  }

  lemma RealPole(a1: real, a2: real, r: real)
    requires a2 < 1.0 && -(1.0 + a2) < a1 < 1.0 + a2
    requires r * r + a1 * r + a2 == 0.0
    ensures Times(r, r) < 1.0
  {
    if r >= 1.0 {
      NoPoleBeyondOne(a1, a2, r);
    } else if r <= -1.0 {
      NoPoleBeyondOne(-a1, a2, -r);
      TimesNegated(a1, r);
      TimesNegated(r, r);
    } else {
      TimesPositive(1.0 - r, 1.0 + r);
    }
  }

  lemma ComplexPole(a1: real, a2: real, re: real, im: real)
    requires a2 < 1.0 && im != 0.0
    requires re * re - im * im + a1 * re + a2 == 0.0
    requires re * im + im * re + a1 * im == 0.0
    ensures Times(re, re) + Times(im, im) < 1.0
  {
    assert (2.0 * re + a1) * im == 0.0;
    assert a1 == -2.0 * re;
  }

  /** Inside the triangle every pole lies inside the unit circle. */
  lemma TrianglePoles(c: Coefficients, z: Complex)
    requires -1.0 < c.a2 < 1.0 && -(1.0 + c.a2) < c.a1 < 1.0 + c.a2 && Pole(c, z)
    ensures NormSquared(z) < 1.0
  {
    if z.im == 0.0 {
      RealPole(c.a1, c.a2, z.re);
      assert Times(z.im, z.im) == 0.0;
    } else {
      ComplexPole(c.a1, c.a2, z.re, z.im);
    }
  }

  // ------------------------------------------------------ what a band does to a tone

  /** Numerator and denominator of the transfer function for a constant signal, and for one that
      changes sign with every sample. */
  function NumeratorAtEnd(p: Prototype, fastest: bool): real {
    if fastest then p.b0 - p.b1 + p.b2 else p.b0 + p.b1 + p.b2
  }

  function DenominatorAtEnd(p: Prototype, fastest: bool): real {
    if fastest then p.a0 - p.a1 + p.a2 else p.a0 + p.a1 + p.a2
  }

  /** The gain of each type at the two ends of the spectrum. */
  function EndGain(t: FilterType, A: real, fastest: bool): real {
    match t
    case Peaking => 1.0
    case LowShelf => if fastest then 1.0 else Times(A, A)
    case HighShelf => if fastest then Times(A, A) else 1.0
    case LowPass => if fastest then 0.0 else 1.0
    case HighPass => if fastest then 1.0 else 0.0
    case Notch => 1.0
  }

  lemma ShelfNumerator(A: real, x: real, y: real, s: real)
    ensures A * (x + s) + 2.0 * A * y + A * (x - s) == 2.0 * Times(A, x + y)
    ensures A * (x + s) + -2.0 * A * y + A * (x - s) == 2.0 * Times(A, x - y)
  {
  }

  lemma ShelfSums(A: real, c: real)
    ensures (A + 1.0) - (A - 1.0) * c + ((A - 1.0) - (A + 1.0) * c) == 2.0 * Times(A, 1.0 - c)
    ensures (A + 1.0) - (A - 1.0) * c - ((A - 1.0) - (A + 1.0) * c) == 2.0 * (1.0 + c)
    ensures (A + 1.0) + (A - 1.0) * c + ((A - 1.0) + (A + 1.0) * c) == 2.0 * Times(A, 1.0 + c)
    ensures (A + 1.0) + (A - 1.0) * c - ((A - 1.0) + (A + 1.0) * c) == 2.0 * (1.0 - c)
  {
  }

  lemma TimesTwice(a: real, b: real, x: real)
    ensures Times(a, 2.0 * Times(b, x)) == 2.0 * Times(Times(a, b), x)
    ensures Times(a, 2.0 * x) == 2.0 * Times(a, x)
    ensures Times(1.0, x) == x && Times(0.0, x) == 0.0
  {
  }

  lemma LowShelfAtEnds(c: real, alpha: real, A: real, rootA: real, fastest: bool)
    requires A > 0.0
    ensures var p := Cookbook(LowShelf, c, alpha, A, rootA);
            NumeratorAtEnd(p, fastest) == Times(EndGain(LowShelf, A, fastest), DenominatorAtEnd(p, fastest))
  {
    hide Times;
    ShelfNumerator(A, (A + 1.0) - (A - 1.0) * c, (A - 1.0) - (A + 1.0) * c, 2.0 * rootA * alpha);
    ShelfSums(A, c);
    TimesTwice(A, A, 1.0 - c);
    TimesTwice(Times(A, A), 1.0, 1.0 - c);
    TimesTwice(Times(A, A), 1.0, 2.0 * (1.0 - c));
    TimesTwice(A, 1.0, 1.0 + c);
    TimesTwice(1.0, 1.0, DenominatorAtEnd(Cookbook(LowShelf, c, alpha, A, rootA), fastest));
  }

  lemma HighShelfAtEnds(c: real, alpha: real, A: real, rootA: real, fastest: bool)
    requires A > 0.0
    ensures var p := Cookbook(HighShelf, c, alpha, A, rootA);
            NumeratorAtEnd(p, fastest) == Times(EndGain(HighShelf, A, fastest), DenominatorAtEnd(p, fastest))
  {
    hide Times;
    ShelfNumerator(A, (A + 1.0) + (A - 1.0) * c, (A - 1.0) + (A + 1.0) * c, 2.0 * rootA * alpha);
    ShelfSums(A, c);
    TimesTwice(A, A, 1.0 + c);
    TimesTwice(Times(A, A), 1.0, 1.0 + c);
    TimesTwice(Times(A, A), 1.0, 2.0 * (1.0 + c));
    TimesTwice(A, 1.0, 1.0 - c);
    TimesTwice(1.0, 1.0, DenominatorAtEnd(Cookbook(HighShelf, c, alpha, A, rootA), fastest));
  }

  /** Each type passes, removes or scales the ends of the spectrum as it should; shelves scale their
      end by exactly the amplitude squared, the asked gain. */
  lemma ResponseAtEnds(t: FilterType, c: real, alpha: real, A: real, rootA: real, fastest: bool)
    requires Admissible(c, alpha, A, rootA)
    ensures var p := Cookbook(t, c, alpha, A, rootA);
            && NumeratorAtEnd(p, fastest) == Times(EndGain(t, A, fastest), DenominatorAtEnd(p, fastest))
            && DenominatorAtEnd(p, fastest) > 0.0
  {
    CookbookIsStable(t, c, alpha, A, rootA);
    match t
    case LowShelf => hide *; LowShelfAtEnds(c, alpha, A, rootA, fastest);
    case HighShelf => HighShelfAtEnds(c, alpha, A, rootA, fastest);
    case _ =>
  }

  /** The transfer function's halves at the unit delay `z` of a tone. */
  function Numerator(p: Prototype, z: Complex): Complex {
    Add(Add(Real(p.b0), Mul(Real(p.b1), z)), Mul(Real(p.b2), Mul(z, z)))
  }

  function Denominator(p: Prototype, z: Complex): Complex {
    Add(Add(Real(p.a0), Mul(Real(p.a1), z)), Mul(Real(p.a2), Mul(z, z)))
  }

  /** A notch's transfer function has its zero at the centre frequency. */
  lemma NotchAtCentre(c: real, s: real, alpha: real, A: real, rootA: real)
    requires A > 0.0 && Times(c, c) + Times(s, s) == 1.0
    ensures Numerator(Cookbook(Notch, c, alpha, A, rootA), Complex(c, -s)) == ZERO
  {
  }

  lemma PeakHalves(c: real, s: real, k: real)
    requires Times(c, c) + Times(s, s) == 1.0
    ensures var z := Complex(c, -s);
            Numerator(Prototype(1.0 + k, -2.0 * c, 1.0 - k, 0.0, 0.0, 0.0), z) == Mul(Real(2.0 * k), Complex(Times(s, s), Times(c, s)))
  {
  }

  /** At its centre frequency a peaking band's transfer function is exactly the amplitude squared, the
      asked gain, with no phase. */
  lemma PeakAtCentre(c: real, s: real, alpha: real, A: real, rootA: real)
    requires A > 0.0 && Times(c, c) + Times(s, s) == 1.0
    ensures var z := Complex(c, -s); var p := Cookbook(Peaking, c, alpha, A, rootA);
            Numerator(p, z) == Mul(Real(Times(A, A)), Denominator(p, z))
  {
    PeakHalves(c, s, alpha * A);
    PeakHalves(c, s, alpha / A);
    AmplitudeTwice(alpha, A);
    assert Mul(Real(Times(A, A)), Mul(Real(2.0 * (alpha / A)), Complex(Times(s, s), Times(c, s))))
        == Mul(Mul(Real(Times(A, A)), Real(2.0 * (alpha / A))), Complex(Times(s, s), Times(c, s))) by {
      MulAssoc(Real(Times(A, A)), Real(2.0 * (alpha / A)), Complex(Times(s, s), Times(c, s)));
    }
    hide Times, Mul;
  }

  lemma AmplitudeTwice(alpha: real, A: real)
    requires A > 0.0
    ensures Mul(Real(Times(A, A)), Real(2.0 * (alpha / A))) == Real(2.0 * (alpha * A))
  {
    var q := alpha / A;
    assert q * A == alpha;
  }

  // ------------------------------------------------------ from a band's settings to coefficients

  function Band(t: FilterType, w: real, alpha: real, A: real, m: Maths): Coefficients
    requires Admissible(m.cos(w), alpha, A, m.sqrt(A))
  {
    CookbookIsStable(t, m.cos(w), alpha, A, m.sqrt(A));
    Normalised(Cookbook(t, m.cos(w), alpha, A, m.sqrt(A)))
  }

  lemma AngleInside(m: Maths, frequency: real, sampleRate: real)
    requires m.pi > 0.0 && sampleRate * 0.49 >= 1.0
    ensures 0.0 < Angle(m, frequency, sampleRate) < m.pi
  {
    var f := Clamp(frequency, 1.0, sampleRate * 0.49);
    var share := f / sampleRate;
    assert share * sampleRate == f;
    Quotient(f, sampleRate);
    assert share <= 0.49 by {
      if share > 0.49 { TimesPositive(share - 0.49, sampleRate); }
    }
    assert Angle(m, frequency, sampleRate) == 2.0 * m.pi * share;
    TimesPositive(m.pi, share);
    TimesPositive(m.pi, 0.5 - share);
  }

  /** Whatever frequency, gain and Q a client sends, the clamps keep the design inside its domain. */
  lemma SettingsAreAdmissible(m: Maths, frequency: real, gainDb: real, q: real, sampleRate: real)
    requires Sound(m) && sampleRate * 0.49 >= 1.0
    ensures var w := Angle(m, frequency, sampleRate); var A := m.amplitude(gainDb);
            Admissible(m.cos(w), Alpha(m, w, q), A, m.sqrt(A))
  {
    AngleInside(m, frequency, sampleRate);
    var w := Angle(m, frequency, sampleRate);
    Quotient(m.sin(w), 2.0 * Max(q, 0.05));
  }

  /** The coefficients SetCoefficients computes. */
  function Design(m: Maths, t: FilterType, frequency: real, gainDb: real, q: real, sampleRate: real): Coefficients
    requires Sound(m) && sampleRate * 0.49 >= 1.0
  {
    SettingsAreAdmissible(m, frequency, gainDb, q, sampleRate);
    var w := Angle(m, frequency, sampleRate);
    Band(t, w, Alpha(m, w, q), m.amplitude(gainDb), m)
  }

  /** Every band a client can ask for is stable: all its poles lie inside the unit circle. */
  lemma EveryBandIsStable(m: Maths, t: FilterType, frequency: real, gainDb: real, q: real, sampleRate: real, z: Complex)
    requires Sound(m) && sampleRate * 0.49 >= 1.0
    ensures Pole(Design(m, t, frequency, gainDb, q, sampleRate), z) ==> NormSquared(z) < 1.0
  {
    hide Pole, Cookbook, Triangle, NormSquared, Angle, Alpha, Sound;
    SettingsAreAdmissible(m, frequency, gainDb, q, sampleRate);
    var w := Angle(m, frequency, sampleRate);
    var A := m.amplitude(gainDb);
    CookbookIsStable(t, m.cos(w), Alpha(m, w, q), A, m.sqrt(A));
    NormalisedTriangle(Cookbook(t, m.cos(w), Alpha(m, w, q), A, m.sqrt(A)));
    if Pole(Design(m, t, frequency, gainDb, q, sampleRate), z) {
      TrianglePoles(Design(m, t, frequency, gainDb, q, sampleRate), z);
    }
  }
}
