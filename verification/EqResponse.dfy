/** What the designed bands are: the analog prototypes of the W3C Audio EQ Cookbook under the bilinear
    transform, at the frequency and with the quality factor the client asked for. */
module EqResponse {
  import opened Complexes
  import opened Convolution
  import opened EqDesign
  import opened Biquad
  import opened CutAndBoost
  import opened EqTones

  // ------------------------------------------------------ what was asked for

  /** The angle per sample and the quality factor that a request stands for: the frequency is kept from
      1 Hz to 0.49 of the sample rate, the quality factor at 0.05 or more. */
  ghost predicate Asked(m: Maths, frequency: real, q: real, sampleRate: real, w: real, Q: real)
    requires sampleRate > 0.0
  {
    var f := if frequency < 1.0 then 1.0 else if frequency > 0.49 * sampleRate then 0.49 * sampleRate else frequency;
    && w == 2.0 * m.pi * f / sampleRate
    && Q == if q < 0.05 then 0.05 else q
  }

  /** The design's own angle and bandwidth are those: the bandwidth is the sine over twice Q. */
  lemma DesignIsAsked(m: Maths, frequency: real, q: real, sampleRate: real, w: real, Q: real)
    requires Sound(m) && sampleRate * 0.49 >= 1.0 && Asked(m, frequency, q, sampleRate, w, Q)
    ensures Angle(m, frequency, sampleRate) == w
    ensures 2.0 * Times(Q, Alpha(m, w, q)) == m.sin(w) && m.sin(w) > 0.0 && Alpha(m, w, q) > 0.0
  {
    AngleInside(m, frequency, sampleRate);
    WidthOfSine(m.sin(w), Q);
  }

  lemma WidthOfSine(s: real, Q: real)
    requires s > 0.0 && Q > 0.0
    ensures 2.0 * Times(Q, s / (2.0 * Q)) == s && s / (2.0 * Q) > 0.0
  {
    var r := s / (2.0 * Q);
    assert r * (2.0 * Q) == s;
    Quotient(s, 2.0 * Q);
  }

  // ------------------------------------------------------ analog prototypes

  /** The quotient of n2 s^2 + n1 s + n0 and d2 s^2 + d1 s + d0, its centre at s = i. */
  datatype Analog = Analog(n2: real, n1: real, n0: real, d2: real, d1: real, d0: real)

  /** The cookbook's analog prototypes. */
  function AnalogOf(t: FilterType, Q: real, A: real, rootA: real): Analog
    requires Q > 0.0 && A > 0.0
  {
    match t
    case LowPass => Analog(0.0, 0.0, 1.0, 1.0, 1.0 / Q, 1.0)
    case HighPass => Analog(1.0, 0.0, 0.0, 1.0, 1.0 / Q, 1.0)
    case Notch => Analog(1.0, 0.0, 1.0, 1.0, 1.0 / Q, 1.0)
    case Peaking => Analog(1.0, A / Q, 1.0, 1.0, 1.0 / A / Q, 1.0)
    case LowShelf => Analog(A, A * rootA / Q, A * A, A, rootA / Q, 1.0)
    case HighShelf => Analog(A * A, A * rootA / Q, A, 1.0, rootA / Q, A)
  }

  function Head(p2: real, p1: real, p0: real, c: real, s: real): real {
    p2 * (1.0 + c) + p1 * s + p0 * (1.0 - c)
  }

  function Middle(p2: real, p0: real, c: real): real {
    2.0 * (p0 * (1.0 - c) - p2 * (1.0 + c))
  }

  /** s = (sin w / (1 - cos w)) (1 - z) / (1 + z) put into the prototype and cleared of fractions:
      the digital section whose centre is at the angle w of cosine `c` and sine `s`. */
  function Bilinear(h: Analog, c: real, s: real): Prototype {
    Prototype(Head(h.n2, h.n1, h.n0, c, s), Middle(h.n2, h.n0, c), Head(h.n2, -h.n1, h.n0, c, s),
              Head(h.d2, h.d1, h.d0, c, s), Middle(h.d2, h.d0, c), Head(h.d2, -h.d1, h.d0, c, s))
  }

  function Minus(a: Complex, b: Complex): Complex {
    Complex(a.re - b.re, a.im - b.im)
  }

  /** p2 u^2 + p1 u v + p0 v^2. */
  function Form(p2: real, p1: real, p0: real, u: Complex, v: Complex): Complex {
    Add(Add(Mul(Real(p2), Mul(u, u)), Mul(Real(p1), Mul(u, v))), Mul(Real(p0), Mul(v, v)))
  }

  /** That is what the substitution means: with u = k (1 - z), k = sin w / (1 - cos w), and v = 1 + z,
      the section's halves at z are 1 - cos w times the prototype's halves at u / v. */
  lemma BilinearIsSubstitution(h: Analog, c: real, s: real, k: real, z: Complex)
    requires Times(c, c) + Times(s, s) == 1.0 && Times(k, 1.0 - c) == s && c < 1.0
    ensures var u, v := Mul(Real(k), Minus(ONE, z)), Add(ONE, z); var p := Bilinear(h, c, s);
            && Numerator(p, z) == Mul(Real(1.0 - c), Form(h.n2, h.n1, h.n0, u, v))
            && Denominator(p, z) == Mul(Real(1.0 - c), Form(h.d2, h.d1, h.d0, u, v))
  {
    SquareOfSlope(c, s, k);
    hide Form, Mul, Add, Minus, Times, Head, Middle;
    HalfSubstituted(h.n2, h.n1, h.n0, c, s, k, z);
    HalfSubstituted(h.d2, h.d1, h.d0, c, s, k, z);
  }

  lemma SquareOfSlope(c: real, s: real, k: real)
    requires Times(c, c) + Times(s, s) == 1.0 && Times(k, 1.0 - c) == s && c < 1.0
    ensures Times(Times(k, k), 1.0 - c) == 1.0 + c
  {
    assert (k * k * (1.0 - c)) * (1.0 - c) == s * s;
    assert s * s == (1.0 + c) * (1.0 - c);
    CancelRight(k * k * (1.0 - c), 1.0 + c, 1.0 - c);
  }

  lemma CancelRight(x: real, y: real, d: real)
    requires d != 0.0 && x * d == y * d
    ensures x == y
  {
  }

  /** One component of a half: `e` is 1 for the real part and 0 for the imaginary one, `x` and `y` are
      those of z and its square. */
  lemma ComponentSubstituted(p2: real, p1: real, p0: real, c: real, s: real, k: real, kk: real, e: real, x: real, y: real)
    requires Times(k, 1.0 - c) == s && Times(kk, 1.0 - c) == 1.0 + c
    ensures Times(1.0 - c, Times(p2, Times(kk, e - 2.0 * x + y)) + Times(p1, Times(k, e - y)) + Times(p0, e + 2.0 * x + y))
         == Times(Head(p2, p1, p0, c, s), e) + Times(Middle(p2, p0, c), x) + Times(Head(p2, -p1, p0, c, s), y)
  {
    var a, g, h := 1.0 - c, 1.0 + c, s;
    var U, V, W := e - 2.0 * x + y, e - y, e + 2.0 * x + y;
    Outward(a, p2, kk, U);
    Outward(a, p1, k, V);
    Spread3(a, p2 * (kk * U), p1 * (k * V), p0 * W);
    Gathered(p2 * g, p1 * h, p0 * a, e, x, y);
    assert p2 * (g * U) == (p2 * g) * U && p1 * (h * V) == (p1 * h) * V && a * (p0 * W) == (p0 * a) * W;
    assert Head(p2, -p1, p0, c, s) == p2 * g - p1 * h + p0 * a;
  }

  lemma Spread3(a: real, x: real, y: real, z: real)
    ensures a * (x + y + z) == a * x + a * y + a * z
  {
  }

  lemma Gathered(p: real, q: real, r: real, e: real, x: real, y: real)
    ensures (p + q + r) * e + (2.0 * (r - p)) * x + (p - q + r) * y
         == p * (e - 2.0 * x + y) + q * (e - y) + r * (e + 2.0 * x + y)
  {
  }

  lemma Outward(a: real, p: real, k: real, x: real)
    ensures a * (p * (k * x)) == p * ((a * k) * x)
  {
  }

  lemma SquaresOf(k: real, z: Complex)
    ensures var u, v := Mul(Real(k), Minus(ONE, z)), Add(ONE, z); var y := Mul(z, z);
            && Mul(u, u) == Complex(Times(Times(k, k), 1.0 - 2.0 * z.re + y.re), Times(Times(k, k), 0.0 - 2.0 * z.im + y.im))
            && Mul(u, v) == Complex(Times(k, 1.0 - y.re), Times(k, 0.0 - y.im))
            && Mul(v, v) == Complex(1.0 + 2.0 * z.re + y.re, 0.0 + 2.0 * z.im + y.im)
  {
  }

  lemma RealTimes(r: real, z: Complex)
    ensures Mul(Real(r), z) == Complex(Times(r, z.re), Times(r, z.im))
  {
  }

  lemma TimesEnds(r: real)
    ensures Times(r, 1.0) == r && Times(r, 0.0) == 0.0
  {
  }

  lemma HalfSubstituted(p2: real, p1: real, p0: real, c: real, s: real, k: real, z: Complex)
    requires Times(k, 1.0 - c) == s && Times(Times(k, k), 1.0 - c) == 1.0 + c
    ensures Mul(Real(1.0 - c), Form(p2, p1, p0, Mul(Real(k), Minus(ONE, z)), Add(ONE, z)))
         == Add(Add(Real(Head(p2, p1, p0, c, s)), Mul(Real(Middle(p2, p0, c)), z)), Mul(Real(Head(p2, -p1, p0, c, s)), Mul(z, z)))
  {
    var y := Mul(z, z);
    var u, v := Mul(Real(k), Minus(ONE, z)), Add(ONE, z);
    SquaresOf(k, z);
    ComponentSubstituted(p2, p1, p0, c, s, k, Times(k, k), 1.0, z.re, y.re);
    ComponentSubstituted(p2, p1, p0, c, s, k, Times(k, k), 0.0, z.im, y.im);
    RealTimes(p2, Mul(u, u));
    RealTimes(p1, Mul(u, v));
    RealTimes(p0, Mul(v, v));
    RealTimes(1.0 - c, Form(p2, p1, p0, u, v));
    RealTimes(Middle(p2, p0, c), z);
    RealTimes(Head(p2, -p1, p0, c, s), y);
    TimesEnds(Head(p2, p1, p0, c, s));
    hide Mul, Times, Head, Middle;
  }

  // ------------------------------------------------------ every band is its prototype

  lemma Slope(x: real, Q: real, s: real, alpha: real)
    requires Q > 0.0 && 2.0 * Times(Q, alpha) == s
    ensures x / Q * s == 2.0 * (x * alpha)
  {
    var r := x / Q;
    assert r * Q == x;
    assert r * (2.0 * (Q * alpha)) == 2.0 * ((r * Q) * alpha);
  }

  function ScaledBy(p: Prototype, k: real): Prototype {
    Prototype(Times(k, p.b0), Times(k, p.b1), Times(k, p.b2), Times(k, p.a0), Times(k, p.a1), Times(k, p.a2))
  }

  lemma NormalisedScaled(p: Prototype, k: real)
    requires k > 0.0 && p.a0 > 0.0
    ensures ScaledBy(p, k).a0 > 0.0 && Normalised(ScaledBy(p, k)) == Normalised(p)
  {
    CommonFactor(k, p.b0, p.a0);
    CommonFactor(k, p.b1, p.a0);
    CommonFactor(k, p.b2, p.a0);
    CommonFactor(k, p.a1, p.a0);
    CommonFactor(k, p.a2, p.a0);
    hide Times;
  }

  lemma PassIsBilinear(t: FilterType, c: real, s: real, Q: real, alpha: real, A: real, rootA: real)
    requires Q > 0.0 && A > 0.0 && 2.0 * Times(Q, alpha) == s && t in [LowPass, HighPass, Notch]
    ensures Bilinear(AnalogOf(t, Q, A, rootA), c, s) == ScaledBy(Cookbook(t, c, alpha, A, rootA), 2.0)
  {
    Slope(1.0, Q, s, alpha);
    Slope(0.0, Q, s, alpha);
  }

  lemma PeakingIsBilinear(c: real, s: real, Q: real, alpha: real, A: real, rootA: real)
    requires Q > 0.0 && A > 0.0 && 2.0 * Times(Q, alpha) == s
    ensures Bilinear(AnalogOf(Peaking, Q, A, rootA), c, s) == ScaledBy(Cookbook(Peaking, c, alpha, A, rootA), 2.0)
  {
    Slope(A, Q, s, alpha);
    Slope(1.0 / A, Q, s, alpha);
    OneOver(A, alpha);
    NegativeOver(A / Q, s);
    NegativeOver(1.0 / A / Q, s);
  }

  lemma OneOver(A: real, alpha: real)
    requires A > 0.0
    ensures 1.0 / A * alpha == alpha / A
  {
  }

  lemma NegativeOver(x: real, s: real)
    ensures -x * s == -(x * s)
  {
  }

  lemma ShelfHalf(A: real, c: real, s: real, p: real, r: real)
    requires Times(p, s) == r
    ensures Head(A, p, 1.0, c, s) == Under(A, 1.0, c, r) && Head(1.0, p, A, c, s) == Under(A, 1.0, -c, r)
    ensures Head(A, -p, 1.0, c, s) == Under(A, 1.0, c, -r) && Head(1.0, -p, A, c, s) == Under(A, 1.0, -c, -r)
    ensures Middle(A, 1.0, c) == Twice(Under(A, c, 1.0, 0.0), true)
    ensures Middle(1.0, A, c) == Twice(Under(A, -c, 1.0, 0.0), false)
  {
    NegativeOver(p, s);
  }

  lemma ShelfHalfTimes(A: real, aa: real, c: real, s: real, n: real, r: real)
    requires Times(n, s) == Times(A, r) && aa == Times(A, A)
    ensures Head(A, n, aa, c, s) == Over1(A, 1.0, c, r) && Head(aa, n, A, c, s) == Over1(A, 1.0, -c, r)
    ensures Head(A, -n, aa, c, s) == Over1(A, 1.0, c, -r) && Head(aa, -n, A, c, s) == Over1(A, 1.0, -c, -r)
    ensures Middle(A, aa, c) == Twice(Over1(A, c, 1.0, 0.0), true)
    ensures Middle(aa, A, c) == Twice(Over1(A, -c, 1.0, 0.0), false)
  {
    NegativeOver(n, s);
    NegativeOver(r, A);
  }

  lemma ShelfOfTerms(A: real, aa: real, c: real, s: real, p: real, n: real, r: real)
    requires Times(p, s) == r && Times(n, s) == Times(A, r) && aa == Times(A, A)
    ensures Bilinear(Analog(A, n, aa, A, p, 1.0), c, s) == ShelfForm(A, c, r, true)
    ensures Bilinear(Analog(aa, n, A, 1.0, p, A), c, s) == ShelfForm(A, -c, r, false)
  {
    hide Head, Middle, Over1, Under, Twice, Times;
    ShelfHalf(A, c, s, p, r);
    ShelfHalfTimes(A, aa, c, s, n, r);
  }

  function Width(rootA: real, alpha: real): real {
    2.0 * rootA * alpha
  }

  lemma ShelfForms(c: real, alpha: real, A: real, rootA: real)
    requires A > 0.0
    ensures Cookbook(LowShelf, c, alpha, A, rootA) == ShelfForm(A, c, Width(rootA, alpha), true)
    ensures Cookbook(HighShelf, c, alpha, A, rootA) == ShelfForm(A, -c, Width(rootA, alpha), false)
  {
    LowShelfHasForm(c, alpha, A, rootA);
    HighShelfHasForm(c, alpha, A, rootA);
    hide Cookbook, ShelfForm;
  }

  lemma ShelfSlopes(Q: real, s: real, alpha: real, A: real, rootA: real) returns (p: real, n: real, aa: real)
    requires Q > 0.0 && A > 0.0 && 2.0 * Times(Q, alpha) == s
    ensures AnalogOf(LowShelf, Q, A, rootA) == Analog(A, n, aa, A, p, 1.0)
    ensures AnalogOf(HighShelf, Q, A, rootA) == Analog(aa, n, A, 1.0, p, A)
    ensures Times(p, s) == Width(rootA, alpha) && Times(n, s) == Times(A, Width(rootA, alpha)) && aa == Times(A, A)
  {
    p, n, aa := rootA / Q, A * rootA / Q, A * A;
    Slope(rootA, Q, s, alpha);
    Slope(A * rootA, Q, s, alpha);
    assert A * rootA * alpha == A * (rootA * alpha);
  }

  lemma ShelfIsBilinear(low: bool, c: real, s: real, Q: real, alpha: real, A: real, rootA: real)
    requires Q > 0.0 && A > 0.0 && 2.0 * Times(Q, alpha) == s
    ensures var t := if low then LowShelf else HighShelf;
            Bilinear(AnalogOf(t, Q, A, rootA), c, s) == Cookbook(t, c, alpha, A, rootA)
  {
    hide Bilinear, ShelfForm, Cookbook, AnalogOf, Width, Times;
    var p, n, aa := ShelfSlopes(Q, s, alpha, A, rootA);
    ShelfForms(c, alpha, A, rootA);
    ShelfOfTerms(A, aa, c, s, p, n, Width(rootA, alpha));
  }

  /** Whatever band a client asks for: the designed section is the cookbook's analog prototype of that
      type, quality factor and amplitude under the bilinear transform, its centre at the frequency asked
      for. */
  lemma BandIsItsPrototype(m: Maths, t: FilterType, frequency: real, gainDb: real, q: real, sampleRate: real, w: real, Q: real)
    requires Sound(m) && sampleRate * 0.49 >= 1.0 && Asked(m, frequency, q, sampleRate, w, Q)
    ensures Q > 0.0 && m.amplitude(gainDb) > 0.0
    ensures var p := Bilinear(AnalogOf(t, Q, m.amplitude(gainDb), m.sqrt(m.amplitude(gainDb))), m.cos(w), m.sin(w));
            p.a0 > 0.0 && Design(m, t, frequency, gainDb, q, sampleRate) == Normalised(p)
  {
    var A := m.amplitude(gainDb);
    var rootA := m.sqrt(A);
    SettingsAreAdmissible(m, frequency, gainDb, q, sampleRate);
    DesignIsAsked(m, frequency, q, sampleRate, w, Q);
    var c, s, alpha := m.cos(w), m.sin(w), Alpha(m, w, q);
    CookbookIsStable(t, c, alpha, A, rootA);
    var book := Cookbook(t, c, alpha, A, rootA);
    hide Sound, Angle, Alpha, Normalised, Cookbook, Bilinear, AnalogOf, ScaledBy, Asked, Times;
    NormalisedScaled(book, 2.0);
    match t
    case Peaking => PeakingIsBilinear(c, s, Q, alpha, A, rootA);
    case LowShelf => ShelfIsBilinear(true, c, s, Q, alpha, A, rootA);
    case HighShelf => ShelfIsBilinear(false, c, s, Q, alpha, A, rootA);
    case _ => PassIsBilinear(t, c, s, Q, alpha, A, rootA);
  }

  // ------------------------------------------------------ the response of a running section

  /** A section's own halves: its denominator starts with one. */
  function Monic(d: Coefficients): Prototype {
    Prototype(d.b0, d.b1, d.b2, 1.0, d.a1, d.a2)
  }

  /** The section answers the tone whose unit delay is `z` with the complex gain `g`. */
  predicate Answers(d: Coefficients, z: Complex, g: Complex) {
    Numerator(Monic(d), z) == Mul(g, Denominator(Monic(d), z))
  }

  /** A rotating signal: one sample back is one unit delay `z`. */
  ghost predicate Rotates(us: seq<Complex>, z: Complex) {
    forall n | 1 <= n < |us| :: OneBack(us, z, n)
  }

  predicate OneBack(us: seq<Complex>, z: Complex, n: nat)
    requires 1 <= n < |us|
  {
    us[n - 1] == Mul(z, us[n])
  }

  function RealParts(us: seq<Complex>): (x: seq<real>)
    ensures |x| == |us|
  {
    seq(|us|, n requires 0 <= n < |us| => us[n].re)
  }

  /** The output less the real part of the gain times the rotating signal. */
  function Remainder(y: seq<real>, us: seq<Complex>, g: Complex): (e: seq<real>)
    requires |y| == |us|
    ensures |e| == |us|
  {
    seq(|us|, n requires 0 <= n < |us| => y[n] - Mul(g, us[n]).re)
  }

  lemma HalfOfRotation(b0: real, b1: real, b2: real, z: Complex, u: Complex)
    ensures Mul(Add(Add(Real(b0), Mul(Real(b1), z)), Mul(Real(b2), Mul(z, z))), u)
         == Add(Add(Mul(Real(b0), u), Mul(Real(b1), Mul(z, u))), Mul(Real(b2), Mul(z, Mul(z, u))))
  {
    MulDistributes(Real(b0), Mul(Real(b1), z), u);
    MulDistributes(Add(Real(b0), Mul(Real(b1), z)), Mul(Real(b2), Mul(z, z)), u);
    MulAssoc(Real(b1), z, u);
    MulAssoc(Real(b2), Mul(z, z), u);
    MulAssoc(z, z, u);
    hide Mul, Add;
  }

  lemma GainOfRotation(a1: real, a2: real, g: Complex, u0: Complex, u1: Complex, u2: Complex)
    ensures Mul(g, Add(Add(Mul(Real(1.0), u0), Mul(Real(a1), u1)), Mul(Real(a2), u2))).re
         == Mul(g, u0).re + Times(a1, Mul(g, u1).re) + Times(a2, Mul(g, u2).re)
  {
    MulDistributes(Mul(Real(1.0), u0), Mul(Real(a1), u1), g);
    MulDistributes(Add(Mul(Real(1.0), u0), Mul(Real(a1), u1)), Mul(Real(a2), u2), g);
    RealOutward(g, 1.0, u0);
    RealOutward(g, a1, u1);
    RealOutward(g, a2, u2);
    OneTimes(Mul(g, u0).re);
    hide Mul, Times;
  }

  lemma OneTimes(x: real)
    ensures Times(1.0, x) == x
  {
  }

  lemma RealOutward(g: Complex, a: real, u: Complex)
    ensures Mul(g, Mul(Real(a), u)).re == Times(a, Mul(g, u).re)
  {
    MulComm(g, Mul(Real(a), u));
    MulAssoc(Real(a), u, g);
    MulComm(u, g);
    RealTimes(a, Mul(g, u));
    hide Mul, Times;
  }

  lemma AnswerStep(d: Coefficients, z: Complex, g: Complex, u: Complex, y1: real, y2: real)
    requires Answers(d, z, g)
    ensures var u1 := Mul(z, u); var u2 := Mul(z, u1);
            Combine(d, u.re, u1.re, u2.re, y1, y2) - Mul(g, u).re
            == -Times(d.a1, y1 - Mul(g, u1).re) - Times(d.a2, y2 - Mul(g, u2).re)
  {
    var u1 := Mul(z, u);
    var u2 := Mul(z, u1);
    HalfOfRotation(d.b0, d.b1, d.b2, z, u);
    HalfOfRotation(1.0, d.a1, d.a2, z, u);
    MulAssoc(g, Denominator(Monic(d), z), u);
    GainOfRotation(d.a1, d.a2, g, u, u1, u2);
    RealTimes(d.b0, u);
    RealTimes(d.b1, u1);
    RealTimes(d.b2, u2);
    TimesMinus(d.a1, y1, Mul(g, u1).re);
    TimesMinus(d.a2, y2, Mul(g, u2).re);
    hide Mul, Times;
  }

  lemma TimesMinus(a: real, x: real, y: real)
    ensures Times(a, x - y) == Times(a, x) - Times(a, y)
  {
  }

  /** In time: a running section puts out the real part of the gain times the rotating signal whose real
      part it is fed, apart from its own free oscillation. */
  lemma ToneIsAnswered(d: Coefficients, z: Complex, g: Complex, us: seq<Complex>)
    requires Answers(d, z, g) && Rotates(us, z)
    ensures Rings(d, Remainder(Run(AtRest(d), RealParts(us)).0, us, g))
  {
    hide Answers, Run, AtRest, Solves, RingsAt, Mul, Combine;
    var x := RealParts(us);
    var y := Run(AtRest(d), x).0;
    RunIsTheSolution(d, x, y);
    forall n | 2 <= n < |us| ensures RingsAt(d, Remainder(y, us, g), n) {
      assert OneBack(us, z, n) && OneBack(us, z, n - 1);
      AnswerStep(d, z, g, us[n], y[n - 1], y[n - 2]);
      AnswerRings(d, g, us, x, y, n);
    }
  }

  lemma AnswerRings(d: Coefficients, g: Complex, us: seq<Complex>, x: seq<real>, y: seq<real>, n: nat)
    requires 2 <= n < |us| && x == RealParts(us) && Solves(d, x, y)
    requires Combine(d, us[n].re, us[n - 1].re, us[n - 2].re, y[n - 1], y[n - 2]) - Mul(g, us[n]).re
          == -Times(d.a1, y[n - 1] - Mul(g, us[n - 1]).re) - Times(d.a2, y[n - 2] - Mul(g, us[n - 2]).re)
    ensures RingsAt(d, Remainder(y, us, g), n)
  {
    hide Combine, Times, Mul;
    assert y[n] == Combine(d, x[n], At(x, n - 1), At(x, n - 2), At(y, n - 1), At(y, n - 2));
  }

  // ------------------------------------------------------ centre and width

  lemma NormalisedHalf(p: Prototype, z: Complex)
    requires p.a0 > 0.0
    ensures Numerator(p, z) == Mul(Real(p.a0), Numerator(Monic(Normalised(p)), z))
    ensures Denominator(p, z) == Mul(Real(p.a0), Denominator(Monic(Normalised(p)), z))
  {
    var d := Normalised(p);
    TimesQuotient(p.b0, p.a0);
    TimesQuotient(p.b1, p.a0);
    TimesQuotient(p.b2, p.a0);
    TimesQuotient(p.a1, p.a0);
    TimesQuotient(p.a2, p.a0);
    TimesEnds(p.a0);
    hide Normalised;
    HalfScaled(p.a0, d.b0, d.b1, d.b2, z);
    HalfScaled(p.a0, 1.0, d.a1, d.a2, z);
    hide Mul, Add, Times;
  }

  lemma HalfScaled(a: real, b0: real, b1: real, b2: real, z: Complex)
    ensures Mul(Real(a), Add(Add(Real(b0), Mul(Real(b1), z)), Mul(Real(b2), Mul(z, z))))
         == Add(Add(Real(Times(a, b0)), Mul(Real(Times(a, b1)), z)), Mul(Real(Times(a, b2)), Mul(z, z)))
  {
    var y := Mul(z, z);
    MulDistributes(Real(b0), Mul(Real(b1), z), Real(a));
    MulDistributes(Add(Real(b0), Mul(Real(b1), z)), Mul(Real(b2), y), Real(a));
    MulAssoc(Real(a), Real(b1), z);
    MulAssoc(Real(a), Real(b2), y);
    RealTimes(a, Real(b0));
    RealTimes(a, Real(b1));
    RealTimes(a, Real(b2));
    TimesEnds(a);
    hide Mul, Add, Times;
  }

  /** On the unit circle 1 + k - 2 c z + (1 - k) z^2 is z times twice the complex number of C - c and k S. */
  lemma CircleHalf(k: real, c: real, C: real, S: real)
    requires Times(C, C) + Times(S, S) == 1.0
    ensures var z := Complex(C, -S);
            Add(Add(Real(1.0 + k), Mul(Real(-2.0 * c), z)), Mul(Real(1.0 - k), Mul(z, z)))
            == Mul(z, Complex(2.0 * (C - c), 2.0 * Times(k, S)))
  {
    var z := Complex(C, -S);
    TurnParts(C, S, z);
    TurnParts(C, S, Complex(2.0 * (C - c), 2.0 * Times(k, S)));
    TimesNegative(C, S);
    TimesNegative(S, S);
    TimesComm(C, S);
    CircleReal(k, c, C, S);
    CircleImaginary(k, c, C, S);
    RealTimes(-2.0 * c, z);
    RealTimes(1.0 - k, Mul(z, z));
    hide Mul, Times;
  }

  lemma TurnParts(C: real, S: real, h: Complex)
    ensures Mul(Complex(C, -S), h) == Complex(Times(C, h.re) + Times(S, h.im), Times(C, h.im) - Times(S, h.re))
  {
  }

  lemma TimesComm(x: real, y: real)
    ensures Times(x, y) == Times(y, x)
  {
  }

  lemma CircleReal(k: real, c: real, C: real, S: real)
    requires Times(C, C) + Times(S, S) == 1.0
    ensures 1.0 + k + Times(-2.0 * c, C) + Times(1.0 - k, Times(C, C) - Times(S, S))
         == Times(C, 2.0 * (C - c)) + Times(S, 2.0 * Times(k, S))
  {
    assert (1.0 - k) * (C * C - S * S) == C * C - S * S - k * (C * C) + k * (S * S);
    assert k == k * (C * C + S * S) == k * (C * C) + k * (S * S);
    assert S * (2.0 * (k * S)) == 2.0 * (k * (S * S));
    assert C * (2.0 * (C - c)) == 2.0 * (C * C) - 2.0 * (c * C);
  }

  lemma CircleImaginary(k: real, c: real, C: real, S: real)
    ensures Times(-2.0 * c, -S) + Times(1.0 - k, -2.0 * Times(C, S)) == Times(C, 2.0 * Times(k, S)) - Times(S, 2.0 * (C - c))
  {
    assert (1.0 - k) * (-2.0 * (C * S)) == -2.0 * (C * S) + 2.0 * (k * (C * S));
    assert C * (2.0 * (k * S)) == 2.0 * (k * (C * S));
  }

  /** On the unit circle 1 + 2 z + z^2 is 2 (1 + C) z. */
  lemma CircleSquare(C: real, S: real)
    requires Times(C, C) + Times(S, S) == 1.0
    ensures var z := Complex(C, -S);
            Add(Add(Real(1.0), Mul(Real(2.0), z)), Mul(Real(1.0), Mul(z, z))) == Mul(Real(2.0 * (1.0 + C)), z)
  {
  }

  lemma LowPassFactor(c: real, s: real)
    requires Times(c, c) + Times(s, s) == 1.0
    ensures var h := (1.0 - c) / 2.0;
            Times(h, 1.0) == h && Times(h, 2.0) == 1.0 - c && Times(h, 2.0 * (1.0 + c)) == Times(s, s)
  {
    assert (1.0 - c) * (1.0 + c) == 1.0 - c * c;
  }

  lemma LowPassHalves(c: real, s: real, alpha: real, A: real, rootA: real)
    requires A > 0.0 && Times(c, c) + Times(s, s) == 1.0
    ensures var z := Complex(c, -s); var p := Cookbook(LowPass, c, alpha, A, rootA);
            && Numerator(p, z) == Mul(Real(Times(s, s)), z)
            && Denominator(p, z) == Mul(z, Complex(0.0, 2.0 * Times(alpha, s)))
  {
    var z := Complex(c, -s);
    CircleHalf(alpha, c, c, s);
    CircleSquare(c, s);
    var h := (1.0 - c) / 2.0;
    HalfScaled(h, 1.0, 2.0, 1.0, z);
    LowPassFactor(c, s);
    MulAssoc(Real(h), Real(2.0 * (1.0 + c)), z);
    RealTimes(h, Real(2.0 * (1.0 + c)));
    TimesEnds(h);
    hide Mul, Add, Times;
  }

  /** A low pass has its quality factor as gain at the frequency asked for, a quarter turn behind. */
  lemma LowPassAtCentre(m: Maths, frequency: real, gainDb: real, q: real, sampleRate: real, w: real, Q: real)
    requires Sound(m) && sampleRate * 0.49 >= 1.0 && Asked(m, frequency, q, sampleRate, w, Q)
    ensures Answers(Design(m, LowPass, frequency, gainDb, q, sampleRate), Complex(m.cos(w), -m.sin(w)), Complex(0.0, -Q))
  {
    var A := m.amplitude(gainDb);
    SettingsAreAdmissible(m, frequency, gainDb, q, sampleRate);
    DesignIsAsked(m, frequency, q, sampleRate, w, Q);
    var c, s, alpha := m.cos(w), m.sin(w), Alpha(m, w, q);
    CookbookIsStable(LowPass, c, alpha, A, m.sqrt(A));
    LowPassHalves(c, s, alpha, A, m.sqrt(A));
    var p, z, g := Cookbook(LowPass, c, alpha, A, m.sqrt(A)), Complex(c, -s), Complex(0.0, -Q);
    NormalisedHalf(p, z);
    hide Sound, Angle, Alpha, Normalised, Cookbook, Asked, Numerator, Denominator;
    QuarterTurn(z, s, alpha, Q);
    AnswersOf(p, z, g);
  }

  lemma QuarterTurn(z: Complex, s: real, alpha: real, Q: real)
    requires 2.0 * Times(Q, alpha) == s
    ensures Mul(Real(Times(s, s)), z) == Mul(Complex(0.0, -Q), Mul(z, Complex(0.0, 2.0 * Times(alpha, s))))
  {
    MulComm(z, Complex(0.0, 2.0 * Times(alpha, s)));
    MulAssoc(Complex(0.0, -Q), Complex(0.0, 2.0 * Times(alpha, s)), z);
    assert Q * (2.0 * (alpha * s)) == (2.0 * (Q * alpha)) * s;
    assert Mul(Complex(0.0, -Q), Complex(0.0, 2.0 * Times(alpha, s))) == Real(Times(s, s));
    hide Mul, Times;
  }

  /** What holds of the halves before normalisation holds of the section. */
  lemma AnswersOf(p: Prototype, z: Complex, g: Complex)
    requires p.a0 > 0.0 && Numerator(p, z) == Mul(g, Denominator(p, z))
    ensures Answers(Normalised(p), z, g)
  {
    NormalisedHalf(p, z);
    var N, D := Numerator(Monic(Normalised(p)), z), Denominator(Monic(Normalised(p)), z);
    hide Normalised, Numerator, Denominator;
    MulComm(g, Mul(Real(p.a0), D));
    MulAssoc(Real(p.a0), D, g);
    MulComm(D, g);
    CancelReal(p.a0, N, Mul(g, D));
    hide Mul;
  }

  lemma CancelReal(a: real, x: Complex, y: Complex)
    requires a > 0.0 && Mul(Real(a), x) == Mul(Real(a), y)
    ensures x == y
  {
    RealTimes(a, x);
    RealTimes(a, y);
    CancelRight(x.re, y.re, a);
    CancelRight(x.im, y.im, a);
  }

  /** The same in time: fed the real part of a rotating signal, a low pass puts out the real part of the
      signal a quarter turn behind, times its quality factor, apart from its own free oscillation. */
  lemma LowPassTurnsItsCentre(m: Maths, frequency: real, gainDb: real, q: real, sampleRate: real, w: real, Q: real, us: seq<Complex>)
    requires Sound(m) && sampleRate * 0.49 >= 1.0 && Asked(m, frequency, q, sampleRate, w, Q)
    requires Rotates(us, Complex(m.cos(w), -m.sin(w)))
    ensures var y := Run(AtRest(Design(m, LowPass, frequency, gainDb, q, sampleRate)), RealParts(us)).0;
            Rings(Design(m, LowPass, frequency, gainDb, q, sampleRate), Remainder(y, us, Complex(0.0, -Q)))
  {
    LowPassAtCentre(m, frequency, gainDb, q, sampleRate, w, Q);
    hide *;
    ToneIsAnswered(Design(m, LowPass, frequency, gainDb, q, sampleRate), Complex(m.cos(w), -m.sin(w)), Complex(0.0, -Q), us);
  }

  lemma NormOfProduct(a: Complex, b: Complex)
    ensures NormSquared(Mul(a, b)) == Times(NormSquared(a), NormSquared(b))
  {
    var p, q, r, t := a.re * b.re, a.im * b.im, a.re * b.im, a.im * b.re;
    assert (p - q) * (p - q) == p * p - 2.0 * (p * q) + q * q;
    assert (r + t) * (r + t) == r * r + 2.0 * (r * t) + t * t;
    assert p * q == r * t;
    SquareOfProducts(a.re, b.re);
    SquareOfProducts(a.im, b.im);
    SquareOfProducts(a.re, b.im);
    SquareOfProducts(a.im, b.re);
    Crossed(a.re * a.re, a.im * a.im, b.re * b.re, b.im * b.im);
  }

  lemma SquareOfProducts(x: real, y: real)
    ensures (x * y) * (x * y) == (x * x) * (y * y)
  {
  }

  lemma Crossed(a: real, b: real, c: real, d: real)
    ensures (a + b) * (c + d) == a * c + a * d + b * c + b * d
  {
  }

  lemma PeakingHalves(c: real, C: real, S: real, alpha: real, A: real, rootA: real)
    requires A > 0.0 && Times(C, C) + Times(S, S) == 1.0
    ensures var z := Complex(C, -S); var p := Cookbook(Peaking, c, alpha, A, rootA);
            && NormSquared(Numerator(p, z)) == 4.0 * (Times(C - c, C - c) + Times(Times(Times(alpha, A), S), Times(Times(alpha, A), S)))
            && NormSquared(Denominator(p, z)) == 4.0 * (Times(C - c, C - c) + Times(Times(alpha / A, S), Times(alpha / A, S)))
  {
    var z := Complex(C, -S);
    CircleHalf(Times(alpha, A), c, C, S);
    CircleHalf(alpha / A, c, C, S);
    NormOfCircle(C, S);
    NormOfProduct(z, Complex(2.0 * (C - c), 2.0 * Times(Times(alpha, A), S)));
    NormOfProduct(z, Complex(2.0 * (C - c), 2.0 * Times(alpha / A, S)));
    NormOfTwice(C - c, Times(Times(alpha, A), S));
    NormOfTwice(C - c, Times(alpha / A, S));
    hide Mul, NormSquared, Add;
  }

  lemma NormOfCircle(C: real, S: real)
    requires Times(C, C) + Times(S, S) == 1.0
    ensures NormSquared(Complex(C, -S)) == 1.0
    ensures forall x :: Times(1.0, x) == x
  {
  }

  lemma NormOfTwice(x: real, y: real)
    ensures NormSquared(Complex(2.0 * x, 2.0 * y)) == 4.0 * (Times(x, x) + Times(y, y))
  {
  }

  lemma ZeroProduct(u: real, v: real)
    requires u != 0.0
    ensures u * v == 0.0 <==> v == 0.0
  {
  }

  lemma SameSquare(e: real, f: real)
    ensures Times(e, e) == Times(f, f) <==> e == f || e == -f
  {
    assert e * e - f * f == (e - f) * (e + f);
  }

  lemma WidthTerms(S: real, alpha: real, A: real)
    requires A > 0.0
    ensures Times(Times(Times(alpha, A), S), Times(Times(alpha, A), S)) == Times(Times(A, A), Times(Times(alpha, S), Times(alpha, S)))
    ensures Times(Times(A, A), Times(Times(alpha / A, S), Times(alpha / A, S))) == Times(Times(alpha, S), Times(alpha, S))
  {
    var j := alpha / A;
    assert j * A == alpha;
    SquareOfProducts(A, alpha * S);
    SquareOfProducts(A, j * S);
    assert A * (alpha * S) == (alpha * A) * S && A * (j * S) == (j * A) * S;
  }

  lemma WidthBalance(aa: real, x: real, y: real, t: real)
    requires aa != 1.0 && Times(aa, t) == y
    ensures 4.0 * (x + Times(aa, y)) == Times(aa, 4.0 * (x + t)) <==> x == y
  {
    Spread3(aa, x, t, 0.0);
    assert aa * (4.0 * (x + t)) == 4.0 * (aa * x + y);
    assert (x + aa * y) - (aa * x + y) == (1.0 - aa) * (x - y);
    ZeroProduct(1.0 - aa, x - y);
  }

  /** e^2 + (alpha A S)^2 is A^2 times e^2 + (alpha S / A)^2 exactly when e is plus or minus alpha S. */
  lemma WidthIff(e: real, S: real, alpha: real, A: real)
    requires A > 0.0 && A != 1.0
    ensures 4.0 * (Times(e, e) + Times(Times(Times(alpha, A), S), Times(Times(alpha, A), S)))
            == Times(Times(A, A), 4.0 * (Times(e, e) + Times(Times(alpha / A, S), Times(alpha / A, S))))
       <==> e == Times(alpha, S) || e == -Times(alpha, S)
  {
    WidthTerms(S, alpha, A);
    NotOne(A);
    assert Times(A, A) != 1.0;
    hide Times;
    var y := Times(Times(alpha, S), Times(alpha, S));
    WidthBalance(Times(A, A), Times(e, e), y, Times(Times(alpha / A, S), Times(alpha / A, S)));
    SameSquare(e, Times(alpha, S));
  }

  lemma NotOne(A: real)
    requires A > 0.0 && A != 1.0
    ensures A * A != 1.0
  {
    if A > 1.0 {
      TimesPositive(A - 1.0, A + 1.0);
    } else {
      TimesPositive(1.0 - A, A + 1.0);
    }
  }

  lemma ScaledEquality(n: real, u: real, v: real, k: real)
    requires n > 0.0
    ensures Times(n, u) == Times(k, Times(n, v)) <==> u == Times(k, v)
    ensures Times(n, u) > 0.0 && u >= 0.0 ==> u > 0.0
  {
    Outwards(n, k, v);
    if u != k * v && n * u == n * (k * v) { CancelRight(u, k * v, n); }
  }

  lemma Outwards(n: real, k: real, v: real)
    ensures k * (n * v) == n * (k * v)
  {
  }

  lemma NormScaled(a: real, x: Complex, y: Complex, k: real)
    requires a > 0.0
    ensures NormSquared(Mul(Real(a), x)) == Times(k, NormSquared(Mul(Real(a), y))) <==> NormSquared(x) == Times(k, NormSquared(y))
    ensures NormSquared(Mul(Real(a), x)) > 0.0 ==> NormSquared(x) > 0.0
  {
    NormOfProduct(Real(a), x);
    NormOfProduct(Real(a), y);
    NormPositive(Real(a));
    SquareSign(x.re);
    SquareSign(x.im);
    assert NormSquared(x) >= 0.0;
    hide Mul, Times, NormSquared;
    ScaledEquality(NormSquared(Real(a)), NormSquared(x), NormSquared(y), k);
  }

  lemma DenominatorIsNotZero(c: real, C: real, S: real, j: real)
    requires -1.0 < c < 1.0 && j > 0.0 && Times(C, C) + Times(S, S) == 1.0
    ensures 4.0 * (Times(C - c, C - c) + Times(Times(j, S), Times(j, S))) > 0.0
  {
    SquareSign(C - c);
    SquareSign(Times(j, S));
    if C == c {
      TimesPositive(1.0 - c, 1.0 + c);
      assert S != 0.0;
      ZeroProduct(j, S);
    }
  }

  /** How wide a peaking band is: at an angle `t` its gain is the amplitude, half the decibels asked for,
      exactly where cos t and cos w differ by sin w sin t over twice the quality factor. */
  lemma PeakingWidth(m: Maths, frequency: real, gainDb: real, q: real, sampleRate: real, w: real, Q: real, t: real)
    requires Sound(m) && sampleRate * 0.49 >= 1.0 && Asked(m, frequency, q, sampleRate, w, Q) && gainDb != 0.0
    ensures var d := Design(m, Peaking, frequency, gainDb, q, sampleRate);
            var z, A := Complex(m.cos(t), -m.sin(t)), m.amplitude(gainDb);
            var difference, product := m.cos(t) - m.cos(w), Times(m.sin(w), m.sin(t));
            && NormSquared(Denominator(Monic(d), z)) > 0.0
            && (NormSquared(Numerator(Monic(d), z)) == Times(Times(A, A), NormSquared(Denominator(Monic(d), z)))
                <==> 2.0 * Times(Q, difference) == product || 2.0 * Times(Q, difference) == -product)
  {
    var A := m.amplitude(gainDb);
    SettingsAreAdmissible(m, frequency, gainDb, q, sampleRate);
    DesignIsAsked(m, frequency, q, sampleRate, w, Q);
    var c, s, alpha := m.cos(w), m.sin(w), Alpha(m, w, q);
    CookbookIsStable(Peaking, c, alpha, A, m.sqrt(A));
    var C, S := m.cos(t), m.sin(t);
    var p, z := Cookbook(Peaking, c, alpha, A, m.sqrt(A)), Complex(C, -S);
    Quotient(alpha, A);
    hide Sound, Angle, Alpha, Normalised, Asked, Numerator, Denominator, NormSquared, Times;
    PeakingHalves(c, C, S, alpha, A, m.sqrt(A));
    NormalisedHalf(p, z);
    hide Cookbook;
    DenominatorIsNotZero(c, C, S, alpha / A);
    WidthIff(C - c, S, alpha, A);
    WidthOfQ(C - c, s, S, alpha, Q);
    NormScaled(p.a0, Numerator(Monic(Normalised(p)), z), Denominator(Monic(Normalised(p)), z), Times(A, A));
    NormScaled(p.a0, Denominator(Monic(Normalised(p)), z), Denominator(Monic(Normalised(p)), z), 1.0);
  }

  lemma WidthOfQ(e: real, s: real, S: real, alpha: real, Q: real)
    requires Q > 0.0 && 2.0 * Times(Q, alpha) == s
    ensures e == Times(alpha, S) <==> 2.0 * Times(Q, e) == Times(s, S)
    ensures e == -Times(alpha, S) <==> 2.0 * Times(Q, e) == -Times(s, S)
  {
    assert s * S == 2.0 * (Q * (alpha * S));
    if Q * e == Q * (alpha * S) { CancelRight(e, alpha * S, Q); }
    if Q * e == -(Q * (alpha * S)) {
      assert Q * -(alpha * S) == -(Q * (alpha * S));
      CancelRight(e, -(alpha * S), Q);
    }
  }
}
