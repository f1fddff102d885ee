/** A cut undoes a boost: a band at some gain followed by the same band at the opposite gain. */
module CutAndBoost {
  import opened Complexes
  import opened Convolution
  import opened EqDesign
  import opened Biquad

  /** `d` has the transfer function of `c` turned upside down. */
  predicate Inverts(c: Coefficients, d: Coefficients) {
    && Times(d.b0, c.b0) == 1.0
    && d.b1 == Times(c.a1, d.b0) && d.b2 == Times(c.a2, d.b0)
    && d.a1 == Times(c.b1, d.b0) && d.a2 == Times(c.b2, d.b0)
  }

  lemma InverseCombines(c: Coefficients, d: Coefficients, x0: real, x1: real, x2: real, y1: real, y2: real)
    requires Inverts(c, d)
    ensures Combine(d, Combine(c, x0, x1, x2, y1, y2), y1, y2, x1, x2) == x0
  {
    var v := d.b0;
    Undo(v, c.b0, x0);
    Undone(v, c.b1, x1);
    Undone(v, c.b2, x2);
    Undone(v, c.a1, y1);
    Undone(v, c.a2, y2);
    Spread(v, Times(c.b0, x0), Times(c.b1, x1), Times(c.b2, x2), Times(c.a1, y1), Times(c.a2, y2));
    hide Times;
  }

  lemma Undo(v: real, b: real, x: real)
    requires Times(v, b) == 1.0
    ensures Times(v, Times(b, x)) == x
  {
    assert v * (b * x) == (v * b) * x;
  }

  lemma Undone(v: real, b: real, x: real)
    ensures Times(v, Times(b, x)) == Times(Times(b, v), x)
  {
  }

  lemma Spread(v: real, p: real, q: real, r: real, s: real, t: real)
    ensures Times(v, p + q + r - s - t) == Times(v, p) + Times(v, q) + Times(v, r) - Times(v, s) - Times(v, t)
  {
  }

  /** From rest, an inverse section gives back every input. */
  lemma InverseUndoes(c: Coefficients, d: Coefficients, x: seq<real>)
    requires Inverts(c, d)
    ensures Run(AtRest(d), Run(AtRest(c), x).0).0 == x
  {
    hide Inverts, Combine, Run, AtRest;
    var y := Run(AtRest(c), x).0;
    RunIsTheSolution(c, x, y);
    forall n | 0 <= n < |y|
      ensures x[n] == Combine(d, y[n], At(y, n - 1), At(y, n - 2), At(x, n - 1), At(x, n - 2))
    {
      InverseCombines(c, d, x[n], At(x, n - 1), At(x, n - 2), At(y, n - 1), At(y, n - 2));
    }
    RunIsTheSolution(d, y, x);
  }

  /** `q` is `p` with numerator and denominator exchanged, up to a common factor. */
  predicate Exchanged(p: Prototype, q: Prototype, k: real) {
    && k > 0.0 && p.a0 > 0.0 && p.b0 > 0.0
    && q.b0 == Times(k, p.a0) && q.b1 == Times(k, p.a1) && q.b2 == Times(k, p.a2)
    && q.a0 == Times(k, p.b0) && q.a1 == Times(k, p.b1) && q.a2 == Times(k, p.b2)
  }

  lemma CommonFactor(k: real, x: real, y: real)
    requires k > 0.0 && y > 0.0
    ensures Times(k, y) > 0.0 && Times(k, x) / Times(k, y) == x / y
  {
    TimesPositive(k, y);
    var r := x / y;
    assert r * y == x;
    assert (k * x) == r * (k * y);
  }

  lemma RatioOfRatios(x: real, a: real, b: real)
    requires a > 0.0 && b > 0.0
    ensures x / b == Times(x / a, a / b)
    ensures Times(a / b, b / a) == 1.0
  {
    var r, u := x / a, a / b;
    assert r * a == x && u * b == a;
    assert x == (r * u) * b;
    var w := b / a;
    assert w * a == b;
    Regroup(u, w, a);
    assert Times(w, a) == b && Times(u, b) == a;
    CancelFactor(Times(u, w), a);
  }

  lemma Regroup(u: real, w: real, a: real)
    ensures Times(Times(u, w), a) == Times(u, Times(w, a))
  {
  }

  lemma CancelFactor(t: real, p: real)
    requires p > 0.0 && Times(t, p) == p
    ensures t == 1.0
  {
    if t > 1.0 {
      TimesPositive(t - 1.0, p);
    } else if t < 1.0 {
      TimesPositive(1.0 - t, p);
    }
  }

  lemma ExchangedInverts(p: Prototype, q: Prototype, k: real)
    requires Exchanged(p, q, k)
    ensures q.a0 > 0.0 && Inverts(Normalised(p), Normalised(q))
  {
    CommonFactor(k, p.a0, p.b0);
    CommonFactor(k, p.a1, p.b0);
    CommonFactor(k, p.a2, p.b0);
    CommonFactor(k, p.b1, p.b0);
    CommonFactor(k, p.b2, p.b0);
    RatioOfRatios(p.a1, p.a0, p.b0);
    RatioOfRatios(p.a2, p.a0, p.b0);
    RatioOfRatios(p.b1, p.a0, p.b0);
    RatioOfRatios(p.b2, p.a0, p.b0);
    hide Times;
  }

  // ------------------------------------------------------ the three types with a gain

  predicate HasGain(t: FilterType) {
    t == Peaking || t == LowShelf || t == HighShelf
  }

  lemma Reciprocals(A: real, B: real, a: real, b: real)
    requires A > 0.0 && B > 0.0 && a > 0.0 && b > 0.0
    requires Times(A, B) == 1.0 && Times(a, a) == A && Times(b, b) == B
    ensures Times(a, b) == 1.0 && Times(B, a) == b && Times(A, b) == a
  {
    var r := a * b;
    assert r * r == (a * a) * (b * b);
    TimesPositive(a, b);
    assert (a * a) * (b * b) == A * B;
    if r > 1.0 {
      TimesPositive(r - 1.0, r + 1.0);
    } else if r < 1.0 {
      TimesPositive(1.0 - r, r + 1.0);
    }
    assert (b * b) * a == b * r;
    assert (a * a) * b == a * r;
  }

  lemma PeaksExchange(c: real, alpha: real, A: real, a: real, B: real, b: real)
    requires Admissible(c, alpha, A, a) && Admissible(c, alpha, B, b) && Times(A, B) == 1.0
    ensures Exchanged(Cookbook(Peaking, c, alpha, A, a), Cookbook(Peaking, c, alpha, B, b), 1.0)
  {
    Over(alpha, A, B);
    Over(alpha, B, A);
    Quotient(alpha, A);
    TimesPositive(alpha, A);
  }

  lemma Over(x: real, A: real, B: real)
    requires A > 0.0 && Times(A, B) == 1.0
    ensures x / A == x * B
  {
    assert (x * B) * A == x;
  }

  /** The two shapes a shelf's coefficients are made of. */
  function Over1(A: real, u: real, v: real, s: real): real {
    Times(A, (A + 1.0) * u + (1.0 - A) * v + s)
  }

  function Under(A: real, u: real, v: real, s: real): real {
    (A + 1.0) * u + (A - 1.0) * v + s
  }

  function Twice(x: real, negated: bool): real {
    if negated then -2.0 * x else 2.0 * x
  }

  function ShelfForm(A: real, v: real, s: real, low: bool): Prototype {
    Prototype(Over1(A, 1.0, v, s), Twice(Over1(A, v, 1.0, 0.0), low), Over1(A, 1.0, v, -s),
              Under(A, 1.0, v, s), Twice(Under(A, v, 1.0, 0.0), low), Under(A, 1.0, v, -s))
  }

  lemma LowShelfHasForm(c: real, alpha: real, A: real, a: real)
    requires A > 0.0
    ensures Cookbook(LowShelf, c, alpha, A, a) == ShelfForm(A, c, 2.0 * a * alpha, true)
  {
    var s := 2.0 * a * alpha;
    InnerSums(A, c, s);
    InnerSums(A, c, -s);
    FactorTwo(A, (A - 1.0) - (A + 1.0) * c);
  }

  lemma HighShelfHasForm(c: real, alpha: real, A: real, a: real)
    requires A > 0.0
    ensures Cookbook(HighShelf, c, alpha, A, a) == ShelfForm(A, -c, 2.0 * a * alpha, false)
  {
    var s := 2.0 * a * alpha;
    InnerSums(A, -c, s);
    InnerSums(A, -c, -s);
    assert (A - 1.0) * -c == -((A - 1.0) * c) && (A + 1.0) * -c == -((A + 1.0) * c);
    FactorTwo(A, (A - 1.0) + (A + 1.0) * c);
  }

  lemma InnerSums(A: real, v: real, s: real)
    ensures (A + 1.0) * 1.0 + (1.0 - A) * v + s == (A + 1.0) - (A - 1.0) * v + s
    ensures (A + 1.0) * 1.0 + (A - 1.0) * v + s == (A + 1.0) + (A - 1.0) * v + s
    ensures (A + 1.0) * v + (1.0 - A) * 1.0 + 0.0 == -((A - 1.0) - (A + 1.0) * v)
    ensures (A + 1.0) * v + (A - 1.0) * 1.0 + 0.0 == (A - 1.0) + (A + 1.0) * v
  {
  }

  lemma FactorTwo(A: real, x: real)
    ensures 2.0 * A * x == 2.0 * Times(A, x) && -2.0 * A * x == -2.0 * Times(A, x) && Times(A, -x) == -Times(A, x)
  {
  }

  lemma ShelfTerm(A: real, B: real, u: real, v: real, s: real, t: real)
    requires Times(A, B) == 1.0 && t == Times(B, s)
    ensures Over1(B, u, v, t) == Times(Times(B, B), Under(A, u, v, s))
  {
    assert B * ((A + 1.0) * u + (A - 1.0) * v + s) == (A * B + B) * u + (A * B - B) * v + B * s;
  }

  lemma ShelfTermBack(A: real, B: real, u: real, v: real, s: real, t: real)
    requires Times(A, B) == 1.0 && s == Times(A, t)
    ensures Under(B, u, v, t) == Times(Times(B, B), Over1(A, u, v, s))
  {
    ShelfTerm(B, A, u, v, t, s);
    Unscale(A, B, Under(B, u, v, t));
    hide Times;
  }

  lemma Unscale(A: real, B: real, x: real)
    requires Times(A, B) == 1.0
    ensures Times(Times(B, B), Times(Times(A, A), x)) == x
  {
    assert (B * B) * ((A * A) * x) == (A * B) * ((A * B) * x);
  }

  lemma TimesTwiceSigned(k: real, x: real, low: bool)
    ensures Times(k, Twice(x, low)) == Twice(Times(k, x), low)
  {
  }

  lemma FormsExchange(A: real, B: real, v: real, s: real, t: real, low: bool)
    requires Times(A, B) == 1.0 && t == Times(B, s) && s == Times(A, t)
    requires B > 0.0 && ShelfForm(A, v, s, low).a0 > 0.0 && ShelfForm(A, v, s, low).b0 > 0.0
    ensures Exchanged(ShelfForm(A, v, s, low), ShelfForm(B, v, t, low), Times(B, B))
  {
    hide Times, Over1, Under, Twice;
    TimesPositive(B, B);
    TimesNegative(B, s);
    TimesNegative(A, t);
    ShelfTerm(A, B, 1.0, v, s, t);
    ShelfTerm(A, B, 1.0, v, -s, -t);
    ShelfTerm(A, B, v, 1.0, 0.0, 0.0);
    ShelfTermBack(A, B, 1.0, v, s, t);
    ShelfTermBack(A, B, 1.0, v, -s, -t);
    ShelfTermBack(A, B, v, 1.0, 0.0, 0.0);
    TimesTwiceSigned(Times(B, B), Under(A, v, 1.0, 0.0), low);
    TimesTwiceSigned(Times(B, B), Over1(A, v, 1.0, 0.0), low);
  }

  lemma ShelfLeads(A: real, v: real, s: real, low: bool)
    requires A > 0.0 && -1.0 < v < 1.0 && s > 0.0
    ensures ShelfForm(A, v, s, low).a0 > 0.0 && ShelfForm(A, v, s, low).b0 > 0.0
  {
    ShelfTerms(A, v);
    var x := (A + 1.0) + (1.0 - A) * v;
    assert x == (A + 1.0) - (A - 1.0) * v;
    TimesPositive(A, x + s);
  }

  lemma ShelvesExchange(low: bool, c: real, alpha: real, A: real, a: real, B: real, b: real)
    requires Admissible(c, alpha, A, a) && Admissible(c, alpha, B, b)
    requires Times(A, B) == 1.0 && Times(a, a) == A && Times(b, b) == B
    ensures var t := if low then LowShelf else HighShelf;
            Exchanged(Cookbook(t, c, alpha, A, a), Cookbook(t, c, alpha, B, b), Times(B, B))
  {
    Reciprocals(A, B, a, b);
    if low {
      LowShelfHasForm(c, alpha, A, a);
      LowShelfHasForm(c, alpha, B, b);
    } else {
      HighShelfHasForm(c, alpha, A, a);
      HighShelfHasForm(c, alpha, B, b);
    }
    var s, t := 2.0 * a * alpha, 2.0 * b * alpha;
    assert t == Times(B, s) by { Slope(B, a, alpha); }
    assert s == Times(A, t) by { Slope(A, b, alpha); }
    TimesPositive(a, alpha);
    hide *;
    ShelfLeads(A, if low then c else -c, s, low);
    FormsExchange(A, B, if low then c else -c, s, t, low);
  }

  lemma Slope(B: real, a: real, alpha: real)
    ensures Times(B, 2.0 * a * alpha) == 2.0 * Times(B, a) * alpha
  {
  }

  lemma DesignsInvert(m: Maths, t: FilterType, frequency: real, gainDb: real, q: real, sampleRate: real)
    requires Sound(m) && sampleRate * 0.49 >= 1.0 && HasGain(t)
    ensures Inverts(Design(m, t, frequency, gainDb, q, sampleRate), Design(m, t, frequency, -gainDb, q, sampleRate))
  {
    hide Angle, Alpha, Cookbook, Exchanged, Inverts, Normalised, Admissible;
    SettingsAreAdmissible(m, frequency, gainDb, q, sampleRate);
    SettingsAreAdmissible(m, frequency, -gainDb, q, sampleRate);
    var w := Angle(m, frequency, sampleRate);
    var c, alpha := m.cos(w), Alpha(m, w, q);
    var A, B := m.amplitude(gainDb), m.amplitude(-gainDb);
    var a, b := m.sqrt(A), m.sqrt(B);
    assert Times(A, B) == 1.0 && Times(a, a) == A && Times(b, b) == B;
    hide Sound;
    if t == Peaking {
      PeaksExchange(c, alpha, A, a, B, b);
      ExchangedInverts(Cookbook(t, c, alpha, A, a), Cookbook(t, c, alpha, B, b), 1.0);
    } else {
      ShelvesExchange(t == LowShelf, c, alpha, A, a, B, b);
      ExchangedInverts(Cookbook(t, c, alpha, A, a), Cookbook(t, c, alpha, B, b), Times(B, B));
    }
  }

  /** Peaking and shelf bands: a boost followed by the cut of the same size, at any frequency and Q,
      gives back every input exactly. */
  lemma CutUndoesBoost(m: Maths, t: FilterType, frequency: real, gainDb: real, q: real, sampleRate: real, x: seq<real>)
    requires Sound(m) && sampleRate * 0.49 >= 1.0 && HasGain(t)
    ensures var boost := AtRest(Design(m, t, frequency, gainDb, q, sampleRate));
            var cut := AtRest(Design(m, t, frequency, -gainDb, q, sampleRate));
            Run(cut, Run(boost, x).0).0 == x
  {
    hide Design, Sound, Inverts, Run, AtRest;
    DesignsInvert(m, t, frequency, gainDb, q, sampleRate);
    InverseUndoes(Design(m, t, frequency, gainDb, q, sampleRate), Design(m, t, frequency, -gainDb, q, sampleRate), x);
  }
}
