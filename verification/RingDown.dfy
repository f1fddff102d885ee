/** A stable section left to itself: its free oscillation dies out geometrically. */
module RingDown {
  import opened Complexes
  import opened EqDesign
  import opened EqTones

  function Square(x: real): (s: real)
    ensures s >= 0.0
  {
    SquareSign(x);
    Times(x, x)
  }

  /** What is stored in the last two values of an oscillation. */
  function Energy(a1: real, a2: real, e: real, f: real): real {
    Times(1.0 + a2, Square(e) + Square(f)) + 2.0 * Times(a1, Times(e, f))
  }

  function NextValue(a1: real, a2: real, e: real, f: real): real {
    -Times(a1, e) - Times(a2, f)
  }

  /** One step loses exactly this much. */
  lemma EnergyLoss(a1: real, a2: real, e: real, f: real)
    ensures Energy(a1, a2, e, f) - Energy(a1, a2, NextValue(a1, a2, e, f), e)
         == Times(1.0 - a2, Square(Times(a1, e) + Times(1.0 + a2, f)))
  {
  }

  predicate InTriangle(a1: real, a2: real) {
    -1.0 < a2 < 1.0 && -(1.0 + a2) < a1 < 1.0 + a2
  }

  lemma SquareOfSum(e: real, f: real)
    ensures Square(e + f) == Square(e) + Square(f) + 2.0 * Times(e, f)
    ensures Square(e - f) == Square(e) + Square(f) - 2.0 * Times(e, f)
  {
  }

  lemma TimesSigned(k: real, x: real)
    ensures k >= 0.0 && x >= 0.0 ==> Times(k, x) >= 0.0
    ensures k > 0.0 && x > 0.0 ==> Times(k, x) > 0.0
  {
  }

  /** The energy lies between two multiples of the sum of squares. */
  lemma EnergyBounds(a1: real, a2: real, e: real, f: real)
    requires InTriangle(a1, a2)
    ensures Energy(a1, a2, e, f) <= Times(2.0 * (1.0 + a2), Square(e) + Square(f))
    ensures Energy(a1, a2, e, f) >= 0.0
    ensures e != 0.0 || f != 0.0 ==> Energy(a1, a2, e, f) > 0.0
  {
    var s, p := Square(e) + Square(f), Times(e, f);
    SquareOfSum(e, f);
    assert -s <= 2.0 * p <= s;
    SquareSign(e);
    SquareSign(f);
    Weigh(1.0 + a2, a1, s, p);
  }

  lemma Mix(k: real, a: real, s: real, p: real)
    ensures Times(k - a, s - 2.0 * p) + Times(k + a, s + 2.0 * p) == 2.0 * Times(k, s) + 4.0 * Times(a, p)
    ensures Times(k - a, s + 2.0 * p) + Times(k + a, s - 2.0 * p) == 2.0 * Times(k, s) - 4.0 * Times(a, p)
    ensures Times(2.0 * k, s) == 2.0 * Times(k, s)
  {
  }

  /** |2 p| <= s and |a| < k give 0 <= k s + 2 a p <= 2 k s. */
  lemma Weigh(k: real, a: real, s: real, p: real)
    requires -k < a < k && -s <= 2.0 * p <= s && s >= 0.0
    ensures 0.0 <= Times(k, s) + 2.0 * Times(a, p) <= Times(2.0 * k, s)
    ensures s > 0.0 ==> Times(k, s) + 2.0 * Times(a, p) > 0.0
  {
    hide Times;
    Mix(k, a, s, p);
    TimesSigned(k - a, s - 2.0 * p);
    TimesSigned(k + a, s + 2.0 * p);
    TimesSigned(k - a, s + 2.0 * p);
    TimesSigned(k + a, s - 2.0 * p);
  }

  // ------------------------------------------------------ two steps

  /** w1 = p e + q f and w2 = r e + s f determine e and f: their squares bound those of e and f. */
  lemma TwoForms(p: real, q: real, r: real, s: real, e: real, f: real)
    ensures var d := Times(p, s) - Times(q, r);
            var w1, w2 := Times(p, e) + Times(q, f), Times(r, e) + Times(s, f);
            Times(Square(d), Square(e) + Square(f))
            <= Times(Square(p) + Square(q) + Square(r) + Square(s), Square(w1) + Square(w2))
  {
    var d := Times(p, s) - Times(q, r);
    var w1, w2 := Times(p, e) + Times(q, f), Times(r, e) + Times(s, f);
    Solved(p, q, r, s, e, f);
    CauchySchwarz(s, -q, w1, w2);
    CauchySchwarz(-r, p, w1, w2);
    SquareOfProduct(d, e);
    SquareOfProduct(d, f);
    Collect(Square(d), Square(e), Square(f));
    SquareOfProduct(q, 0.0);
    SquareOfProduct(r, 0.0);
    var w, total := Square(w1) + Square(w2), Square(p) + Square(q) + Square(r) + Square(s);
    Collect(w, Square(s) + Square(q), Square(r) + Square(p));
    Collect(w, total, 0.0);
    assert Square(s) + Square(q) + (Square(r) + Square(p)) == total;
    hide Times, Square;
  }

  lemma Solved(p: real, q: real, r: real, s: real, e: real, f: real)
    ensures var d := Times(p, s) - Times(q, r);
            var w1, w2 := Times(p, e) + Times(q, f), Times(r, e) + Times(s, f);
            && Times(d, e) == Times(s, w1) + Times(-q, w2)
            && Times(d, f) == Times(-r, w1) + Times(p, w2)
  {
  }

  lemma CauchySchwarz(a: real, b: real, x: real, y: real)
    ensures Square(Times(a, x) + Times(b, y)) <= Times(Square(x) + Square(y), Square(a) + Square(b))
  {
    var o := a * y - b * x;
    SquareSign(o);
    assert (a * x + b * y) * (a * x + b * y) + o * o == (x * x + y * y) * (a * a + b * b);
  }

  lemma SquareOfProduct(d: real, e: real)
    ensures Square(Times(d, e)) == Times(Square(d), Square(e)) && Square(-d) == Square(d)
  {
  }

  lemma Collect(k: real, x: real, y: real)
    ensures Times(k, x + y) == Times(k, x) + Times(k, y) && Times(k, x) == Times(x, k)
  {
  }

  // ------------------------------------------------------ geometric decay

  /** The forms whose squares two steps lose, and their determinant. */
  function Determinant(a1: real, a2: real): real {
    Times(a1, -Times(a1, a2)) - Times(1.0 + a2, 1.0 + a2 - Times(a1, a1))
  }

  function Weight(a1: real, a2: real): real {
    Square(a1) + Square(1.0 + a2) + Square(1.0 + a2 - Times(a1, a1)) + Square(-Times(a1, a2))
  }

  lemma DeterminantIsNotZero(a1: real, a2: real)
    requires InTriangle(a1, a2)
    ensures Square(Determinant(a1, a2)) > 0.0 && Weight(a1, a2) > 0.0
  {
    TimesSigned(1.0 + a2 - a1, 1.0 + a2 + a1);
    assert Determinant(a1, a2) == -Times(1.0 + a2 - a1, 1.0 + a2 + a1);
    SquareSign(Determinant(a1, a2));
    SquareSign(1.0 + a2);
  }

  lemma SecondForm(a1: real, a2: real, e: real, f: real)
    ensures Times(a1, NextValue(a1, a2, e, f)) + Times(1.0 + a2, e)
         == Times(1.0 + a2 - Times(a1, a1), e) + Times(-Times(a1, a2), f)
  {
  }

  /** What two steps lose is at least this share of the sum of squares. */
  lemma TwoStepLoss(a1: real, a2: real, e: real, f: real)
    requires InTriangle(a1, a2)
    ensures var g := NextValue(a1, a2, e, f);
            Times(Weight(a1, a2), Energy(a1, a2, e, f) - Energy(a1, a2, NextValue(a1, a2, g, e), g))
            >= Times(1.0 - a2, Times(Square(Determinant(a1, a2)), Square(e) + Square(f)))
  {
    var g := NextValue(a1, a2, e, f);
    var w1, w2 := Times(a1, e) + Times(1.0 + a2, f), Times(a1, g) + Times(1.0 + a2, e);
    EnergyLoss(a1, a2, e, f);
    EnergyLoss(a1, a2, g, e);
    SecondForm(a1, a2, e, f);
    TwoForms(a1, 1.0 + a2, 1.0 + a2 - Times(a1, a1), -Times(a1, a2), e, f);
    Collect(1.0 - a2, Square(w1), Square(w2));
    var w, total := Square(w1) + Square(w2), Weight(a1, a2);
    var d := Times(Square(Determinant(a1, a2)), Square(e) + Square(f));
    Scale3(1.0 - a2, total, w, d);
    hide Times, Square, Energy, NextValue;
  }

  lemma Scale3(k: real, total: real, w: real, d: real)
    requires k >= 0.0 && d <= Times(total, w)
    ensures Times(total, Times(k, w)) >= Times(k, d)
  {
    TimesSigned(k, Times(total, w) - d);
  }

  /** The share of its energy an oscillation loses at least in two steps. */
  function LossRate(a1: real, a2: real): real
    requires InTriangle(a1, a2)
  {
    DeterminantIsNotZero(a1, a2);
    Times(1.0 - a2, Square(Determinant(a1, a2))) / Weight(a1, a2) / (2.0 * (1.0 + a2))
  }

  /** w (x - y) >= l s and x <= k s give x - y >= (l / w / k) x. */
  lemma ShareLost(w: real, k: real, l: real, s: real, x: real, y: real)
    requires w > 0.0 && k > 0.0 && l > 0.0
    requires Times(w, x - y) >= Times(l, s) && x <= Times(k, s)
    ensures l / w / k > 0.0 && x - y >= Times(l / w / k, x)
  {
    var u := l / w;
    var v := u / k;
    assert u * w == l && v * k == u;
    Quotient(l, w);
    Quotient(u, k);
    TimesSigned(v, Times(k, s) - x);
    assert Times(v, Times(k, s) - x) == Times(u, s) - Times(v, x);
    assert Times(l, s) == Times(w, Times(u, s));
    if x - y < Times(u, s) {
      TimesSigned(w, Times(u, s) - (x - y));
    }
  }

  lemma TwoStepsLose(a1: real, a2: real, e: real, f: real)
    requires InTriangle(a1, a2)
    ensures var g := NextValue(a1, a2, e, f);
            LossRate(a1, a2) > 0.0
            && Energy(a1, a2, NextValue(a1, a2, g, e), g) <= Times(1.0 - LossRate(a1, a2), Energy(a1, a2, e, f))
  {
    var g := NextValue(a1, a2, e, f);
    var x, y, s := Energy(a1, a2, e, f), Energy(a1, a2, NextValue(a1, a2, g, e), g), Square(e) + Square(f);
    DeterminantIsNotZero(a1, a2);
    TwoStepLoss(a1, a2, e, f);
    EnergyBounds(a1, a2, e, f);
    var d := Square(Determinant(a1, a2));
    TimesSigned(1.0 - a2, d);
    Regrouped(1.0 - a2, d, s);
    hide Energy, NextValue, Determinant, Weight, Square;
    ShareLost(Weight(a1, a2), 2.0 * (1.0 + a2), Times(1.0 - a2, d), s, x, y);
    Rest(LossRate(a1, a2), x);
    hide Times;
  }

  lemma Regrouped(k: real, d: real, s: real)
    ensures Times(Times(k, d), s) == Times(k, Times(d, s))
  {
  }

  lemma Rest(r: real, x: real)
    ensures Times(1.0 - r, x) == x - Times(r, x)
  {
  }

  lemma AtMostOne(r: real, x: real)
    requires x > 0.0 && Times(1.0 - r, x) >= 0.0
    ensures r <= 1.0
  {
    if r > 1.0 {
      TimesSigned(r - 1.0, x);
    }
  }

  lemma LossRateIsShare(a1: real, a2: real)
    requires InTriangle(a1, a2)
    ensures 0.0 < LossRate(a1, a2) <= 1.0
  {
    hide LossRate, Energy, NextValue, Times;
    TwoStepsLose(a1, a2, 1.0, 0.0);
    EnergyBounds(a1, a2, 1.0, 0.0);
    var g := NextValue(a1, a2, 1.0, 0.0);
    EnergyBounds(a1, a2, NextValue(a1, a2, g, 1.0), g);
    AtMostOne(LossRate(a1, a2), Energy(a1, a2, 1.0, 0.0));
  }

  function Power(r: real, k: nat): real {
    if k == 0 then 1.0 else Times(r, Power(r, k - 1))
  }

  /** The energy left after 2k steps is at most the k-th power of the share kept in two. */
  lemma {:induction false} EnergyDecays(d: Coefficients, e: seq<real>, k: nat)
    requires InTriangle(d.a1, d.a2) && Rings(d, e) && 2 * k + 1 < |e|
    ensures Energy(d.a1, d.a2, e[2 * k + 1], e[2 * k])
         <= Times(Power(1.0 - LossRate(d.a1, d.a2), k), Energy(d.a1, d.a2, e[1], e[0]))
  {
    hide Energy, LossRate, InTriangle;
    var r, first := 1.0 - LossRate(d.a1, d.a2), Energy(d.a1, d.a2, e[1], e[0]);
    if k == 0 {
      assert Times(1.0, first) == first;
    } else {
      EnergyDecays(d, e, k - 1);
      LossRateIsShare(d.a1, d.a2);
      var n := 2 * k - 1;
      assert RingsAt(d, e, n + 1) && RingsAt(d, e, n + 2);
      TwoStepsLose(d.a1, d.a2, e[n], e[n - 1]);
      hide NextValue, Rings, RingsAt;
      KeptAgain(r, Energy(d.a1, d.a2, e[n], e[n - 1]), Power(r, k - 1), first);
    }
  }

  lemma KeptAgain(r: real, x: real, p: real, first: real)
    requires r >= 0.0 && x <= Times(p, first)
    ensures Times(r, x) <= Times(Times(r, p), first)
  {
    TimesSigned(r, Times(p, first) - x);
  }

  /** Whatever band a client asks for: its free oscillation loses at least the same positive share of
      its energy every two samples, and a silent oscillation is the only one without energy. */
  lemma EveryBandDiesOut(m: Maths, t: FilterType, frequency: real, gainDb: real, q: real, sampleRate: real,
                         e: seq<real>, k: nat)
    requires Sound(m) && sampleRate * 0.49 >= 1.0 && 2 * k + 1 < |e|
    ensures var d := Design(m, t, frequency, gainDb, q, sampleRate);
            InTriangle(d.a1, d.a2) && 0.0 < LossRate(d.a1, d.a2) <= 1.0
    ensures var d := Design(m, t, frequency, gainDb, q, sampleRate);
            Rings(d, e) ==>
              && 0.0 <= Energy(d.a1, d.a2, e[2 * k + 1], e[2 * k])
                 <= Times(Power(1.0 - LossRate(d.a1, d.a2), k), Energy(d.a1, d.a2, e[1], e[0]))
              && (Energy(d.a1, d.a2, e[2 * k + 1], e[2 * k]) == 0.0 <==> e[2 * k] == e[2 * k + 1] == 0.0)
  {
    hide Cookbook, Triangle, Angle, Alpha, Sound, Rings, Normalised, LossRate, Power;
    SettingsAreAdmissible(m, frequency, gainDb, q, sampleRate);
    var w := Angle(m, frequency, sampleRate);
    var A := m.amplitude(gainDb);
    CookbookIsStable(t, m.cos(w), Alpha(m, w, q), A, m.sqrt(A));
    NormalisedTriangle(Cookbook(t, m.cos(w), Alpha(m, w, q), A, m.sqrt(A)));
    var d := Design(m, t, frequency, gainDb, q, sampleRate);
    hide Admissible, Band, Design;
    LossRateIsShare(d.a1, d.a2);
    EnergyBounds(d.a1, d.a2, e[2 * k + 1], e[2 * k]);
    NoEnergy(d.a1, d.a2);
    if Rings(d, e) {
      EnergyDecays(d, e, k);
    }
    hide Energy;
  }

  lemma NoEnergy(a1: real, a2: real)
    ensures Energy(a1, a2, 0.0, 0.0) == 0.0
  {
  }
}
