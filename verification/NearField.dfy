/** The proximity correction of a source: how much louder each ear hears its low frequencies. The
    square root comes in as a function, the low-pass taps as an argument. */
module NearField {
  import opened Complexes
  import opened Convolution

  const HEAD_RADIUS: real := 0.0875
  const MIN_DISTANCE: real := 0.3
  const MAX_DISTANCE: real := 3.0
  const REFERENCE_DISTANCE: real := 1.0

  datatype HrtfFilter = HrtfFilter(left: seq<real>, right: seq<real>, delayLeft: real, delayRight: real)

  ghost predicate IsRoot(sqrt: real -> real) {
    forall x | x > 0.0 :: sqrt(x) > 0.0 && Times(sqrt(x), sqrt(x)) == x
  }

  // ------------------------------------------------------ azimuth

  function Truncate(x: real): int {
    if x >= 0.0 then x.Floor else -((-x).Floor)
  }

  /** The remainder with the sign of the dividend. */
  function Fmod(x: real, m: real): real
    requires m > 0.0
  {
    x - m * Truncate(x / m) as real
  }

  function NormalizeAzimuthDegrees(azimuth: real): real {
    var a := Fmod(azimuth, 360.0);
    if a > 180.0 then a - 360.0 else if a <= -180.0 then a + 360.0 else a
  }

  /** Any azimuth is brought into one turn without changing the direction. */
  lemma AzimuthIsNormalized(azimuth: real) returns (turns: int)
    ensures -180.0 < NormalizeAzimuthDegrees(azimuth) <= 180.0
    ensures NormalizeAzimuthDegrees(azimuth) == azimuth + 360.0 * turns as real
  {
    var q := azimuth / 360.0;
    assert q * 360.0 == azimuth;
    var a := Fmod(azimuth, 360.0);
    assert -360.0 < a < 360.0;
    turns := -Truncate(q) + (if a > 180.0 then -1 else if a <= -180.0 then 1 else 0);
  }

  /** From 0 straight ahead or behind to 1 at either side. */
  function AlphaFraction(azimuth: real): real {
    (90.0 - Abs(90.0 - Abs(azimuth))) / 90.0
  }

  lemma AlphaFractionIsShare(azimuth: real)
    requires -180.0 < azimuth <= 180.0
    ensures 0.0 <= AlphaFraction(azimuth) <= 1.0
    ensures AlphaFraction(azimuth) == 0.0 <==> azimuth == 0.0 || azimuth == 180.0
    ensures AlphaFraction(azimuth) == 1.0 <==> azimuth == 90.0 || azimuth == -90.0
  {
  }

  // ------------------------------------------------------ gains

  function ClampDistance(d: real): (r: real)
    ensures MIN_DISTANCE <= r <= MAX_DISTANCE
  {
    if d < MIN_DISTANCE then MIN_DISTANCE else if d > MAX_DISTANCE then MAX_DISTANCE else d
  }

  function OnAxisDcGain(distance: real): real
    requires distance > HEAD_RADIUS
  {
    var rho := distance / HEAD_RADIUS;
    rho / (rho - 1.0)
  }

  function NearGain(distance: real): real
    requires distance > HEAD_RADIUS
  {
    OnAxisDcGain(distance) / OnAxisDcGain(REFERENCE_DISTANCE)
  }

  function FarGain(sqrt: real -> real, distance: real): real
    requires IsRoot(sqrt) && distance > HEAD_RADIUS
  {
    GainAboveOne(distance);
    GainAboveOne(REFERENCE_DISTANCE);
    sqrt(OnAxisDcGain(distance)) / sqrt(OnAxisDcGain(REFERENCE_DISTANCE))
  }

  lemma GainAboveOne(distance: real)
    requires distance > HEAD_RADIUS
    ensures OnAxisDcGain(distance) > 1.0
    ensures OnAxisDcGain(distance) == distance / (distance - HEAD_RADIUS)
  {
    var rho := distance / HEAD_RADIUS;
    assert rho * HEAD_RADIUS == distance;
    var g := rho / (rho - 1.0);
    assert g * (rho - 1.0) == rho;
    assert g * ((rho - 1.0) * HEAD_RADIUS) == rho * HEAD_RADIUS;
    assert g * (distance - HEAD_RADIUS) == distance;
    if g <= 1.0 {
      Grows(rho - 1.0, g, 1.0);
    }
  }

  lemma Grows(k: real, x: real, y: real)
    requires k > 0.0 && x <= y
    ensures Times(k, x) <= Times(k, y) && Times(x, k) <= Times(y, k)
  {
    if x < y {
      TimesPositive(k, y - x);
    }
  }

  /** (g - 1) (d - R) = R for every distance d: the gain falls as the distance grows. */
  lemma GainBalance(d: real)
    requires d > HEAD_RADIUS
    ensures Times(OnAxisDcGain(d) - 1.0, d - HEAD_RADIUS) == HEAD_RADIUS
  {
    GainAboveOne(d);
    var g := OnAxisDcGain(d);
    assert g * (d - HEAD_RADIUS) == d;
  }

  lemma CloserIsLouder(d: real, e: real)
    requires HEAD_RADIUS < d < e
    ensures OnAxisDcGain(d) > OnAxisDcGain(e)
  {
    GainAboveOne(d);
    GainAboveOne(e);
    GainBalance(d);
    GainBalance(e);
    var g, h := OnAxisDcGain(d), OnAxisDcGain(e);
    TimesPositive(h - 1.0, e - d);
    assert Times(h - 1.0, e - HEAD_RADIUS) == Times(h - 1.0, d - HEAD_RADIUS) + Times(h - 1.0, e - d);
    hide Times, OnAxisDcGain;
    if g <= h {
      Grows(d - HEAD_RADIUS, g - 1.0, h - 1.0);
    }
  }

  lemma RatioAgainstOne(x: real, y: real)
    requires y > 0.0
    ensures x / y >= 1.0 <==> x >= y
    ensures x / y <= 1.0 <==> x <= y
    ensures x > 0.0 ==> x / y > 0.0
  {
    var r := x / y;
    assert r * y == x;
    if r > 1.0 {
      TimesPositive(r - 1.0, y);
    } else if r < 1.0 {
      TimesPositive(1.0 - r, y);
    }
  }

  lemma SquareOfRatio(a: real, b: real)
    requires b > 0.0 && Times(b, b) > 0.0
    ensures Times(a / b, a / b) == Times(a, a) / Times(b, b)
  {
    var r := a / b;
    assert r * b == a;
    assert (r * r) * (b * b) == a * a;
  }

  lemma RootIsBetween(f: real, n: real)
    requires f > 0.0 && Times(f, f) == n
    ensures n >= 1.0 ==> 1.0 <= f <= n
    ensures n <= 1.0 ==> n <= f <= 1.0
  {
    if f < 1.0 {
      TimesPositive(1.0 - f, f);
    } else if f > 1.0 {
      TimesPositive(f - 1.0, f);
    }
  }

  /** Inside the reference distance both ears are boosted, the near one more; outside it both are cut,
      the near one more. */
  lemma ProximityGains(sqrt: real -> real, distance: real)
    requires IsRoot(sqrt) && distance > HEAD_RADIUS
    ensures var near, far := NearGain(distance), FarGain(sqrt, distance);
            && (distance <= REFERENCE_DISTANCE ==> 1.0 <= far <= near)
            && (distance >= REFERENCE_DISTANCE ==> near <= far <= 1.0)
  {
    GainAboveOne(distance);
    GainAboveOne(REFERENCE_DISTANCE);
    if distance < REFERENCE_DISTANCE {
      CloserIsLouder(distance, REFERENCE_DISTANCE);
    } else if distance > REFERENCE_DISTANCE {
      CloserIsLouder(REFERENCE_DISTANCE, distance);
    }
    var g, r := OnAxisDcGain(distance), OnAxisDcGain(REFERENCE_DISTANCE);
    hide OnAxisDcGain;
    RatioAgainstOne(g, r);
    RatioAgainstOne(sqrt(g), sqrt(r));
    SquareOfRatio(sqrt(g), sqrt(r));
    RootIsBetween(sqrt(g) / sqrt(r), g / r);
  }

  /** The gain of one ear, faded in with the lateral angle. */
  function EarGain(normalized: real, alphaFraction: real): real {
    1.0 + (normalized - 1.0) * alphaFraction
  }

  /** The gain of the left ear (or the right one) for a source. */
  function GainOf(sqrt: real -> real, azimuth: real, distance: real, left: bool): real
    requires IsRoot(sqrt)
  {
    var a, d := NormalizeAzimuthDegrees(azimuth), ClampDistance(distance);
    var isFar := if left then a < 0.0 else a > 0.0;
    EarGain(if isFar then FarGain(sqrt, d) else NearGain(d), AlphaFraction(a))
  }

  /** Builds a shelf for each ear: the ear on the source's side is the near one, and dead ahead or
      behind both ears are treated alike. */
  method ComputeNearFieldCorrection(sqrt: real -> real, azimuthDegrees: real, distanceMeters: real, lowpass: seq<real>)
    returns (out: HrtfFilter)
    requires IsRoot(sqrt) && lowpass != []
    ensures out.delayLeft == out.delayRight == 0.0 && |out.left| == |out.right| == |lowpass|
    ensures out.left == Shelf(GainOf(sqrt, azimuthDegrees, distanceMeters, true), lowpass)
    ensures out.right == Shelf(GainOf(sqrt, azimuthDegrees, distanceMeters, false), lowpass)
  {
    hide IsRoot;
    var distance := ClampDistance(distanceMeters);
    var azimuth := NormalizeAzimuthDegrees(azimuthDegrees);
    hide NormalizeAzimuthDegrees;
    var alphaFraction := AlphaFraction(azimuth);
    var nearEarGain := EarGain(NearGain(distance), alphaFraction);
    var farEarGain := EarGain(FarGain(sqrt, distance), alphaFraction);
    hide AlphaFraction, EarGain, NearGain, FarGain;
    var nearShelf := BuildBoostShelf(nearEarGain, lowpass);
    var farShelf := BuildBoostShelf(farEarGain, lowpass);
    if azimuth > 0.0 {
      out := HrtfFilter(nearShelf, farShelf, 0.0, 0.0);
    } else if azimuth < 0.0 {
      out := HrtfFilter(farShelf, nearShelf, 0.0, 0.0);
    } else {
      out := HrtfFilter(nearShelf, nearShelf, 0.0, 0.0);
    }
  }

  /** The point of the correction: closer than the reference distance neither ear is attenuated and
      the ear on the source's side gets at least as much boost as the other. */
  lemma NearEarGetsMore(sqrt: real -> real, azimuth: real, distance: real)
    requires IsRoot(sqrt) && distance <= REFERENCE_DISTANCE
    ensures var a := NormalizeAzimuthDegrees(azimuth);
            var left, right := GainOf(sqrt, azimuth, distance, true), GainOf(sqrt, azimuth, distance, false);
            && left >= 1.0 && right >= 1.0
            && (a >= 0.0 ==> left >= right) && (a <= 0.0 ==> right >= left)
  {
    var a, d := NormalizeAzimuthDegrees(azimuth), ClampDistance(distance);
    var turns := AzimuthIsNormalized(azimuth);
    AlphaFractionIsShare(a);
    ProximityGains(sqrt, d);
    hide IsRoot, NearGain, FarGain, AlphaFraction, NormalizeAzimuthDegrees;
    var near, far, share := NearGain(d), FarGain(sqrt, d), AlphaFraction(a);
    EarGainGrows(1.0, far, share);
    EarGainGrows(far, near, share);
  }

  lemma EarGainGrows(x: real, y: real, share: real)
    requires x <= y && 0.0 <= share
    ensures EarGain(x, share) <= EarGain(y, share) && EarGain(1.0, share) == 1.0
  {
    if share > 0.0 {
      Grows(share, x - 1.0, y - 1.0);
    }
  }

  /** Straight ahead, straight behind and at the reference distance the correction changes no stream. */
  lemma CorrectionIsIdentity(sqrt: real -> real, azimuth: real, distance: real, left: bool, lowpass: seq<real>, x: seq<real>)
    requires IsRoot(sqrt) && lowpass != []
    requires distance == REFERENCE_DISTANCE || NormalizeAzimuthDegrees(azimuth) in [0.0, 180.0]
    ensures Filtered(Shelf(GainOf(sqrt, azimuth, distance, left), lowpass), x) == x
  {
    hide Direct;
    var g := GainOf(sqrt, azimuth, distance, left);
    assert g == 1.0 by { NeutralGain(sqrt, azimuth, distance, left); }
    forall n: nat | n < |x| ensures Filtered(Shelf(1.0, lowpass), x)[n] == x[n] {
      UnityShelf(lowpass, x, n);
    }
  }

  lemma NeutralGain(sqrt: real -> real, azimuth: real, distance: real, left: bool)
    requires IsRoot(sqrt)
    requires distance == REFERENCE_DISTANCE || NormalizeAzimuthDegrees(azimuth) in [0.0, 180.0]
    ensures GainOf(sqrt, azimuth, distance, left) == 1.0
  {
    var turns := AzimuthIsNormalized(azimuth);
    AlphaFractionIsShare(NormalizeAzimuthDegrees(azimuth));
    if distance == REFERENCE_DISTANCE {
      ProximityGains(sqrt, distance);
    }
    hide IsRoot, NearGain, FarGain, AlphaFraction, NormalizeAzimuthDegrees;
  }

  // ------------------------------------------------------ the gains in numbers

  /** The angle between the source and the median plane, for a direction within one turn. */
  function Lateral(azimuth: real): real {
    var a := if azimuth < 0.0 then -azimuth else azimuth;
    if a <= 90.0 then a else 180.0 - a
  }

  /** The distance kept between 0.3 and 3 metres. */
  ghost predicate KeptAt(distance: real, d: real) {
    d == if distance < 0.3 then 0.3 else if distance > 3.0 then 3.0 else distance
  }

  lemma NearGainInNumbers(d: real)
    requires d > HEAD_RADIUS
    ensures Times(NearGain(d), d - 0.0875) == 0.9125 * d
  {
    GainAboveOne(d);
    GainAboveOne(REFERENCE_DISTANCE);
    TimesQuotient(d, d - HEAD_RADIUS);
    TimesQuotient(1.0, 0.9125);
    var g, r := OnAxisDcGain(d), OnAxisDcGain(REFERENCE_DISTANCE);
    hide OnAxisDcGain;
    TimesQuotient(g, r);
    assert g * (d - 0.0875) == d && r * 0.9125 == 1.0;
    var n := g / r;
    assert n * r == g;
    assert n * r * 0.9125 == n * (r * 0.9125) == n;
    assert n == 0.9125 * g;
  }

  lemma FarGainIsRoot(sqrt: real -> real, d: real)
    requires IsRoot(sqrt) && d > HEAD_RADIUS
    ensures FarGain(sqrt, d) > 0.0 && Times(FarGain(sqrt, d), FarGain(sqrt, d)) == NearGain(d)
  {
    GainAboveOne(d);
    GainAboveOne(REFERENCE_DISTANCE);
    var g, r := OnAxisDcGain(d), OnAxisDcGain(REFERENCE_DISTANCE);
    hide OnAxisDcGain;
    SquareOfRatio(sqrt(g), sqrt(r));
    RatioAgainstOne(sqrt(g), sqrt(r));
  }

  /** The gains of both ears in numbers, for every direction and distance: `near` is what a rigid sphere
      of 8.75 cm radius does on its axis, relative to one metre, `far` its root, and each ear's gain goes
      from one to its own value linearly with the lateral angle, the near one on the source's side. */
  lemma GainsFollowTheSphere(sqrt: real -> real, azimuth: real, distance: real, d: real) returns (near: real, far: real)
    requires IsRoot(sqrt) && KeptAt(distance, d)
    ensures Times(near, d - 0.0875) == 0.9125 * d && far > 0.0 && Times(far, far) == near
    ensures var a := NormalizeAzimuthDegrees(azimuth);
            var left, right := GainOf(sqrt, azimuth, distance, true), GainOf(sqrt, azimuth, distance, false);
            && 90.0 * (left - 1.0) == Times(if a < 0.0 then far - 1.0 else near - 1.0, Lateral(a))
            && 90.0 * (right - 1.0) == Times(if a > 0.0 then far - 1.0 else near - 1.0, Lateral(a))
  {
    var turns := AzimuthIsNormalized(azimuth);
    near, far := NearGain(d), FarGain(sqrt, d);
    NearGainInNumbers(d);
    FarGainIsRoot(sqrt, d);
    var a := NormalizeAzimuthDegrees(azimuth);
    hide NearGain, FarGain, IsRoot, NormalizeAzimuthDegrees;
    LateralShare(a, near);
    LateralShare(a, far);
  }

  lemma LateralShare(a: real, g: real)
    requires -180.0 < a <= 180.0
    ensures 90.0 * (EarGain(g, AlphaFraction(a)) - 1.0) == Times(g - 1.0, Lateral(a))
  {
    assert 90.0 * AlphaFraction(a) == Lateral(a);
    assert 90.0 * ((g - 1.0) * AlphaFraction(a)) == (g - 1.0) * (90.0 * AlphaFraction(a));
  }

  /** Off the median plane and nearer than one metre the ear on the source's side is boosted strictly
      more than the other, and the other strictly more than not at all; beyond one metre it is cut
      strictly more. */
  lemma NearEarDiffersStrictly(sqrt: real -> real, azimuth: real, distance: real)
    requires IsRoot(sqrt)
    ensures var a := NormalizeAzimuthDegrees(azimuth);
            var left, right := GainOf(sqrt, azimuth, distance, true), GainOf(sqrt, azimuth, distance, false);
            && (distance < 1.0 && 0.0 < a < 180.0 ==> left > right > 1.0) && (distance < 1.0 && a < 0.0 ==> right > left > 1.0)
            && (distance > 1.0 && 0.0 < a < 180.0 ==> left < right < 1.0) && (distance > 1.0 && a < 0.0 ==> right < left < 1.0)
  {
    var a := NormalizeAzimuthDegrees(azimuth);
    var turns := AzimuthIsNormalized(azimuth);
    var d := if distance < 0.3 then 0.3 else if distance > 3.0 then 3.0 else distance;
    var near, far := GainsFollowTheSphere(sqrt, azimuth, distance, d);
    NearAgainstOne(near, d);
    RootAgainstOne(far, near);
    hide IsRoot, GainOf, NormalizeAzimuthDegrees;
    if a != 0.0 && a != 180.0 {
      TimesLarger(near - 1.0, far - 1.0, Lateral(a));
      TimesLarger(far - 1.0, near - 1.0, Lateral(a));
      TimesLarger(far - 1.0, 0.0, Lateral(a));
      TimesLarger(0.0, far - 1.0, Lateral(a));
    }
    hide Times;
  }

  lemma NearAgainstOne(near: real, d: real)
    requires Times(near, d - 0.0875) == 0.9125 * d && d >= 0.3
    ensures (d < 1.0 ==> near > 1.0) && (d > 1.0 ==> near < 1.0)
  {
    var e := d - 0.0875;
    assert (near - 1.0) * e == 0.0875 * (1.0 - d);
    if d < 1.0 && near <= 1.0 { Grows(e, near - 1.0, 0.0); }
    if d > 1.0 && near >= 1.0 { Grows(e, 0.0, near - 1.0); }
  }

  lemma RootAgainstOne(far: real, near: real)
    requires far > 0.0 && Times(far, far) == near
    ensures (near > 1.0 ==> near > far > 1.0) && (near < 1.0 ==> near < far < 1.0)
  {
    if far > 1.0 { TimesPositive(far - 1.0, far); }
    if far < 1.0 { TimesPositive(1.0 - far, far); }
  }

  lemma TimesLarger(x: real, y: real, k: real)
    requires k > 0.0
    ensures x > y ==> Times(x, k) > Times(y, k)
    ensures Times(0.0, k) == 0.0
  {
    if x > y {
      TimesPositive(x - y, k);
    }
  }
}
