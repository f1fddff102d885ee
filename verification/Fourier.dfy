/** The discrete Fourier transform by its defining sums, and the convolution theorem the
    overlap-save step rests on. The transform root `w` stands for exp(-2*pi*i/size). */
module Fourier {
  import opened Complexes
  import RealSums

  /** `w` lies on the unit circle and its first power equal to one is the `size`-th. */
  ghost predicate PrimitiveRoot(w: Complex, size: nat) {
    && size > 0
    && Mul(w, Conj(w)) == ONE
    && Pow(w, size) == ONE
    && (forall m: nat | 0 < m < size :: Pow(w, m) != ONE)
  }

  function ForwardTerm(x: seq<real>, w: Complex, k: nat): nat -> Complex {
    (i: nat) => if i < |x| then Mul(Real(x[i]), Pow(w, i * k)) else ZERO
  }

  /** Bin `k` of the forward transform of the real signal `x`. */
  function ForwardBin(x: seq<real>, w: Complex, k: nat): Complex {
    CSum(|x|, ForwardTerm(x, w, k))
  }

  function InverseTerm(spectrum: seq<Complex>, w: Complex, n: nat): nat -> Complex {
    (k: nat) => if k < |spectrum| then Mul(spectrum[k], Pow(Conj(w), n * k)) else ZERO
  }

  /** Sample `n` of the unnormalised inverse transform. */
  function InverseSample(spectrum: seq<Complex>, w: Complex, n: nat): Complex {
    CSum(|spectrum|, InverseTerm(spectrum, w, n))
  }

  /** The bins a real-signal transform keeps: 0 up to and including size/2. */
  function HalfSpectrum(x: seq<real>, w: Complex): (half: seq<Complex>)
    ensures |half| == |x| / 2 + 1
  {
    seq(|x| / 2 + 1, (k: nat) => ForwardBin(x, w, k))
  }

  /** The full spectrum a real-signal inverse transform assumes its half spectrum stands for:
      bin size-k is the conjugate of bin k, and the imaginary parts of the first and the
      middle bin are not looked at. */
  function HermitianExtension(half: seq<Complex>, size: nat): (full: seq<Complex>)
    requires size % 2 == 0 && |half| == size / 2 + 1
    ensures |full| == size
  {
    seq(size, (k: nat) requires k < size =>
      if k == 0 || k == size / 2 then Real(half[k].re)
      else if k < size / 2 then half[k]
      else Conj(half[size - k]))
  }

  // ------------------------------------------------------ powers of the root

  lemma {:induction false} PowProduct(a: Complex, b: Complex, n: nat)
    ensures Mul(Pow(a, n), Pow(b, n)) == Pow(Mul(a, b), n)
  {
    hide Mul;
    if n == 0 {
      MulOne(ONE);
    } else {
      PowProduct(a, b, n - 1);
      var p, q := Pow(a, n - 1), Pow(b, n - 1);
      calc {
        Mul(Mul(p, a), Mul(q, b));
        { MulAssoc(p, a, Mul(q, b)); MulAssoc(a, q, b); MulComm(a, q); MulAssoc(q, a, b); }
        Mul(p, Mul(q, Mul(a, b)));
        { MulAssoc(p, q, Mul(a, b)); }
        Mul(Mul(p, q), Mul(a, b));
      }
    }
  }

  lemma UnitPower(w: Complex, n: nat)
    requires Mul(w, Conj(w)) == ONE
    ensures Mul(Pow(w, n), Pow(Conj(w), n)) == ONE
    ensures Mul(Pow(w, n), Conj(Pow(w, n))) == ONE
  {
    hide Mul;
    PowProduct(w, Conj(w), n);
    PowOne(n);
    PowConj(w, n);
  }

  /** The distance from `n` up to `i` on a circle of `size` points. */
  function Around(i: nat, n: nat, size: nat): (e: nat)
    requires i < size && n < size
    ensures e < size && (e == 0 <==> i == n)
  {
    if i >= n then i - n else i + size - n
  }

  lemma RootQuotient(w: Complex, size: nat, i: nat, n: nat)
    requires PrimitiveRoot(w, size) && i < size && n < size
    ensures Mul(Pow(w, i), Pow(Conj(w), n)) == Pow(w, Around(i, n, size))
  {
    hide Mul;
    var e := Around(i, n, size);
    UnitPower(w, n);
    calc {
      Mul(Pow(w, i), Pow(Conj(w), n));
      { if i < n { PowAdd(w, i, size); MulOne(Pow(w, i)); } }
      Mul(Pow(w, e + n), Pow(Conj(w), n));
      { PowAdd(w, e, n); MulAssoc(Pow(w, e), Pow(w, n), Pow(Conj(w), n)); }
      Mul(Pow(w, e), ONE);
      { MulOne(Pow(w, e)); }
      Pow(w, e);
    }
  }

  // ------------------------------------------------------ orthogonality

  function Powers(z: Complex): nat -> Complex {
    (k: nat) => Pow(z, k)
  }

  lemma {:induction false} GeometricSum(z: Complex, n: nat)
    ensures Mul(Add(z, Real(-1.0)), CSum(n, Powers(z))) == Add(Pow(z, n), Real(-1.0))
  {
    if n == 0 {
    } else {
      GeometricSum(z, n - 1);
      var p := Pow(z, n - 1);
      GeometricStep(z, CSum(n - 1, Powers(z)), p);
    }
  }

  lemma GeometricStep(z: Complex, s: Complex, p: Complex)
    requires Mul(Add(z, Real(-1.0)), s) == Add(p, Real(-1.0))
    ensures Mul(Add(z, Real(-1.0)), Add(s, p)) == Add(Mul(p, z), Real(-1.0))
  {
    MulDistributes(s, p, Add(z, Real(-1.0)));
    assert Mul(Add(z, Real(-1.0)), p) == Add(Mul(p, z), Complex(-p.re, -p.im));
  }

  /** Summing the powers of a power of the root gives the size at exponent 0 and nothing elsewhere. */
  lemma Orthogonality(w: Complex, size: nat, e: nat)
    requires PrimitiveRoot(w, size) && e < size
    ensures CSum(size, Powers(Pow(w, e))) == if e == 0 then Real(size as real) else ZERO
  {
    hide Mul;
    var z := Pow(w, e);
    if e == 0 {
      SumOfOnes(size);
    } else {
      GeometricSum(z, size);
      calc {
        Pow(z, size);
        { PowMul(w, e, size); assert e * size == size * e; PowMul(w, size, e); }
        Pow(ONE, e);
        { PowOne(e); }
        ONE;
      }
      var d := Add(z, Real(-1.0));
      assert z != ONE;
      assert z == Complex(z.re, z.im);
      Cancel(d, CSum(size, Powers(z)));
    }
  }

  lemma {:induction false} SumOfOnes(n: nat)
    ensures CSum(n, Powers(ONE)) == Real(n as real)
  {
    hide Mul;
    hide Pow;
    if n > 0 {
      SumOfOnes(n - 1);
      PowOne(n - 1);
    }
  }

  // ------------------------------------------------------ inversion

  function FullSpectrum(x: seq<real>, w: Complex): (full: seq<Complex>)
    ensures |full| == |x|
  {
    seq(|x|, (k: nat) => ForwardBin(x, w, k))
  }

  /** One term of the double sum behind inversion: input sample `i` seen through bin `k`. */
  function InversionGrid(x: seq<real>, w: Complex, n: nat): (nat, nat) -> Complex {
    (k: nat, i: nat) => if i < |x| then Mul(Mul(Real(x[i]), Pow(w, i * k)), Pow(Conj(w), n * k)) else ZERO
  }

  lemma InversionCell(x: seq<real>, w: Complex, n: nat, i: nat, k: nat)
    requires PrimitiveRoot(w, |x|) && n < |x| && i < |x|
    ensures InversionGrid(x, w, n)(k, i) == Mul(Real(x[i]), Pow(Pow(w, Around(i, n, |x|)), k))
  {
    hide Mul;
    MulAssoc(Real(x[i]), Pow(w, i * k), Pow(Conj(w), n * k));
    PowMul(w, i, k);
    PowMul(Conj(w), n, k);
    PowProduct(Pow(w, i), Pow(Conj(w), n), k);
    RootQuotient(w, |x|, i, n);
  }

  /** The sum over the bins of what one input sample contributes to output sample `n`. */
  lemma InversionColumn(x: seq<real>, w: Complex, n: nat, i: nat)
    requires PrimitiveRoot(w, |x|) && n < |x| && i < |x|
    ensures RowSums(Flip(InversionGrid(x, w, n)), |x|)(i)
         == if i == n then Real(|x| as real * x[i]) else ZERO
  {
    hide Mul;
    var size := |x|;
    var z := Pow(w, Around(i, n, size));
    forall k: nat | k < size
      ensures Row(Flip(InversionGrid(x, w, n)), i)(k) == Mul(Real(x[i]), Powers(z)(k))
    {
      InversionCell(x, w, n, i, k);
    }
    CSumScale(size, Real(x[i]), Powers(z), Row(Flip(InversionGrid(x, w, n)), i));
    Orthogonality(w, size, Around(i, n, size));
    RealTimes(x[i], size as real);
    TimesZero(Real(x[i]));
  }

  lemma RealTimes(a: real, b: real)
    ensures Mul(Real(a), Real(b)) == Real(b * a)
  {
  }

  lemma TimesZero(a: Complex)
    ensures Mul(a, ZERO) == ZERO && Mul(ZERO, a) == ZERO
  {
  }

  lemma InversionRow(x: seq<real>, w: Complex, n: nat, k: nat)
    requires k < |x|
    ensures InverseTerm(FullSpectrum(x, w), w, n)(k) == RowSums(InversionGrid(x, w, n), |x|)(k)
  {
    hide Mul;
    hide Pow;
    var grid := InversionGrid(x, w, n);
    var c := Pow(Conj(w), n * k);
    MulComm(ForwardBin(x, w, k), c);
    forall i: nat | i < |x| ensures Row(grid, k)(i) == Mul(c, ForwardTerm(x, w, k)(i)) {
      MulComm(Mul(Real(x[i]), Pow(w, i * k)), c);
    }
    CSumScale(|x|, c, ForwardTerm(x, w, k), Row(grid, k));
  }

  /** Fourier inversion: transforming forward and back multiplies every sample by the size. */
  lemma Inversion(x: seq<real>, w: Complex, n: nat)
    requires PrimitiveRoot(w, |x|) && n < |x|
    ensures InverseSample(FullSpectrum(x, w), w, n) == Real(|x| as real * x[n])
  {
    hide Mul;
    hide Pow;
    hide CSum;
    hide InversionGrid;
    hide InverseTerm;
    var size := |x|;
    var grid := InversionGrid(x, w, n);
    forall k: nat | k < size
      ensures InverseTerm(FullSpectrum(x, w), w, n)(k) == RowSums(grid, size)(k)
    {
      InversionRow(x, w, n, k);
    }
    CSumEqual(size, InverseTerm(FullSpectrum(x, w), w, n), RowSums(grid, size));
    CSumSwap(size, size, grid);
    forall i: nat | i < size
      ensures RowSums(Flip(grid), size)(i) == if i == n then Real(size as real * x[i]) else ZERO
    {
      InversionColumn(x, w, n, i);
    }
    CSumSingle(size, RowSums(Flip(grid), size), n);
  }

  // ------------------------------------------------------ circular convolution

  function CircularTerm(h: seq<real>, x: seq<real>, n: nat): nat -> real
    requires |h| == |x| && n < |x|
  {
    (i: nat) => if i < |x| then h[i] * x[Around(n, i, |x|)] else 0.0
  }

  /** The circular convolution of two signals of one length. */
  function Circular(h: seq<real>, x: seq<real>): (c: seq<real>)
    requires |h| == |x|
    ensures |c| == |x|
  {
    seq(|x|, (n: nat) requires n < |x| => RealSums.Sum(|x|, CircularTerm(h, x, n)))
  }

  lemma {:induction false} RealSumIsComplexSum(n: nat, f: nat -> real, g: nat -> Complex)
    requires forall i: nat | i < n :: g(i) == Real(f(i))
    ensures CSum(n, g) == Real(RealSums.Sum(n, f))
  {
    if n > 0 { RealSumIsComplexSum(n - 1, f, g); }
  }

  function CircularGrid(h: seq<real>, x: seq<real>, w: Complex, k: nat): (nat, nat) -> Complex
    requires |h| == |x|
  {
    (n: nat, i: nat) =>
      if n < |x| && i < |x| then Mul(Real(CircularTerm(h, x, n)(i)), Pow(w, n * k)) else ZERO
  }

  /** Travelling by `i` and then by the rest of the way round. */
  lemma RootSplit(w: Complex, size: nat, n: nat, i: nat, k: nat)
    requires PrimitiveRoot(w, size) && n < size && i < size
    ensures Pow(w, n * k) == Mul(Pow(w, i * k), Pow(w, Around(n, i, size) * k))
  {
    hide Mul;
    var d := Around(n, i, size);
    PowMul(w, n, k);
    PowMul(w, i, k);
    PowMul(w, d, k);
    PowProduct(Pow(w, i), Pow(w, d), k);
    PowAdd(w, i, d);
    if n < i {
      assert i + d == n + size;
      PowAdd(w, n, size);
      MulOne(Pow(w, n));
    }
  }

  lemma CircularCell(h: seq<real>, x: seq<real>, w: Complex, k: nat, n: nat, i: nat)
    requires |h| == |x| && PrimitiveRoot(w, |x|) && n < |x| && i < |x|
    ensures CircularGrid(h, x, w, k)(n, i)
         == Mul(ForwardTerm(h, w, k)(i), ForwardTerm(x, w, k)(Around(n, i, |x|)))
  {
    hide Mul;
    var d := Around(n, i, |x|);
    RootSplit(w, |x|, n, i, k);
    var a, b, p, q := Real(h[i]), Real(x[d]), Pow(w, i * k), Pow(w, d * k);
    RealProduct(h[i], x[d]);
    assert Real(CircularTerm(h, x, n)(i)) == Mul(a, b);
    calc {
      Mul(Mul(a, b), Mul(p, q));
      { MulAssoc(a, b, Mul(p, q)); MulAssoc(b, p, q); MulComm(b, p); MulAssoc(p, b, q); }
      Mul(a, Mul(p, Mul(b, q)));
      { MulAssoc(a, p, Mul(b, q)); }
      Mul(Mul(a, p), Mul(b, q));
    }
  }

  lemma RealProduct(a: real, b: real)
    ensures Real(a * b) == Mul(Real(a), Real(b))
  {
  }

  /** What tap `i` contributes to bin `k`: the shift turns into a factor. */
  lemma CircularColumn(h: seq<real>, x: seq<real>, w: Complex, k: nat, i: nat)
    requires |h| == |x| && PrimitiveRoot(w, |x|) && i < |x|
    ensures RowSums(Flip(CircularGrid(h, x, w, k)), |x|)(i)
         == Mul(ForwardTerm(h, w, k)(i), ForwardBin(x, w, k))
  {
    hide Mul;
    var size := |x|;
    var f := ForwardTerm(x, w, k);
    var shift := if i == 0 then 0 else size - i;
    forall n: nat | n < size
      ensures Row(Flip(CircularGrid(h, x, w, k)), i)(n) == Mul(ForwardTerm(h, w, k)(i), Rotate(f, size, shift)(n))
    {
      CircularCell(h, x, w, k, n, i);
    }
    CSumScale(size, ForwardTerm(h, w, k)(i), Rotate(f, size, shift), Row(Flip(CircularGrid(h, x, w, k)), i));
    CSumRotate(size, f, shift);
  }

  /** Row `n` of the grid is term `n` of the transform of the circular convolution. */
  lemma CircularRow(h: seq<real>, x: seq<real>, w: Complex, k: nat, n: nat)
    requires |h| == |x| && n < |x|
    ensures RowSums(CircularGrid(h, x, w, k), |x|)(n) == ForwardTerm(Circular(h, x), w, k)(n)
  {
    hide Mul;
    var size := |x|;
    var p := Pow(w, n * k);
    var terms := CircularTerm(h, x, n);
    var lifted := (i: nat) => Real(terms(i));
    RealSumIsComplexSum(size, terms, lifted);
    forall i: nat | i < size ensures Row(CircularGrid(h, x, w, k), n)(i) == Mul(p, lifted(i)) {
      MulComm(lifted(i), p);
    }
    CSumScale(size, p, lifted, Row(CircularGrid(h, x, w, k), n));
    MulComm(p, Real(Circular(h, x)[n]));
  }

  /** The convolution theorem: the transform turns circular convolution into a product. */
  lemma ConvolutionTheorem(h: seq<real>, x: seq<real>, w: Complex, k: nat)
    requires |h| == |x| && PrimitiveRoot(w, |x|)
    ensures ForwardBin(Circular(h, x), w, k) == Mul(ForwardBin(h, w, k), ForwardBin(x, w, k))
  {
    hide Mul;
    var size := |x|;
    var grid := CircularGrid(h, x, w, k);
    forall n: nat | n < size
      ensures RowSums(grid, size)(n) == ForwardTerm(Circular(h, x), w, k)(n)
    {
      CircularRow(h, x, w, k, n);
    }
    CSumEqual(size, RowSums(grid, size), ForwardTerm(Circular(h, x), w, k));
    CSumSwap(size, size, grid);
    var factor := ForwardBin(x, w, k);
    forall i: nat | i < size
      ensures RowSums(Flip(grid), size)(i) == Mul(factor, ForwardTerm(h, w, k)(i))
    {
      CircularColumn(h, x, w, k, i);
      MulComm(factor, ForwardTerm(h, w, k)(i));
    }
    CSumScale(size, factor, ForwardTerm(h, w, k), RowSums(Flip(grid), size));
    MulComm(factor, ForwardBin(h, w, k));
  }

  // ------------------------------------------------------ half spectra

  lemma MirroredPower(w: Complex, size: nat, i: nat, k: nat, m: nat)
    requires PrimitiveRoot(w, size) && k + m == size
    ensures Pow(w, i * m) == Conj(Pow(w, i * k))
  {
    hide Mul;
    assert Mul(w, Conj(w)) == ONE && Pow(w, size) == ONE;
    hide PrimitiveRoot, Pow;
    var a, b := i * k, i * m;
    SplitExponent(i, k, m);
    PowAdd(w, a, b);
    PowMul(w, size, i);
    PowOne(i);
    UnitPower(w, a);
    InverseIsUnique(Pow(w, a), Pow(w, b), Conj(Pow(w, a)));
  }

  lemma SplitExponent(i: nat, k: nat, m: nat)
    ensures i * k + i * m == (k + m) * i
  {
  }

  lemma MirroredTerm(x: seq<real>, w: Complex, k: nat, m: nat, i: nat)
    requires PrimitiveRoot(w, |x|) && k + m == |x| && i < |x|
    ensures ForwardTerm(x, w, m)(i) == Conj(ForwardTerm(x, w, k)(i))
  {
    hide Mul, Pow, PrimitiveRoot;
    MirroredPower(w, |x|, i, k, m);
    ConjMul(Real(x[i]), Pow(w, i * k));
  }

  /** A real signal's bins mirror into their conjugates. */
  lemma MirroredBin(x: seq<real>, w: Complex, k: nat, m: nat)
    requires PrimitiveRoot(w, |x|) && k + m == |x|
    ensures ForwardBin(x, w, m) == Conj(ForwardBin(x, w, k))
  {
    hide Mul, PrimitiveRoot, Conj;
    forall i: nat | i < |x|
      ensures ForwardTerm(x, w, m)(i) == Conj(ForwardTerm(x, w, k)(i))
    {
      MirroredTerm(x, w, k, m, i);
    }
    hide ForwardTerm;
    CSumConj(|x|, ForwardTerm(x, w, k), ForwardTerm(x, w, m));
  }

  lemma FirstBinIsReal(x: seq<real>, w: Complex)
    requires PrimitiveRoot(w, |x|)
    ensures ForwardBin(x, w, 0).im == 0.0
  {
    hide Mul;
    forall i: nat | i < |x| ensures ForwardTerm(x, w, 0)(i) == Real(x[i]) {
      assert i * 0 == 0;
      MulOne(Real(x[i]));
    }
    RealSumIsComplexSum(|x|, (i: nat) => if i < |x| then x[i] else 0.0, ForwardTerm(x, w, 0));
  }

  /** No information is lost by keeping half the bins of a real signal's transform. */
  lemma HalfSpectrumDetermines(x: seq<real>, w: Complex)
    requires PrimitiveRoot(w, |x|) && |x| % 2 == 0
    ensures HermitianExtension(HalfSpectrum(x, w), |x|) == FullSpectrum(x, w)
  {
    hide Mul;
    hide ForwardBin;
    var size := |x|;
    var full, extended := FullSpectrum(x, w), HermitianExtension(HalfSpectrum(x, w), size);
    forall k: nat | k < size ensures extended[k] == full[k] {
      if k == 0 {
        FirstBinIsReal(x, w);
      } else if k == size / 2 {
        MirroredBin(x, w, k, k);
      } else if k > size / 2 {
        MirroredBin(x, w, size - k, k);
      }
    }
  }

  function SpectralProduct(a: seq<Complex>, b: seq<Complex>): (c: seq<Complex>)
    requires |a| == |b|
    ensures |c| == |a|
  {
    seq(|a|, (k: nat) requires k < |a| => Mul(a[k], b[k]))
  }

  /** Multiplying half spectra bin by bin and transforming back is circular convolution,
      scaled by the transform size. */
  lemma SpectralProductIsCircular(x: seq<real>, h: seq<real>, w: Complex, n: nat)
    requires |x| == |h| && |x| % 2 == 0 && PrimitiveRoot(w, |x|) && n < |x|
    ensures InverseSample(HermitianExtension(SpectralProduct(HalfSpectrum(x, w), HalfSpectrum(h, w)), |x|), w, n)
         == Real(|x| as real * Circular(h, x)[n])
  {
    hide Mul;
    hide ForwardBin;
    hide InverseSample;
    var c := Circular(h, x);
    forall k: nat | k <= |x| / 2
      ensures Mul(ForwardBin(x, w, k), ForwardBin(h, w, k)) == ForwardBin(c, w, k)
    {
      ConvolutionTheorem(h, x, w, k);
      MulComm(ForwardBin(x, w, k), ForwardBin(h, w, k));
    }
    assert SpectralProduct(HalfSpectrum(x, w), HalfSpectrum(h, w)) == HalfSpectrum(c, w);
    HalfSpectrumDetermines(c, w);
    Inversion(c, w, n);
  }
}
