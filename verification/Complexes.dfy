/** Complex numbers over the reals, their powers and their finite sums: the algebra
    behind the frequency-domain half of the convolver. */
module Complexes {

  datatype Complex = Complex(re: real, im: real)

  const ZERO := Complex(0.0, 0.0)
  const ONE := Complex(1.0, 0.0)

  function Add(a: Complex, b: Complex): Complex {
    Complex(a.re + b.re, a.im + b.im)
  }

  /** The product the convolver applies bin by bin. */
  function Mul(a: Complex, b: Complex): Complex {
    Complex(a.re * b.re - a.im * b.im, a.re * b.im + a.im * b.re)
  }

  function Conj(a: Complex): Complex {
    Complex(a.re, -a.im)
  }

  function Real(r: real): Complex {
    Complex(r, 0.0)
  }

  function Times(x: real, y: real): real {
    x * y
  }

  function Abs(x: real): real {
    if x < 0.0 then -x else x
  }

  function NormSquared(a: Complex): real {
    Times(a.re, a.re) + Times(a.im, a.im)
  }

  function Pow(z: Complex, n: nat): Complex {
    if n == 0 then ONE else Mul(Pow(z, n - 1), z)
  }

  lemma TimesNegative(a: real, x: real)
    ensures Times(a, -x) == -Times(a, x) && Times(-a, x) == -Times(a, x) && Times(a, 0.0) == 0.0
  {
  }

  lemma MulAssoc(a: Complex, b: Complex, c: Complex)
    ensures Mul(Mul(a, b), c) == Mul(a, Mul(b, c))
  {
    assert (a.re * b.re - a.im * b.im) * c.re - (a.re * b.im + a.im * b.re) * c.im
        == a.re * (b.re * c.re - b.im * c.im) - a.im * (b.re * c.im + b.im * c.re);
    assert (a.re * b.re - a.im * b.im) * c.im + (a.re * b.im + a.im * b.re) * c.re
        == a.re * (b.re * c.im + b.im * c.re) + a.im * (b.re * c.re - b.im * c.im);
  }

  lemma MulComm(a: Complex, b: Complex)
    ensures Mul(a, b) == Mul(b, a)
  {
  }

  lemma MulDistributes(a: Complex, b: Complex, c: Complex)
    ensures Mul(Add(a, b), c) == Add(Mul(a, c), Mul(b, c))
    ensures Mul(c, Add(a, b)) == Add(Mul(c, a), Mul(c, b))
  {
  }

  lemma ConjMul(a: Complex, b: Complex)
    ensures Conj(Mul(a, b)) == Mul(Conj(a), Conj(b))
  {
  }

  lemma MulConj(a: Complex)
    ensures Mul(a, Conj(a)) == Real(NormSquared(a))
  {
  }

  lemma TimesQuotient(x: real, y: real)
    requires y > 0.0
    ensures Times(x / y, y) == x && Times(y, x / y) == x
  {
  }

  lemma TimesPositive(x: real, y: real)
    requires x > 0.0 && y > 0.0
    ensures Times(x, y) > 0.0
  {
  }

  lemma TimesNegated(x: real, y: real)
    ensures Times(-x, -y) == Times(x, y)
  {
  }

  lemma SquareSign(r: real)
    ensures Times(r, r) >= 0.0
    ensures r != 0.0 ==> Times(r, r) > 0.0
  {
    if r > 0.0 {
      TimesPositive(r, r);
    } else if r < 0.0 {
      TimesPositive(-r, -r);
      TimesNegated(r, r);
    }
  }

  lemma NormPositive(a: Complex)
    requires a != ZERO
    ensures NormSquared(a) > 0.0
  {
    hide Times;
    SquareSign(a.re);
    SquareSign(a.im);
  }

  lemma MulOne(a: Complex)
    ensures Mul(a, ONE) == a && Mul(ONE, a) == a
  {
  }

  /** A complex number other than zero can be cancelled. */
  lemma Cancel(a: Complex, b: Complex)
    requires Mul(a, b) == ZERO && a != ZERO
    ensures b == ZERO
  {
    MulAssoc(Conj(a), a, b);
    MulComm(Conj(a), a);
    MulConj(a);
    var n := NormSquared(a);
    NormPositive(a);
    assert Mul(Real(n), b) == ZERO;
    assert n * b.re == 0.0 && n * b.im == 0.0;
  }

  /** A number has at most one inverse. */
  lemma InverseIsUnique(a: Complex, b: Complex, c: Complex)
    requires Mul(a, b) == ONE && Mul(a, c) == ONE
    ensures b == c
  {
    MulAssoc(b, a, c);
    MulComm(b, a);
    assert Mul(ONE, c) == c && Mul(b, ONE) == b;
  }

  lemma {:induction false} PowAdd(z: Complex, m: nat, n: nat)
    ensures Pow(z, m + n) == Mul(Pow(z, m), Pow(z, n))
  {
    if n > 0 {
      PowAdd(z, m, n - 1);
      MulAssoc(Pow(z, m), Pow(z, n - 1), z);
    }
  }

  lemma {:induction false} PowMul(z: Complex, m: nat, n: nat)
    ensures Pow(z, m * n) == Pow(Pow(z, m), n)
  {
    hide Mul;
    if n == 0 {
      assert m * n == 0;
    } else {
      PowMul(z, m, n - 1);
      var k := m * (n - 1);
      assert m * n == k + m && k >= 0;
      PowAdd(z, k, m);
    }
  }

  lemma {:induction false} PowOne(n: nat)
    ensures Pow(ONE, n) == ONE
  {
    hide Mul;
    if n > 0 {
      PowOne(n - 1);
      MulOne(ONE);
    }
  }

  lemma {:induction false} PowConj(z: Complex, n: nat)
    ensures Pow(Conj(z), n) == Conj(Pow(z, n))
  {
    if n > 0 {
      PowConj(z, n - 1);
      ConjMul(Pow(z, n - 1), z);
    }
  }

  // ---------------------------------------------------------------- sums

  function CSum(n: nat, f: nat -> Complex): Complex {
    if n == 0 then ZERO else Add(CSum(n - 1, f), f(n - 1))
  }

  lemma {:induction false} CSumEqual(n: nat, f: nat -> Complex, g: nat -> Complex)
    requires forall i: nat | i < n :: f(i) == g(i)
    ensures CSum(n, f) == CSum(n, g)
  {
    if n > 0 { CSumEqual(n - 1, f, g); }
  }

  lemma {:induction false} CSumZero(n: nat, f: nat -> Complex)
    requires forall i: nat | i < n :: f(i) == ZERO
    ensures CSum(n, f) == ZERO
  {
    if n > 0 { CSumZero(n - 1, f); }
  }

  /** Only one term of the sum differs from zero. */
  lemma {:induction false} CSumSingle(n: nat, f: nat -> Complex, at: nat)
    requires at < n
    requires forall i: nat | i < n && i != at :: f(i) == ZERO
    ensures CSum(n, f) == f(at)
  {
    if at == n - 1 { CSumZero(n - 1, f); } else { CSumSingle(n - 1, f, at); }
  }

  lemma {:induction false} CSumAdd(n: nat, f: nat -> Complex, g: nat -> Complex, h: nat -> Complex)
    requires forall i: nat | i < n :: h(i) == Add(f(i), g(i))
    ensures CSum(n, h) == Add(CSum(n, f), CSum(n, g))
  {
    if n > 0 { CSumAdd(n - 1, f, g, h); }
  }

  lemma {:induction false} CSumScale(n: nat, c: Complex, f: nat -> Complex, g: nat -> Complex)
    requires forall i: nat | i < n :: g(i) == Mul(c, f(i))
    ensures CSum(n, g) == Mul(c, CSum(n, f))
  {
    if n > 0 {
      CSumScale(n - 1, c, f, g);
      MulDistributes(CSum(n - 1, f), f(n - 1), c);
    }
  }

  lemma {:induction false} CSumConj(n: nat, f: nat -> Complex, g: nat -> Complex)
    requires forall i: nat | i < n :: g(i) == Conj(f(i))
    ensures CSum(n, g) == Conj(CSum(n, f))
  {
    if n > 0 { CSumConj(n - 1, f, g); }
  }

  function Row(f: (nat, nat) -> Complex, i: nat): nat -> Complex {
    (j: nat) => f(i, j)
  }

  function RowSums(f: (nat, nat) -> Complex, m: nat): nat -> Complex {
    (i: nat) => CSum(m, Row(f, i))
  }

  function Flip(f: (nat, nat) -> Complex): (nat, nat) -> Complex {
    (j: nat, i: nat) => f(i, j)
  }

  /** The order of a finite double sum does not matter. */
  lemma {:induction false} CSumSwap(n: nat, m: nat, f: (nat, nat) -> Complex)
    ensures CSum(n, RowSums(f, m)) == CSum(m, RowSums(Flip(f), n))
  {
    var columns := Flip(f);
    if n == 0 {
      CSumZero(m, RowSums(columns, 0));
    } else {
      CSumSwap(n - 1, m, f);
      forall j: nat | j < m
        ensures RowSums(columns, n)(j) == Add(RowSums(columns, n - 1)(j), Row(f, n - 1)(j))
      {
        assert CSum(n, Row(columns, j)) == Add(CSum(n - 1, Row(columns, j)), Row(columns, j)(n - 1));
      }
      CSumAdd(m, RowSums(columns, n - 1), Row(f, n - 1), RowSums(columns, n));
    }
  }

  /** `f` read from position `shift` on, going round once. */
  function Rotate(f: nat -> Complex, size: nat, shift: nat): nat -> Complex
  {
    (i: nat) => if i + shift < size then f(i + shift) else if i + shift < 2 * size then f(i + shift - size) else ZERO
  }

  function Tail(f: nat -> Complex): nat -> Complex {
    (i: nat) => f(i + 1)
  }

  lemma {:induction false} CSumHead(n: nat, f: nat -> Complex)
    ensures CSum(n + 1, f) == Add(f(0), CSum(n, Tail(f)))
  {
    if n > 0 { CSumHead(n - 1, f); }
  }

  /** A sum over a whole period does not depend on where it starts. */
  lemma {:induction false} CSumRotate(size: nat, f: nat -> Complex, shift: nat)
    requires shift < size
    ensures CSum(size, Rotate(f, size, shift)) == CSum(size, f)
  {
    if shift == 0 {
      CSumEqual(size, Rotate(f, size, 0), f);
    } else {
      var g := Rotate(f, size, shift - 1);
      CSumRotate(size, f, shift - 1);
      CSumHead(size - 1, g);
      CSumEqual(size - 1, Rotate(f, size, shift), Tail(g));
    }
  }
}
