/** Finite sums of real numbers, indexed like the loops they specify. */
module RealSums {

  function Sum(n: nat, f: nat -> real): real {
    if n == 0 then 0.0 else Sum(n - 1, f) + f(n - 1)
  }

  lemma {:induction false} SumEqual(n: nat, f: nat -> real, g: nat -> real)
    requires forall i: nat | i < n :: f(i) == g(i)
    ensures Sum(n, f) == Sum(n, g)
  {
    if n > 0 { SumEqual(n - 1, f, g); }
  }

  /** Terms that are zero from `m` on do not count. */
  lemma {:induction false} SumTruncate(m: nat, n: nat, f: nat -> real)
    requires m <= n
    requires forall i: nat | m <= i < n :: f(i) == 0.0
    ensures Sum(n, f) == Sum(m, f)
  {
    if m < n { SumTruncate(m, n - 1, f); }
  }

  function Tail(f: nat -> real): nat -> real {
    (i: nat) => f(i + 1)
  }

  lemma {:induction false} SumHead(n: nat, f: nat -> real)
    ensures Sum(n + 1, f) == f(0) + Sum(n, Tail(f))
  {
    if n > 0 { SumHead(n - 1, f); }
  }

  lemma {:induction false} SumAdd(n: nat, f: nat -> real, g: nat -> real, h: nat -> real)
    requires forall i: nat | i < n :: h(i) == f(i) + g(i)
    ensures Sum(n, h) == Sum(n, f) + Sum(n, g)
  {
    if n > 0 { SumAdd(n - 1, f, g, h); }
  }

  lemma {:induction false} SumScale(n: nat, c: real, f: nat -> real, g: nat -> real)
    requires forall i: nat | i < n :: g(i) == c * f(i)
    ensures Sum(n, g) == c * Sum(n, f)
  {
    if n > 0 {
      SumScale(n - 1, c, f, g);
      assert c * (Sum(n - 1, f) + f(n - 1)) == c * Sum(n - 1, f) + c * f(n - 1);
    }
  }
}
