/** Indices that go round a buffer, and the positions they stand for. */
module CircularIndex {

  /** The index after `i`, as the code computes it. */
  function Bump(i: nat, size: nat): (j: nat)
    requires i < size
    ensures j < size && j == if i + 1 == size then 0 else i + 1
  {
    SmallRemainder(i + 1, size);
    (i + 1) % size
  }

  lemma SmallRemainder(a: nat, size: nat)
    requires 0 < size && a <= size
    ensures a % size == if a == size then 0 else a
  {
    if a < size {
      assert a / size == 0;
    } else {
      assert size / size == 1;
    }
  }

  /** The index of the `n`-th element ever written. */
  function Pos(n: nat, size: nat): (i: nat)
    requires size > 0
    ensures i < size
  {
    if n == 0 then 0 else Bump(Pos(n - 1, size), size)
  }

  /** Going `k` elements on, for less than a whole round. */
  lemma {:induction false} PosAdd(n: nat, k: nat, size: nat)
    requires k < size
    ensures Pos(n + k, size) == if Pos(n, size) + k < size then Pos(n, size) + k else Pos(n, size) + k - size
  {
    if k > 0 { PosAdd(n, k - 1, size); }
  }

  /** Elements less than a whole round apart never share an index. */
  lemma PosDistinct(a: nat, b: nat, size: nat)
    requires a < b < a + size
    ensures Pos(a, size) != Pos(b, size)
  {
    PosAdd(a, b - a, size);
  }

  lemma RemainderAfterRound(k: nat, size: nat)
    requires k < size
    ensures (k + size) % size == k
  {
    assert (k + size) / size == 1;
  }
}
