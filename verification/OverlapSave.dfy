/** Why the last block of a circular convolution over a sliding window is the direct
    convolution of the stream. */
module OverlapSave {
  import opened Complexes
  import opened RealSums
  import opened Convolution
  import opened Fourier

  /** New input samples taken in per transform. */
  const BLOCK: nat := 128

  /** The taps in front of a zero-padded buffer of the transform's size. */
  function Padded(taps: seq<real>, size: nat): (h: seq<real>)
    ensures |h| == size
  {
    seq(size, (k: nat) => At(taps, k))
  }

  /** The last `size` samples of the stream up to position `end`, silent before its start. */
  function WindowOf(x: seq<real>, end: int, size: nat): (w: seq<real>)
    ensures |w| == size
  {
    seq(size, (j: nat) => At(x, end - size + j))
  }

  /** In the last block of the window the circular convolution never wraps: it is the direct
      convolution of the stream. */
  lemma LastBlockDoesNotWrap(taps: seq<real>, x: seq<real>, end: int, size: nat, i: nat)
    requires size >= |taps| + BLOCK - 1 && size >= BLOCK && i < BLOCK
    ensures Circular(Padded(taps, size), WindowOf(x, end, size))[size - BLOCK + i]
         == Direct(taps, x, end - BLOCK + i)
  {
    var h, window, n := Padded(taps, size), WindowOf(x, end, size), size - BLOCK + i;
    var terms := CircularTerm(h, window, n);
    var direct := DirectTerm(taps, x, end - BLOCK + i);
    forall k: nat | k < size ensures k < |taps| ==> terms(k) == direct(k)
      ensures k >= |taps| ==> terms(k) == 0.0
    {
      if k < |taps| {
        SameTerm(At(taps, k), window[Around(n, k, size)], At(x, end - BLOCK + i - k));
      } else {
        ZeroFactor(window[Around(n, k, size)]);
      }
    }
    SumTruncate(|taps|, size, terms);
    SumEqual(|taps|, terms, direct);
  }

  lemma SameTerm(h: real, a: real, b: real)
    requires a == b
    ensures h * a == h * b
  {
  }

  lemma ZeroFactor(a: real)
    ensures 0.0 * a == 0.0
  {
  }

  /** The inverse transform scales its output by the transform size; this undoes it. */
  function Normalise(raw: real, size: nat): real
    requires size > 0
  {
    raw * (1.0 / size as real)
  }

  /** One transformed block, normalised by the transform size, is the direct convolution. */
  lemma BlockIsDirect(taps: seq<real>, x: seq<real>, end: int, size: nat, root: Complex, i: nat)
    requires size % 2 == 0 && PrimitiveRoot(root, size)
    requires size >= |taps| + BLOCK - 1 && size >= BLOCK && i < BLOCK
    ensures
      var product := SpectralProduct(HalfSpectrum(WindowOf(x, end, size), root), HalfSpectrum(Padded(taps, size), root));
      Normalise(InverseSample(HermitianExtension(product, size), root, size - BLOCK + i).re, size)
      == Direct(taps, x, end - BLOCK + i)
  {
    hide Circular;
    hide InverseSample;
    var window, h, n := WindowOf(x, end, size), Padded(taps, size), size - BLOCK + i;
    SpectralProductIsCircular(window, h, root, n);
    LastBlockDoesNotWrap(taps, x, end, size, i);
    Normalised(size as real, Circular(h, window)[n]);
  }

  lemma Normalised(size: real, c: real)
    requires size > 0.0
    ensures (size * c) * (1.0 / size) == c
  {
  }

  /** Sliding the window by one block. */
  lemma WindowSlides(x: seq<real>, end: int, size: nat, block: seq<real>, j: nat)
    requires size >= BLOCK && |block| == BLOCK && 0 <= end && end + BLOCK <= |x| && x[end..end + BLOCK] == block
    requires j < size
    ensures WindowOf(x, end + BLOCK, size)[j]
         == if j < size - BLOCK then WindowOf(x, end, size)[j + BLOCK] else block[j - (size - BLOCK)]
  {
    assert WindowOf(x, end + BLOCK, size)[j] == At(x, end + BLOCK - size + j);
    if j < size - BLOCK {
      assert WindowOf(x, end, size)[j + BLOCK] == At(x, end - size + (j + BLOCK));
    } else {
      var k := j - (size - BLOCK);
      assert end + BLOCK - size + j == end + k;
      assert block[k] == x[end..end + BLOCK][k] == x[end + k];
    }
  }

  lemma WindowIsCausal(x: seq<real>, later: seq<real>, end: int, size: nat)
    requires end <= |x|
    ensures WindowOf(x + later, end, size) == WindowOf(x, end, size)
  {
    forall j: nat | j < size ensures WindowOf(x + later, end, size)[j] == WindowOf(x, end, size)[j] {
      assert At(x + later, end - size + j) == At(x, end - size + j);
    }
  }
}
