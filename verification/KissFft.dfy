/** The real-signal transforms the convolver calls, given by their defining sums. */
module KissFft {
  import opened Complexes
  import opened Fourier

  /** Forward transform: the bins 0 .. size/2 of the real signal `x`. */
  method ForwardReal(root: Complex, x: array<real>, freq: array<Complex>)
    requires freq.Length == x.Length / 2 + 1
    modifies freq
    ensures freq[..] == HalfSpectrum(x[..], root)
  {
    for k := 0 to freq.Length
      invariant forall j | 0 <= j < k :: freq[j] == ForwardBin(x[..], root, j)
    {
      freq[k] := ForwardBin(x[..], root, k);
    }
  }

  /** Inverse transform, unnormalised: the real parts of the inverse of the full spectrum. */
  method InverseReal(root: Complex, freq: array<Complex>, x: array<real>)
    requires x.Length % 2 == 0 && freq.Length == x.Length / 2 + 1
    modifies x
    ensures forall n | 0 <= n < x.Length ::
      x[n] == InverseSample(HermitianExtension(freq[..], x.Length), root, n).re
  {
    var full := HermitianExtension(freq[..], x.Length);
    for n := 0 to x.Length
      invariant forall m | 0 <= m < n :: x[m] == InverseSample(full, root, m).re
    {
      x[n] := InverseSample(full, root, n).re;
    }
  }
}
