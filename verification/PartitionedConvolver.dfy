/** The streaming overlap-save convolver: a sliding window, one transform per block, and queues
    that let callers ask for any number of frames. */
module PartitionedConvolver {
  import opened Complexes
  import opened Fourier
  import opened Convolution
  import opened OverlapSave
  import opened ConvolverQueue
  import KissFft

  /** `after` is `before` with the direct convolution of `x`, from sample `first` on, added
      between `lo` and `hi`. */
  ghost predicate Accumulated(before: seq<real>, after: seq<real>, h: seq<real>, x: seq<real>, first: nat, lo: nat, hi: nat)
  {
    && |after| == |before|
    && forall j | 0 <= j < |before| ::
         after[j] == if lo <= j < hi then before[j] + Direct(h, x, first + j - lo) else before[j]
  }

  /** Accumulating a stretch and then the next one is accumulating both, as long as the stream only grew. */
  lemma AccumulatedJoin(a: seq<real>, b: seq<real>, c: seq<real>, h: seq<real>, x: seq<real>, y: seq<real>,
                        first: nat, mid: nat, hi: nat)
    requires Accumulated(a, b, h, x, first, 0, mid) && Accumulated(b, c, h, y, first + mid, mid, hi) && mid <= hi
    requires x <= y && first + mid <= |x|
    ensures Accumulated(a, c, h, y, first, 0, hi)
  {
    hide Direct;
    var later := y[|x|..];
    assert x + later == y;
    forall j | 0 <= j < |a|
      ensures c[j] == if 0 <= j < hi then a[j] + Direct(h, y, first + j - 0) else a[j]
    {
      if j < mid { DirectIsCausal(h, x, later, first + j); }
    }
  }

  class Convolver {
    const fftSize: nat
    const root: Complex
    const filterFreq: array<Complex>
    const window: array<real>
    const freqScratch: array<Complex>
    const timeScratch: array<real>
    const pendingInput: array<real>
    const pendingOutput: array<real>
    var pendingInputCount: nat
    var pendingOutputStart: nat
    var pendingOutputCount: nat

    ghost const taps: seq<real>
    /** Every input sample taken in so far. */
    ghost var consumed: seq<real>
    /** How many of them have gone through a transform. */
    ghost var transformed: nat
    /** How many output samples have been handed out. */
    ghost var emitted: nat

    /** The objects the convolver is made of. */
    ghost const repr: set<object>

    /** Sizes and sharing that never change after loading. */
    ghost predicate Shaped()
      reads filterFreq
    {
      && repr == {this, filterFreq, window, freqScratch, timeScratch, pendingInput, pendingOutput}
      && fftSize % 2 == 0 && fftSize >= |taps| + BLOCK - 1 && fftSize >= BLOCK
      && PrimitiveRoot(root, fftSize)
      && window.Length == fftSize && timeScratch.Length == fftSize
      && freqScratch.Length == fftSize / 2 + 1 && filterFreq.Length == fftSize / 2 + 1
      && pendingInput.Length == BLOCK && pendingOutput.Length == BLOCK
      && freqScratch != filterFreq
      && window != timeScratch && window != pendingInput && window != pendingOutput
      && timeScratch != pendingInput && timeScratch != pendingOutput && pendingInput != pendingOutput
      && filterFreq[..] == HalfSpectrum(Padded(taps, fftSize), root)
    }

    /** The queues hold exactly what lies between the counters. */
    ghost predicate Queued()
      reads this, filterFreq, window, pendingInput, pendingOutput
      requires Shaped()
    {
      && transformed % BLOCK == 0
      && |consumed| == transformed + pendingInputCount && pendingInputCount <= BLOCK
      && emitted + pendingOutputCount == transformed
      && pendingOutputStart + pendingOutputCount <= BLOCK
      && (forall j | 0 <= j < pendingInputCount :: pendingInput[j] == consumed[transformed + j])
      && (forall p | pendingOutputStart <= p < pendingOutputStart + pendingOutputCount ::
           pendingOutput[p] == Direct(taps, consumed, emitted + p - pendingOutputStart))
      && window[..] == WindowOf(consumed, transformed, fftSize)
    }

    ghost predicate Valid()
      reads this, repr
      ensures Valid() ==> this in repr
    {
      && this in repr && filterFreq in repr && window in repr && pendingInput in repr && pendingOutput in repr
      && Shaped() && Queued() && Rest(pendingInputCount, pendingOutputCount)
    }

    /** Loads a filter. The transform size is the transform library's choice: any even size that
        holds the filter and one block of new samples. */
    constructor Load(taps: seq<real>, fftSize: nat, root: Complex)
      requires fftSize % 2 == 0 && fftSize >= |taps| + BLOCK - 1 && PrimitiveRoot(root, fftSize)
      ensures Valid() && fresh(repr)
      ensures this.taps == taps && consumed == [] && emitted == 0
    {
      hide PrimitiveRoot;
      hide HalfSpectrum;
      hide Padded;
      hide Direct;
      hide WindowOf;
      var frequencies := new Complex[fftSize / 2 + 1];
      var spectrum := new Complex[fftSize / 2 + 1];
      var time := Zeros(fftSize);
      var samples := Zeros(fftSize);
      var waiting := Zeros(BLOCK);
      var finished := Zeros(BLOCK);
      this.fftSize, this.root, this.taps := fftSize, root, taps;
      filterFreq, freqScratch, timeScratch, window := frequencies, spectrum, time, samples;
      pendingInput, pendingOutput := waiting, finished;
      pendingInputCount, pendingOutputStart, pendingOutputCount := 0, 0, 0;
      consumed, transformed, emitted := [], 0, 0;
      repr := {this, frequencies, samples, spectrum, time, waiting, finished};
      new;
      var paddedFilter := PadTaps(taps, fftSize);
      KissFft.ForwardReal(root, paddedFilter, filterFreq);
      EmptyWindow(fftSize);
      assert window[..] == WindowOf([], 0, fftSize);
      assert Shaped();
      hide Shaped;
      assert Queued();
      hide Queued;
    }

    /** A cleared buffer. */
    static method Zeros(size: nat) returns (buffer: array<real>)
      ensures fresh(buffer) && buffer.Length == size && forall i | 0 <= i < size :: buffer[i] == 0.0
    {
      buffer := new real[size](_ => 0.0);
    }

    /** The taps at the start of a zeroed buffer of the transform's size. */
    static method PadTaps(taps: seq<real>, size: nat) returns (padded: array<real>)
      requires size >= |taps|
      ensures fresh(padded) && padded[..] == Padded(taps, size)
    {
      padded := new real[size](_ => 0.0);
      for k := 0 to |taps|
        invariant forall j | 0 <= j < k :: padded[j] == taps[j]
        invariant forall j | k <= j < size :: padded[j] == 0.0
      {
        padded[k] := taps[k];
      }
    }

    /** Drops the oldest block from the window and appends the pending input. */
    method SlideWindow()
      requires Shaped() && Queued() && pendingInputCount == BLOCK
      modifies window
      ensures window[..] == WindowOf(consumed, transformed + BLOCK, fftSize)
    {
      hide PrimitiveRoot;
      hide HalfSpectrum;
      hide Padded;
      hide Direct;
      hide WindowOf;
      ghost var before := window[..];
      ghost var block := pendingInput[..];
      for j := 0 to fftSize - BLOCK
        invariant forall i | 0 <= i < j :: window[i] == before[i + BLOCK]
        invariant forall i | j <= i < fftSize :: window[i] == before[i]
      {
        window[j] := window[j + BLOCK];
      }
      for j := 0 to BLOCK
        invariant forall i | 0 <= i < fftSize - BLOCK :: window[i] == before[i + BLOCK]
        invariant forall i | 0 <= i < j :: window[fftSize - BLOCK + i] == block[i]
      {
        window[fftSize - BLOCK + j] := pendingInput[j];
      }
      assert consumed[transformed..transformed + BLOCK] == block;
      forall j: nat | j < fftSize
        ensures window[j] == WindowOf(consumed, transformed + BLOCK, fftSize)[j]
      {
        WindowSlides(consumed, transformed, fftSize, block, j);
      }
    }

    /** Transforms the window, applies the filter bin by bin, and transforms back. */
    method FilterWindow()
      requires Shaped()
      modifies freqScratch, timeScratch
      ensures forall n | 0 <= n < fftSize ::
        timeScratch[n] == InverseSample(HermitianExtension(
          SpectralProduct(HalfSpectrum(window[..], root), HalfSpectrum(Padded(taps, fftSize), root)), fftSize), root, n).re
    {
      hide PrimitiveRoot;
      hide HalfSpectrum;
      hide HermitianExtension;
      hide InverseSample;
      KissFft.ForwardReal(root, window, freqScratch);
      ghost var spectrum := freqScratch[..];
      for bin := 0 to freqScratch.Length
        invariant forall k | 0 <= k < bin :: freqScratch[k] == Mul(spectrum[k], filterFreq[k])
        invariant forall k | bin <= k < freqScratch.Length :: freqScratch[k] == spectrum[k]
        modifies freqScratch
      {
        freqScratch[bin] := Mul(freqScratch[bin], filterFreq[bin]);
      }
      assert freqScratch[..] == SpectralProduct(spectrum, filterFreq[..]);
      KissFft.InverseReal(root, freqScratch, timeScratch);
    }

    /** Takes the last block of the transformed window, normalised. */
    method TakeLastBlock(ghost end: nat)
      requires Shaped()
      requires forall p | fftSize - BLOCK <= p < fftSize ::
        Normalise(timeScratch[p], fftSize) == Direct(taps, consumed, end - fftSize + p)
      modifies pendingOutput
      ensures forall i | 0 <= i < BLOCK :: pendingOutput[i] == Direct(taps, consumed, end - BLOCK + i)
    {
      hide Direct;
      for i := 0 to BLOCK
        invariant forall j | 0 <= j < i :: pendingOutput[j] == Direct(taps, consumed, end - BLOCK + j)
      {
        pendingOutput[i] := Normalise(timeScratch[fftSize - BLOCK + i], fftSize);
      }
    }

    method RunOneBlock()
      requires Shaped() && Queued() && pendingInputCount == BLOCK && pendingOutputCount == 0
      modifies this, window, freqScratch, timeScratch, pendingOutput
      ensures Valid() && pendingInputCount == 0 && pendingOutputCount == BLOCK
      ensures consumed == old(consumed) && emitted == old(emitted)
    {
      hide Direct;
      hide InverseSample;
      hide HermitianExtension;
      hide HalfSpectrum;
      hide PrimitiveRoot;
      hide SpectralProduct;
      SlideWindow();
      FilterWindow();
      ghost var end := transformed + BLOCK;
      forall p | fftSize - BLOCK <= p < fftSize
        ensures Normalise(timeScratch[p], fftSize) == Direct(taps, consumed, end - fftSize + p)
      {
        BlockIsDirect(taps, consumed, end, fftSize, root, p - (fftSize - BLOCK));
      }
      TakeLastBlock(end);
      pendingOutputStart := 0;
      pendingOutputCount := BLOCK;
      pendingInputCount := 0;
      transformed := end;
    }

    /** Adds finished samples to the output, as many as there are and as fit. */
    method Drain(output: array<real>, from: nat, frames: nat) returns (produced: nat)
      requires Valid() && output !in repr && from <= frames <= output.Length
      modifies this, output
      ensures Valid() && consumed == old(consumed) && pendingInputCount == old(pendingInputCount)
      ensures from <= produced == from + old(pendingOutputCount) - pendingOutputCount && produced <= frames
      ensures emitted == old(emitted) + produced - from
      ensures emitted <= |consumed|
      ensures pendingOutputCount == 0 || produced == frames
      ensures Accumulated(old(output[..]), output[..], taps, consumed, old(emitted), from, produced)
    {
      hide Direct;
      hide PrimitiveRoot;
      hide HalfSpectrum;
      hide WindowOf;
      produced := from;
      while pendingOutputCount > 0 && produced < frames
        invariant from <= produced <= frames && Valid()
        invariant consumed == old(consumed) && pendingInputCount == old(pendingInputCount)
        invariant produced == from + old(pendingOutputCount) - pendingOutputCount
        invariant emitted == old(emitted) + produced - from
        invariant Accumulated(old(output[..]), output[..], taps, consumed, old(emitted), from, produced)
      {
        output[produced] := output[produced] + pendingOutput[pendingOutputStart];
        pendingOutputStart := pendingOutputStart + 1;
        pendingOutputCount := pendingOutputCount - 1;
        produced := produced + 1;
        emitted := emitted + 1;
      }
    }

    static lemma Joined(before: seq<real>, input: seq<real>, from: nat, taken: nat)
      requires from <= taken < |input|
      ensures before + input[from..taken] + [input[taken]] == before + input[from..taken + 1]
    {
    }

    /** Takes one sample in. */
    method Append(x: real)
      requires Shaped() && Queued() && pendingOutputCount == 0 && pendingInputCount < BLOCK
      modifies this, pendingInput
      ensures Shaped() && Queued() && pendingOutputCount == 0 && emitted == old(emitted)
      ensures consumed == old(consumed) + [x] && pendingInputCount == old(pendingInputCount) + 1
    {
      hide HalfSpectrum, Direct, PrimitiveRoot, Padded, WindowOf;
      WindowIsCausal(consumed, [x], transformed, fftSize);
      pendingInput[pendingInputCount] := x;
      pendingInputCount := pendingInputCount + 1;
      consumed := consumed + [x];
    }

    /** Takes input in until a block is complete or the input is used up. */
    method Fill(input: seq<real>, from: nat) returns (taken: nat)
      requires Valid() && pendingOutputCount == 0 && from <= |input|
      modifies this, pendingInput
      ensures Shaped() && Queued() && pendingOutputCount == 0
      ensures from <= taken <= |input|
      ensures consumed == old(consumed) + input[from..taken]
      ensures pendingInputCount == old(pendingInputCount) + taken - from
      ensures pendingInputCount == BLOCK || (pendingInputCount < BLOCK && taken == |input|)
      ensures emitted == old(emitted)
    {
      assert pendingInputCount <= BLOCK;
      hide *;
      taken := from;
      assert input[from..from] == [];
      while pendingInputCount < BLOCK && taken < |input|
        invariant Shaped() && Queued() && pendingOutputCount == 0
        invariant from <= taken <= |input| && pendingInputCount <= BLOCK
        invariant consumed == old(consumed) + input[from..taken]
        invariant pendingInputCount == old(pendingInputCount) + taken - from
        invariant emitted == old(emitted)
      {
        Joined(old(consumed), input, from, taken);
        Append(input[taken]);
        taken := taken + 1;
      }
    }

    /** The same on top of what the call has added since its start. */
    method DrainMore(output: array<real>, from: nat, frames: nat, ghost start: seq<real>, ghost first: nat) returns (produced: nat)
      requires Valid() && output !in repr && from <= frames <= output.Length
      requires emitted == first + from && Accumulated(start, output[..], taps, consumed, first, 0, from)
      modifies this, output
      ensures Valid() && consumed == old(consumed) && pendingInputCount == old(pendingInputCount)
      ensures from <= produced == from + old(pendingOutputCount) - pendingOutputCount && produced <= frames
      ensures pendingOutputCount == 0 || produced == frames
      ensures emitted == first + produced <= |consumed|
      ensures Accumulated(start, output[..], taps, consumed, first, 0, produced)
    {
      hide *;
      produced := Drain(output, from, frames);
      AccumulatedJoin(start, old(output[..]), output[..], taps, consumed, consumed, first, from, produced);
    }

    /** Takes input in and, if that completes a block, transforms it. */
    method Refill(input: seq<real>, from: nat) returns (taken: nat)
      requires Valid() && pendingOutputCount == 0 && from <= |input|
      modifies repr
      ensures Valid() && from <= taken <= |input|
      ensures consumed == old(consumed) + input[from..taken] && emitted == old(emitted)
      ensures var filled := old(pendingInputCount) + taken - from;
              if filled < BLOCK then taken == |input| && pendingInputCount == filled && pendingOutputCount == 0
              else filled == BLOCK && pendingInputCount == 0 && pendingOutputCount == BLOCK
    {
      assert {window, timeScratch, pendingInput, pendingOutput} <= repr && {freqScratch} <= repr && this in repr;
      hide Shaped, Queued;
      taken := Fill(input, from);
      if pendingInputCount < 128 {
        return;
      }
      RunOneBlock();
    }

    /** Convolves a block of input and adds the result to the output. What it adds at each place
        is the direct convolution of all input taken in so far; how much it reads and fills is
        what the queue lengths dictate. */
    method ProcessAccumulate(input: seq<real>, output: array<real>)
      requires Valid() && output !in repr && |input| <= output.Length
      modifies repr, output
      ensures Valid()
      ensures consumed == old(consumed) + input[..Consumes(old(pendingInputCount), old(pendingOutputCount), |input|)]
      ensures emitted == old(emitted) + Emits(old(pendingInputCount), old(pendingOutputCount), |input|)
      ensures pendingInputCount == WaitingAfter(old(pendingInputCount), old(pendingOutputCount), |input|)
      ensures pendingOutputCount == FinishedAfter(old(pendingInputCount), old(pendingOutputCount), |input|)
      ensures Accumulated(old(output[..]), output[..], taps, consumed, old(emitted), 0,
                          Emits(old(pendingInputCount), old(pendingOutputCount), |input|))
    {
      assert this in repr && Rest(pendingInputCount, pendingOutputCount) && emitted <= |consumed|;
      assert Accumulated(output[..], output[..], taps, consumed, emitted, 0, 0);
      hide *;
      ghost var start := output[..];
      var frames := |input|;
      var inputConsumed, outputProduced := 0, 0;
      ghost var blocks: nat := 0;
      ghost var waiting, finished := pendingInputCount, pendingOutputCount;
      FirstTurn(waiting, finished, frames);
      while outputProduced < frames
        invariant Valid() && inputConsumed <= frames && outputProduced <= frames
        invariant Turn(waiting, finished, frames, blocks, inputConsumed, outputProduced, pendingInputCount, pendingOutputCount)
        invariant frames == 0 || outputProduced < frames
        invariant consumed == old(consumed) + input[..inputConsumed]
        invariant emitted == old(emitted) + outputProduced && emitted <= |consumed|
        invariant Accumulated(start, output[..], taps, consumed, old(emitted), 0, outputProduced)
        decreases frames - outputProduced, pendingOutputCount == 0
      {
        ghost var filled, ready, written := pendingInputCount, pendingOutputCount, outputProduced;
        outputProduced := DrainMore(output, outputProduced, frames, start, old(emitted));
        if outputProduced >= frames {
          TurnFills(waiting, finished, frames, blocks, inputConsumed, written, filled, ready, pendingOutputCount);
          break;
        }
        ghost var stream := consumed;
        var taken := Refill(input, inputConsumed);
        AccumulatedGrow(start, output[..], taps, stream, consumed, old(emitted), outputProduced);
        TakeMore(old(consumed), input, inputConsumed, taken);
        if pendingOutputCount == 0 {
          TurnStarves(waiting, finished, frames, blocks, inputConsumed, written, filled, ready, pendingInputCount);
          inputConsumed := taken;
          break;
        }
        TurnGoesOn(waiting, finished, frames, blocks, inputConsumed, written, filled, ready, taken);
        inputConsumed := taken;
        blocks := blocks + 1;
      }
      if frames == 0 {
        FilledCall(waiting, finished, frames, 0, 0, waiting);
      }
    }
  }

  lemma EmptyWindow(size: nat)
    ensures |WindowOf([], 0, size)| == size && forall j | 0 <= j < size :: WindowOf([], 0, size)[j] == 0.0
  {
    forall j | 0 <= j < size ensures WindowOf([], 0, size)[j] == 0.0 {
      assert WindowOf([], 0, size)[j] == At([], j - size);
    }
  }

  lemma TakeMore(stream: seq<real>, input: seq<real>, from: nat, to: nat)
    requires from <= to <= |input|
    ensures (stream + input[..from]) + input[from..to] == stream + input[..to]
  {
  }

  lemma AccumulatedGrow(a: seq<real>, b: seq<real>, h: seq<real>, x: seq<real>, y: seq<real>, first: nat, hi: nat)
    requires Accumulated(a, b, h, x, first, 0, hi) && x <= y && first + hi <= |x|
    ensures Accumulated(a, b, h, y, first, 0, hi)
  {
    hide Direct;
    AccumulatedJoin(a, b, b, h, x, y, first, hi, hi);
  }
}
