/** One voice of the binaural renderer: far-field taps, proximity correction and delay built into
    one filter per ear, and the pair of convolvers that runs them. */
module BinauralVoice {
  import opened Complexes
  import opened DspStage
  import opened Convolution
  import opened FilterCascade
  import opened NearField
  import opened OverlapSave
  import opened Lists
  import opened ConvolverRuns
  import Fourier
  import PartitionedConvolver

  /** The transform library's plan for one filter. */
  datatype Plan = Plan(fftSize: nat, root: Complex)

  ghost predicate PlanFits(plan: Plan, taps: seq<real>) {
    && plan.fftSize % 2 == 0 && plan.fftSize >= |taps| + BLOCK - 1
    && Fourier.PrimitiveRoot(plan.root, plan.fftSize)
  }

  function EarTaps(taps: seq<real>, delay: real): seq<real> {
    Delayed(taps, IntegerDelay(delay))
  }

  method ScaleTaps(taps: seq<real>, gain: real) returns (scaled: seq<real>)
    ensures scaled == Scaled(gain, taps)
  {
    scaled := taps;
    for i := 0 to |taps|
      invariant |scaled| == |taps|
      invariant forall k | 0 <= k < i :: scaled[k] == Scaled(gain, taps)[k]
      invariant forall k | i <= k < |taps| :: scaled[k] == taps[k]
    {
      var tap := scaled[i];
      scaled := scaled[i := tap * gain];
    }
  }

  /** The combined filter of a voice: normalise both far-field ears, then fold the correction in.
      Delays pass through. */
  method BuildVoiceFilter(far: HrtfFilter, gain: real, correction: HrtfFilter) returns (combined: HrtfFilter)
    ensures combined == HrtfFilter(
      Product(Scaled(gain, far.left), correction.left), Product(Scaled(gain, far.right), correction.right),
      far.delayLeft, far.delayRight)
  {
    var left := ScaleTaps(far.left, gain);
    var right := ScaleTaps(far.right, gain);
    var combinedLeft := Convolve(left, correction.left);
    var combinedRight := Convolve(right, correction.right);
    combined := HrtfFilter(combinedLeft, combinedRight, far.delayLeft, far.delayRight);
  }

  class BinauralVoiceFilter {
    const leftConvolver: PartitionedConvolver.Convolver
    const rightConvolver: PartitionedConvolver.Convolver
    const scratchLeft: array<real>
    const scratchRight: array<real>

    ghost function Repr(): set<object> {
      {this, scratchLeft, scratchRight, leftConvolver, rightConvolver} + leftConvolver.repr + rightConvolver.repr
    }

    ghost predicate Valid()
      reads Repr()
    {
      && leftConvolver.Valid() && rightConvolver.Valid()
      && leftConvolver.repr !! rightConvolver.repr
      && scratchLeft !in leftConvolver.repr && scratchLeft !in rightConvolver.repr
      && scratchRight !in leftConvolver.repr && scratchRight !in rightConvolver.repr
      && this !in leftConvolver.repr && this !in rightConvolver.repr
      && scratchLeft != scratchRight
      && scratchLeft.Length == MAX_PROCESS_FRAMES && scratchRight.Length == MAX_PROCESS_FRAMES
    }

    ghost function LeftTape(): (t: Tape)
      requires Valid()
      reads Repr()
      ensures TapeOk(t)
    {
      TapeOf(leftConvolver)
    }

    ghost function RightTape(): (t: Tape)
      requires Valid()
      reads Repr()
      ensures TapeOk(t)
    {
      TapeOf(rightConvolver)
    }

    constructor (filter: HrtfFilter, left: Plan, right: Plan)
      requires PlanFits(left, EarTaps(filter.left, filter.delayLeft))
      requires PlanFits(right, EarTaps(filter.right, filter.delayRight))
      ensures Valid() && fresh(Repr()) && LeftTape() == EMPTY && RightTape() == EMPTY
      ensures leftConvolver.taps == EarTaps(filter.left, filter.delayLeft)
      ensures rightConvolver.taps == EarTaps(filter.right, filter.delayRight)
    {
      hide Fourier.PrimitiveRoot;
      hide Delayed;
      hide Direct;
      hide TapeOf;
      hide TapeOk;
      hide PartitionedConvolver.Convolver.Valid;
      var delayedLeft := BuildDelayedHrtfFilter(filter.left, filter.delayLeft);
      var delayedRight := BuildDelayedHrtfFilter(filter.right, filter.delayRight);
      var leftLoaded := LoadEmpty(delayedLeft, left.fftSize, left.root);
      var rightLoaded := LoadEmpty(delayedRight, right.fftSize, right.root);
      assert leftLoaded.repr !! rightLoaded.repr;
      leftConvolver, rightConvolver := leftLoaded, rightLoaded;
      scratchLeft := new real[MAX_PROCESS_FRAMES](_ => 0.0);
      scratchRight := new real[MAX_PROCESS_FRAMES](_ => 0.0);
    }

    /** Renders one block of mono input: left samples at even places, right samples at odd ones. */
    method Process(mono: seq<real>, stereo: array<real>)
      requires Valid() && stereo !in Repr()
      requires |mono| <= MAX_PROCESS_FRAMES && 2 * |mono| <= stereo.Length
      modifies Repr(), stereo
      ensures Valid() && LeftTape() == After(old(LeftTape()), mono) && RightTape() == After(old(RightTape()), mono)
      ensures forall i | 0 <= i < |mono| ::
        && stereo[2 * i] == CallOutput(leftConvolver.taps, old(LeftTape()), mono)[i]
        && stereo[2 * i + 1] == CallOutput(rightConvolver.taps, old(RightTape()), mono)[i]
      ensures forall p | 2 * |mono| <= p < stereo.Length :: stereo[p] == old(stereo[p])
    {
      hide Direct;
      hide TapeOf;
      hide After;
      hide CallOutput;
      hide PartitionedConvolver.Convolver.Valid;
      ClearScratch(|mono|);
      ghost var leftOut := CallOutput(leftConvolver.taps, LeftTape(), mono);
      ghost var rightOut := CallOutput(rightConvolver.taps, RightTape(), mono);
      RenderEar(leftConvolver, scratchLeft, mono);
      RenderEar(rightConvolver, scratchRight, mono);
      Interleave(stereo, |mono|);
    }

    method ClearScratch(frames: nat)
      requires Valid() && frames <= MAX_PROCESS_FRAMES
      modifies scratchLeft, scratchRight
      ensures forall i | 0 <= i < frames :: scratchLeft[i] == 0.0 && scratchRight[i] == 0.0
    {
      for i := 0 to frames
        invariant forall j | 0 <= j < i :: scratchLeft[j] == 0.0 && scratchRight[j] == 0.0
      {
        scratchLeft[i] := 0.0;
        scratchRight[i] := 0.0;
      }
    }

    method Interleave(stereo: array<real>, frames: nat)
      requires scratchLeft != stereo && scratchRight != stereo
      requires frames <= scratchLeft.Length && frames <= scratchRight.Length && 2 * frames <= stereo.Length
      modifies stereo
      ensures forall i | 0 <= i < frames :: stereo[2 * i] == scratchLeft[i] && stereo[2 * i + 1] == scratchRight[i]
      ensures forall p | 2 * frames <= p < stereo.Length :: stereo[p] == old(stereo[p])
    {
      for i := 0 to frames
        invariant forall j | 0 <= j < i :: stereo[2 * j] == scratchLeft[j] && stereo[2 * j + 1] == scratchRight[j]
        invariant forall p | 2 * frames <= p < stereo.Length :: stereo[p] == old(stereo[p])
      {
        stereo[i * 2 + 0] := scratchLeft[i];
        stereo[i * 2 + 1] := scratchRight[i];
      }
    }
  }

  /** One ear's convolver run on a cleared scratch buffer. */
  method RenderEar(c: PartitionedConvolver.Convolver, scratch: array<real>, mono: seq<real>)
    requires c.Valid() && scratch !in c.repr && |mono| <= scratch.Length
    requires forall i | 0 <= i < |mono| :: scratch[i] == 0.0
    modifies c.repr, scratch
    ensures c.Valid() && TapeOf(c) == After(old(TapeOf(c)), mono)
    ensures scratch[..|mono|] == CallOutput(c.taps, old(TapeOf(c)), mono)
  {
    hide Direct;
    c.ProcessAccumulate(mono, scratch);
  }

  method RenderVoiceBlock(v: BinauralVoiceFilter, mono: seq<real>) returns (stereo: seq<real>)
    requires v.Valid() && |mono| <= MAX_PROCESS_FRAMES
    modifies v.Repr()
    ensures v.Valid() && v.LeftTape() == After(old(v.LeftTape()), mono) && v.RightTape() == After(old(v.RightTape()), mono)
    ensures |stereo| == 2 * |mono|
    ensures Channel(stereo, 0) == CallOutput(v.leftConvolver.taps, old(v.LeftTape()), mono)
    ensures Channel(stereo, 1) == CallOutput(v.rightConvolver.taps, old(v.RightTape()), mono)
  {
    hide CallOutput;
    hide After;
    hide BinauralVoiceFilter.LeftTape;
    hide BinauralVoiceFilter.RightTape;
    hide BinauralVoiceFilter.Valid;
    var output := new real[2 * |mono|](_ => 0.0);
    v.Process(mono, output);
    stereo := output[..];
  }

  /** A run of calls to a voice. */
  method RenderVoiceRun(v: BinauralVoiceFilter, inputs: seq<seq<real>>) returns (left: seq<seq<real>>, right: seq<seq<real>>)
    requires v.Valid()
    requires forall i | 0 <= i < |inputs| :: |inputs[i]| <= MAX_PROCESS_FRAMES
    modifies v.Repr()
    ensures left == RunOutput(v.leftConvolver.taps, old(v.LeftTape()), inputs)
    ensures right == RunOutput(v.rightConvolver.taps, old(v.RightTape()), inputs)
  {
    hide *;
    left, right := [], [];
    ghost var l, r := v.LeftTape(), v.RightTape();
    for i := 0 to |inputs|
      invariant v.Valid() && v.LeftTape() == l && v.RightTape() == r && TapeOk(l) && TapeOk(r)
      invariant RunOutput(v.leftConvolver.taps, old(v.LeftTape()), inputs) == left + RunOutput(v.leftConvolver.taps, l, inputs[i..])
      invariant RunOutput(v.rightConvolver.taps, old(v.RightTape()), inputs) == right + RunOutput(v.rightConvolver.taps, r, inputs[i..])
    {
      RunOutputStep(v.leftConvolver.taps, l, inputs, i);
      RunOutputStep(v.rightConvolver.taps, r, inputs, i);
      var stereo := RenderVoiceBlock(v, inputs[i]);
      left, right := left + [Channel(stereo, 0)], right + [Channel(stereo, 1)];
      l, r := After(l, inputs[i]), After(r, inputs[i]);
    }
  }

  /** The stream one ear should hear: level, far field, proximity, delay. */
  function EarStream(far: seq<real>, gain: real, correction: seq<real>, delay: real, x: seq<real>): seq<real> {
    Late(Filtered(correction, Filtered(far, Scaled(gain, x))), IntegerDelay(delay))
  }

  /** Building a voice and rendering a stream through it in aligned blocks gives each ear exactly
      the chain of processors the voice was built from. */
  method RenderVoice(far: HrtfFilter, gain: real, correction: HrtfFilter, leftPlan: Plan, rightPlan: Plan, inputs: seq<seq<real>>)
    returns (left: seq<seq<real>>, right: seq<seq<real>>)
    requires PlanFits(leftPlan, VoiceTaps(far.left, gain, correction.left, IntegerDelay(far.delayLeft)))
    requires PlanFits(rightPlan, VoiceTaps(far.right, gain, correction.right, IntegerDelay(far.delayRight)))
    requires forall i | 0 <= i < |inputs| :: |inputs[i]| <= MAX_PROCESS_FRAMES
    ensures Aligned(inputs) ==>
      && Flatten(left) == EarStream(far.left, gain, correction.left, far.delayLeft, Flatten(inputs))
      && Flatten(right) == EarStream(far.right, gain, correction.right, far.delayRight, Flatten(inputs))
  {
    hide *;
    EarTapsAreVoiceTaps(far.left, gain, correction.left, far.delayLeft);
    EarTapsAreVoiceTaps(far.right, gain, correction.right, far.delayRight);
    var combined := BuildVoiceFilter(far, gain, correction);
    var v := new BinauralVoiceFilter(combined, leftPlan, rightPlan);
    left, right := RenderVoiceRun(v, inputs);
    if Aligned(inputs) {
      EarHearsItsStream(far.left, gain, correction.left, far.delayLeft, inputs);
      EarHearsItsStream(far.right, gain, correction.right, far.delayRight, inputs);
    }
  }

  lemma EarTapsAreVoiceTaps(far: seq<real>, gain: real, correction: seq<real>, delay: real)
    ensures EarTaps(Product(Scaled(gain, far), correction), delay)
         == VoiceTaps(far, gain, correction, IntegerDelay(delay))
  {
  }

  /** One ear of an aligned run. */
  lemma EarHearsItsStream(far: seq<real>, gain: real, correction: seq<real>, delay: real, inputs: seq<seq<real>>)
    requires Aligned(inputs)
    ensures TapeOk(EMPTY)
    ensures Flatten(RunOutput(VoiceTaps(far, gain, correction, IntegerDelay(delay)), EMPTY, inputs))
         == EarStream(far, gain, correction, delay, Flatten(inputs))
  {
    hide VoiceTaps;
    hide Filtered;
    hide RunOutput;
    hide Flatten;
    AlignedRunIsDirectConvolution(VoiceTaps(far, gain, correction, IntegerDelay(delay)), inputs);
    VoiceIsCascade(far, gain, correction, IntegerDelay(delay), Flatten(inputs));
  }
}
