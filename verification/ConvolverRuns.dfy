/** Whole runs of calls to a convolver: what a caller hears over any sequence of blocks. */
module ConvolverRuns {
  import opened Complexes
  import opened Convolution
  import opened OverlapSave
  import opened ConvolverQueue
  import opened Lists
  import opened PartitionedConvolver
  import Fourier

  /** What a convolver remembers between calls, as seen from outside. */
  datatype Tape = Tape(consumed: seq<real>, emitted: nat, waiting: nat, finished: nat)

  const EMPTY := Tape([], 0, 0, 0)

  ghost predicate TapeOk(t: Tape) {
    && Rest(t.waiting, t.finished)
    && |t.consumed| == t.emitted + t.finished + t.waiting
  }

  function After(t: Tape, input: seq<real>): Tape
    requires TapeOk(t)
  {
    Tape(
      t.consumed + input[..Consumes(t.waiting, t.finished, |input|)],
      t.emitted + Emits(t.waiting, t.finished, |input|),
      WaitingAfter(t.waiting, t.finished, |input|),
      FinishedAfter(t.waiting, t.finished, |input|))
  }

  lemma AfterOk(t: Tape, input: seq<real>)
    requires TapeOk(t)
    ensures TapeOk(After(t, input))
    ensures t.emitted <= After(t, input).emitted <= |After(t, input).consumed|
  {
    CallRests(t.waiting, t.finished, |input|);
  }

  /** The samples one call hands out. */
  function Emission(h: seq<real>, t: Tape, input: seq<real>): (e: seq<real>)
    requires TapeOk(t)
    ensures |e| == Emits(t.waiting, t.finished, |input|) <= |input|
  {
    seq(Emits(t.waiting, t.finished, |input|), (j: nat) => Direct(h, After(t, input).consumed, t.emitted + j))
  }

  /** What one call adds to its output: the samples handed out, then nothing. */
  function CallOutput(h: seq<real>, t: Tape, input: seq<real>): (y: seq<real>)
    requires TapeOk(t)
    ensures |y| == |input|
  {
    var e := Emission(h, t, input);
    e + seq(|input| - |e|, (j: nat) => 0.0)
  }

  function RunEnd(t: Tape, inputs: seq<seq<real>>): (end: Tape)
    requires TapeOk(t)
    ensures TapeOk(end)
    decreases |inputs|
  {
    if inputs == [] then t else (AfterOk(t, inputs[0]); RunEnd(After(t, inputs[0]), inputs[1..]))
  }

  function RunEmission(h: seq<real>, t: Tape, inputs: seq<seq<real>>): seq<real>
    requires TapeOk(t)
    decreases |inputs|
  {
    if inputs == [] then []
    else AfterOk(t, inputs[0]); Emission(h, t, inputs[0]) + RunEmission(h, After(t, inputs[0]), inputs[1..])
  }

  function RunOutput(h: seq<real>, t: Tape, inputs: seq<seq<real>>): (ys: seq<seq<real>>)
    requires TapeOk(t)
    ensures |ys| == |inputs|
    decreases |inputs|
  {
    if inputs == [] then []
    else AfterOk(t, inputs[0]); [CallOutput(h, t, inputs[0])] + RunOutput(h, After(t, inputs[0]), inputs[1..])
  }

  /** A run takes in a prefix-extending stream and never hands out more than it took in. */
  lemma {:induction false} RunExtends(t: Tape, inputs: seq<seq<real>>)
    requires TapeOk(t)
    ensures t.consumed <= RunEnd(t, inputs).consumed
    ensures t.emitted <= RunEnd(t, inputs).emitted <= |RunEnd(t, inputs).consumed|
    decreases |inputs|
  {
    if inputs != [] {
      AfterOk(t, inputs[0]);
      RunExtends(After(t, inputs[0]), inputs[1..]);
    }
  }

  /** For calls of any sizes: what a run hands out, call after call, is exactly the stretch of the
      direct convolution of the stream it took in that was due, in order and once. */
  lemma {:induction false} RunEmitsDirectConvolution(h: seq<real>, t: Tape, inputs: seq<seq<real>>)
    requires TapeOk(t)
    ensures t.emitted <= RunEnd(t, inputs).emitted <= |RunEnd(t, inputs).consumed|
    ensures RunEmission(h, t, inputs)
         == Filtered(h, RunEnd(t, inputs).consumed)[t.emitted..RunEnd(t, inputs).emitted]
    decreases |inputs|
  {
    hide Emission;
    hide After;
    hide Filtered;
    RunExtends(t, inputs);
    var due := Filtered(h, RunEnd(t, inputs).consumed);
    if inputs == [] {
      EmptySlice(due, t.emitted);
    } else {
      var next := After(t, inputs[0]);
      AfterOk(t, inputs[0]);
      RunExtends(next, inputs[1..]);
      RunEmitsDirectConvolution(h, next, inputs[1..]);
      EmissionIsDue(h, t, inputs[0], RunEnd(t, inputs).consumed);
      JoinSlices(due, t.emitted, next.emitted, RunEnd(t, inputs).emitted);
    }
  }

  lemma EmptySlice(s: seq<real>, a: nat)
    requires a <= |s|
    ensures s[a..a] == []
  {
  }

  lemma JoinSlices(s: seq<real>, a: nat, b: nat, c: nat)
    requires a <= b <= c <= |s|
    ensures s[a..b] + s[b..c] == s[a..c]
  {
  }

  /** What one call hands out is still the direct convolution of the stream as it grows. */
  lemma EmissionIsDue(h: seq<real>, t: Tape, input: seq<real>, stream: seq<real>)
    requires TapeOk(t) && After(t, input).consumed <= stream
    ensures t.emitted <= After(t, input).emitted <= |stream|
    ensures Emission(h, t, input) == Filtered(h, stream)[t.emitted..After(t, input).emitted]
  {
    hide Direct;
    hide Consumes;
    hide Emits;
    AfterOk(t, input);
    var next := After(t, input);
    var first, due := Emission(h, t, input), Filtered(h, stream)[t.emitted..next.emitted];
    var later := stream[|next.consumed|..];
    assert next.consumed + later == stream;
    forall j: nat | j < |first| ensures first[j] == due[j] {
      DirectIsCausal(h, next.consumed, later, t.emitted + j);
    }
  }

  ghost predicate Aligned(inputs: seq<seq<real>>) {
    forall i | 0 <= i < |inputs| :: |inputs[i]| % BLOCK == 0
  }

  /** On empty queues an aligned call takes all its input and fills all its output. */
  lemma AlignedCall(h: seq<real>, t: Tape, input: seq<real>)
    requires TapeOk(t) && t.waiting == 0 && t.finished == 0 && |input| % BLOCK == 0
    ensures After(t, input) == Tape(t.consumed + input, t.emitted + |input|, 0, 0)
    ensures CallOutput(h, t, input) == Emission(h, t, input)
  {
    LosslessIffAligned(|input|);
    assert input[..|input|] == input;
  }

  lemma {:induction false} AlignedRun(h: seq<real>, t: Tape, inputs: seq<seq<real>>)
    requires TapeOk(t) && t.waiting == 0 && t.finished == 0 && Aligned(inputs)
    ensures RunEnd(t, inputs).consumed == t.consumed + Flatten(inputs)
    ensures RunEnd(t, inputs).emitted == |RunEnd(t, inputs).consumed|
    ensures Flatten(RunOutput(h, t, inputs)) == RunEmission(h, t, inputs)
    decreases |inputs|
  {
    if inputs != [] {
      AfterOk(t, inputs[0]);
      AlignedCall(h, t, inputs[0]);
      forall i | 0 <= i < |inputs[1..]| ensures |inputs[1..][i]| % BLOCK == 0 {
        assert inputs[1..][i] == inputs[i + 1];
      }
      AlignedRun(h, After(t, inputs[0]), inputs[1..]);
      assert RunOutput(h, t, inputs)[1..] == RunOutput(h, After(t, inputs[0]), inputs[1..]);
    }
  }

  /** Overlap-save refines direct convolution: a fresh convolver called with multiples of the
      block size renders, across all call boundaries and without delay, the direct convolution
      of everything it was given. */
  lemma AlignedRunIsDirectConvolution(h: seq<real>, inputs: seq<seq<real>>)
    requires Aligned(inputs)
    ensures Flatten(RunOutput(h, EMPTY, inputs)) == Filtered(h, Flatten(inputs))
  {
    hide *;
    EmptyOk();
    AlignedRun(h, EMPTY, inputs);
    RunEmitsDirectConvolution(h, EMPTY, inputs);
    var end, due := RunEnd(EMPTY, inputs), Filtered(h, Flatten(inputs));
    assert end.consumed == Flatten(inputs);
    assert due[0..|due|] == due;
  }

  lemma EmptyOk()
    ensures TapeOk(EMPTY) && EMPTY.waiting == 0 && EMPTY.finished == 0 && EMPTY.emitted == 0 && EMPTY.consumed == []
  {
  }

  // ------------------------------------------------------ the convolver itself

  /** The tape a convolver object stands for. */
  ghost function TapeOf(c: Convolver): (t: Tape)
    requires c.Valid()
    reads c.repr
    ensures TapeOk(t)
  {
    Tape(c.consumed, c.emitted, c.pendingInputCount, c.pendingOutputCount)
  }

  /** One call on a cleared output buffer. */
  method RenderBlock(c: Convolver, input: seq<real>) returns (y: seq<real>)
    requires c.Valid()
    modifies c.repr
    ensures c.Valid() && TapeOf(c) == After(old(TapeOf(c)), input)
    ensures y == CallOutput(c.taps, old(TapeOf(c)), input)
  {
    hide Direct;
    var output := new real[|input|](_ => 0.0);
    c.ProcessAccumulate(input, output);
    y := output[..];
  }

  lemma RunOutputStep(h: seq<real>, t: Tape, inputs: seq<seq<real>>, i: nat)
    requires TapeOk(t) && i < |inputs|
    ensures TapeOk(After(t, inputs[i]))
    ensures RunOutput(h, t, inputs[i..]) == [CallOutput(h, t, inputs[i])] + RunOutput(h, After(t, inputs[i]), inputs[i + 1..])
  {
    hide CallOutput;
    AfterOk(t, inputs[i]);
    assert inputs[i..][1..] == inputs[i + 1..];
  }

  /** A run of calls, each on a cleared buffer. */
  method RenderRun(c: Convolver, inputs: seq<seq<real>>) returns (ys: seq<seq<real>>)
    requires c.Valid()
    modifies c.repr
    ensures c.Valid() && ys == RunOutput(c.taps, old(TapeOf(c)), inputs)
  {
    hide Direct;
    hide After;
    hide CallOutput;
    hide RunOutput;
    hide TapeOf;
    ys := [];
    ghost var tape := TapeOf(c);
    for i := 0 to |inputs|
      invariant c.Valid() && TapeOf(c) == tape && TapeOk(tape)
      invariant RunOutput(c.taps, old(TapeOf(c)), inputs) == ys + RunOutput(c.taps, tape, inputs[i..])
    {
      RunOutputStep(c.taps, tape, inputs, i);
      var y := RenderBlock(c, inputs[i]);
      ys := ys + [y];
      tape := After(tape, inputs[i]);
    }
  }

  method LoadEmpty(taps: seq<real>, fftSize: nat, root: Complex) returns (c: Convolver)
    requires fftSize % 2 == 0 && fftSize >= |taps| + BLOCK - 1 && Fourier.PrimitiveRoot(root, fftSize)
    ensures c.Valid() && fresh(c.repr) && c.taps == taps && TapeOf(c) == EMPTY
  {
    hide Direct;
    hide Fourier.PrimitiveRoot;
    hide Fourier.HalfSpectrum;
    c := new Convolver.Load(taps, fftSize, root);
  }

  /** Loading a filter and rendering a stream block by block. */
  method RenderStream(taps: seq<real>, fftSize: nat, root: Complex, inputs: seq<seq<real>>) returns (ys: seq<seq<real>>)
    requires fftSize % 2 == 0 && fftSize >= |taps| + BLOCK - 1 && Fourier.PrimitiveRoot(root, fftSize)
    ensures ys == RunOutput(taps, EMPTY, inputs)
    ensures Aligned(inputs) ==> Flatten(ys) == Filtered(taps, Flatten(inputs))
  {
    hide *;
    var c := LoadEmpty(taps, fftSize, root);
    ys := RenderRun(c, inputs);
    if Aligned(inputs) {
      AlignedRunIsDirectConvolution(taps, inputs);
    }
  }
}
