/** The two audio callbacks that share the sample queue: capture pushes interleaved stereo blocks,
    playback pops them. */
module StereoBridge {
  import opened DspStage
  import RingBuffer
  import opened Lists

  const MAX_SCRATCH_FRAMES: nat := 8192
  /** Samples the shared queue holds: one second of stereo at 48 kHz. */
  const MIX_CAPACITY: nat := 96000

  datatype Frame = Frame(left: real, right: real)

  /** Frames as interleaved samples. */
  function Samples(frames: seq<Frame>): (s: seq<real>)
    ensures |s| == 2 * |frames|
  {
    seq(2 * |frames|, (i: nat) requires i < 2 * |frames| =>
      if i % 2 == 0 then frames[i / 2].left else frames[i / 2].right)
  }

  lemma SamplesPrefix(frames: seq<Frame>, k: nat)
    requires k <= |frames|
    ensures Samples(frames)[..2 * k] == Samples(frames[..k])
  {
  }

  lemma SamplesSuffix(frames: seq<Frame>, k: nat)
    requires k <= |frames|
    ensures Samples(frames)[2 * k..] == Samples(frames[k..])
  {
  }

  lemma SamplesAppend(a: seq<Frame>, b: seq<Frame>)
    ensures Samples(a + b) == Samples(a) + Samples(b)
  {
  }

  class Bridge {
    const mix: RingBuffer.RingBuffer<real>
    /** The queue seen as whole frames. */
    ghost var queue: seq<Frame>

    ghost predicate Valid()
      reads this, mix, mix.buffer
    {
      mix.Valid() && mix.contents == Samples(queue) && mix.buffer.Length == MIX_CAPACITY + 1
    }

    constructor ()
      ensures Valid() && fresh(mix) && fresh(mix.buffer) && queue == []
    {
      mix := new RingBuffer.RingBuffer<real>(MIX_CAPACITY);
      queue := [];
    }

    /** Pushes a processed block. Overflow drops whole frames from its end, never half of one. */
    method HandleVirtualSinkAudio(processed: seq<Frame>) returns (accepted: nat)
      requires Valid()
      modifies this, mix, mix.buffer
      ensures Valid()
      ensures accepted == Min(Min(|processed|, MAX_SCRATCH_FRAMES), MIX_CAPACITY / 2 - |old(queue)|)
      ensures queue == old(queue) + processed[..accepted]
    {
      var frames := |processed|;
      if frames > MAX_SCRATCH_FRAMES {
        frames := MAX_SCRATCH_FRAMES;
      }
      var written := mix.Push(Samples(processed[..frames]));
      accepted := written / 2;
      SamplesPrefix(processed[..frames], accepted);
      assert processed[..frames][..accepted] == processed[..accepted];
      SamplesAppend(queue, processed[..accepted]);
      queue := queue + processed[..accepted];
    }

    /** Pops up to `frames` frames; the frame count it reports loses nothing to the halving. */
    method HandleHardwareOutputRequest(frames: nat) returns (interleaved: seq<real>, delivered: nat)
      requires Valid()
      modifies this, mix
      ensures Valid()
      ensures delivered == Min(frames, |old(queue)|)
      ensures interleaved == Samples(old(queue)[..delivered]) && queue == old(queue)[delivered..]
    {
      interleaved := mix.Pop(frames * 2);
      delivered := |interleaved| / 2;
      SamplesPrefix(queue, delivered);
      SamplesSuffix(queue, delivered);
      queue := queue[delivered..];
    }
  }

  // ------------------------------------------------------ whole runs

  datatype Callback = Capture(processed: seq<Frame>) | Playback(frames: nat)

  /** What a run of callbacks leaves queued, after having played `played`. */
  datatype Mix = Mix(queue: seq<Frame>, played: seq<Frame>, accepted: seq<seq<Frame>>)

  function Accepted(queue: seq<Frame>, processed: seq<Frame>): (n: nat)
    requires |queue| <= MIX_CAPACITY / 2
    ensures n <= |processed| && |queue| + n <= MIX_CAPACITY / 2
  {
    Min(Min(|processed|, MAX_SCRATCH_FRAMES), MIX_CAPACITY / 2 - |queue|)
  }

  function StepMix(m: Mix, c: Callback): (n: Mix)
    requires |m.queue| <= MIX_CAPACITY / 2
    ensures |n.queue| <= MIX_CAPACITY / 2
  {
    match c
    case Capture(processed) =>
      var n := Accepted(m.queue, processed);
      Mix(m.queue + processed[..n], m.played, m.accepted + [processed[..n]])
    case Playback(frames) =>
      var n := Min(frames, |m.queue|);
      Mix(m.queue[n..], m.played + m.queue[..n], m.accepted)
  }

  function RunMix(m: Mix, callbacks: seq<Callback>): Mix
    requires |m.queue| <= MIX_CAPACITY / 2
    decreases |callbacks|
  {
    if callbacks == [] then m else RunMix(StepMix(m, callbacks[0]), callbacks[1..])
  }

  /** A capture takes what fits of its first 8192 frames into a queue of 48000. */
  lemma QueueHoldsOneSecond(m: Mix, processed: seq<Frame>)
    requires |m.queue| <= 48000
    ensures |m.queue| <= MIX_CAPACITY / 2
    ensures var n := StepMix(m, Capture(processed));
            && n.played == m.played && m.queue <= n.queue
            && |n.queue| - |m.queue| == Min(Min(|processed|, 8192), 48000 - |m.queue|)
            && n.queue[|m.queue|..] <= processed
  {
    var n := StepMix(m, Capture(processed));
    assert n.queue[|m.queue|..] == processed[..Accepted(m.queue, processed)];
  }

  /** A callback's frames alternate left and right samples. */
  lemma FramesAlternate(frames: seq<Frame>, i: nat)
    requires i < |frames|
    ensures Channel(Samples(frames), 0)[i] == frames[i].left && Channel(Samples(frames), 1)[i] == frames[i].right
  {
  }

  /** Over any run of callbacks that do not overlap, played and queued frames together are the
      accepted prefixes of the captured blocks, whole frames in order: left and right never swap. */
  lemma {:induction false} FramesArePlayedInOrder(m: Mix, callbacks: seq<Callback>)
    requires |m.queue| <= MIX_CAPACITY / 2 && m.played + m.queue == Flatten(m.accepted)
    ensures
      var end := RunMix(m, callbacks);
      end.played + end.queue == Flatten(end.accepted)
    decreases |callbacks|
  {
    if callbacks != [] {
      var next := StepMix(m, callbacks[0]);
      match callbacks[0] {
        case Capture(processed) =>
          var taken := processed[..Accepted(m.queue, processed)];
          FlattenAppend(m.accepted, taken);
          assert m.played + (m.queue + taken) == (m.played + m.queue) + taken;
        case Playback(frames) =>
          var n := Min(frames, |m.queue|);
          assert (m.played + m.queue[..n]) + m.queue[n..] == m.played + m.queue;
      }
      FramesArePlayedInOrder(next, callbacks[1..]);
    }
  }

  /** One callback; a capture plays nothing. */
  method Serve(bridge: Bridge, c: Callback, ghost m: Mix) returns (interleaved: seq<real>)
    requires bridge.Valid() && bridge.queue == m.queue && |m.queue| <= MIX_CAPACITY / 2
    modifies bridge, bridge.mix, bridge.mix.buffer
    ensures bridge.Valid() && bridge.queue == StepMix(m, c).queue
    ensures Samples(StepMix(m, c).played) == Samples(m.played) + interleaved
  {
    hide Samples, Bridge.Valid;
    match c {
      case Capture(processed) =>
        var _ := bridge.HandleVirtualSinkAudio(processed);
        interleaved := [];
        assert Samples(m.played) + [] == Samples(m.played);
      case Playback(frames) =>
        var n;
        interleaved, n := bridge.HandleHardwareOutputRequest(frames);
        SamplesAppend(m.played, m.queue[..n]);
    }
  }

  /** The callbacks drive the queue exactly as the frame-level run says. */
  method RunCallbacks(callbacks: seq<Callback>) returns (played: seq<seq<real>>)
    ensures Flatten(played) == Samples(RunMix(Mix([], [], []), callbacks).played)
  {
    hide Samples, StepMix, Bridge.Valid;
    var bridge := new Bridge();
    played := [];
    ghost var mix := Mix([], [], []);
    assert Samples(mix.played) == [];
    for i := 0 to |callbacks|
      invariant bridge.Valid() && fresh(bridge) && fresh(bridge.mix) && fresh(bridge.mix.buffer)
      invariant bridge.queue == mix.queue && |mix.queue| <= MIX_CAPACITY / 2
      invariant Flatten(played) == Samples(mix.played)
      invariant RunMix(Mix([], [], []), callbacks) == RunMix(mix, callbacks[i..])
    {
      assert callbacks[i..][1..] == callbacks[i + 1..];
      var interleaved := Serve(bridge, callbacks[i], mix);
      FlattenAppend(played, interleaved);
      played := played + [interleaved];
      mix := StepMix(mix, callbacks[i]);
    }
  }
}
