/** Switching the binaural stage between its original path and its near-field path: the same fade
    law as the crossfading slot, driven by a requested flag instead of a published object. */
module NearFieldToggle {
  import opened DspStage
  import opened Fades
  import opened CrossfadingSlot
  import opened Lists

  /** Which path is active, and how many frames the change towards it still takes. */
  datatype Toggle = Toggle(active: bool, remaining: nat)

  /** The start of a call: a new request is looked at only when no change is under way. */
  function Begin(t: Toggle, requested: bool, length: nat): Toggle {
    if t.remaining == 0 && requested != t.active then Toggle(requested, length) else t
  }

  function AfterBlock(t: Toggle, requested: bool, length: nat, frames: nat): Toggle {
    var b := Begin(t, requested, length);
    b.(remaining := b.remaining - Min(b.remaining, frames))
  }

  class BinauralStage {
    const toggleCrossfadeFrames: nat
    var nearFieldRequested: bool
    var nearFieldActive: bool
    var toggleFadeFramesRemaining: nat

    ghost function State(): Toggle
      reads this
    {
      Toggle(nearFieldActive, toggleFadeFramesRemaining)
    }

    ghost predicate Valid()
      reads this
    {
      toggleFadeFramesRemaining <= toggleCrossfadeFrames
    }

    constructor (nearField: bool, toggleCrossfadeFrames: nat)
      ensures Valid() && State() == Toggle(nearField, 0) && nearFieldRequested == nearField
      ensures this.toggleCrossfadeFrames == toggleCrossfadeFrames
    {
      this.toggleCrossfadeFrames := toggleCrossfadeFrames;
      nearFieldRequested, nearFieldActive := nearField, nearField;
      toggleFadeFramesRemaining := 0;
    }

    method SetNearFieldEnabled(enabled: bool)
      requires Valid()
      modifies this
      ensures Valid() && State() == old(State()) && nearFieldRequested == enabled
    {
      nearFieldRequested := enabled;
    }

    /** One block: the active path alone, or, while a change is under way, both paths blended
        towards the active one. `render` is what each path would put out for this block. */
    method Process(render: (bool, nat) -> seq<real>, output: array<real>, requestedFrames: nat)
      requires Valid()
      requires forall path: bool, f: nat :: |render(path, f)| == f * STEREO
      requires Min(requestedFrames, MAX_PROCESS_FRAMES) * STEREO <= output.Length
      modifies this, output
      ensures Valid() && nearFieldRequested == old(nearFieldRequested)
      ensures State() == AfterBlock(old(State()), nearFieldRequested, toggleCrossfadeFrames, Min(requestedFrames, MAX_PROCESS_FRAMES))
      ensures
        var t := Begin(old(State()), nearFieldRequested, toggleCrossfadeFrames);
        var frames := Min(requestedFrames, MAX_PROCESS_FRAMES);
        && (t.remaining == 0 ==> output[..frames * STEREO] == render(t.active, frames))
        && (t.remaining > 0 ==> forall k | 0 <= k < frames * STEREO ::
             output[k] == FadeSample(render(!t.active, frames), render(t.active, frames),
                                     toggleCrossfadeFrames - t.remaining, toggleCrossfadeFrames, STEREO, k))
        && (forall k | frames * STEREO <= k < output.Length :: output[k] == old(output[k]))
    {
      hide FadeSample;
      hide Gain;
      var frames := requestedFrames;
      if frames > MAX_PROCESS_FRAMES {
        frames := MAX_PROCESS_FRAMES;
      }
      if toggleFadeFramesRemaining == 0 && nearFieldRequested != nearFieldActive {
        nearFieldActive := nearFieldRequested;
        toggleFadeFramesRemaining := toggleCrossfadeFrames;
      }
      if toggleFadeFramesRemaining == 0 {
        CopyBlock(render(nearFieldActive, frames), output);
        return;
      }
      toggleFadeFramesRemaining := BlendBlock(render(!nearFieldActive, frames), render(nearFieldActive, frames), output,
        frames, STEREO, toggleCrossfadeFrames, toggleFadeFramesRemaining);
    }
  }

  // ------------------------------------------------------ a change over any sequence of blocks

  /** The stage is `n` frames into (or past) the change towards the path `to`. */
  ghost predicate Changing(t: Toggle, length: nat, to: bool, n: nat) {
    && (n == 0 && t.remaining == 0 ==> t.active != to)
    && (n > 0 || t.remaining > 0 ==> t.active == to && t.remaining == length - Min(n, length))
  }

  /** A request is looked at before the change begins and after it is over; in between it is ignored. */
  predicate Heeded(t: Toggle, length: nat, n: nat) {
    t.remaining == 0 && (n == 0 || n >= length)
  }

  lemma ChangingNext(t: Toggle, requested: bool, length: nat, to: bool, n: nat, frames: nat)
    requires Changing(t, length, to, n) && length > 0
    requires Heeded(t, length, n) ==> requested == to
    ensures Changing(AfterBlock(t, requested, length, frames), length, to, n + frames)
    ensures Begin(t, requested, length) == Toggle(to, length - Min(n, length))
  {
  }

  function PathRenderer(streams: bool -> (nat -> real), n: nat): (bool, nat) -> seq<real> {
    (path: bool, f: nat) => Block(streams(path), n, f, STEREO)
  }

  lemma PathRendererFits(streams: bool -> (nat -> real), n: nat, path: bool, f: nat)
    ensures |PathRenderer(streams, n)(path, f)| == f * STEREO
  {
    assert PathRenderer(streams, n)(path, f) == Block(streams(path), n, f, STEREO);
  }

  /** A block, and what is requested when it is rendered. */
  datatype ToggleBlock = ToggleBlock(requested: bool, frames: nat)

  function FramesOf(blocks: seq<ToggleBlock>): seq<nat> {
    seq(|blocks|, i requires 0 <= i < |blocks| => blocks[i].frames)
  }

  /** The blocks belong to one change: the path is requested where it matters, when the change begins
      (`begun` is whether it has) and after it is over; in between requests may come and go. */
  predicate OneChange(length: nat, to: bool, n: nat, begun: bool, blocks: seq<ToggleBlock>)
    decreases |blocks|
  {
    blocks == [] ||
    ((!begun || n >= length ==> blocks[0].requested == to) && blocks[0].frames <= MAX_PROCESS_FRAMES
     && OneChange(length, to, n + blocks[0].frames, true, blocks[1..]))
  }

  lemma OneChangeStep(length: nat, to: bool, n: nat, begun: bool, blocks: seq<ToggleBlock>)
    requires OneChange(length, to, n, begun, blocks) && blocks != []
    ensures (!begun || n >= length ==> blocks[0].requested == to) && blocks[0].frames <= MAX_PROCESS_FRAMES
    ensures OneChange(length, to, n + blocks[0].frames, true, blocks[1..])
    ensures FramesOf(blocks) != [] && FramesOf(blocks)[0] == blocks[0].frames && FramesOf(blocks)[1..] == FramesOf(blocks[1..])
  {
  }

  /** A change rendered in blocks of any sizes, with requests coming and going while it lasts: what
      comes out is the fade law from the other path to the one it began towards. */
  method RenderChange(stage: BinauralStage, streams: bool -> (nat -> real), ghost to: bool, n: nat, blocks: seq<ToggleBlock>)
    returns (out: seq<real>)
    requires stage.Valid() && stage.toggleCrossfadeFrames > 0
    requires Changing(stage.State(), stage.toggleCrossfadeFrames, to, n)
    requires OneChange(stage.toggleCrossfadeFrames, to, n, n > 0 || stage.toggleFadeFramesRemaining > 0, blocks)
    modifies stage
    ensures out == LawFrom(streams(!to), streams(to), stage.toggleCrossfadeFrames, STEREO, n, Total(FramesOf(blocks)))
    ensures MovesLinearly(streams(!to), streams(to), stage.toggleCrossfadeFrames, STEREO, n, out)
    decreases |blocks|
  {
    hide LawFrom, Law, CallOutput, Total, FramesOf, OneChange, Changing, MovesLinearly;
    LawFromIsLinear(streams(!to), streams(to), stage.toggleCrossfadeFrames, STEREO, n, Total(FramesOf(blocks)));
    if |blocks| == 0 {
      NothingRequested(blocks);
      NothingYet(streams(!to), streams(to), stage.toggleCrossfadeFrames, STEREO, n);
      out := [];
    } else {
      OneChangeStep(stage.toggleCrossfadeFrames, to, n, n > 0 || stage.toggleFadeFramesRemaining > 0, blocks);
      stage.SetNearFieldEnabled(blocks[0].requested);
      var first := RenderChangeBlock(stage, streams, to, n, blocks[0].frames);
      var rest := RenderChange(stage, streams, to, n + blocks[0].frames, blocks[1..]);
      out := first + rest;
      CallFollowsLaw(streams(!to), streams(to), stage.toggleCrossfadeFrames, STEREO, n, blocks[0].frames);
      LawJoins(streams(!to), streams(to), stage.toggleCrossfadeFrames, STEREO, n, blocks[0].frames, Total(FramesOf(blocks[1..])));
      TotalStep(FramesOf(blocks));
    }
  }

  lemma NothingRequested(blocks: seq<ToggleBlock>)
    requires blocks == []
    ensures Total(FramesOf(blocks)) == 0
  {
  }

  lemma TotalStep(calls: seq<nat>)
    requires calls != []
    ensures Total(calls) == calls[0] + Total(calls[1..])
  {
  }

  method RenderChangeBlock(stage: BinauralStage, streams: bool -> (nat -> real), ghost to: bool, n: nat, frames: nat)
    returns (y: seq<real>)
    requires stage.Valid() && stage.toggleCrossfadeFrames > 0 && frames <= MAX_PROCESS_FRAMES
    requires Changing(stage.State(), stage.toggleCrossfadeFrames, to, n)
    requires Heeded(stage.State(), stage.toggleCrossfadeFrames, n) ==> stage.nearFieldRequested == to
    modifies stage
    ensures stage.Valid() && Changing(stage.State(), stage.toggleCrossfadeFrames, to, n + frames)
    ensures n + frames > 0 || stage.toggleFadeFramesRemaining > 0
    ensures y == CallOutput(streams(!to), streams(to), stage.toggleCrossfadeFrames, STEREO, n, frames)
  {
    hide FadeSample, Gain, Changing;
    ChangingNext(stage.State(), stage.nearFieldRequested, stage.toggleCrossfadeFrames, to, n, frames);
    var output := new real[frames * STEREO](_ => 0.0);
    forall path: bool, f: nat ensures |PathRenderer(streams, n)(path, f)| == f * STEREO {
      PathRendererFits(streams, n, path, f);
    }
    stage.Process(PathRenderer(streams, n), output, frames);
    y := output[..];
  }
}
