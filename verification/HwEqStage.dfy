/** The hardware equaliser stage: a crossfading slot of equaliser filters, run in place on the
    downmixed signal. */
module HwEqStage {
  import opened DspStage
  import opened Lists
  import opened Fades
  import opened EqDesign
  import opened Biquad
  import opened Cascade
  import opened GraphicEq

  datatype EqStage = EqStage(live: Curve, fadingOut: Option<Curve>, pending: Option<Curve>, remaining: nat)

  predicate StageOk(s: EqStage, length: nat) {
    length > 0 && s.remaining <= length && (s.fadingOut.Some? <==> s.remaining > 0)
  }

  function AdoptCurve(s: EqStage, length: nat): (t: EqStage)
    requires StageOk(s, length)
    ensures StageOk(t, length)
  {
    if s.remaining == 0 && s.pending.Some? then EqStage(s.pending.value, Some(s.live), None, length) else s
  }

  function FadeBlock(from: seq<real>, to: seq<real>, n: nat, length: nat, frames: nat): seq<real>
    requires |from| == |to| == 2 * frames && length > 0
  {
    seq(2 * frames, k requires 0 <= k < 2 * frames => FadeSample(from, to, n, length, 2, k))
  }

  /** One call on the input `x`: what comes out, and the stage afterwards. */
  function StageCall(s: EqStage, length: nat, x: seq<real>, frames: nat): (r: (seq<real>, EqStage))
    requires StageOk(s, length) && |x| == 2 * frames
    ensures |r.0| == |x| && StageOk(r.1, length)
  {
    var a := AdoptCurve(s, length);
    var (y, live) := StereoRun(a.live, x, frames);
    if a.remaining == 0 then (y, a.(live := live))
    else
      var (z, fading) := StereoRun(a.fadingOut.value, x, frames);
      var left := a.remaining - Min(a.remaining, frames);
      (FadeBlock(z, y, length - a.remaining, length, frames),
       EqStage(live, if left > 0 then Some(fading) else None, a.pending, left))
  }

  lemma StageCallFading(s: EqStage, length: nat, x: seq<real>, frames: nat)
    requires StageOk(s, length) && |x| == 2 * frames && s.remaining > 0
    ensures var (y, live) := StereoRun(s.live, x, frames);
            var (z, fading) := StereoRun(s.fadingOut.value, x, frames);
            var left := s.remaining - Min(s.remaining, frames);
            StageCall(s, length, x, frames) ==
              (FadeBlock(z, y, length - s.remaining, length, frames),
               EqStage(live, if left > 0 then Some(fading) else None, s.pending, left))
  {
    hide StereoRun, FadeBlock;
  }

  lemma AdoptedOnce(s: EqStage, length: nat, x: seq<real>, frames: nat)
    requires StageOk(s, length) && |x| == 2 * frames
    ensures StageCall(AdoptCurve(s, length), length, x, frames) == StageCall(s, length, x, frames)
  {
    hide StereoRun, FadeBlock;
  }

  /** Both filters of a fade on the same input. */
  method RenderBoth(live: GraphicEqFilter, fading: GraphicEqFilter, input: array<real>, forLive: array<real>,
                    forFading: array<real>, frames: nat)
    requires live.Valid() && fading.Valid() && live.Repr() !! fading.Repr()
    requires input != forLive && input != forFading && forLive != forFading
    requires 2 * frames <= input.Length && 2 * frames <= forLive.Length && 2 * frames <= forFading.Length
    modifies live.Repr(), fading.Repr(), forLive, forFading
    ensures (forLive[..2 * frames], live.State()) == StereoRun(old(live.State()), input[..2 * frames], frames)
    ensures (forFading[..2 * frames], fading.State()) == StereoRun(old(fading.State()), input[..2 * frames], frames)
  {
    hide StereoRun;
    ghost var x := input[..2 * frames];
    live.Process(input, forLive, frames);
    assert input[..2 * frames] == x;
    label L:
    assert fading.State() == old(fading.State());
    fading.Process(input, forFading, frames);
    assert live.State() == old@L(live.State());
  }

  method MixBlocks(from: seq<real>, to: seq<real>, output: array<real>, frames: nat, length: nat, remaining: nat)
    returns (left: nat)
    requires 0 < remaining <= length
    requires |from| == |to| == 2 * frames <= output.Length
    modifies output
    ensures left == remaining - Min(remaining, frames)
    ensures output[..2 * frames] == FadeBlock(from, to, length - remaining, length, frames)
    ensures forall k | 2 * frames <= k < output.Length :: output[k] == old(output[k])
  {
    hide FadeSample;
    left := BlendBlock(from, to, output, frames, 2, length, remaining);
  }

  method FadeFilters(live: GraphicEqFilter, fading: GraphicEqFilter, input: array<real>, output: array<real>,
                     forLive: array<real>, forFading: array<real>, frames: nat, length: nat, remaining: nat)
    returns (left: nat)
    requires live.Valid() && fading.Valid() && live.Repr() !! fading.Repr()
    requires input != forLive && input != forFading && output != forLive && output != forFading && forLive != forFading
    requires 2 * frames <= input.Length && 2 * frames <= output.Length
    requires 2 * frames <= forLive.Length && 2 * frames <= forFading.Length
    requires 0 < remaining <= length
    modifies live.Repr(), fading.Repr(), output, forLive, forFading
    ensures left == remaining - Min(remaining, frames)
    ensures var x := old(input[..2 * frames]);
            var (y, liveAfter) := StereoRun(old(live.State()), x, frames);
            var (z, fadingAfter) := StereoRun(old(fading.State()), x, frames);
            live.State() == liveAfter && fading.State() == fadingAfter
            && output[..2 * frames] == FadeBlock(z, y, length - remaining, length, frames)
    ensures forall k | 2 * frames <= k < output.Length :: output[k] == old(output[k])
  {
    hide StereoRun, FadeBlock;
    RenderBoth(live, fading, input, forLive, forFading, frames);
    assert input[..2 * frames] == old(input[..2 * frames]);
    label L:
    left := MixBlocks(forFading[..2 * frames], forLive[..2 * frames], output, frames, length, remaining);
    assert live.State() == old@L(live.State()) && fading.State() == old@L(fading.State());
  }

  class HwEqStage {
    const sampleRate: real
    const crossfadeFrames: nat
    const scratchOld: array<real>
    const scratchNew: array<real>
    var live: GraphicEqFilter
    var fadingOut: GraphicEqFilter?
    var pending: GraphicEqFilter?
    var remaining: nat

    ghost function FadingSections(): set<Biquad>
      reads this
    {
      if fadingOut == null then {} else fadingOut.Repr()
    }

    ghost function PendingSections(): set<Biquad>
      reads this
    {
      if pending == null then {} else pending.Repr()
    }

    ghost function Sections(): set<Biquad>
      reads this
    {
      live.Repr() + FadingSections() + PendingSections()
    }

    ghost predicate Valid()
      reads this
    {
      && crossfadeFrames > 0 && sampleRate * 0.49 >= 1.0
      && remaining <= crossfadeFrames && (fadingOut != null <==> remaining > 0)
      && scratchOld != scratchNew
      && scratchOld.Length == 2 * MAX_PROCESS_FRAMES && scratchNew.Length == 2 * MAX_PROCESS_FRAMES
      && live.Valid() && (fadingOut != null ==> fadingOut.Valid()) && (pending != null ==> pending.Valid())
      && live.Repr() !! FadingSections() && live.Repr() !! PendingSections() && FadingSections() !! PendingSections()
    }

    ghost function State(): EqStage
      reads this, Sections()
    {
      EqStage(live.State(), if fadingOut == null then None else Some(fadingOut.State()),
              if pending == null then None else Some(pending.State()), remaining)
    }

    constructor (m: Maths, bands: seq<BandSettings>, sampleRate: real, crossfadeFrames: nat)
      requires Sound(m) && sampleRate * 0.49 >= 1.0 && |bands| == BANDS && crossfadeFrames > 0
      ensures Valid() && fresh(live.Repr()) && fresh(scratchOld) && fresh(scratchNew)
      ensures this.sampleRate == sampleRate && this.crossfadeFrames == crossfadeFrames
      ensures State() == EqStage(Fresh(m, bands, sampleRate), None, None, 0)
    {
      hide Sound, Designs, AllAtRest;
      this.sampleRate, this.crossfadeFrames := sampleRate, crossfadeFrames;
      var filter := new GraphicEqFilter(m, bands, sampleRate);
      live, fadingOut, pending, remaining := filter, null, null, 0;
      scratchOld := new real[2 * MAX_PROCESS_FRAMES](_ => 0.0);
      scratchNew := new real[2 * MAX_PROCESS_FRAMES](_ => 0.0);
    }

    /** Publishes a freshly built filter; one that was not adopted yet is replaced. */
    method SetBands(m: Maths, bands: seq<BandSettings>)
      requires Valid() && Sound(m) && |bands| == BANDS
      modifies this
      ensures Valid() && fresh(PendingSections())
      ensures live == old(live) && fadingOut == old(fadingOut)
      ensures State() == old(State()).(pending := Some(Fresh(m, bands, sampleRate)))
    {
      hide Sound, Designs, AllAtRest;
      var filter := new GraphicEqFilter(m, bands, sampleRate);
      pending := filter;
    }

    /** Between fades, a pending filter becomes live and the old one starts to fade out. */
    method Adopt()
      requires Valid()
      modifies this
      ensures Valid() && Sections() == old(Sections())
      ensures State() == AdoptCurve(old(State()), crossfadeFrames)
    {
      if remaining == 0 && pending != null {
        fadingOut := live;
        live := pending;
        pending := null;
        remaining := crossfadeFrames;
      }
    }

    method ProcessLive(input: array<real>, output: array<real>, frames: nat)
      requires Valid() && remaining == 0 && pending == null && 2 * frames <= input.Length && 2 * frames <= output.Length
      modifies Sections(), output
      ensures Valid() && Sections() == old(Sections())
      ensures (output[..2 * frames], State()) == StageCall(old(State()), crossfadeFrames, old(input[..2 * frames]), frames)
      ensures forall k | 2 * frames <= k < output.Length :: output[k] == old(output[k])
    {
      hide StereoRun;
      live.Process(input, output, frames);
    }

    method ProcessFading(input: array<real>, output: array<real>, frames: nat)
      requires Valid() && remaining > 0 && frames <= MAX_PROCESS_FRAMES
      requires input != scratchOld && input != scratchNew && output != scratchOld && output != scratchNew
      requires 2 * frames <= input.Length && 2 * frames <= output.Length
      modifies this, Sections(), output, scratchOld, scratchNew
      ensures Valid() && Sections() <= old(Sections())
      ensures (output[..2 * frames], State()) == StageCall(old(State()), crossfadeFrames, old(input[..2 * frames]), frames)
      ensures forall k | 2 * frames <= k < output.Length :: output[k] == old(output[k])
    {
      hide StereoRun, FadeBlock, StageCall, AdoptCurve;
      StageCallFading(State(), crossfadeFrames, input[..2 * frames], frames);
      var left := FadeFilters(live, fadingOut, input, output, scratchNew, scratchOld, frames, crossfadeFrames, remaining);
      assert pending != null ==> pending.State() == old(pending.State());
      remaining := left;
      if remaining == 0 {
        fadingOut := null;
      }
    }

    /** One block. Input and output may be one buffer, also during a fade: what comes out answers
        what was in the input when the call began. */
    method Process(input: array<real>, output: array<real>, requestedFrames: nat)
      requires Valid()
      requires input != scratchOld && input != scratchNew && output != scratchOld && output != scratchNew
      requires 2 * Min(requestedFrames, MAX_PROCESS_FRAMES) <= input.Length
      requires 2 * Min(requestedFrames, MAX_PROCESS_FRAMES) <= output.Length
      modifies this, Sections(), output, scratchOld, scratchNew
      ensures Valid() && Sections() <= old(Sections())
      ensures var frames := Min(requestedFrames, MAX_PROCESS_FRAMES);
              && (output[..2 * frames], State()) == StageCall(old(State()), crossfadeFrames, old(input[..2 * frames]), frames)
              && (forall k | 2 * frames <= k < output.Length :: output[k] == old(output[k]))
    {
      var frames := requestedFrames;
      if frames > MAX_PROCESS_FRAMES {
        frames := MAX_PROCESS_FRAMES;
      }
      AdoptedOnce(State(), crossfadeFrames, input[..2 * frames], frames);
      hide StageCall, FadeSample;
      Adopt();
      if remaining == 0 {
        ProcessLive(input, output, frames);
      } else {
        ProcessFading(input, output, frames);
      }
    }
  }

  /** The state of a filter just built for a curve. */
  function Fresh(m: Maths, bands: seq<BandSettings>, sampleRate: real): Curve
    requires Sound(m) && sampleRate * 0.49 >= 1.0
  {
    Curve(AllAtRest(Designs(m, bands, sampleRate)), AllAtRest(Designs(m, bands, sampleRate)))
  }

  // ------------------------------------------------------ the flat curve

  predicate FlatCurve(c: Curve) {
    FlatAtRest(c.left) && FlatAtRest(c.right)
  }

  predicate FlatStage(s: EqStage) {
    FlatCurve(s.live) && (s.fadingOut.Some? ==> FlatCurve(s.fadingOut.value)) && (s.pending.Some? ==> FlatCurve(s.pending.value))
  }

  /** Ten peaking bands at zero decibels make a flat filter, whatever their frequencies and widths. */
  lemma ZeroGainIsFlat(m: Maths, bands: seq<BandSettings>, sampleRate: real)
    requires Sound(m) && sampleRate * 0.49 >= 1.0
    requires forall b | b in bands :: b.filterType == Peaking && b.gainDb == 0.0
    ensures FlatCurve(Fresh(m, bands, sampleRate))
  {
    hide Sound, Design, Flat;
    var cs := Designs(m, bands, sampleRate);
    forall i | 0 <= i < |cs| ensures Flat(cs[i]) {
      assert bands[i] in bands;
      PeakingFlatIff(m, bands[i].frequencyHz, bands[i].gainDb, bands[i].q, sampleRate);
    }
  }

  lemma {:induction false} FlatStereo(c: Curve, x: seq<real>, frames: nat)
    requires |x| == 2 * frames && FlatCurve(c)
    ensures StereoRun(c, x, frames) == (x, c)
  {
    hide ChainStep, FlatAtRest;
    if frames == 0 {
    } else {
      FlatStereo(c, x[..2 * frames - 2], frames - 1);
      FlatChainStep(c.left, x[2 * frames - 2]);
      FlatChainStep(c.right, x[2 * frames - 1]);
      assert x[..2 * frames - 2] + [x[2 * frames - 2], x[2 * frames - 1]] == x;
    }
  }

  lemma BlendOfEqual(a: real, gain: real)
    ensures Blend(a, a, gain) == a
  {
  }

  lemma FadeOfEqual(x: seq<real>, n: nat, length: nat, frames: nat)
    requires |x| == 2 * frames && length > 0
    ensures FadeBlock(x, x, n, length, frames) == x
  {
    hide Blend;
    forall k | 0 <= k < 2 * frames ensures FadeSample(x, x, n, length, 2, k) == x[k] {
      BlendOfEqual(x[k], Gain(n + k / 2, length));
    }
  }

  /** A stage of flat filters gives back every block unchanged, in the middle of a fade too, and
      stays flat: the default curve is the exact identity. */
  lemma FlatStageIsTransparent(s: EqStage, length: nat, x: seq<real>, frames: nat)
    requires StageOk(s, length) && |x| == 2 * frames && FlatStage(s)
    ensures StageCall(s, length, x, frames).0 == x && FlatStage(StageCall(s, length, x, frames).1)
  {
    hide FlatCurve, StereoRun, FadeBlock;
    var a := AdoptCurve(s, length);
    FlatStereo(a.live, x, frames);
    if a.remaining > 0 {
      FlatStereo(a.fadingOut.value, x, frames);
      FadeOfEqual(x, length - a.remaining, length, frames);
    }
  }

  /** The engine's use: one buffer for input and output. On the default curve nothing changes. */
  method EqualiseInPlace(stage: HwEqStage, buffer: array<real>, frames: nat)
    requires stage.Valid() && FlatStage(stage.State()) && frames <= MAX_PROCESS_FRAMES
    requires buffer != stage.scratchOld && buffer != stage.scratchNew && 2 * frames <= buffer.Length
    modifies stage, stage.Sections(), buffer, stage.scratchOld, stage.scratchNew
    ensures stage.Valid() && FlatStage(stage.State())
    ensures buffer[..] == old(buffer[..])
  {
    hide FlatStage, StageCall;
    FlatStageIsTransparent(stage.State(), stage.crossfadeFrames, buffer[..2 * frames], frames);
    stage.Process(buffer, buffer, frames);
    assert buffer[..2 * frames] == old(buffer[..2 * frames]);
    assert forall k | 0 <= k < 2 * frames :: buffer[k] == buffer[..2 * frames][k];
  }
}
