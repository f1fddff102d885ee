/** The ten-band stereo equaliser, safe to run in place. */
module GraphicEq {
  import opened DspStage
  import opened EqDesign
  import opened Biquad
  import opened Cascade

  const BANDS: nat := 10

  datatype BandSettings = BandSettings(filterType: FilterType, frequencyHz: real, gainDb: real, q: real)

  const DEFAULT_CENTRES: seq<real> := [31.5, 63.0, 125.0, 250.0, 500.0, 1000.0, 2000.0, 4000.0, 8000.0, 16000.0]
  const DEFAULT_Q: real := 1.41

  /** The flat curve at the ISO centres. */
  method DefaultHwEqBands() returns (bands: seq<BandSettings>)
    ensures |bands| == BANDS
    ensures forall i | 0 <= i < BANDS :: bands[i] == BandSettings(Peaking, DEFAULT_CENTRES[i], 0.0, DEFAULT_Q)
  {
    bands := [];
    for i := 0 to BANDS
      invariant |bands| == i
      invariant forall k | 0 <= k < i :: bands[k] == BandSettings(Peaking, DEFAULT_CENTRES[k], 0.0, DEFAULT_Q)
    {
      bands := bands + [BandSettings(Peaking, DEFAULT_CENTRES[i], 0.0, DEFAULT_Q)];
    }
  }

  // ------------------------------------------------------ two chains on interleaved samples

  datatype Curve = Curve(left: seq<Section>, right: seq<Section>)

  function StereoRun(c: Curve, x: seq<real>, frames: nat): (r: (seq<real>, Curve))
    requires |x| == 2 * frames
    ensures |r.0| == |x| && |r.1.left| == |c.left| && |r.1.right| == |c.right|
  {
    if frames == 0 then ([], c)
    else
      var (y, d) := StereoRun(c, x[..2 * frames - 2], frames - 1);
      var (a, left) := ChainStep(d.left, x[2 * frames - 2]);
      var (b, right) := ChainStep(d.right, x[2 * frames - 1]);
      (y + [a, b], Curve(left, right))
  }

  lemma StereoStep(c: Curve, x: seq<real>, frame: nat)
    requires 2 * frame + 2 <= |x|
    ensures var (y, d) := StereoRun(c, x[..2 * frame], frame);
            var (a, left) := ChainStep(d.left, x[2 * frame]);
            var (b, right) := ChainStep(d.right, x[2 * frame + 1]);
            StereoRun(c, x[..2 * (frame + 1)], frame + 1) == (y + [a, b], Curve(left, right))
  {
    hide ChainStep;
    assert x[..2 * (frame + 1)][..2 * frame] == x[..2 * frame];
  }

  lemma ChannelStep(x: seq<real>, channel: nat, frames: nat)
    requires |x| == 2 * frames && channel < 2 && frames > 0
    ensures Channel(x, channel) == Channel(x[..2 * frames - 2], channel) + [x[2 * frames - 2 + channel]]
  {
  }

  /** The two channels do not mix. */
  lemma {:induction false} StereoIsTwoChains(c: Curve, x: seq<real>, frames: nat)
    requires |x| == 2 * frames
    ensures var (y, d) := StereoRun(c, x, frames);
            && (Channel(y, 0), d.left) == ChainRun(c.left, Channel(x, 0))
            && (Channel(y, 1), d.right) == ChainRun(c.right, Channel(x, 1))
  {
    hide ChainStep;
    if frames == 0 {
    } else {
      hide Channel, ChainRun;
      var init := x[..2 * frames - 2];
      StereoIsTwoChains(c, init, frames - 1);
      ChainRunStep(c.left, Channel(init, 0), x[2 * frames - 2]);
      ChainRunStep(c.right, Channel(init, 1), x[2 * frames - 1]);
      ChannelStep(x, 0, frames);
      ChannelStep(x, 1, frames);
      var y, z := StereoRun(c, init, frames - 1).0, StereoRun(c, x, frames).0;
      assert z[..2 * frames - 2] == y;
      ChannelStep(z, 0, frames);
      ChannelStep(z, 1, frames);
    }
  }

  /** However a stream is cut into calls, the equaliser puts out the same samples. */
  lemma {:induction false} StereoRunInPieces(c: Curve, x: seq<real>, frames: nat, more: seq<real>, moreFrames: nat)
    requires |x| == 2 * frames && |more| == 2 * moreFrames
    ensures var (y, d) := StereoRun(c, x, frames); var (z, e) := StereoRun(d, more, moreFrames);
            StereoRun(c, x + more, frames + moreFrames) == (y + z, e)
  {
    hide ChainStep;
    if moreFrames == 0 {
      assert x + more == x;
      assert StereoRun(c, x, frames).0 + [] == StereoRun(c, x, frames).0;
    } else {
      var init := more[..2 * moreFrames - 2];
      StereoRunInPieces(c, x, frames, init, moreFrames - 1);
      var n := frames + moreFrames;
      assert (x + more)[..2 * n - 2] == x + init;
      assert (x + more)[2 * n - 2] == more[2 * moreFrames - 2] && (x + more)[2 * n - 1] == more[2 * moreFrames - 1];
      var (y, d) := StereoRun(c, x, frames);
      var (z, e) := StereoRun(d, init, moreFrames - 1);
      var pair := [ChainStep(e.left, more[2 * moreFrames - 2]).0, ChainStep(e.right, more[2 * moreFrames - 1]).0];
      assert (y + z) + pair == y + (z + pair);
    }
  }

  // ------------------------------------------------------ the filter

  ghost function States(sections: seq<Biquad>): (ss: seq<Section>)
    reads sections
    ensures |ss| == |sections|
  {
    seq(|sections|, i requires 0 <= i < |sections| reads sections => sections[i].State())
  }

  ghost predicate Distinct(sections: seq<Biquad>) {
    forall i, j | 0 <= i < j < |sections| :: sections[i] != sections[j]
  }

  ghost predicate Separate(left: seq<Biquad>, right: seq<Biquad>) {
    Distinct(left) && Distinct(right) && forall s | s in left :: s !in right
  }

  /** One sample through all sections, in place. */
  method ProcessChain(sections: seq<Biquad>, x: real) returns (y: real)
    requires Distinct(sections)
    modifies sections
    ensures (y, States(sections)) == ChainStep(old(States(sections)), x)
  {
    hide Step;
    y := x;
    ghost var before := States(sections);
    for i := 0 to |sections|
      invariant (y, States(sections[..i])) == ChainStep(before[..i], x)
      invariant forall k | i <= k < |sections| :: sections[k].State() == before[k]
    {
      ghost var front := States(sections[..i]);
      label L:
      y := sections[i].ProcessSample(y);
      assert States(sections[..i]) == front;
      assert before[..i + 1][..i] == before[..i];
      assert States(sections[..i + 1]) == States(sections[..i]) + [sections[i].State()];
    }
    assert sections[..|sections|] == sections;
    assert before[..|sections|] == before;
  }

  method NewSection(m: Maths, band: BandSettings, sampleRate: real) returns (s: Biquad)
    requires Sound(m) && sampleRate * 0.49 >= 1.0
    ensures fresh(s)
    ensures s.State() == AtRest(Design(m, band.filterType, band.frequencyHz, band.gainDb, band.q, sampleRate))
  {
    hide Design, Sound;
    s := new Biquad();
    s.SetCoefficients(m, band.filterType, band.frequencyHz, band.gainDb, band.q, sampleRate);
  }

  class GraphicEqFilter {
    const left: seq<Biquad>
    const right: seq<Biquad>

    ghost function Repr(): set<Biquad> {
      (set s | s in left) + (set s | s in right)
    }

    ghost predicate Valid() {
      |left| == |right| == BANDS && Separate(left, right)
    }

    ghost function State(): Curve
      reads Repr()
    {
      Curve(States(left), States(right))
    }

    constructor (m: Maths, bands: seq<BandSettings>, sampleRate: real)
      requires Sound(m) && sampleRate * 0.49 >= 1.0 && |bands| == BANDS
      ensures Valid() && fresh(Repr())
      ensures State() == Curve(AllAtRest(Designs(m, bands, sampleRate)), AllAtRest(Designs(m, bands, sampleRate)))
    {
      hide Design, Sound;
      var l, r: seq<Biquad> := [], [];
      for i := 0 to BANDS
        invariant |l| == |r| == i && Separate(l, r)
        invariant forall k | 0 <= k < i :: fresh(l[k]) && fresh(r[k])
        invariant forall k | 0 <= k < i :: l[k].State() == r[k].State() == AtRest(Designs(m, bands, sampleRate)[k])
      {
        var a := NewSection(m, bands[i], sampleRate);
        var b := NewSection(m, bands[i], sampleRate);
        l, r := l + [a], r + [b];
      }
      left, right := l, r;
    }

    method ProcessFrame(leftSample: real, rightSample: real) returns (a: real, b: real)
      requires Valid()
      modifies Repr()
      ensures (a, State().left) == ChainStep(old(State()).left, leftSample)
      ensures (b, State().right) == ChainStep(old(State()).right, rightSample)
    {
      hide ChainStep;
      a := ProcessChain(left, leftSample);
      assert forall i | 0 <= i < |right| :: right[i] !in left;
      assert forall i | 0 <= i < |right| :: right[i].State() == old(right[i].State());
      assert States(right) == old(States(right));
      label L:
      b := ProcessChain(right, rightSample);
      assert forall i | 0 <= i < |left| :: left[i] !in right;
      assert forall i | 0 <= i < |left| :: left[i].State() == old@L(left[i].State());
      assert States(left) == old@L(States(left));
    }

    /** Frame by frame, each channel through its own sections. Input and output may be one buffer:
        what comes out answers what was in the input when the call began. */
    method Process(input: array<real>, output: array<real>, frames: nat)
      requires Valid() && 2 * frames <= input.Length && 2 * frames <= output.Length
      modifies Repr(), output
      ensures (output[..2 * frames], State()) == StereoRun(old(State()), old(input[..2 * frames]), frames)
      ensures forall k | 2 * frames <= k < output.Length :: output[k] == old(output[k])
    {
      hide ChainStep, StereoRun, Separate;
      ghost var x := input[..2 * frames];
      ghost var before := State();
      NoFrames(before, x[..0]);
      for frame := 0 to frames
        invariant (output[..2 * frame], State()) == StereoRun(before, x[..2 * frame], frame)
        invariant forall k | 2 * frame <= k < 2 * frames :: input[k] == x[k]
        invariant forall k | 2 * frames <= k < output.Length :: output[k] == old(output[k])
      {
        StereoStep(before, x, frame);
        ghost var y := output[..2 * frame];
        var leftSample := input[2 * frame];
        var rightSample := input[2 * frame + 1];
        leftSample, rightSample := ProcessFrame(leftSample, rightSample);
        label L:
        output[2 * frame] := leftSample;
        output[2 * frame + 1] := rightSample;
        assert forall s | s in Repr() :: s.State() == old@L(s.State());
        assert State() == old@L(State());
        assert output[..2 * (frame + 1)] == y + [leftSample, rightSample];
      }
      assert x[..2 * frames] == x;
    }
  }

  lemma NoFrames(c: Curve, x: seq<real>)
    requires x == []
    ensures StereoRun(c, x, 0) == ([], c)
  {
  }

  function Designs(m: Maths, bands: seq<BandSettings>, sampleRate: real): (cs: seq<Coefficients>)
    requires Sound(m) && sampleRate * 0.49 >= 1.0
    ensures |cs| == |bands|
  {
    seq(|bands|, i requires 0 <= i < |bands| =>
      Design(m, bands[i].filterType, bands[i].frequencyHz, bands[i].gainDb, bands[i].q, sampleRate))
  }
}
