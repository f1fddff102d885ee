/** What a whole equaliser curve does to a stream: each band is its own section, in order, with the
    settings it was given. */
module CurveTones {
  import opened Complexes
  import opened DspStage
  import opened EqDesign
  import opened Biquad
  import opened Cascade
  import opened EqTones
  import opened GraphicEq
  import opened HwEqStage
  import opened CurveChange

  /** The signals between the bands of a curve: each answers the one before by the difference equation
      of the section its band was designed to be. */
  ghost predicate BandSignals(m: Maths, bands: seq<BandSettings>, sampleRate: real, signals: seq<seq<real>>)
    requires Sound(m) && sampleRate * 0.49 >= 1.0
  {
    && |signals| == |bands| + 1
    && forall i | 0 <= i < |bands| ::
         var b := bands[i];
         Solves(Design(m, b.filterType, b.frequencyHz, b.gainDb, b.q, sampleRate), signals[i], signals[i + 1])
  }

  /** A freshly built filter runs each channel through its bands in order, each with the frequency, gain
      and quality factor it was given. */
  lemma CurveIsItsBands(m: Maths, bands: seq<BandSettings>, sampleRate: real, x: seq<real>, channel: nat)
    returns (signals: seq<seq<real>>)
    requires Sound(m) && sampleRate * 0.49 >= 1.0 && |x| % 2 == 0 && channel < 2
    ensures BandSignals(m, bands, sampleRate, signals)
    ensures signals[0] == Channel(x, channel)
    ensures signals[|bands|] == Channel(Filtered(Fresh(m, bands, sampleRate), x).0, channel)
  {
    hide Sound, Design, ChainRun, Solves, Channel;
    StereoIsTwoChains(Fresh(m, bands, sampleRate), x, |x| / 2);
    signals := ChainHasSignals(Designs(m, bands, sampleRate), Channel(x, channel));
    hide StereoRun;
    forall i | 0 <= i < |bands|
      ensures var b := bands[i];
              Solves(Design(m, b.filterType, b.frequencyHz, b.gainDb, b.q, sampleRate), signals[i], signals[i + 1])
    {
      assert Solves(Designs(m, bands, sampleRate)[i], signals[i], signals[i + 1]);
    }
  }

  predicate FlatSettings(b: BandSettings) {
    b.filterType == Peaking && b.gainDb == 0.0
  }

  lemma FlatBandSolves(m: Maths, b: BandSettings, sampleRate: real, x: seq<real>, y: seq<real>)
    requires Sound(m) && sampleRate * 0.49 >= 1.0 && FlatSettings(b)
    requires Solves(Design(m, b.filterType, b.frequencyHz, b.gainDb, b.q, sampleRate), x, y)
    ensures y == x
  {
    hide Sound, Solves, Design;
    PeakingFlatIff(m, b.frequencyHz, b.gainDb, b.q, sampleRate);
    var d := Design(m, Peaking, b.frequencyHz, b.gainDb, b.q, sampleRate);
    FlatIsIdentity(d, x);
    RunIsTheSolution(d, x, y);
    hide Run, AtRest, Flat;
  }

  /** A curve with one band set and the others flat is that band. */
  lemma OneBandAlone(m: Maths, bands: seq<BandSettings>, sampleRate: real, i: nat, x: seq<real>, channel: nat)
    requires Sound(m) && sampleRate * 0.49 >= 1.0 && |x| % 2 == 0 && channel < 2 && i < |bands|
    requires forall j | 0 <= j < |bands| :: j != i ==> FlatSettings(bands[j])
    ensures var b := bands[i];
            Channel(Filtered(Fresh(m, bands, sampleRate), x).0, channel)
            == Run(AtRest(Design(m, b.filterType, b.frequencyHz, b.gainDb, b.q, sampleRate)), Channel(x, channel)).0
  {
    hide Sound, Design, Solves, Run, AtRest, Channel, Filtered, Fresh, FlatSettings;
    var signals := CurveIsItsBands(m, bands, sampleRate, x, channel);
    FlatFrom(m, bands, sampleRate, signals, 0, i);
    FlatFrom(m, bands, sampleRate, signals, i + 1, |bands|);
    var b := bands[i];
    RunIsTheSolution(Design(m, b.filterType, b.frequencyHz, b.gainDb, b.q, sampleRate), signals[i], signals[i + 1]);
  }

  lemma FlatFrom(m: Maths, bands: seq<BandSettings>, sampleRate: real, signals: seq<seq<real>>, from: nat, to: nat)
    requires Sound(m) && sampleRate * 0.49 >= 1.0 && BandSignals(m, bands, sampleRate, signals)
    requires from <= to <= |bands| && forall j | from <= j < to :: FlatSettings(bands[j])
    ensures signals[to] == signals[from]
  {
    hide Sound, Design, Solves, FlatSettings;
    for j := from to to
      invariant signals[j] == signals[from]
    {
      FlatBandSolves(m, bands[j], sampleRate, signals[j], signals[j + 1]);
    }
  }

  /** A boost boosts: with one peaking band set, a tone at its centre comes out of the whole equaliser, on
      either channel, at the amplitude squared, apart from the band's own free oscillation. */
  lemma CurveGivesTheAskedGain(m: Maths, bands: seq<BandSettings>, sampleRate: real, i: nat, x: seq<real>, channel: nat)
    requires Sound(m) && sampleRate * 0.49 >= 1.0 && |x| % 2 == 0 && channel < 2 && i < |bands|
    requires forall j | 0 <= j < |bands| :: j != i ==> FlatSettings(bands[j])
    requires bands[i].filterType == Peaking && Tone(Channel(x, channel), m.cos(Angle(m, bands[i].frequencyHz, sampleRate)))
    ensures var b := bands[i]; var A := m.amplitude(b.gainDb);
            Rings(Design(m, Peaking, b.frequencyHz, b.gainDb, b.q, sampleRate),
                  Excess(Channel(Filtered(Fresh(m, bands, sampleRate), x).0, channel), Channel(x, channel), Times(A, A)))
  {
    hide Sound, Design, Run, AtRest, Channel, Filtered, Fresh, FlatSettings, Rings, Excess, Tone, Angle;
    OneBandAlone(m, bands, sampleRate, i, x, channel);
    var b := bands[i];
    PeakGivesTheAskedGain(m, b.frequencyHz, b.gainDb, b.q, sampleRate, Channel(x, channel));
  }
}
