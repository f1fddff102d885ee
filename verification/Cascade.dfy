/** Sections one behind the other: run sample by sample through all of them, or stream by stream. */
module Cascade {
  import opened EqDesign
  import opened Biquad

  /** One sample through all sections. */
  function ChainStep(ss: seq<Section>, x: real): (r: (real, seq<Section>))
    ensures |r.1| == |ss|
  {
    if ss == [] then (x, [])
    else
      var (y, front) := ChainStep(ss[..|ss| - 1], x);
      var (z, last) := Step(ss[|ss| - 1], y);
      (z, front + [last])
  }

  /** A stretch of samples, each through all sections before the next. */
  function ChainRun(ss: seq<Section>, x: seq<real>): (r: (seq<real>, seq<Section>))
    ensures |r.0| == |x| && |r.1| == |ss|
  {
    if x == [] then ([], ss)
    else
      var (y, ts) := ChainRun(ss, x[..|x| - 1]);
      var (last, us) := ChainStep(ts, x[|x| - 1]);
      (y + [last], us)
  }

  lemma ChainRunStep(ss: seq<Section>, x: seq<real>, last: real)
    ensures var (y, ts) := ChainRun(ss, x); var (z, us) := ChainStep(ts, last);
            ChainRun(ss, x + [last]) == (y + [z], us)
  {
    assert (x + [last])[..|x|] == x;
  }

  lemma {:induction false} ChainRunInPieces(ss: seq<Section>, x: seq<real>, more: seq<real>)
    ensures var (y, ts) := ChainRun(ss, x); var (z, us) := ChainRun(ts, more);
            ChainRun(ss, x + more) == (y + z, us)
  {
    hide ChainStep;
    if more == [] {
      assert x + more == x;
      assert ChainRun(ss, x).0 + [] == ChainRun(ss, x).0;
    } else {
      var init, last := more[..|more| - 1], more[|more| - 1];
      ChainRunInPieces(ss, x, init);
      assert x + more == (x + init) + [last];
      ChainRunStep(ss, x + init, last);
      var (y, ts) := ChainRun(ss, x);
      var (z, us) := ChainRun(ts, init);
      assert (y + z) + [ChainStep(us, last).0] == y + (z + [ChainStep(us, last).0]);
    }
  }

  lemma NoSections(x: seq<real>)
    ensures ChainRun([], x) == (x, [])
  {
    if x != [] {
      NoSections(x[..|x| - 1]);
      assert x[..|x| - 1] + [x[|x| - 1]] == x;
    }
  }

  /** Sample by sample through all sections is the same as the whole stream through the first
      sections and then through the last one. */
  lemma {:induction false} LastSectionLast(ss: seq<Section>, s: Section, x: seq<real>)
    ensures var (y, ts) := ChainRun(ss, x); var (z, t) := Run(s, y);
            ChainRun(ss + [s], x) == (z, ts + [t])
  {
    hide Step;
    if x == [] {
    } else {
      var init, last := x[..|x| - 1], x[|x| - 1];
      LastSectionLast(ss, s, init);
      var (y, ts) := ChainRun(ss, init);
      var (z, t) := Run(s, y);
      assert (ts + [t])[..|ts|] == ts;
      RunStep(s, y, ChainStep(ts, last).0);
    }
  }

  function AllAtRest(cs: seq<Coefficients>): (ss: seq<Section>)
    ensures |ss| == |cs|
  {
    seq(|cs|, i requires 0 <= i < |cs| => AtRest(cs[i]))
  }

  /** The signals between the sections, from the input to the output: each solves the difference
      equation of the section between it and the one before. */
  ghost predicate CascadeSolves(cs: seq<Coefficients>, x: seq<real>, signals: seq<seq<real>>) {
    && |signals| == |cs| + 1
    && signals[0] == x
    && (forall i | 0 <= i < |cs| :: Solves(cs[i], signals[i], signals[i + 1]))
  }

  /** From rest a chain puts out `y` exactly when `y` is the last of such a row of signals. */
  lemma {:induction false} ChainSolves(cs: seq<Coefficients>, x: seq<real>, signals: seq<seq<real>>)
    requires CascadeSolves(cs, x, signals)
    ensures ChainRun(AllAtRest(cs), x).0 == signals[|cs|]
  {
    hide Solves, AtRest, ChainRun, Run;
    if cs == [] {
      NoSections(x);
    } else {
      var init, last := cs[..|cs| - 1], cs[|cs| - 1];
      ChainSolves(init, x, signals[..|cs|]);
      LastSectionLast(AllAtRest(init), AtRest(last), x);
      assert AllAtRest(init) + [AtRest(last)] == AllAtRest(cs);
      assert Solves(last, signals[|cs| - 1], signals[|cs|]);
      RunIsTheSolution(last, signals[|cs| - 1], signals[|cs|]);
    }
  }

  lemma {:induction false} ChainHasSignals(cs: seq<Coefficients>, x: seq<real>) returns (signals: seq<seq<real>>)
    ensures CascadeSolves(cs, x, signals) && ChainRun(AllAtRest(cs), x).0 == signals[|cs|]
  {
    hide Solves, Run, ChainRun, AtRest;
    if cs == [] {
      signals := [x];
      NoSections(x);
    } else {
      var init, last := cs[..|cs| - 1], cs[|cs| - 1];
      var before := ChainHasSignals(init, x);
      signals := before + [Run(AtRest(last), before[|init|]).0];
      RunIsTheSolution(last, before[|init|], signals[|cs|]);
      forall i | 0 <= i < |cs| ensures Solves(cs[i], signals[i], signals[i + 1]) {
        if i < |init| {
          assert Solves(init[i], before[i], before[i + 1]);
        }
      }
      LastSectionLast(AllAtRest(init), AtRest(last), x);
      assert AllAtRest(init) + [AtRest(last)] == AllAtRest(cs);
    }
  }

  predicate FlatAtRest(ss: seq<Section>) {
    forall s | s in ss :: Flat(s.c) && s == AtRest(s.c)
  }

  /** Flat sections at rest pass every sample through and stay at rest. */
  lemma {:induction false} FlatChainStep(ss: seq<Section>, x: real)
    requires FlatAtRest(ss)
    ensures ChainStep(ss, x) == (x, ss)
  {
    hide Step, Flat, AtRest;
    if ss == [] {
    } else {
      var init, last := ss[..|ss| - 1], ss[|ss| - 1];
      FlatChainStep(init, x);
      assert last in ss;
      FlatStep(last.c, x);
      assert init + [last] == ss;
    }
  }
}
