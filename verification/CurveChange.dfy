/** A new equaliser curve, from the moment it is set until it is all that is heard. */
module CurveChange {
  import opened DspStage
  import opened Lists
  import opened Fades
  import opened EqDesign
  import opened GraphicEq
  import opened HwEqStage

  /** What a filter puts out for a stretch of interleaved stereo, and the filter afterwards. */
  function Filtered(c: Curve, x: seq<real>): (r: (seq<real>, Curve))
    requires |x| % 2 == 0
    ensures |r.0| == |x|
  {
    StereoRun(c, x, |x| / 2)
  }

  lemma FilteredInPieces(c: Curve, x: seq<real>, more: seq<real>)
    requires |x| % 2 == 0 && |more| % 2 == 0
    ensures var (y, d) := Filtered(c, x); var (z, e) := Filtered(d, more);
            Filtered(c, x + more) == (y + z, e)
  {
    StereoRunInPieces(c, x, |x| / 2, more, |more| / 2);
    hide StereoRun;
  }

  /** A call of the stage, and the curve set since the call before, if any. */
  datatype EqCall = EqCall(published: Option<Curve>, x: seq<real>)

  predicate Whole(calls: seq<EqCall>) {
    forall i | 0 <= i < |calls| :: |calls[i].x| % 2 == 0
  }

  function Set(s: EqStage, published: Option<Curve>): EqStage {
    if published == None then s else s.(pending := published)
  }

  function CallStage(s: EqStage, length: nat, call: EqCall): (r: (seq<real>, EqStage))
    requires StageOk(s, length) && |call.x| % 2 == 0
    ensures |r.0| == |call.x| && StageOk(r.1, length)
  {
    StageCall(Set(s, call.published), length, call.x, |call.x| / 2)
  }

  function RunStage(s: EqStage, length: nat, calls: seq<EqCall>): (r: (seq<real>, EqStage))
    requires StageOk(s, length) && Whole(calls)
    ensures StageOk(r.1, length)
    decreases |calls|
  {
    if calls == [] then ([], s)
    else
      var (y, t) := CallStage(s, length, calls[0]);
      var (z, u) := RunStage(t, length, calls[1..]);
      (y + z, u)
  }

  /** The input of all calls, end to end. */
  function Input(calls: seq<EqCall>): (x: seq<real>)
    requires Whole(calls)
    ensures |x| % 2 == 0
    decreases |calls|
  {
    if calls == [] then [] else calls[0].x + Input(calls[1..])
  }

  // ------------------------------------------------------ what is heard

  /** Sample by sample, `out` has gone from `y` to `z` the share of the way that belongs to its frame,
      `n` frames into the fade at its start. */
  ghost predicate Mixes(y: seq<real>, z: seq<real>, out: seq<real>, n: nat, length: nat) {
    && |y| == |z| == |out|
    && forall k: nat | k < |out| :: OnTheWay(y[k], z[k], out[k], n + k / 2, length)
  }

  lemma MixesJoin(y: seq<real>, z: seq<real>, out: seq<real>, n: nat, length: nat,
                  v: seq<real>, w: seq<real>, more: seq<real>, frames: nat)
    requires Mixes(y, z, out, n, length) && |out| == 2 * frames && Mixes(v, w, more, n + frames, length)
    ensures Mixes(y + v, z + w, out + more, n, length)
  {
    hide OnTheWay;
    forall k: nat | k < |out + more|
      ensures OnTheWay((y + v)[k], (z + w)[k], (out + more)[k], n + k / 2, length)
    {
      if k < |out| {
        assert OnTheWay(y[k], z[k], out[k], n + k / 2, length);
      } else {
        var j: nat := k - 2 * frames;
        assert OnTheWay(v[j], w[j], more[j], n + frames + j / 2, length);
        assert frames + j / 2 == k / 2;
      }
    }
  }

  /** The stage is `n` frames into (or past) the fade between two filters, as they stand now. A curve
      set since then waits, as long as the fade lasts. */
  ghost predicate Fading(s: EqStage, length: nat, from: Curve, to: Curve, n: nat) {
    && StageOk(s, length) && s.live == to && s.remaining == length - Min(n, length)
    && (s.remaining > 0 ==> s.fadingOut == Some(from))
    && (n >= length ==> s.pending == None)
  }

  lemma FadedBlock(from: seq<real>, to: seq<real>, n: nat, length: nat, frames: nat)
    requires |from| == |to| == 2 * frames && length > 0
    ensures Mixes(from, to, FadeBlock(from, to, n, length, frames), n, length)
  {
    hide OnTheWay, FadeSample;
    forall k: nat | k < 2 * frames ensures OnTheWay(from[k], to[k], FadeBlock(from, to, n, length, frames)[k], n + k / 2, length) {
      FadeIsLinear(from, to, n, length, 2, k);
      Shares(from[k], to[k], FadeSample(from, to, n, length, 2, k), n + k / 2, length);
    }
  }

  lemma Shares(a: real, b: real, y: real, n: nat, length: nat)
    requires length as real * (y - a) == Min(n, length) as real * (b - a)
    ensures OnTheWay(a, b, y, n, length)
  {
  }

  lemma NewAlone(y: seq<real>, z: seq<real>, n: nat, length: nat)
    requires |y| == |z| && n >= length
    ensures Mixes(y, z, z, n, length)
  {
  }

  /** The start of the fade: the old filter, the new one, and which is which. */
  lemma FirstCall(s: EqStage, length: nat, x: seq<real>, frames: nat)
    requires StageOk(s, length) && |x| == 2 * frames && s.remaining == 0 && s.pending.Some?
    ensures var a := EqStage(s.pending.value, Some(s.live), None, length);
            Fading(a, length, s.live, s.pending.value, 0) && StageCall(s, length, x, frames) == StageCall(a, length, x, frames)
  {
    hide StereoRun, FadeBlock;
  }

  lemma FadingCall(s: EqStage, length: nat, from: Curve, to: Curve, n: nat, call: EqCall)
    requires Fading(s, length, from, to, n) && |call.x| % 2 == 0
    requires s.pending.Some? || call.published.Some? ==> n < length
    ensures var r := CallStage(s, length, call); var frames := |call.x| / 2;
            var (y, old_) := Filtered(from, call.x); var (z, new_) := Filtered(to, call.x);
            && Mixes(y, z, r.0, n, length)
            && (n + frames < length || r.1.pending == None ==> Fading(r.1, length, old_, new_, n + frames))
            && r.1.pending == Set(s, call.published).pending
  {
    hide StereoRun, FadeBlock, Mixes;
    var x, frames := call.x, |call.x| / 2;
    var (y, old_) := StereoRun(from, x, frames);
    var (z, new_) := StereoRun(to, x, frames);
    if n < length {
      StageCallFading(Set(s, call.published), length, x, frames);
      FadedBlock(y, z, n, length, frames);
    } else {
      NewAlone(y, z, n, length);
    }
  }

  /** The calls belong to one fade: once a curve has been set again, each call starts before the fade
      is over. */
  predicate OneFade(length: nat, n: nat, waiting: bool, calls: seq<EqCall>)
    decreases |calls|
  {
    calls == [] ||
    (var w := waiting || calls[0].published.Some?;
     (w ==> n < length) && OneFade(length, n + |calls[0].x| / 2, w, calls[1..]))
  }

  lemma {:induction false} FadingRun(s: EqStage, length: nat, from: Curve, to: Curve, n: nat, calls: seq<EqCall>)
    requires Whole(calls) && OneFade(length, n, s.pending.Some?, calls)
    requires StageOk(s, length) && (calls != [] ==> Fading(s, length, from, to, n))
    ensures Mixes(Filtered(from, Input(calls)).0, Filtered(to, Input(calls)).0, RunStage(s, length, calls).0, n, length)
    decreases |calls|
  {
    hide Mixes, Filtered, CallStage, StageOk, Fading;
    if calls == [] {
      NothingMixes(from, to, n, length);
    } else {
      var call, rest := calls[0], calls[1..];
      var frames := |call.x| / 2;
      FadingCall(s, length, from, to, n, call);
      var (out, t) := CallStage(s, length, call);
      FilteredInPieces(from, call.x, Input(rest));
      FilteredInPieces(to, call.x, Input(rest));
      var (y, old_) := Filtered(from, call.x);
      var (z, new_) := Filtered(to, call.x);
      if |rest| > 0 { assert OneFade(length, n + frames, t.pending.Some?, rest); }
      FadingRun(t, length, old_, new_, n + frames, rest);
      MixesJoin(y, z, out, n, length, Filtered(old_, Input(rest)).0, Filtered(new_, Input(rest)).0,
                RunStage(t, length, rest).0, frames);
    }
  }

  lemma NothingMixes(from: Curve, to: Curve, n: nat, length: nat)
    ensures Mixes(Filtered(from, []).0, Filtered(to, []).0, [], n, length)
  {
  }

  /** A new curve is heard as it should be: from the first call after it was set between fades, frame n
      has gone min(n, length) / length of the way from what the old filter would have put out to what
      the new one puts out, so from frame `length` on the new one is heard alone, however the input is
      cut into calls and whatever is set while the fade runs. */
  lemma NewCurveFadesIn(s: EqStage, length: nat, calls: seq<EqCall>)
    requires StageOk(s, length) && s.remaining == 0 && s.pending.Some?
    requires Whole(calls) && OneFade(length, 0, false, calls) && (calls != [] ==> calls[0].published == None)
    ensures Mixes(Filtered(s.live, Input(calls)).0, Filtered(s.pending.value, Input(calls)).0,
                  RunStage(s, length, calls).0, 0, length)
  {
    hide Mixes, Filtered, StageCall;
    if calls == [] {
      NothingMixes(s.live, s.pending.value, 0, length);
    } else {
      var a := EqStage(s.pending.value, Some(s.live), None, length);
      FirstCall(s, length, calls[0].x, |calls[0].x| / 2);
      FadingRun(a, length, s.live, s.pending.value, 0, calls);
    }
  }

  // ------------------------------------------------------ adoption in bounded time

  predicate NothingSet(calls: seq<EqCall>) {
    forall i | 0 <= i < |calls| :: calls[i].published == None
  }

  lemma CallMovesOn(s: EqStage, length: nat, call: EqCall)
    requires StageOk(s, length) && |call.x| % 2 == 0 && call.published == None
    ensures var t := CallStage(s, length, call).1;
            && (s.remaining == 0 && s.pending.Some? ==> t.pending == None && t.live == Filtered(s.pending.value, call.x).1)
            && (s.pending == None ==> t.pending == None && t.live == Filtered(s.live, call.x).1)
            && (s.remaining > 0 ==> t.pending == s.pending && t.remaining == s.remaining - Min(s.remaining, |call.x| / 2))
  {
    hide StereoRun, FadeBlock;
  }

  lemma {:induction false} LiveGoesOn(s: EqStage, length: nat, calls: seq<EqCall>)
    requires StageOk(s, length) && Whole(calls) && NothingSet(calls) && s.pending == None
    ensures var t := RunStage(s, length, calls).1; t.pending == None && t.live == Filtered(s.live, Input(calls)).1
    decreases |calls|
  {
    hide CallStage, StageOk, Filtered;
    if calls == [] {
      NothingFiltered(s.live);
    } else {
      CallMovesOn(s, length, calls[0]);
      FilteredInPieces(s.live, calls[0].x, Input(calls[1..]));
      LiveGoesOn(CallStage(s, length, calls[0]).1, length, calls[1..]);
    }
  }

  lemma NothingFiltered(c: Curve)
    ensures Filtered(c, []) == ([], c)
  {
  }

  /** However much of a fade is left when a curve is set: once the calls have rendered it, the next call
      takes the curve over, and its filter has run on every sample from that call on. */
  lemma {:induction false} CurveIsAdopted(s: EqStage, length: nat, calls: seq<EqCall>) returns (i: nat)
    requires StageOk(s, length) && Whole(calls) && NothingSet(calls) && s.pending.Some?
    requires calls != [] && |Input(calls[..|calls| - 1])| / 2 >= s.remaining
    ensures i < |calls| && |Input(calls[..i])| / 2 >= s.remaining
    ensures var t := RunStage(s, length, calls).1;
            t.pending == None && t.live == Filtered(s.pending.value, Input(calls[i..])).1
    decreases |calls|
  {
    hide CallStage, StageOk, Filtered;
    var t := CallStage(s, length, calls[0]).1;
    CallMovesOn(s, length, calls[0]);
    if s.remaining == 0 {
      i := 0;
      assert calls[0..] == calls;
      FilteredInPieces(s.pending.value, calls[0].x, Input(calls[1..]));
      LiveGoesOn(t, length, calls[1..]);
    } else {
      var rest := calls[1..];
      if |calls| > 1 { assert calls[..|calls| - 1][1..] == rest[..|rest| - 1]; }
      var j := CurveIsAdopted(t, length, rest);
      i := j + 1;
      assert calls[..i][1..] == rest[..j] && calls[i..] == rest[j..];
    }
  }

  // ------------------------------------------------------ driving the stage

  /** One call in place, as the engine makes it. */
  method RenderCall(stage: HwEqStage, x: seq<real>) returns (y: seq<real>)
    requires stage.Valid() && |x| % 2 == 0 && |x| / 2 <= MAX_PROCESS_FRAMES
    modifies stage, stage.Sections(), stage.scratchOld, stage.scratchNew
    ensures stage.Valid() && stage.Sections() <= old(stage.Sections())
    ensures (y, stage.State()) == CallStage(old(stage.State()), stage.crossfadeFrames, EqCall(None, x))
  {
    hide StageCall;
    var buffer := new real[|x|](i requires 0 <= i < |x| => x[i]);
    assert buffer[..2 * (|x| / 2)] == x;
    stage.Process(buffer, buffer, |x| / 2);
    y := buffer[..2 * (|x| / 2)];
  }

  function Calls(blocks: seq<seq<real>>): (calls: seq<EqCall>)
    ensures |calls| == |blocks|
  {
    seq(|blocks|, i requires 0 <= i < |blocks| => EqCall(None, blocks[i]))
  }

  lemma {:induction false} OneFadeOfBlocks(length: nat, n: nat, blocks: seq<seq<real>>)
    ensures OneFade(length, n, false, Calls(blocks))
    decreases |blocks|
  {
    if blocks != [] {
      assert Calls(blocks)[1..] == Calls(blocks[1..]);
      OneFadeOfBlocks(length, n + |blocks[0]| / 2, blocks[1..]);
    }
  }

  lemma {:induction false} InputOfBlocks(blocks: seq<seq<real>>)
    requires Whole(Calls(blocks))
    ensures Input(Calls(blocks)) == Flatten(blocks)
    decreases |blocks|
  {
    if blocks != [] {
      assert Calls(blocks)[1..] == Calls(blocks[1..]);
      InputOfBlocks(blocks[1..]);
    }
  }

  predicate Playable(blocks: seq<seq<real>>) {
    forall i | 0 <= i < |blocks| :: |blocks[i]| % 2 == 0 && |blocks[i]| / 2 <= MAX_PROCESS_FRAMES
  }

  lemma RunStageStep(s: EqStage, length: nat, blocks: seq<seq<real>>)
    requires StageOk(s, length) && Playable(blocks) && blocks != []
    ensures |blocks[0]| % 2 == 0 && |blocks[0]| / 2 <= MAX_PROCESS_FRAMES && Playable(blocks[1..])
    ensures Whole(Calls(blocks)) && Whole(Calls(blocks[1..]))
    ensures var (y, t) := CallStage(s, length, EqCall(None, blocks[0]));
            RunStage(s, length, Calls(blocks)).0 == y + RunStage(t, length, Calls(blocks[1..])).0
  {
    hide CallStage;
    assert Calls(blocks)[1..] == Calls(blocks[1..]);
  }

  /** A row of calls in place. */
  method RenderBlocks(stage: HwEqStage, blocks: seq<seq<real>>) returns (out: seq<real>)
    requires stage.Valid() && Playable(blocks)
    modifies stage, stage.Sections(), stage.scratchOld, stage.scratchNew
    ensures StageOk(old(stage.State()), stage.crossfadeFrames) && Whole(Calls(blocks))
    ensures out == RunStage(old(stage.State()), stage.crossfadeFrames, Calls(blocks)).0
    decreases |blocks|
  {
    hide StageCall, CallStage, Playable;
    StateIsOk(stage);
    PlayableIsWhole(blocks);
    if |blocks| == 0 {
      out := [];
    } else {
      RunStageStep(stage.State(), stage.crossfadeFrames, blocks);
      hide RunStage, HwEqStage.State;
      var y := RenderCall(stage, blocks[0]);
      var rest := RenderBlocks(stage, blocks[1..]);
      out := y + rest;
    }
  }

  lemma StateIsOk(stage: HwEqStage)
    requires stage.Valid()
    ensures StageOk(stage.State(), stage.crossfadeFrames)
  {
  }

  /** Sets a curve between fades and renders any blocks: what comes out of the stage itself moves from
      the old filter's rendering of the whole input to the new filter's, evenly over the fade. */
  method ChangeCurve(stage: HwEqStage, m: Maths, bands: seq<BandSettings>, blocks: seq<seq<real>>)
    returns (out: seq<real>)
    requires stage.Valid() && stage.remaining == 0 && Sound(m) && |bands| == BANDS && Playable(blocks)
    modifies stage, stage.Sections(), stage.scratchOld, stage.scratchNew
    ensures |Flatten(blocks)| % 2 == 0
    ensures Mixes(Filtered(old(stage.live.State()), Flatten(blocks)).0,
                  Filtered(Fresh(m, bands, stage.sampleRate), Flatten(blocks)).0, out, 0, stage.crossfadeFrames)
  {
    hide Sound, StageCall, CallStage, RunStage, Mixes, Fresh, Filtered, OneFade, Playable;
    PlayableIsWhole(blocks);
    InputOfBlocks(blocks);
    OneFadeOfBlocks(stage.crossfadeFrames, 0, blocks);
    stage.SetBands(m, bands);
    StateIsOk(stage);
    NewCurveFadesIn(stage.State(), stage.crossfadeFrames, Calls(blocks));
    out := RenderBlocks(stage, blocks);
  }

  lemma PlayableIsWhole(blocks: seq<seq<real>>)
    requires Playable(blocks)
    ensures Whole(Calls(blocks)) && (Calls(blocks) != [] ==> Calls(blocks)[0].published == None)
  {
  }
}
