/** The audio thread's side of the crossfading slot: one Process call after another, with what it
    writes to its output. Objects are numbered; what an object renders is a parameter. */
module CrossfadingSlot {
  import opened DspStage
  import opened Fades
  import opened Lists

  datatype Slot = Slot(live: nat, fadingOut: Option<nat>, pending: Option<nat>,
                       trash: seq<Option<nat>>, trashSlot: nat, remaining: nat)

  ghost predicate SlotOk(s: Slot, length: nat) {
    && length > 0 && s.remaining <= length
    && |s.trash| == 2 && s.trashSlot < 2
    && (s.fadingOut.Some? <==> s.remaining > 0)
  }

  /** The start of a call: when no fade is under way, a pending object becomes live. */
  function Adopt(s: Slot, length: nat): (t: Slot)
    requires SlotOk(s, length)
    ensures SlotOk(t, length)
  {
    if s.remaining == 0 && s.pending.Some?
    then s.(live := s.pending.value, fadingOut := Some(s.live), pending := None, remaining := length)
    else s
  }

  /** The end of a call: the fade moves on; once it is over, the old object goes to the trash. */
  function Advance(s: Slot, length: nat, frames: nat): (t: Slot)
    requires SlotOk(s, length)
    ensures SlotOk(t, length)
  {
    if s.remaining == 0 then s
    else if frames < s.remaining then s.(remaining := s.remaining - frames)
    else s.(remaining := 0, fadingOut := None, trash := s.trash[s.trashSlot := s.fadingOut], trashSlot := 1 - s.trashSlot)
  }

  function AfterCall(s: Slot, length: nat, frames: nat): (t: Slot)
    requires SlotOk(s, length)
    ensures SlotOk(t, length)
  {
    Advance(Adopt(s, length), length, Min(frames, MAX_PROCESS_FRAMES))
  }

  class Crossfader {
    const crossfadeFrames: nat
    const channels: nat
    const scratchOld: array<real>
    const scratchNew: array<real>
    var live: nat
    var fadingOut: Option<nat>
    var pending: Option<nat>
    var trash: seq<Option<nat>>
    var trashSlot: nat
    var remaining: nat

    ghost function State(): Slot
      reads this
    {
      Slot(live, fadingOut, pending, trash, trashSlot, remaining)
    }

    ghost predicate Valid()
      reads this
    {
      && SlotOk(State(), crossfadeFrames) && channels > 0
      && scratchOld != scratchNew
      && scratchOld.Length == MAX_PROCESS_FRAMES * channels && scratchNew.Length == MAX_PROCESS_FRAMES * channels
    }

    constructor (initial: nat, crossfadeFrames: nat, channels: nat)
      requires crossfadeFrames > 0 && channels > 0
      ensures Valid() && this.crossfadeFrames == crossfadeFrames && this.channels == channels
      ensures State() == Slot(initial, None, None, [None, None], 0, 0)
      ensures fresh(scratchOld) && fresh(scratchNew)
    {
      this.crossfadeFrames, this.channels := crossfadeFrames, channels;
      live, fadingOut, pending, trash, trashSlot, remaining := initial, None, None, [None, None], 0, 0;
      scratchOld := new real[MAX_PROCESS_FRAMES * channels](_ => 0.0);
      scratchNew := new real[MAX_PROCESS_FRAMES * channels](_ => 0.0);
    }

    /** The latest publication replaces one not adopted yet. */
    method Publish(value: nat)
      requires Valid()
      modifies this
      ensures Valid() && State() == old(State()).(pending := Some(value))
    {
      pending := Some(value);
    }

    method CollectGarbage()
      requires Valid()
      modifies this
      ensures Valid() && State() == old(State()).(trash := [None, None])
    {
      for slot := 0 to 2
        invariant Valid() && State() == old(State()).(trash := trash)
        invariant forall i | 0 <= i < slot :: trash[i] == None
      {
        trash := trash[slot := None];
      }
    }

    /** Renders a block: the live object alone, or the live object blended with the one fading out. */
    method Process(render: (nat, nat) -> seq<real>, output: array<real>, requestedFrames: nat)
      requires Valid() && output != scratchOld && output != scratchNew
      requires forall id: nat, f: nat :: |render(id, f)| == f * channels
      requires Min(requestedFrames, MAX_PROCESS_FRAMES) * channels <= output.Length
      modifies this, output, scratchOld, scratchNew
      ensures Valid() && State() == AfterCall(old(State()), crossfadeFrames, requestedFrames)
      ensures
        var s := Adopt(old(State()), crossfadeFrames);
        var frames := Min(requestedFrames, MAX_PROCESS_FRAMES);
        && (s.remaining == 0 ==> output[..frames * channels] == render(s.live, frames))
        && (s.remaining > 0 ==> forall k | 0 <= k < frames * channels ::
             output[k] == FadeSample(render(s.fadingOut.value, frames), render(s.live, frames),
                                     crossfadeFrames - s.remaining, crossfadeFrames, channels, k))
        && (forall k | frames * channels <= k < output.Length :: output[k] == old(output[k]))
    {
      hide FadeSample;
      hide Gain;
      var frames := requestedFrames;
      if frames > MAX_PROCESS_FRAMES {
        frames := MAX_PROCESS_FRAMES;
      }
      if remaining == 0 && pending.Some? {
        var newValue := pending.value;
        pending := None;
        fadingOut := Some(live);
        live := newValue;
        remaining := crossfadeFrames;
      }
      if remaining == 0 {
        CopyBlock(render(live, frames), output);
        return;
      }
      FitsScratch(frames, channels);
      CopyBlock(render(live, frames), scratchNew);
      CopyBlock(render(fadingOut.value, frames), scratchOld);
      var size := frames * channels;
      remaining := BlendBlock(scratchOld[..size], scratchNew[..size], output, frames, channels, crossfadeFrames, remaining);
      if remaining == 0 {
        trash := trash[trashSlot := fadingOut];
        fadingOut := None;
        trashSlot := 1 - trashSlot;
      }
    }
  }

  lemma FitsScratch(frames: nat, channels: nat)
    requires frames <= MAX_PROCESS_FRAMES
    ensures frames * channels <= MAX_PROCESS_FRAMES * channels
  {
  }

  method CopyBlock(block: seq<real>, output: array<real>)
    requires |block| <= output.Length
    modifies output
    ensures output[..|block|] == block
    ensures forall k | |block| <= k < output.Length :: output[k] == old(output[k])
  {
    for k := 0 to |block|
      invariant forall j | 0 <= j < k :: output[j] == block[j]
      invariant forall j | |block| <= j < output.Length :: output[j] == old(output[j])
    {
      output[k] := block[k];
    }
  }

  // ------------------------------------------------------ a fade over any sequence of calls

  /** What the calls of a fade put out: from `n` frames after the adoption on, one call after the
      other, each rendering both objects while the fade lasts and the new one alone afterwards. */
  function FadeOutput(from: nat -> real, to: nat -> real, length: nat, channels: nat, n: nat, calls: seq<nat>): seq<real>
    requires length > 0 && channels > 0
    decreases |calls|
  {
    if calls == [] then []
    else CallOutput(from, to, length, channels, n, calls[0]) + FadeOutput(from, to, length, channels, n + calls[0], calls[1..])
  }

  function CallOutput(from: nat -> real, to: nat -> real, length: nat, channels: nat, n: nat, frames: nat): (y: seq<real>)
    requires length > 0 && channels > 0
    ensures |y| == frames * channels
  {
    var old_, new_ := Block(from, n, frames, channels), Block(to, n, frames, channels);
    if n >= length then new_
    else seq(frames * channels, (k: nat) requires k < frames * channels => FadeSample(old_, new_, n, length, channels, k))
  }

  function Total(calls: seq<nat>): nat {
    if calls == [] then 0 else calls[0] + Total(calls[1..])
  }

  /** The law, sample by sample, from `n` frames after the adoption on. */
  function LawFrom(from: nat -> real, to: nat -> real, length: nat, channels: nat, n: nat, frames: nat): (y: seq<real>)
    requires length > 0 && channels > 0
    ensures |y| == frames * channels
  {
    seq(frames * channels, (k: nat) => Law(from, to, length, channels, n * channels + k))
  }

  lemma CallFollowsLaw(from: nat -> real, to: nat -> real, length: nat, channels: nat, n: nat, frames: nat)
    requires length > 0 && channels > 0
    ensures CallOutput(from, to, length, channels, n, frames) == LawFrom(from, to, length, channels, n, frames)
  {
    hide Law;
    hide FadeSample;
    var y, law := CallOutput(from, to, length, channels, n, frames), LawFrom(from, to, length, channels, n, frames);
    forall k: nat | k < frames * channels ensures y[k] == law[k] {
      BlockFollowsLaw(from, to, n, frames, length, channels, k);
      if n >= length { LawAfterFade(from, to, length, channels, n, k); }
    }
  }

  /** Every sample of a stretch that starts `n` frames into a fade has gone exactly its frame's share of
      the way from the old stream to the new one. */
  ghost predicate MovesLinearly(from: nat -> real, to: nat -> real, length: nat, channels: nat, n: nat, y: seq<real>)
    requires channels > 0
  {
    forall k: nat | k < |y| ::
      OnTheWay(from(n * channels + k), to(n * channels + k), y[k], n + k / channels, length)
  }

  lemma LawFromIsLinear(from: nat -> real, to: nat -> real, length: nat, channels: nat, n: nat, frames: nat)
    requires length > 0 && channels > 0
    ensures MovesLinearly(from, to, length, channels, n, LawFrom(from, to, length, channels, n, frames))
  {
    hide Law, OnTheWay;
    forall k: nat | k < frames * channels
      ensures OnTheWay(from(n * channels + k), to(n * channels + k),
                       LawFrom(from, to, length, channels, n, frames)[k], n + k / channels, length)
    {
      LawIsLinear(from, to, length, channels, n * channels + k);
      FrameShift(n, k, channels);
    }
  }

  lemma LawJoins(from: nat -> real, to: nat -> real, length: nat, channels: nat, n: nat, a: nat, b: nat)
    requires length > 0 && channels > 0
    ensures LawFrom(from, to, length, channels, n, a) + LawFrom(from, to, length, channels, n + a, b)
         == LawFrom(from, to, length, channels, n, a + b)
  {
    hide Law;
    var left, right := LawFrom(from, to, length, channels, n, a), LawFrom(from, to, length, channels, n + a, b);
    var whole := LawFrom(from, to, length, channels, n, a + b);
    Distribute(a, b, channels);
    Distribute(n, a, channels);
    forall k: nat | k < (a + b) * channels ensures (left + right)[k] == whole[k] {
      if k >= a * channels {
        assert (n + a) * channels + (k - a * channels) == n * channels + k;
      }
    }
  }

  lemma Distribute(a: nat, b: nat, channels: nat)
    ensures (a + b) * channels == a * channels + b * channels
  {
  }

  /** Whatever blocks a fade is rendered in, the samples heard are those of the fade law: frame `n`
      after the adoption mixes the new rendering with gain min(n, length) / length. */
  lemma {:induction false} FadeIgnoresCallSizes(from: nat -> real, to: nat -> real, length: nat, channels: nat, n: nat, calls: seq<nat>)
    requires length > 0 && channels > 0
    ensures FadeOutput(from, to, length, channels, n, calls) == LawFrom(from, to, length, channels, n, Total(calls))
    decreases |calls|
  {
    hide Law;
    hide LawFrom;
    hide CallOutput;
    if calls == [] {
      NothingYet(from, to, length, channels, n);
    } else {
      CallFollowsLaw(from, to, length, channels, n, calls[0]);
      FadeIgnoresCallSizes(from, to, length, channels, n + calls[0], calls[1..]);
      LawJoins(from, to, length, channels, n, calls[0], Total(calls[1..]));
    }
  }

  lemma NothingYet(from: nat -> real, to: nat -> real, length: nat, channels: nat, n: nat)
    requires length > 0 && channels > 0
    ensures LawFrom(from, to, length, channels, n, 0) == []
  {
  }

  // ------------------------------------------------------ adoption in bounded time

  function RunCalls(s: Slot, length: nat, calls: seq<nat>): (t: Slot)
    requires SlotOk(s, length)
    ensures SlotOk(t, length)
    decreases |calls|
  {
    if calls == [] then s else RunCalls(AfterCall(s, length, calls[0]), length, calls[1..])
  }

  function Rendered(calls: seq<nat>): nat {
    if calls == [] then 0 else Min(calls[0], MAX_PROCESS_FRAMES) + Rendered(calls[1..])
  }

  /** A call renders at most 8192 frames, and moves a running fade on by as many as it renders. */
  lemma CallsAreCut(s: Slot, length: nat, frames: nat)
    requires SlotOk(s, length) && s.remaining > 0
    ensures AfterCall(s, length, frames).remaining
         == if frames <= 8192 then s.remaining - Min(frames, s.remaining) else s.remaining - Min(8192, s.remaining)
  {
  }

  /** Once publishing stops, the pending object is live after the first call that starts when the
      rest of the running fade has been rendered, and stays live. */
  lemma {:induction false} PendingIsAdopted(s: Slot, length: nat, calls: seq<nat>, last: nat)
    requires SlotOk(s, length) && s.pending.Some? && Rendered(calls) >= s.remaining
    ensures RunCalls(s, length, calls + [last]).live == s.pending.value
    ensures RunCalls(s, length, calls + [last]).pending == None
    decreases |calls|
  {
    if calls == [] {
      var end := AfterCall(s, length, last);
      assert ([last])[1..] == [];
      assert RunCalls(end, length, []) == end;
    } else {
      var next := AfterCall(s, length, calls[0]);
      assert (calls + [last])[1..] == calls[1..] + [last];
      if next.pending.Some? {
        PendingIsAdopted(next, length, calls[1..], last);
      } else {
        LiveStays(next, length, calls[1..] + [last]);
      }
    }
  }

  lemma {:induction false} LiveStays(s: Slot, length: nat, calls: seq<nat>)
    requires SlotOk(s, length) && s.pending == None
    ensures RunCalls(s, length, calls).live == s.live && RunCalls(s, length, calls).pending == None
    decreases |calls|
  {
    if calls != [] { LiveStays(AfterCall(s, length, calls[0]), length, calls[1..]); }
  }

  // ------------------------------------------------------ the slot follows the law

  /** The slot is `n` frames into (or past) the fade from `from` to `to`; at 0 it may not have
      looked at its pending object yet. What was published since waits until the fade is over. */
  ghost predicate Into(s: Slot, length: nat, from: nat, to: nat, n: nat) {
    && SlotOk(s, length)
    && (n == 0 && s.remaining == 0 ==> s.pending == Some(to) && s.live == from)
    && (n > 0 || s.remaining > 0 ==>
         && s.live == to && s.remaining == length - Min(n, length)
         && (s.remaining > 0 ==> s.fadingOut == Some(from)))
    && (n >= length ==> s.pending == None)
  }

  /** Whether the adoption of this fade is behind us. */
  predicate Begun(s: Slot, n: nat) {
    n > 0 || s.remaining > 0
  }

  lemma IntoNext(s: Slot, length: nat, from: nat, to: nat, n: nat, frames: nat)
    requires Into(s, length, from, to, n) && frames <= MAX_PROCESS_FRAMES
    ensures n + frames < length || Adopt(s, length).pending == None ==>
      Into(AfterCall(s, length, frames), length, from, to, n + frames)
    ensures AfterCall(s, length, frames).pending == Adopt(s, length).pending && Begun(AfterCall(s, length, frames), n + frames)
    ensures Adopt(s, length).live == to && Adopt(s, length).remaining == length - Min(n, length)
    ensures n < length ==> Adopt(s, length).fadingOut == Some(from)
  {
  }

  /** A renderer that gives each object its own stream, `n` frames in. */
  function Renderer(streams: nat -> (nat -> real), n: nat, channels: nat): (nat, nat) -> seq<real> {
    (id: nat, f: nat) => Block(streams(id), n, f, channels)
  }

  lemma RendererFits(streams: nat -> (nat -> real), n: nat, channels: nat, id: nat, f: nat)
    ensures |Renderer(streams, n, channels)(id, f)| == f * channels
  {
    assert Renderer(streams, n, channels)(id, f) == Block(streams(id), n, f, channels);
  }

  /** One call of a fade. */
  method RenderCall(c: Crossfader, streams: nat -> (nat -> real), ghost from: nat, ghost to: nat, n: nat, frames: nat)
    returns (y: seq<real>)
    requires c.Valid() && Into(c.State(), c.crossfadeFrames, from, to, n) && frames <= MAX_PROCESS_FRAMES
    modifies c, c.scratchOld, c.scratchNew
    ensures c.Valid() && c.pending == Adopt(old(c.State()), c.crossfadeFrames).pending && Begun(c.State(), n + frames)
    ensures n + frames < c.crossfadeFrames || c.pending == None ==> Into(c.State(), c.crossfadeFrames, from, to, n + frames)
    ensures y == CallOutput(streams(from), streams(to), c.crossfadeFrames, c.channels, n, frames)
  {
    hide FadeSample;
    hide Gain;
    hide Into;
    hide Begun;
    IntoNext(c.State(), c.crossfadeFrames, from, to, n, frames);
    var output := new real[frames * c.channels](_ => 0.0);
    forall id: nat, f: nat ensures |Renderer(streams, n, c.channels)(id, f)| == f * c.channels {
      RendererFits(streams, n, c.channels, id, f);
    }
    c.Process(Renderer(streams, n, c.channels), output, frames);
    y := output[..];
  }

  /** A call, and what was published since the call before, if anything. */
  datatype SlotCall = SlotCall(published: Option<nat>, frames: nat)

  function FramesOf(calls: seq<SlotCall>): seq<nat> {
    seq(|calls|, i requires 0 <= i < |calls| => calls[i].frames)
  }

  /** The calls belong to one fade: from the first publication after its adoption on, each call
      starts before the fade is over. `waiting` is whether something was published already. */
  predicate OneFade(length: nat, n: nat, waiting: bool, calls: seq<SlotCall>)
    decreases |calls|
  {
    calls == [] ||
    (var w := waiting || calls[0].published.Some?;
     (w ==> n < length) && calls[0].frames <= MAX_PROCESS_FRAMES && OneFade(length, n + calls[0].frames, w, calls[1..]))
  }

  lemma OneFadeStep(length: nat, n: nat, waiting: bool, calls: seq<SlotCall>)
    requires OneFade(length, n, waiting, calls) && calls != []
    ensures var w := waiting || calls[0].published.Some?;
            && (w ==> n < length) && calls[0].frames <= MAX_PROCESS_FRAMES
            && OneFade(length, n + calls[0].frames, w, calls[1..])
            && (|calls| > 1 && w ==> n + calls[0].frames < length)
  {
    if |calls| > 1 {
      assert calls[1..] != [];
    }
  }

  lemma FramesOfStep(calls: seq<SlotCall>)
    ensures calls == [] ==> FramesOf(calls) == []
    ensures calls != [] ==> FramesOf(calls) != [] && FramesOf(calls)[0] == calls[0].frames
    ensures calls != [] ==> FramesOf(calls)[1..] == FramesOf(calls[1..])
  {
  }

  function Published(s: Slot, value: Option<nat>): Slot {
    if value == None then s else s.(pending := value)
  }

  /** A publication during the fade leaves it where it is, and waits. */
  lemma PublishedInto(s: Slot, length: nat, from: nat, to: nat, n: nat, value: Option<nat>)
    requires Into(s, length, from, to, n) && (n > 0 || s.remaining > 0) && (value.Some? ==> n < length)
    ensures Into(Published(s, value), length, from, to, n)
    ensures Adopt(Published(s, value), length).pending == Published(s, value).pending
  {
  }

  /** One call after the adoption, and the publication in front of it. */
  method RenderOne(c: Crossfader, streams: nat -> (nat -> real), ghost from: nat, ghost to: nat, n: nat, call: SlotCall)
    returns (y: seq<real>)
    requires c.Valid() && Into(c.State(), c.crossfadeFrames, from, to, n) && Begun(c.State(), n)
    requires (c.pending.Some? || call.published.Some? ==> n < c.crossfadeFrames) && call.frames <= MAX_PROCESS_FRAMES
    modifies c, c.scratchOld, c.scratchNew
    ensures c.Valid() && (c.pending.Some? <==> old(c.pending).Some? || call.published.Some?)
    ensures n + call.frames < c.crossfadeFrames || c.pending == None ==>
      Into(c.State(), c.crossfadeFrames, from, to, n + call.frames)
    ensures Begun(c.State(), n + call.frames)
    ensures y == CallOutput(streams(from), streams(to), c.crossfadeFrames, c.channels, n, call.frames)
  {
    hide CallOutput, Adopt;
    PublishedInto(c.State(), c.crossfadeFrames, from, to, n, call.published);
    if call.published.Some? {
      c.Publish(call.published.value);
    }
    y := RenderCall(c, streams, from, to, n, call.frames);
  }

  /** The part of a fade after its adoption. */
  method RenderCalls(c: Crossfader, streams: nat -> (nat -> real), ghost from: nat, ghost to: nat, n: nat, calls: seq<SlotCall>)
    returns (out: seq<real>)
    requires c.Valid() && c.crossfadeFrames > 0 && c.channels > 0
    requires calls != [] ==> Into(c.State(), c.crossfadeFrames, from, to, n) && Begun(c.State(), n)
    requires OneFade(c.crossfadeFrames, n, c.pending.Some?, calls)
    modifies c, c.scratchOld, c.scratchNew
    ensures out == FadeOutput(streams(from), streams(to), c.crossfadeFrames, c.channels, n, FramesOf(calls))
    decreases |calls|
  {
    hide *;
    FramesOfStep(calls);
    if |calls| == 0 {
      FadeOutputEnd(streams(from), streams(to), c.crossfadeFrames, c.channels, n);
      out := [];
    } else {
      OneFadeStep(c.crossfadeFrames, n, c.pending.Some?, calls);
      FadeOutputStep(streams(from), streams(to), c.crossfadeFrames, c.channels, n, FramesOf(calls));
      var first := RenderOne(c, streams, from, to, n, calls[0]);
      var rest := RenderCalls(c, streams, from, to, n + calls[0].frames, calls[1..]);
      out := first + rest;
    }
  }

  /** Driving the slot itself through a fade, in calls of any sizes and with publications in between
      that have to wait: what comes out is the law. */
  method RenderFade(c: Crossfader, streams: nat -> (nat -> real), calls: seq<SlotCall>) returns (out: seq<real>)
    requires c.Valid() && c.crossfadeFrames > 0 && c.channels > 0 && c.remaining == 0 && c.pending.Some?
    requires OneFade(c.crossfadeFrames, 0, false, calls) && (calls != [] ==> calls[0].published == None)
    modifies c, c.scratchOld, c.scratchNew
    ensures out == LawFrom(streams(old(c.live)), streams(old(c.pending.value)), c.crossfadeFrames, c.channels, 0, Total(FramesOf(calls)))
    ensures MovesLinearly(streams(old(c.live)), streams(old(c.pending.value)), c.crossfadeFrames, c.channels, 0, out)
  {
    ghost var from, to := c.live, c.pending.value;
    assert Into(c.State(), c.crossfadeFrames, from, to, 0);
    assert Adopt(c.State(), c.crossfadeFrames).pending == None;
    assert calls != [] ==> calls[0].published == None;
    hide *;
    LawFromIsLinear(streams(from), streams(to), c.crossfadeFrames, c.channels, 0, Total(FramesOf(calls)));
    FadeIgnoresCallSizes(streams(from), streams(to), c.crossfadeFrames, c.channels, 0, FramesOf(calls));
    FramesOfStep(calls);
    if |calls| == 0 {
      FadeOutputEnd(streams(from), streams(to), c.crossfadeFrames, c.channels, 0);
      out := [];
    } else {
      OneFadeStep(c.crossfadeFrames, 0, false, calls);
      FadeOutputStep(streams(from), streams(to), c.crossfadeFrames, c.channels, 0, FramesOf(calls));
      var first := RenderCall(c, streams, from, to, 0, calls[0].frames);
      var rest := RenderCalls(c, streams, from, to, calls[0].frames, calls[1..]);
      out := first + rest;
    }
  }

  lemma FadeOutputStep(from: nat -> real, to: nat -> real, length: nat, channels: nat, n: nat, calls: seq<nat>)
    requires length > 0 && channels > 0 && calls != []
    ensures FadeOutput(from, to, length, channels, n, calls)
         == CallOutput(from, to, length, channels, n, calls[0]) + FadeOutput(from, to, length, channels, n + calls[0], calls[1..])
  {
    hide CallOutput;
  }

  lemma FadeOutputEnd(from: nat -> real, to: nat -> real, length: nat, channels: nat, n: nat)
    requires length > 0 && channels > 0
    ensures FadeOutput(from, to, length, channels, n, []) == []
  {
  }
}
