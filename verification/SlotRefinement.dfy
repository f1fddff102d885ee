/** The crossfading slot's two models agree: a Process call that no other thread interrupts takes the
    protocol's atomic steps exactly to the state the sequential model gives. */
module SlotRefinement {
  import opened DspStage
  import P = SlotProtocol
  import C = CrossfadingSlot

  /** What both models have in common. */
  function SlotOf(s: P.State): C.Slot {
    C.Slot(s.live, s.fadingOut, s.pending, s.trash, s.trashSlot, s.remaining)
  }

  function AudioRun(s: P.State, steps: nat): (t: P.State)
    requires P.Shape(s)
    ensures P.Shape(t)
    decreases steps
  {
    if steps == 0 then s else AudioRun(P.Next(s, P.AudioStep), steps - 1)
  }

  /** From entering to loading the live object: adoption takes three more steps. */
  lemma Adopting(s: P.State, frames: nat) returns (steps: nat)
    requires P.Inv(s) && s.audio == P.AEntered(frames)
    ensures var t := AudioRun(s, steps);
            && t.audio == P.ALoading(frames) && P.Fading(t) && t.crossfadeFrames == s.crossfadeFrames
            && C.SlotOk(SlotOf(s), s.crossfadeFrames)
            && SlotOf(t) == C.Adopt(SlotOf(s), s.crossfadeFrames)
  {
    hide P.OwnedOnce, P.Accounted, P.TrashCounted, P.InOrder, P.NewestLive;
    if s.remaining == 0 && s.pending.Some? {
      var a := P.AudioNext(s);
      var b := P.AudioNext(a);
      var c := P.AudioNext(b);
      assert AudioRun(c, 1) == P.AudioNext(c);
      assert AudioRun(b, 2) == AudioRun(c, 1);
      assert AudioRun(a, 3) == AudioRun(b, 2);
      steps := 4;
    } else {
      assert AudioRun(P.AudioNext(s), 0) == P.AudioNext(s);
      steps := 1;
    }
  }

  /** From loading to the end of the call: an ended fade takes two more steps. */
  lemma Rendering(s: P.State, frames: nat) returns (steps: nat)
    requires P.Shape(s) && P.Fading(s) && s.audio == P.ALoading(frames)
    ensures var t := AudioRun(s, steps);
            && t.audio.AIdle?
            && C.SlotOk(SlotOf(s), s.crossfadeFrames)
            && SlotOf(t) == C.Advance(SlotOf(s), s.crossfadeFrames, frames)
  {
    var a := P.AudioNext(s);
    var b := P.AudioNext(a);
    if s.remaining == 0 || frames < s.remaining {
      assert AudioRun(b, 1) == P.AudioNext(b);
      assert AudioRun(a, 2) == AudioRun(b, 1);
      steps := 3;
    } else {
      var c := P.AudioNext(b);
      var d := P.AudioNext(c);
      assert AudioRun(d, 1) == P.AudioNext(d);
      assert AudioRun(c, 2) == AudioRun(d, 1);
      assert AudioRun(b, 3) == AudioRun(c, 2);
      assert AudioRun(a, 4) == AudioRun(b, 3);
      steps := 5;
    }
  }

  lemma {:induction false} AudioRunAdds(s: P.State, first: nat, later: nat)
    requires P.Shape(s)
    ensures AudioRun(s, first + later) == AudioRun(AudioRun(s, first), later)
    decreases first
  {
    if first > 0 {
      AudioRunAdds(P.Next(s, P.AudioStep), first - 1, later);
    }
  }

  /** An undisturbed call of the protocol is a call of the sequential model. */
  lemma CallIsItsSteps(s: P.State, frames: nat) returns (steps: nat)
    requires P.Inv(s) && s.audio.AIdle? && frames <= MAX_PROCESS_FRAMES
    ensures var t := AudioRun(P.Next(s, P.CallProcess(frames)), steps);
            && t.audio.AIdle?
            && C.SlotOk(SlotOf(s), s.crossfadeFrames)
            && SlotOf(t) == C.AfterCall(SlotOf(s), s.crossfadeFrames, frames)
  {
    P.NextKeepsInv(s, P.CallProcess(frames));
    var entered := P.Next(s, P.CallProcess(frames));
    hide P.Inv, P.Fading, C.Adopt, C.Advance, AudioRun;
    var first := Adopting(entered, frames);
    var later := Rendering(AudioRun(entered, first), frames);
    AudioRunAdds(entered, first, later);
    steps := first + later;
  }
}
