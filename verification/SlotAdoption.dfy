/** How soon a published object becomes live, whatever the other threads do meanwhile. */
module SlotAdoption {
  import opened Lists
  import opened SlotProtocol

  /** Nobody is publishing. */
  ghost predicate NoPublisher(s: State) {
    forall t | 0 <= t < |s.threads| :: !s.threads[t].TPublishing?
  }

  /** No publication starts. */
  predicate NoPublication(actions: seq<Action>) {
    forall i | 0 <= i < |actions| :: !actions[i].CallPublish?
  }

  predicate Replacing(a: Audio) {
    a.AAdopting? || a.AStoring?
  }

  /** The object waits, with at most `left` frames of the running fade to render. */
  predicate Waits(s: State, v: Id, left: nat) {
    s.pending == Some(v) && s.remaining <= left && !Replacing(s.audio)
  }

  /** The object is on its way from pending to live. */
  predicate Arrives(s: State, v: Id) {
    s.pending == None && Replacing(s.audio) && s.audio.value == v
  }

  predicate Settled(s: State, v: Id) {
    s.pending == None && !Replacing(s.audio) && s.live == v
  }

  /** The frames a step renders. */
  function FramesOf(s: State, a: Action): nat {
    if a.AudioStep? && s.audio.ARendering? then s.audio.frames else 0
  }

  ghost function Rendered(s: State, actions: seq<Action>): nat
    requires Shape(s)
    decreases |actions|
  {
    if actions == [] then 0 else FramesOf(s, actions[0]) + Rendered(Next(s, actions[0]), actions[1..])
  }

  /** How many Process calls return. */
  ghost function Returns(s: State, actions: seq<Action>): nat
    requires Shape(s)
    decreases |actions|
  {
    if actions == [] then 0
    else (if actions[0].AudioStep? && s.audio.AReturning? then 1 else 0) + Returns(Next(s, actions[0]), actions[1..])
  }

  function Less(left: nat, frames: nat): nat {
    if frames < left then left - frames else 0
  }

  // ------------------------------------------------------ one step

  lemma StepKeepsQuiet(s: State, a: Action)
    requires Shape(s) && NoPublisher(s) && !a.CallPublish?
    ensures NoPublisher(Next(s, a))
    ensures !a.AudioStep? ==>
      var n := Next(s, a);
      n.pending == s.pending && n.live == s.live && n.remaining == s.remaining
      && (n.audio == s.audio || (a.CallProcess? && s.audio.AIdle? && n.audio == AEntered(a.frames)))
  {
  }

  lemma StepMovesOn(s: State, a: Action, v: Id, left: nat)
    requires Shape(s) && NoPublisher(s) && !a.CallPublish?
    requires Waits(s, v, left) || Arrives(s, v) || Settled(s, v)
    ensures var n := Next(s, a);
            Waits(n, v, Less(left, FramesOf(s, a))) || Arrives(n, v) || Settled(n, v)
  {
    hide ControlNext;
    StepKeepsQuiet(s, a);
  }

  lemma {:induction false} RunMovesOn(s: State, actions: seq<Action>, v: Id, left: nat)
    requires Shape(s) && NoPublisher(s) && NoPublication(actions)
    requires Waits(s, v, left) || Arrives(s, v) || Settled(s, v)
    ensures var t := Run(s, actions);
            && NoPublisher(t)
            && (Waits(t, v, Less(left, Rendered(s, actions))) || Arrives(t, v) || Settled(t, v))
    decreases |actions|
  {
    hide NoPublisher, Next, Waits, Arrives, Settled, FramesOf, Inv;
    if actions != [] {
      StepKeepsQuiet(s, actions[0]);
      StepMovesOn(s, actions[0], v, left);
      RunMovesOn(Next(s, actions[0]), actions[1..], v, Less(left, FramesOf(s, actions[0])));
    }
  }

  /** The audio thread will look at the pending object next. */
  predicate Due(s: State, v: Id) {
    Waits(s, v, 0) && (s.audio.AIdle? || s.audio.AEntered?)
  }

  lemma DueStep(s: State, a: Action, v: Id)
    requires Shape(s) && NoPublisher(s) && !a.CallPublish?
    requires Due(s, v) || Arrives(s, v) || Settled(s, v)
    ensures Due(Next(s, a), v) || Arrives(Next(s, a), v) || Settled(Next(s, a), v)
    ensures a.AudioStep? && s.audio.AReturning? ==> Settled(Next(s, a), v)
    ensures Settled(s, v) ==> Settled(Next(s, a), v)
  {
    hide ControlNext;
    StepKeepsQuiet(s, a);
  }

  lemma {:induction false} DueRun(s: State, actions: seq<Action>, v: Id)
    requires Shape(s) && NoPublisher(s) && NoPublication(actions)
    requires Due(s, v) || Arrives(s, v) || Settled(s, v)
    ensures Settled(s, v) || Returns(s, actions) >= 1 ==> Settled(Run(s, actions), v)
    decreases |actions|
  {
    hide NoPublisher, Next, Due, Arrives, Settled, Inv;
    if actions != [] {
      StepKeepsQuiet(s, actions[0]);
      DueStep(s, actions[0], v);
      DueRun(Next(s, actions[0]), actions[1..], v);
    }
  }

  // ------------------------------------------------------ adoption

  /** With no fade unfinished, the next call to return has made the pending object live, however its
      steps interleave with collections and forwarded calls. */
  lemma NextCallAdopts(s: State, actions: seq<Action>)
    requires Inv(s) && NoPublisher(s) && NoPublication(actions)
    requires s.audio.AIdle? && s.remaining == 0 && s.pending.Some?
    ensures Returns(s, actions) >= 1 ==>
      Run(s, actions).live == s.pending.value && Run(s, actions).pending == None
  {
    DueRun(s, actions, s.pending.value);
  }

  /** Bounded adoption in every interleaving: once publishing has stopped and the calls since have
      rendered what was left of the running fade, the next call to return leaves the object published
      last live, and it stays live. */
  lemma AdoptedInBoundedTime(s: State, actions: seq<Action>, more: seq<Action>)
    requires Inv(s) && NoPublisher(s) && NoPublication(actions) && NoPublication(more)
    requires s.audio.AIdle? && s.pending.Some?
    ensures var t := Run(s, actions);
            t.audio.AIdle? && Rendered(s, actions) >= s.remaining && Returns(t, more) >= 1 ==>
              Run(t, more).live == s.pending.value && Run(t, more).pending == None
  {
    var v := s.pending.value;
    RunMovesOn(s, actions, v, s.remaining);
    var t := Run(s, actions);
    if t.audio.AIdle? && Rendered(s, actions) >= s.remaining {
      DueRun(t, more, v);
    }
  }
}
