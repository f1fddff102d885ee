/** The control threads' side of the crossfading slot: what a collection, a publication and a forwarded
    call do, alone and among any other threads, and how often a caller must collect. */
module SlotCollection {
  import opened Lists
  import opened SlotProtocol

  // ------------------------------------------------------ calls that nobody interrupts

  function ControlRun(s: State, t: nat, steps: nat): (n: State)
    requires Shape(s) && t < |s.threads|
    ensures Shape(n) && |n.threads| == |s.threads|
    decreases steps
  {
    if steps == 0 then s else ControlRun(Next(s, ControlStep(t)), t, steps - 1)
  }

  lemma ControlRunStep(s: State, t: nat, steps: nat)
    requires Shape(s) && t < |s.threads|
    ensures ControlRun(s, t, 0) == s
    ensures ControlRun(s, t, steps + 1) == ControlRun(Next(s, ControlStep(t)), t, steps)
  {
  }

  /** A collection clears both trash slots, lets go of exactly the two objects in them, and changes
      nothing else. */
  lemma CollectionIsItsSteps(s: State, t: nat)
    requires Shape(s) && Ready(s, t)
    ensures ControlRun(Next(s, CallCollect(t)), t, 5)
         == s.(trash := [None, None], fades := [0, 0], dropped := Drop(Drop(s.dropped, s.trash[0]), s.trash[1]))
  {
    hide ControlRun;
    var c0 := Next(s, CallCollect(t));
    var c1 := Next(c0, ControlStep(t));
    var c2 := Next(c1, ControlStep(t));
    var c3 := Next(c2, ControlStep(t));
    var c4 := Next(c3, ControlStep(t));
    var c5 := Next(c4, ControlStep(t));
    ControlRunStep(c0, t, 4);
    ControlRunStep(c1, t, 3);
    ControlRunStep(c2, t, 2);
    ControlRunStep(c3, t, 1);
    ControlRunStep(c4, t, 0);
    ControlRunStep(c5, t, 0);
    assert c5.threads == s.threads;
  }

  /** A publication makes its object the pending one and lets go of the one it replaces. */
  lemma PublicationIsItsSteps(s: State, t: nat, v: Id)
    requires Shape(s) && Ready(s, t) && v !in s.created
    ensures ControlRun(Next(s, CallPublish(t, v)), t, 2)
         == s.(pending := Some(v), created := s.created + {v}, log := s.log + [v], dropped := Drop(s.dropped, s.pending))
  {
    hide ControlRun;
    var c0 := Next(s, CallPublish(t, v));
    var c1 := Next(c0, ControlStep(t));
    var c2 := Next(c1, ControlStep(t));
    ControlRunStep(c0, t, 1);
    ControlRunStep(c1, t, 0);
    ControlRunStep(c2, t, 0);
    assert c2.threads == s.threads;
  }

  // ------------------------------------------------------ forwarded calls

  /** The thread takes no step of its own. */
  predicate Pauses(t: nat, actions: seq<Action>) {
    forall i | 0 <= i < |actions| :: actions[i] != ControlStep(t)
  }

  lemma OthersLeaveThread(s: State, t: nat, a: Action)
    requires Shape(s) && t < |s.threads| && !s.threads[t].TIdle? && a != ControlStep(t)
    ensures |Next(s, a).threads| == |s.threads| && Next(s, a).threads[t] == s.threads[t]
  {
  }

  lemma {:induction false} PausedThreadStays(s: State, t: nat, actions: seq<Action>)
    requires Shape(s) && t < |s.threads| && !s.threads[t].TIdle? && Pauses(t, actions)
    ensures |Run(s, actions).threads| == |s.threads| && Run(s, actions).threads[t] == s.threads[t]
    decreases |actions|
  {
    hide Inv, Next;
    if actions != [] {
      OthersLeaveThread(s, t, actions[0]);
      PausedThreadStays(Next(s, actions[0]), t, actions[1..]);
    }
  }

  /** A forwarded call runs on the object that is live when it loads it, and that object stays held
      for as long as the call uses it, whatever the audio thread adopts meanwhile. */
  lemma ForwardedCallKeepsLive(s: State, t: nat, actions: seq<Action>)
    requires Shape(s) && t < |s.threads| && s.threads[t].TForwarding? && Pauses(t, actions)
    ensures var n := Run(Next(s, ControlStep(t)), actions);
            t < |n.threads| && n.threads[t] == TUsing(s.live) && Held(n, s.live) && Held(AudioNext(n), s.live)
  {
    var u := Next(s, ControlStep(t));
    PausedThreadStays(u, t, actions);
    var n := Run(u, actions);
    hide Run, AudioNext;
    UserHolds(n, t, s.live);
    OthersLeaveThread(n, t, AudioStep);
    UserHolds(Next(n, AudioStep), t, s.live);
  }

  lemma UserHolds(s: State, t: nat, v: Id)
    requires t < |s.threads| && s.threads[t] == TUsing(v)
    ensures Held(s, v)
  {
    assert v in ControlHolds(s.threads[t]);
  }

  // ------------------------------------------------------ collections among other threads

  /** The thread's collection has the slot still in front of it. */
  predicate StillToClear(c: Control, slot: nat) {
    match c
    case TClearing(k) => k <= slot
    case TCleared(k, _) => k < slot
    case _ => false
  }

  lemma StillToClearStep(s: State, t: nat, slot: nat, a: Action)
    requires Shape(s) && t < |s.threads| && StillToClear(s.threads[t], slot) && slot < 2
    ensures |Next(s, a).threads| == |s.threads|
    ensures (a == ControlStep(t) && s.threads[t] == TClearing(slot)) || StillToClear(Next(s, a).threads[t], slot)
  {
  }

  /** In every interleaving: by the time a collection has returned, it has cleared each slot, at a
      step of its own in which it took exactly what the slot held. */
  lemma {:induction false} CollectionClearsEachSlot(s: State, t: nat, slot: nat, actions: seq<Action>) returns (i: nat)
    requires Shape(s) && t < |s.threads| && slot < 2 && StillToClear(s.threads[t], slot)
    requires t < |Run(s, actions).threads| && Run(s, actions).threads[t].TIdle?
    ensures i < |actions| && actions[i] == ControlStep(t)
    ensures var b, e := Run(s, actions[..i]), Run(s, actions[..i + 1]);
            && t < |b.threads| && b.threads[t] == TClearing(slot)
            && e == b.(trash := b.trash[slot := None], fades := b.fades[slot := 0],
                       threads := b.threads[t := TCleared(slot, b.trash[slot])])
    decreases |actions|
  {
    hide Inv, Next, StillToClear;
    RunNothing(s);
    NotIdle(s, t, slot);
    assert actions != [];
    var n := Next(s, actions[0]);
    StillToClearStep(s, t, slot, actions[0]);
    if actions[0] == ControlStep(t) && s.threads[t] == TClearing(slot) {
      i := 0;
      assert actions[..0] == [] && actions[..1] == [actions[0]] + [];
      RunFirst(s, actions[0], []);
      RunNothing(n);
      ClearStep(s, t, slot);
    } else {
      var j := CollectionClearsEachSlot(n, t, slot, actions[1..]);
      i := j + 1;
      assert actions[..i] == [actions[0]] + actions[1..][..j] && actions[..i + 1] == [actions[0]] + actions[1..][..j + 1];
      RunFirst(s, actions[0], actions[1..][..j]);
      RunFirst(s, actions[0], actions[1..][..j + 1]);
    }
  }

  lemma NotIdle(s: State, t: nat, slot: nat)
    requires t < |s.threads| && StillToClear(s.threads[t], slot)
    ensures !s.threads[t].TIdle?
  {
  }

  lemma ClearStep(s: State, t: nat, slot: nat)
    requires Shape(s) && t < |s.threads| && slot < 2 && s.threads[t] == TClearing(slot)
    ensures Next(s, ControlStep(t)) == s.(trash := s.trash[slot := None], fades := s.fades[slot := 0],
                                          threads := s.threads[t := TCleared(slot, s.trash[slot])])
  {
  }

  // ------------------------------------------------------ how often to collect

  /** What a caller can see of a run: which threads are in a collection that began since the last fade
      ended, and whether one of those collections has returned. */
  datatype Watch = Watch(collecting: set<nat>, collected: bool)

  function Watched(s: State, w: Watch, a: Action): Watch
    requires Shape(s)
  {
    match a
    case AudioStep => if s.audio.ATrashing? then Watch({}, false) else w
    case CallCollect(t) => if Ready(s, t) then w.(collecting := w.collecting + {t}) else w
    case ControlStep(t) =>
      if t < |s.threads| && t in w.collecting && Next(s, a).threads[t].TIdle?
      then Watch(w.collecting - {t}, true) else w
    case _ => w
  }

  /** Between any two fade ends a whole collection takes place. */
  ghost predicate CollectsBetweenFades(s: State, w: Watch, actions: seq<Action>)
    requires Shape(s)
    decreases |actions|
  {
    actions != [] ==>
      && (actions[0].AudioStep? && s.audio.ATrashing? ==> w.collected)
      && CollectsBetweenFades(Next(s, actions[0]), Watched(s, w, actions[0]), actions[1..])
  }

  /** How far a collection since the last fade end has come: the slots behind it count no fade. */
  predicate Behind(c: Control, fades: seq<nat>)
    requires |fades| == 2
  {
    match c
    case TClearing(k) => (k > 0 ==> fades[0] == 0) && (k > 1 ==> fades[1] == 0)
    case TCleared(k, _) => fades[0] == 0 && (k > 0 ==> fades[1] == 0)
    case _ => false
  }

  ghost predicate WatchOk(s: State, w: Watch)
    requires Shape(s)
  {
    && (w.collected ==> s.fades == [0, 0])
    && (forall t | t in w.collecting :: t < |s.threads| && Behind(s.threads[t], s.fades))
  }

  lemma WatchStep(s: State, w: Watch, a: Action)
    requires Shape(s) && WatchOk(s, w)
    ensures WatchOk(Next(s, a), Watched(s, w, a))
  {
  }

  lemma {:induction false} CollectingKeepsUp(s: State, w: Watch, actions: seq<Action>)
    requires Shape(s) && WatchOk(s, w) && CollectsBetweenFades(s, w, actions)
    ensures CollectionKeepsUp(s, actions)
    decreases |actions|
  {
    hide Next, Watched;
    if actions != [] {
      WatchStep(s, w, actions[0]);
      CollectingKeepsUp(Next(s, actions[0]), Watched(s, w, actions[0]), actions[1..]);
    }
  }

  /** What a caller has to do for the header's promise: if after every fade a call of CollectGarbage
      begins and returns before the next fade ends, on whatever threads and however interleaved, the
      audio thread never destroys an object. */
  lemma CollectingBetweenFadesIsEnough(crossfadeFrames: nat, initial: Id, threads: nat, actions: seq<Action>)
    requires crossfadeFrames > 0
    requires CollectsBetweenFades(Init(crossfadeFrames, initial, threads), Watch({}, true), actions)
    ensures AudioNeverDestroys(Init(crossfadeFrames, initial, threads), actions)
  {
    CollectingKeepsUp(Init(crossfadeFrames, initial, threads), Watch({}, true), actions);
    AudioThreadNeverDestroys(crossfadeFrames, initial, threads, actions);
  }
}
