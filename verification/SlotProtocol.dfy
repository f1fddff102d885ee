/** The crossfading slot as a system of atomic steps: one audio thread running Process and any
    number of control threads publishing, collecting garbage and using the live object, in any
    interleaving. Objects are numbered; a holder is a place that keeps an object alive. */
module SlotProtocol {
  import opened DspStage
  import opened Lists

  type Id = nat

  /** Where the audio thread is inside Process, with the references its locals hold. */
  datatype Audio =
    | AIdle
    | AEntered(frames: nat)
    | AAdopting(frames: nat, value: Id)
    | AStoring(frames: nat, value: Id)
    | AReleasing(frames: nat, displaced: Id)
    | ALoading(frames: nat)
    | ARendering(frames: nat, copy: Id)
    | ATrashing(copy: Id)
    | ADropping(copy: Id, dropping: Option<Id>)
    | AReturning(copy: Id)

  /** Where a control thread is: publishing, collecting slot by slot, or using the live object. */
  datatype Control =
    | TIdle
    | TPublishing(value: Id)
    | TDropping(dropping: Option<Id>)
    | TClearing(slot: nat)
    | TCleared(slot: nat, dropping: Option<Id>)
    | TForwarding
    | TUsing(copy: Id)

  /** The slot, its threads, and the history: every object ever created, those whose owner let go,
      the order of publications, which of them were adopted, and for each trash slot how many
      fades ended since it was last cleared. */
  datatype State = State(
    crossfadeFrames: nat, initial: Id,
    pending: Option<Id>, live: Id, fadingOut: Option<Id>, trash: seq<Option<Id>>,
    remaining: nat, trashSlot: nat,
    audio: Audio, threads: seq<Control>,
    created: set<Id>, dropped: set<Id>, log: seq<Id>, adopted: seq<nat>, fades: seq<nat>)

  datatype Action =
    | CallProcess(frames: nat)
    | AudioStep
    | CallPublish(thread: nat, value: Id)
    | CallCollect(thread: nat)
    | CallForward(thread: nat)
    | ControlStep(thread: nat)

  function Init(crossfadeFrames: nat, initial: Id, threads: nat): State {
    State(crossfadeFrames, initial, None, initial, None, [None, None], 0, 0,
          AIdle, seq(threads, _ => TIdle), {initial}, {}, [], [], [0, 0])
  }

  ghost predicate Shape(s: State) {
    |s.trash| == 2 && |s.fades| == 2 && s.trashSlot < 2
  }

  function Drop(dropped: set<Id>, o: Option<Id>): set<Id> {
    match o case None => dropped case Some(id) => dropped + {id}
  }

  /** One step of Process. */
  function AudioNext(s: State): State
    requires Shape(s)
  {
    match s.audio
    case AIdle => s
    case AEntered(frames) =>
      if s.remaining == 0 && s.pending.Some? then
        s.(pending := None, audio := AAdopting(frames, s.pending.value), adopted := s.adopted + [LastIndex(s)])
      else s.(audio := ALoading(frames))
    case AAdopting(frames, value) =>
      s.(fadingOut := Some(s.live), dropped := Drop(s.dropped, s.fadingOut), audio := AStoring(frames, value))
    case AStoring(frames, value) =>
      s.(live := value, remaining := s.crossfadeFrames, audio := AReleasing(frames, s.live))
    case AReleasing(frames, _) => s.(audio := ALoading(frames))
    case ALoading(frames) => s.(audio := ARendering(frames, s.live))
    case ARendering(frames, copy) =>
      if s.remaining == 0 then s.(audio := AReturning(copy))
      else if frames < s.remaining then s.(remaining := s.remaining - frames, audio := AReturning(copy))
      else s.(remaining := 0, audio := ATrashing(copy))
    case ATrashing(copy) =>
      s.(trash := s.trash[s.trashSlot := s.fadingOut], fadingOut := None, trashSlot := 1 - s.trashSlot,
         fades := [s.fades[0] + 1, s.fades[1] + 1], audio := ADropping(copy, s.trash[s.trashSlot]))
    case ADropping(copy, dropping) =>
      s.(dropped := Drop(s.dropped, dropping), audio := AReturning(copy))
    case AReturning(_) => s.(audio := AIdle)
  }

  function LastIndex(s: State): nat {
    if s.log == [] then 0 else |s.log| - 1
  }

  /** One step of control thread `t`. */
  function ControlNext(s: State, t: nat): State
    requires Shape(s) && t < |s.threads|
  {
    match s.threads[t]
    case TIdle => s
    case TPublishing(value) =>
      s.(pending := Some(value), log := s.log + [value], threads := s.threads[t := TDropping(s.pending)])
    case TDropping(dropping) =>
      s.(dropped := Drop(s.dropped, dropping), threads := s.threads[t := TIdle])
    case TClearing(slot) =>
      if slot >= 2 then s.(threads := s.threads[t := TIdle])
      else s.(trash := s.trash[slot := None], fades := s.fades[slot := 0],
              threads := s.threads[t := TCleared(slot, s.trash[slot])])
    case TCleared(slot, dropping) =>
      s.(dropped := Drop(s.dropped, dropping), threads := s.threads[t := TClearing(slot + 1)])
    case TForwarding => s.(threads := s.threads[t := TUsing(s.live)])
    case TUsing(_) => s.(threads := s.threads[t := TIdle])
  }

  /** A call starts only on an idle thread, and publishes only a freshly built object. */
  function Next(s: State, a: Action): (n: State)
    requires Shape(s)
    ensures Shape(n)
  {
    match a
    case CallProcess(frames) => if s.audio.AIdle? then s.(audio := AEntered(frames)) else s
    case AudioStep => AudioNext(s)
    case CallPublish(t, value) =>
      if Ready(s, t) && value !in s.created
      then s.(threads := s.threads[t := TPublishing(value)], created := s.created + {value}) else s
    case CallCollect(t) => if Ready(s, t) then s.(threads := s.threads[t := TClearing(0)]) else s
    case CallForward(t) => if Ready(s, t) then s.(threads := s.threads[t := TForwarding]) else s
    case ControlStep(t) => if t < |s.threads| then ControlNext(s, t) else s
  }

  predicate Ready(s: State, t: nat) {
    t < |s.threads| && s.threads[t].TIdle?
  }

  // ------------------------------------------------------ ownership

  datatype Place = PendingPlace | LivePlace | FadingPlace | TrashPlace(slot: nat) | AudioPlace | ThreadPlace(thread: nat)

  function AudioOwns(a: Audio): Option<Id> {
    match a
    case AAdopting(_, value) => Some(value)
    case AStoring(_, value) => Some(value)
    case ADropping(_, dropping) => dropping
    case _ => None
  }

  function ControlOwns(c: Control): Option<Id> {
    match c
    case TPublishing(value) => Some(value)
    case TDropping(dropping) => dropping
    case TCleared(_, dropping) => dropping
    case _ => None
  }

  /** The object a place is responsible for. Between loading the old live object into FadingOut and
      replacing it as live, it still belongs to the live place. */
  function Owned(s: State, p: Place): Option<Id> {
    match p
    case PendingPlace => s.pending
    case LivePlace => Some(s.live)
    case FadingPlace => if s.audio.AStoring? then None else s.fadingOut
    case TrashPlace(slot) => if slot < |s.trash| then s.trash[slot] else None
    case AudioPlace => AudioOwns(s.audio)
    case ThreadPlace(t) => if t < |s.threads| then ControlOwns(s.threads[t]) else None
  }

  /** No object is owned twice. */
  ghost predicate OwnedOnce(s: State) {
    forall p, q :: Owned(s, p).Some? && Owned(s, p) == Owned(s, q) ==> p == q
  }

  /** Owned objects were created and not dropped; created objects are owned or dropped. */
  ghost predicate Accounted(s: State) {
    && (forall p :: Owned(s, p).Some? ==> Owned(s, p).value in s.created - s.dropped)
    && s.dropped <= s.created
    && (forall id | id in s.created - s.dropped :: exists p :: Owned(s, p) == Some(id))
  }

  /** The fade state and the audio thread's locals agree. */
  ghost predicate Fading(s: State) {
    && s.crossfadeFrames > 0
    && s.remaining <= s.crossfadeFrames
    && match s.audio
       case AAdopting(_, _) => s.remaining == 0 && s.fadingOut == None
       case AStoring(_, _) => s.remaining == 0 && s.fadingOut == Some(s.live)
       case AReleasing(_, displaced) => s.remaining == s.crossfadeFrames && s.fadingOut == Some(displaced)
       case ATrashing(copy) => s.remaining == 0 && s.fadingOut.Some? && copy == s.live
       case ARendering(_, copy) => (s.fadingOut.Some? <==> s.remaining > 0) && copy == s.live
       case ADropping(copy, _) => (s.fadingOut.Some? <==> s.remaining > 0) && copy == s.live
       case AReturning(copy) => (s.fadingOut.Some? <==> s.remaining > 0) && copy == s.live
       case _ => s.fadingOut.Some? <==> s.remaining > 0
  }

  /** A trash slot is occupied exactly when a fade ended into it since it was last cleared. */
  ghost predicate TrashCounted(s: State)
    requires Shape(s)
  {
    forall i | 0 <= i < 2 :: s.trash[i].Some? <==> s.fades[i] >= if i == s.trashSlot then 2 else 1
  }

  /** Adopted objects follow the order of publication, and the latest publication is either still
      pending or the last one adopted. */
  ghost predicate InOrder(s: State) {
    && (forall i, j | 0 <= i < j < |s.adopted| :: s.adopted[i] < s.adopted[j])
    && (forall i | 0 <= i < |s.adopted| :: s.adopted[i] < |s.log|)
    && match s.pending
       case Some(value) => s.log != [] && value == s.log[|s.log| - 1] && !LatestAdopted(s)
       case None => s.log == [] || LatestAdopted(s)
  }

  ghost predicate LatestAdopted(s: State) {
    s.adopted != [] && s.adopted[|s.adopted| - 1] == |s.log| - 1
  }

  /** The object of the last adoption: still in the audio thread's hands, or live. */
  ghost predicate NewestLive(s: State)
    requires InOrder(s)
  {
    var newest := if s.adopted == [] then s.initial else s.log[s.adopted[|s.adopted| - 1]];
    match s.audio
    case AAdopting(_, value) => s.adopted != [] && value == newest
    case AStoring(_, value) => s.adopted != [] && value == newest
    case _ => s.live == newest
  }

  ghost predicate Inv(s: State) {
    Shape(s) && OwnedOnce(s) && Accounted(s) && Fading(s) && TrashCounted(s) && InOrder(s) && NewestLive(s)
  }

  // ------------------------------------------------------ every step keeps the invariant

  lemma InitOk(crossfadeFrames: nat, initial: Id, threads: nat)
    requires crossfadeFrames > 0
    ensures Inv(Init(crossfadeFrames, initial, threads))
  {
    var s := Init(crossfadeFrames, initial, threads);
    assert Owned(s, LivePlace) == Some(initial);
  }

  lemma AudioKeepsFade(s: State)
    requires Inv(s)
    ensures Shape(AudioNext(s)) && Fading(AudioNext(s)) && TrashCounted(AudioNext(s))
  {
    hide OwnedOnce;
    hide Accounted;
    hide InOrder;
    hide NewestLive;
  }

  lemma AudioKeepsOrder(s: State)
    requires Inv(s)
    ensures InOrder(AudioNext(s)) && NewestLive(AudioNext(s))
  {
    hide OwnedOnce;
    hide Accounted;
    hide Fading;
    hide TrashCounted;
    hide Drop;
  }

  /** Where the object now at `p` was before a step of the audio thread. */
  function AudioSource(s: State, p: Place): Place {
    match s.audio
    case AEntered(_) => if p == AudioPlace then PendingPlace else p
    case AStoring(_, _) => if p == LivePlace then AudioPlace else if p == FadingPlace then LivePlace else p
    case ATrashing(_) => if p == TrashPlace(s.trashSlot) then FadingPlace else if p == AudioPlace then TrashPlace(s.trashSlot) else p
    case _ => p
  }

  /** Where the object at `p` goes in a step of the audio thread, if it is not dropped. */
  function AudioTarget(s: State, p: Place): Place {
    match s.audio
    case AEntered(_) => if p == PendingPlace && s.remaining == 0 then AudioPlace else p
    case AStoring(_, _) => if p == AudioPlace then LivePlace else if p == LivePlace then FadingPlace else p
    case ATrashing(_) => if p == FadingPlace then TrashPlace(s.trashSlot) else if p == TrashPlace(s.trashSlot) then AudioPlace else p
    case _ => p
  }

  lemma AudioTakesFrom(s: State, p: Place)
    requires Shape(s) && Fading(s)
    ensures Owned(AudioNext(s), p).Some? ==>
      Owned(AudioNext(s), p) == Owned(s, AudioSource(s, p)) && AudioTarget(s, AudioSource(s, p)) == p
    ensures s.audio.ADropping? ==> Owned(AudioNext(s), AudioPlace) == None && AudioSource(s, p) == p
  {
  }

  lemma AudioHandsOn(s: State, p: Place)
    requires Shape(s) && Fading(s)
    ensures Owned(s, p).Some? ==>
      Owned(AudioNext(s), AudioTarget(s, p)) == Owned(s, p) || (s.audio.ADropping? && p == AudioPlace)
  {
  }

  lemma AudioDrops(s: State)
    requires Shape(s) && Fading(s)
    ensures AudioNext(s).created == s.created
    ensures AudioNext(s).dropped == if s.audio.ADropping? then Drop(s.dropped, Owned(s, AudioPlace)) else s.dropped
  {
  }

  lemma AudioKeepsOwnedOnce(s: State)
    requires Inv(s)
    ensures OwnedOnce(AudioNext(s))
  {
    hide Owned;
    hide AudioNext;
    hide AudioSource;
    hide AudioTarget;
    var n := AudioNext(s);
    forall p, q | Owned(n, p).Some? && Owned(n, p) == Owned(n, q) ensures p == q {
      AudioTakesFrom(s, p);
      AudioTakesFrom(s, q);
      assert AudioSource(s, p) == AudioSource(s, q);
    }
  }

  lemma AudioKeepsAccounted(s: State)
    requires Inv(s)
    ensures Accounted(AudioNext(s))
  {
    hide AudioSource;
    hide AudioTarget;
    hide Owned;
    hide AudioNext;
    var n := AudioNext(s);
    AudioDrops(s);
    assert Owned(s, AudioPlace).Some? ==> Owned(s, AudioPlace).value in s.created;
    forall p | Owned(n, p).Some? ensures Owned(n, p).value in n.created - n.dropped {
      AudioTakesFrom(s, p);
      assert Owned(s, AudioSource(s, p)).Some?;
      assert p != AudioPlace || !s.audio.ADropping?;
    }
    forall id | id in n.created - n.dropped ensures exists p :: Owned(n, p) == Some(id) {
      assert id in s.created - s.dropped;
      var p :| Owned(s, p) == Some(id);
      AudioHandsOn(s, p);
      assert Owned(n, AudioTarget(s, p)) == Some(id);
    }
  }

  lemma ControlKeepsFade(s: State, t: nat)
    requires Inv(s) && t < |s.threads|
    ensures Shape(ControlNext(s, t)) && Fading(ControlNext(s, t)) && TrashCounted(ControlNext(s, t))
  {
  }

  lemma ControlKeepsOrder(s: State, t: nat)
    requires Inv(s) && t < |s.threads|
    ensures InOrder(ControlNext(s, t)) && NewestLive(ControlNext(s, t))
  {
    hide OwnedOnce, Accounted, Fading, TrashCounted, Drop;
  }

  function ControlSource(s: State, t: nat, p: Place): Place
    requires t < |s.threads|
  {
    match s.threads[t]
    case TPublishing(_) => if p == PendingPlace then ThreadPlace(t) else if p == ThreadPlace(t) then PendingPlace else p
    case TClearing(slot) => if p == ThreadPlace(t) then TrashPlace(slot) else p
    case _ => p
  }

  function ControlTarget(s: State, t: nat, p: Place): Place
    requires t < |s.threads|
  {
    match s.threads[t]
    case TPublishing(_) => if p == PendingPlace then ThreadPlace(t) else if p == ThreadPlace(t) then PendingPlace else p
    case TClearing(slot) => if p == TrashPlace(slot) && slot < 2 then ThreadPlace(t) else p
    case _ => p
  }

  predicate LettingGo(c: Control) {
    c.TDropping? || c.TCleared?
  }

  lemma ControlTakesFrom(s: State, t: nat, p: Place)
    requires Shape(s) && t < |s.threads|
    ensures Owned(ControlNext(s, t), p).Some? ==>
      Owned(ControlNext(s, t), p) == Owned(s, ControlSource(s, t, p)) && ControlTarget(s, t, ControlSource(s, t, p)) == p
    ensures LettingGo(s.threads[t]) ==>
      Owned(ControlNext(s, t), ThreadPlace(t)) == None && ControlSource(s, t, p) == p
  {
  }

  lemma ControlHandsOn(s: State, t: nat, p: Place)
    requires Shape(s) && t < |s.threads| && Owned(s, p).Some?
    ensures
      Owned(ControlNext(s, t), ControlTarget(s, t, p)) == Owned(s, p)
      || (LettingGo(s.threads[t]) && p == ThreadPlace(t) && Owned(s, p).value in ControlNext(s, t).dropped)
  {
  }

  lemma ControlDrops(s: State, t: nat)
    requires Shape(s) && t < |s.threads|
    ensures ControlNext(s, t).dropped
         == if LettingGo(s.threads[t]) then Drop(s.dropped, Owned(s, ThreadPlace(t))) else s.dropped
  {
  }

  lemma ControlKeepsOwnedOnce(s: State, t: nat)
    requires Inv(s) && t < |s.threads|
    ensures OwnedOnce(ControlNext(s, t))
  {
    hide Owned;
    hide ControlNext;
    hide ControlSource;
    hide ControlTarget;
    var n := ControlNext(s, t);
    forall p, q | Owned(n, p).Some? && Owned(n, p) == Owned(n, q) ensures p == q {
      ControlTakesFrom(s, t, p);
      ControlTakesFrom(s, t, q);
      assert ControlSource(s, t, p) == ControlSource(s, t, q);
    }
  }

  lemma ControlKeepsAccounted(s: State, t: nat)
    requires Inv(s) && t < |s.threads|
    ensures Accounted(ControlNext(s, t))
  {
    hide ControlSource;
    hide ControlTarget;
    hide Owned;
    var n := ControlNext(s, t);
    assert n.created == s.created;
    hide ControlNext;
    assert Owned(s, ThreadPlace(t)).Some? ==> Owned(s, ThreadPlace(t)).value in s.created;
    ControlTakesFrom(s, t, ThreadPlace(t));
    ControlDrops(s, t);
    forall p | Owned(n, p).Some? ensures Owned(n, p).value in n.created - n.dropped {
      ControlTakesFrom(s, t, p);
      assert Owned(s, ControlSource(s, t, p)).Some?;
      assert p != ThreadPlace(t) || !LettingGo(s.threads[t]);
    }
    forall id | id in n.created - n.dropped ensures exists p :: Owned(n, p) == Some(id) {
      assert id in s.created - s.dropped;
      var p :| Owned(s, p) == Some(id);
      ControlHandsOn(s, t, p);
      assert Owned(n, ControlTarget(s, t, p)) == Some(id);
    }
  }

  lemma CallKeepsInv(s: State, a: Action)
    requires Inv(s) && !a.AudioStep? && !a.ControlStep?
    ensures Inv(Next(s, a))
  {
    var n := Next(s, a);
    if a.CallPublish? && n != s {
      var here := ThreadPlace(a.thread);
      forall p | p != here ensures Owned(n, p) == Owned(s, p) {}
      assert Owned(s, here) == None && Owned(n, here) == Some(a.value);
      forall id | id in n.created - n.dropped ensures exists p :: Owned(n, p) == Some(id) {
        if id != a.value {
          assert id in s.created - s.dropped;
          var p :| Owned(s, p) == Some(id);
          assert Owned(n, p) == Some(id);
        }
      }
    } else {
      forall p ensures Owned(n, p) == Owned(s, p) {}
    }
  }

  lemma NextKeepsInv(s: State, a: Action)
    requires Inv(s)
    ensures Inv(Next(s, a))
  {
    hide OwnedOnce;
    hide Accounted;
    hide Fading;
    hide TrashCounted;
    hide InOrder;
    hide NewestLive;
    hide AudioNext;
    hide ControlNext;
    match a
    case AudioStep =>
      AudioKeepsFade(s);
      AudioKeepsOrder(s);
      AudioKeepsOwnedOnce(s);
      AudioKeepsAccounted(s);
    case ControlStep(t) =>
      if t < |s.threads| {
        ControlKeepsFade(s, t);
        ControlKeepsOrder(s, t);
        ControlKeepsOwnedOnce(s, t);
        ControlKeepsAccounted(s, t);
      }
    case _ => CallKeepsInv(s, a);
  }

  /** A run: any interleaving of calls and steps. */
  ghost function Run(s: State, actions: seq<Action>): (t: State)
    requires Shape(s)
    ensures Shape(t)
    ensures Inv(s) ==> Inv(t)
    decreases |actions|
  {
    if actions == [] then s
    else
      (if Inv(s) then NextKeepsInv(s, actions[0]); Run(Next(s, actions[0]), actions[1..])
       else Run(Next(s, actions[0]), actions[1..]))
  }

  // ------------------------------------------------------ conservation

  ghost predicate AtRest(s: State) {
    s.audio.AIdle? && forall t | 0 <= t < |s.threads| :: s.threads[t].TIdle?
  }

  function Count(b: bool): nat {
    if b then 1 else 0
  }

  /** In every interleaving, at every moment when no call is in progress, each object ever
      published (or live from the start) is in exactly one of Pending, Live, FadingOut and the two
      trash slots, or was dropped; and something is fading out exactly while a fade is unfinished. */
  lemma ObjectsAreConserved(crossfadeFrames: nat, initial: Id, threads: nat, actions: seq<Action>, id: Id)
    requires crossfadeFrames > 0
    ensures
      var s := Run(Init(crossfadeFrames, initial, threads), actions);
      AtRest(s) ==>
        && (s.fadingOut.Some? <==> s.remaining > 0)
        && (id in s.created ==>
          Count(s.pending == Some(id)) + Count(s.live == id) + Count(s.fadingOut == Some(id))
          + Count(s.trash[0] == Some(id)) + Count(s.trash[1] == Some(id)) + Count(id in s.dropped) == 1)
  {
    InitOk(crossfadeFrames, initial, threads);
    var s := Run(Init(crossfadeFrames, initial, threads), actions);
    if AtRest(s) && id in s.created {
      RestingPlace(s, id);
    }
  }

  lemma RestingPlace(s: State, id: Id)
    requires Inv(s) && AtRest(s) && id in s.created
    ensures Count(s.pending == Some(id)) + Count(s.live == id) + Count(s.fadingOut == Some(id))
          + Count(s.trash[0] == Some(id)) + Count(s.trash[1] == Some(id)) + Count(id in s.dropped) == 1
  {
    assert Owned(s, PendingPlace) == s.pending && Owned(s, LivePlace) == Some(s.live);
    assert Owned(s, FadingPlace) == s.fadingOut;
    assert Owned(s, TrashPlace(0)) == s.trash[0] && Owned(s, TrashPlace(1)) == s.trash[1];
    if id !in s.dropped {
      var p :| Owned(s, p) == Some(id);
      assert p != AudioPlace && !p.ThreadPlace?;
    }
  }

  // ------------------------------------------------------ who destroys

  function AudioHolds(a: Audio): set<Id> {
    match a
    case AAdopting(_, value) => {value}
    case AStoring(_, value) => {value}
    case AReleasing(_, displaced) => {displaced}
    case ARendering(_, copy) => {copy}
    case ATrashing(copy) => {copy}
    case ADropping(copy, dropping) => Drop({copy}, dropping)
    case AReturning(copy) => {copy}
    case _ => {}
  }

  function ControlHolds(c: Control): set<Id> {
    match c
    case TPublishing(value) => {value}
    case TDropping(dropping) => Drop({}, dropping)
    case TCleared(_, dropping) => Drop({}, dropping)
    case TUsing(copy) => {copy}
    case _ => {}
  }

  ghost predicate UsedByControl(s: State, id: Id) {
    exists t | 0 <= t < |s.threads| :: id in ControlHolds(s.threads[t])
  }

  /** Some shared pointer, shared or local, still refers to the object. */
  ghost predicate Held(s: State, id: Id) {
    || s.pending == Some(id) || s.live == id || s.fadingOut == Some(id)
    || Some(id) in s.trash
    || id in AudioHolds(s.audio) || UsedByControl(s, id)
  }

  /** A step of the audio thread releases the last holder of an object exactly when it lets go of
      an object it pushed out of a trash slot and no control thread is still using it. */
  lemma AudioDestroysIff(s: State, id: Id)
    requires Inv(s)
    ensures Held(s, id) && !Held(AudioNext(s), id)
       <==> s.audio.ADropping? && s.audio.dropping == Some(id) && !UsedByControl(s, id)
  {
    hide InOrder;
    hide NewestLive;
    hide Accounted;
    hide TrashCounted;
    var n := AudioNext(s);
    assert UsedByControl(n, id) == UsedByControl(s, id);
    hide UsedByControl;
    match s.audio
    case ADropping(copy, dropping) =>
      if dropping == Some(id) {
        assert Owned(s, AudioPlace) == Some(id);
        assert Owned(s, PendingPlace) == s.pending && Owned(s, LivePlace) == Some(s.live) && Owned(s, FadingPlace) == s.fadingOut;
        assert Owned(s, TrashPlace(0)) == s.trash[0] && Owned(s, TrashPlace(1)) == s.trash[1];
      }
    case ATrashing(copy) =>
      assert forall i | 0 <= i < 2 && i != s.trashSlot :: n.trash[i] == s.trash[i];
      assert n.trash[s.trashSlot] == s.fadingOut;
    case _ =>
  }

  /** The end of a fade pushes an object out of its trash slot exactly when no collection has
      cleared that slot since the fade before last. */
  lemma TrashOverflowsIff(s: State)
    requires Inv(s) && s.audio.ATrashing?
    ensures AudioNext(s).audio.ADropping?
    ensures AudioNext(s).audio.dropping.Some? <==> s.fades[s.trashSlot] >= 2
  {
  }

  /** No step of the audio thread in the run releases the last holder of any object. */
  ghost predicate AudioNeverDestroys(s: State, actions: seq<Action>)
    requires Shape(s)
    decreases |actions|
  {
    actions != [] ==>
      && (actions[0].AudioStep? ==> forall id :: Held(s, id) ==> Held(Next(s, actions[0]), id))
      && AudioNeverDestroys(Next(s, actions[0]), actions[1..])
  }

  /** Whether the fade that is just ending found its trash slot full, after one more step. */
  function FoundFull(s: State, full: bool, a: Action): bool
    requires Shape(s)
  {
    if !a.AudioStep? then full
    else if s.audio.ATrashing? then s.fades[s.trashSlot] >= 2
    else if s.audio.ADropping? then false
    else full
  }

  /** Whenever a fade ends into a slot not cleared since the fade before last, the object it pushes
      out is still in use by a control thread when the audio thread lets go of it. */
  ghost predicate LetsGoInTime(s: State, full: bool, actions: seq<Action>)
    requires Shape(s)
    decreases |actions|
  {
    actions != [] ==>
      && (actions[0].AudioStep? && s.audio.ADropping? && full ==>
           s.audio.dropping.Some? && UsedByControl(s, s.audio.dropping.value))
      && LetsGoInTime(Next(s, actions[0]), FoundFull(s, full, actions[0]), actions[1..])
  }

  /** A slot found full is an object in the audio thread's hands. */
  ghost predicate FullMeansDropping(s: State, full: bool) {
    full <==> s.audio.ADropping? && s.audio.dropping.Some?
  }

  lemma FoundFullStep(s: State, full: bool, a: Action)
    requires Inv(s) && FullMeansDropping(s, full)
    ensures FullMeansDropping(Next(s, a), FoundFull(s, full, a))
  {
    if a.AudioStep? && s.audio.ATrashing? { TrashOverflowsIff(s); }
    hide OwnedOnce, Accounted, Fading, TrashCounted, InOrder, NewestLive;
  }

  lemma StepDestroysIff(s: State, full: bool)
    requires Inv(s) && FullMeansDropping(s, full)
    ensures (forall id :: Held(s, id) ==> Held(AudioNext(s), id))
       <==> (s.audio.ADropping? && full ==> s.audio.dropping.Some? && UsedByControl(s, s.audio.dropping.value))
  {
    assert Shape(s);
    hide Inv, Held, AudioNext, UsedByControl;
    forall id: Id ensures Held(s, id) && !Held(AudioNext(s), id)
                 <==> s.audio.ADropping? && s.audio.dropping == Some(id) && !UsedByControl(s, id) {
      AudioDestroysIff(s, id);
    }
  }

  lemma {:induction false} DestroysFromIff(s: State, full: bool, actions: seq<Action>)
    requires Inv(s) && FullMeansDropping(s, full)
    ensures AudioNeverDestroys(s, actions) <==> LetsGoInTime(s, full, actions)
    decreases |actions|
  {
    assert Shape(s);
    hide Inv, Held, UsedByControl, FullMeansDropping, FoundFull;
    if actions != [] {
      NextKeepsInv(s, actions[0]);
      FoundFullStep(s, full, actions[0]);
      if actions[0].AudioStep? {
        StepDestroysIff(s, full);
      }
      DestroysFromIff(Next(s, actions[0]), FoundFull(s, full, actions[0]), actions[1..]);
    }
  }

  /** In every interleaving with any number of control threads: the audio thread never destroys an
      object if and only if each object a fade end pushes out of an uncleared slot is still in use by
      a control thread when it is let go. */
  lemma AudioNeverDestroysIff(crossfadeFrames: nat, initial: Id, threads: nat, actions: seq<Action>)
    requires crossfadeFrames > 0
    ensures AudioNeverDestroys(Init(crossfadeFrames, initial, threads), actions)
       <==> LetsGoInTime(Init(crossfadeFrames, initial, threads), false, actions)
  {
    InitOk(crossfadeFrames, initial, threads);
    DestroysFromIff(Init(crossfadeFrames, initial, threads), false, actions);
  }

  /** Collection keeps up: every fade ends into a slot that was cleared since the fade before last. */
  ghost predicate CollectionKeepsUp(s: State, actions: seq<Action>)
    requires Shape(s)
    decreases |actions|
  {
    actions != [] ==>
      && (actions[0].AudioStep? && s.audio.ATrashing? ==> s.fades[s.trashSlot] < 2)
      && CollectionKeepsUp(Next(s, actions[0]), actions[1..])
  }

  lemma {:induction false} KeepingUpLetsGo(s: State, actions: seq<Action>)
    requires Shape(s) && CollectionKeepsUp(s, actions)
    ensures LetsGoInTime(s, false, actions)
    decreases |actions|
  {
    hide Next;
    if actions != [] {
      KeepingUpLetsGo(Next(s, actions[0]), actions[1..]);
    }
  }

  /** As long as collection keeps up, the audio thread never destroys an object, whatever the control
      threads still use. */
  lemma AudioThreadNeverDestroys(crossfadeFrames: nat, initial: Id, threads: nat, actions: seq<Action>)
    requires crossfadeFrames > 0 && CollectionKeepsUp(Init(crossfadeFrames, initial, threads), actions)
    ensures AudioNeverDestroys(Init(crossfadeFrames, initial, threads), actions)
  {
    KeepingUpLetsGo(Init(crossfadeFrames, initial, threads), actions);
    AudioNeverDestroysIff(crossfadeFrames, initial, threads, actions);
  }

  // ------------------------------------------------------ which object wins

  /** The objects that become live follow the order of publication, skipping some; and when nothing
      is pending and no adoption is under way, the live object is the last one published. */
  lemma LastPublicationWins(crossfadeFrames: nat, initial: Id, threads: nat, actions: seq<Action>)
    requires crossfadeFrames > 0
    ensures
      var s := Run(Init(crossfadeFrames, initial, threads), actions);
      && (forall i, j | 0 <= i < j < |s.adopted| :: s.adopted[i] < s.adopted[j] < |s.log|)
      && (s.pending.None? && s.audio.AIdle? ==> s.live == if s.log == [] then s.initial else s.log[|s.log| - 1])
  {
    InitOk(crossfadeFrames, initial, threads);
    var s := Run(Init(crossfadeFrames, initial, threads), actions);
    assert Inv(s);
  }

  lemma RunFirst(s: State, a: Action, rest: seq<Action>)
    requires Shape(s)
    ensures Run(s, [a] + rest) == Run(Next(s, a), rest)
  {
    assert ([a] + rest)[1..] == rest;
  }

  lemma {:induction false} RunBoth(s: State, first: seq<Action>, second: seq<Action>)
    requires Shape(s)
    ensures Run(s, first + second) == Run(Run(s, first), second)
    decreases |first|
  {
    hide Inv, Next;
    if first == [] {
      assert first + second == second;
    } else {
      assert (first + second)[1..] == first[1..] + second;
      RunBoth(Next(s, first[0]), first[1..], second);
    }
  }

  lemma RunOk(s: State, actions: seq<Action>)
    requires Inv(s)
    ensures Inv(Run(s, actions))
  {
    hide Inv;
  }

  lemma RunNothing(s: State)
    requires Shape(s)
    ensures Run(s, []) == s
  {
  }

  lemma NotUsed(s: State, id: Id)
    requires |s.threads| == 1 && s.threads[0] == TIdle
    ensures !UsedByControl(s, id)
  {
  }

  // ------------------------------------------------------ when collection does not keep up

  /** Publishing into an empty slot, by thread 0. */
  lemma PublishSteps(s: State, v: Id, rest: seq<Action>)
    requires Shape(s) && |s.threads| > 0 && s.threads[0].TIdle? && s.pending == None && v !in s.created
    ensures Run(s, [CallPublish(0, v), ControlStep(0), ControlStep(0)] + rest)
         == Run(s.(pending := Some(v), created := s.created + {v}, log := s.log + [v]), rest)
  {
    hide Run;
    hide Inv;
    var c := ControlStep(0);
    assert [CallPublish(0, v), c, c] + rest == [CallPublish(0, v)] + ([c] + ([c] + rest));
    RunFirst(s, CallPublish(0, v), [c] + ([c] + rest));
    var a := Next(s, CallPublish(0, v));
    RunFirst(a, c, [c] + rest);
    var b := Next(a, c);
    RunFirst(b, c, rest);
    assert Next(b, c).threads == s.threads;
  }

  /** Process up to having replaced the live object. */
  lemma AdoptSteps(s: State, v: Id, frames: nat, rest: seq<Action>)
    requires Shape(s) && s.audio.AIdle? && s.pending == Some(v) && s.remaining == 0
    ensures Run(s, [CallProcess(frames), AudioStep, AudioStep, AudioStep, AudioStep] + rest)
         == Run(Adopted(s, v, frames), rest)
  {
    hide Run;
    hide Inv;
    var c, r := AudioStep, [AudioStep] + rest;
    assert [CallProcess(frames), c, c, c, c] + rest == [CallProcess(frames)] + ([c] + ([c] + ([c] + r)));
    RunFirst(s, CallProcess(frames), [c] + ([c] + ([c] + r)));
    var w := Next(s, CallProcess(frames));
    RunFirst(w, c, [c] + ([c] + r));
    var x := Next(w, c);
    RunFirst(x, c, [c] + r);
    var y := Next(x, c);
    RunFirst(y, c, r);
    var z := Next(y, c);
    RunFirst(z, c, rest);
  }

  function Adopted(s: State, v: Id, frames: nat): State {
    s.(pending := None, live := v, fadingOut := Some(s.live), remaining := s.crossfadeFrames,
       dropped := Drop(s.dropped, s.fadingOut), adopted := s.adopted + [LastIndex(s)], audio := ALoading(frames))
  }

  /** Nothing is collected, and every call renders a block of a size the slot can hold. */
  predicate Uncollected(actions: seq<Action>) {
    forall i | 0 <= i < |actions| ::
      !actions[i].CallCollect? && (actions[i].CallProcess? ==> 0 < actions[i].frames <= MAX_PROCESS_FRAMES)
  }

  /** The end of a fade; the object in the way is about to be let go. */
  function Faded(s: State): State
    requires Shape(s)
  {
    s.(remaining := 0, trash := s.trash[s.trashSlot := s.fadingOut], fadingOut := None, trashSlot := 1 - s.trashSlot,
       fades := [s.fades[0] + 1, s.fades[1] + 1], audio := ADropping(s.live, s.trash[s.trashSlot]))
  }

  /** The last block of a fade. */
  lemma LastBlockSteps(s: State)
    requires Shape(s) && s.audio.ALoading? && 0 < s.remaining <= s.audio.frames
    ensures Run(s, [AudioStep, AudioStep, AudioStep]) == Faded(s)
  {
    hide Run;
    hide Inv;
    var c := AudioStep;
    assert [c, c, c] == [c] + ([c] + ([c] + []));
    RunFirst(s, c, [c] + ([c] + []));
    var x := Next(s, c);
    RunFirst(x, c, [c] + []);
    var y := Next(x, c);
    RunFirst(y, c, []);
    RunNothing(Next(y, c));
  }

  /** Any other block of a fade, and the entry into the next call. */
  lemma BlockSteps(s: State, frames: nat, rest: seq<Action>)
    requires Shape(s) && s.audio.ALoading? && s.audio.frames < s.remaining
    ensures Run(s, [AudioStep, AudioStep, AudioStep, CallProcess(frames), AudioStep] + rest)
         == Run(s.(remaining := s.remaining - s.audio.frames, audio := ALoading(frames)), rest)
  {
    hide Run;
    hide Inv;
    var c, r := AudioStep, [AudioStep] + rest;
    assert [c, c, c, CallProcess(frames), c] + rest == [c] + ([c] + ([c] + ([CallProcess(frames)] + r)));
    RunFirst(s, c, [c] + ([c] + ([CallProcess(frames)] + r)));
    var w := Next(s, c);
    RunFirst(w, c, [c] + ([CallProcess(frames)] + r));
    var x := Next(w, c);
    RunFirst(x, c, [CallProcess(frames)] + r);
    var y := Next(x, c);
    RunFirst(y, CallProcess(frames), r);
    var z := Next(y, CallProcess(frames));
    RunFirst(z, c, rest);
  }

  /** A fade of any length runs to its end, in blocks as large as may be. */
  lemma {:induction false} FadeRuns(s: State) returns (actions: seq<Action>)
    requires Shape(s) && s.audio.ALoading? && s.remaining > 0
    requires s.audio.frames == Min(s.remaining, MAX_PROCESS_FRAMES)
    ensures Uncollected(actions) && Run(s, actions) == Faded(s)
    decreases s.remaining
  {
    hide Run;
    hide Inv;
    if s.remaining <= MAX_PROCESS_FRAMES {
      LastBlockSteps(s);
      actions := [AudioStep, AudioStep, AudioStep];
    } else {
      var left := s.remaining - MAX_PROCESS_FRAMES;
      var frames := Min(left, MAX_PROCESS_FRAMES);
      var later := FadeRuns(s.(remaining := left, audio := ALoading(frames)));
      BlockSteps(s, frames, later);
      actions := [AudioStep, AudioStep, AudioStep, CallProcess(frames), AudioStep] + later;
    }
  }

  /** A slot at rest with nothing pending and thread 0 free. */
  predicate Resting(s: State) {
    && s.audio.AIdle? && s.pending == None && s.fadingOut == None && s.remaining == 0 && s.crossfadeFrames > 0
    && s.threads == [TIdle]
  }

  /** An object published, adopted and faded in; the object in the way is about to be let go. */
  function AfterFade(s: State, v: Id): State
    requires Shape(s)
  {
    s.(live := v, trash := s.trash[s.trashSlot := Some(s.live)], trashSlot := 1 - s.trashSlot,
       created := s.created + {v}, log := s.log + [v], adopted := s.adopted + [|s.log|],
       fades := [s.fades[0] + 1, s.fades[1] + 1], audio := ADropping(v, s.trash[s.trashSlot]))
  }

  lemma OneFade(s: State, v: Id) returns (actions: seq<Action>)
    requires Shape(s) && Resting(s) && v !in s.created
    ensures Uncollected(actions) && Run(s, actions) == AfterFade(s, v)
  {
    hide Run;
    hide Inv;
    var frames := Min(s.crossfadeFrames, MAX_PROCESS_FRAMES);
    var published := s.(pending := Some(v), created := s.created + {v}, log := s.log + [v]);
    var fade := FadeRuns(Adopted(published, v, frames));
    var adopt := [CallProcess(frames), AudioStep, AudioStep, AudioStep, AudioStep] + fade;
    PublishSteps(s, v, adopt);
    AdoptSteps(published, v, frames, fade);
    actions := [CallPublish(0, v), ControlStep(0), ControlStep(0)] + adopt;
  }

  /** The same up to the return of the call. */
  lemma FadeAndReturn(s: State, v: Id) returns (actions: seq<Action>)
    requires Shape(s) && Resting(s) && v !in s.created
    ensures Uncollected(actions)
    ensures var t := AfterFade(s, v);
            Run(s, actions) == t.(dropped := Drop(t.dropped, t.audio.dropping), audio := AIdle)
  {
    hide Run;
    hide Inv;
    var fade := OneFade(s, v);
    var t := AfterFade(s, v);
    RunBoth(s, fade, [AudioStep, AudioStep]);
    assert [AudioStep, AudioStep] == [AudioStep, AudioStep] + [];
    ReturnSteps(t, []);
    RunNothing(t.(dropped := Drop(t.dropped, t.audio.dropping), audio := AIdle));
    actions := fade + [AudioStep, AudioStep];
  }

  lemma ReturnSteps(s: State, rest: seq<Action>)
    requires Shape(s) && s.audio.ADropping?
    ensures Run(s, [AudioStep, AudioStep] + rest)
         == Run(s.(dropped := Drop(s.dropped, s.audio.dropping), audio := AIdle), rest)
  {
    hide Run;
    hide Inv;
    assert [AudioStep, AudioStep] + rest == [AudioStep] + ([AudioStep] + rest);
    RunFirst(s, AudioStep, [AudioStep] + rest);
    RunFirst(Next(s, AudioStep), AudioStep, rest);
  }

  /** Whatever the length of a fade: three in a row with no collection in between, and the third pushes
      the very first object out of its trash slot, where the audio thread, holding its last reference,
      destroys it. */
  lemma ThreeUncollectedFadesDestroy(crossfadeFrames: nat) returns (actions: seq<Action>)
    requires crossfadeFrames > 0
    ensures Uncollected(actions)
    ensures var s := Run(Init(crossfadeFrames, 0, 1), actions);
            && s.log == [1, 2, 3] && s.adopted == [0, 1, 2]
            && Held(s, 0) && !Held(AudioNext(s), 0)
  {
    hide Run;
    hide Inv;
    hide Held;
    hide AudioNext;
    var s0 := Init(crossfadeFrames, 0, 1);
    InitOk(crossfadeFrames, 0, 1);
    var first := FadeAndReturn(s0, 1);
    var s1 := Run(s0, first);
    assert s1.trash == [Some(0), None] && s1.trashSlot == 1 && s1.dropped == {} && s1.log == [1];
    var second := FadeAndReturn(s1, 2);
    var s2 := Run(s1, second);
    assert s2.trash == [Some(0), Some(1)] && s2.trashSlot == 0 && s2.log == [1, 2] && s2.adopted == [0, 1];
    var third := OneFade(s2, 3);
    var end := Run(s2, third);
    assert end.audio == ADropping(3, Some(0));
    RunBoth(s0, first, second + third);
    RunBoth(s1, second, third);
    actions := first + (second + third);
    RunOk(s0, actions);
    NotUsed(end, 0);
    AudioDestroysIff(end, 0);
  }

  /** Process without a fade, from the adoption on. */
  lemma PlainSteps(s: State, rest: seq<Action>)
    requires Shape(s) && s.audio.ALoading? && s.remaining == 0
    ensures Run(s, [AudioStep, AudioStep, AudioStep] + rest) == Run(s.(audio := AIdle), rest)
  {
    hide Run;
    hide Inv;
    var c := AudioStep;
    assert [c, c, c] + rest == [c] + ([c] + ([c] + rest));
    RunFirst(s, c, [c] + ([c] + rest));
    var x := Next(s, c);
    RunFirst(x, c, [c] + rest);
    var y := Next(x, c);
    RunFirst(y, c, rest);
  }

  const PUBLISH_1 := [CallPublish(0, 1), ControlStep(0), ControlStep(0)]
  const PUBLISH_2 := [CallPublish(0, 2), ControlStep(0), ControlStep(0)]
  const ADOPT := [CallProcess(1), AudioStep, AudioStep, AudioStep, AudioStep]
  const PLAIN := [AudioStep, AudioStep, AudioStep]

  /** Why the crossfade length must be positive: with a length of zero frames the second adoption
      overwrites FadingOut and destroys what it held on the audio thread. */
  lemma ZeroLengthFadesDestroy()
    ensures
      var s := Run(Init(0, 0, 1), PUBLISH_1 + (ADOPT + (PLAIN + (PUBLISH_2 + [CallProcess(1), AudioStep]))));
      Held(s, 0) && !Held(AudioNext(s), 0)
  {
    hide Run;
    hide Inv;
    var r3 := [CallProcess(1), AudioStep];
    var r2 := PUBLISH_2 + r3;
    var r1 := PLAIN + r2;
    var s0 := Init(0, 0, 1);
    PublishSteps(s0, 1, ADOPT + r1);
    var s1 := s0.(pending := Some(1), created := s0.created + {1}, log := s0.log + [1]);
    AdoptSteps(s1, 1, 1, r1);
    var s2 := Adopted(s1, 1, 1);
    PlainSteps(s2, r2);
    var s3 := s2.(audio := AIdle);
    PublishSteps(s3, 2, r3);
    var s4 := s3.(pending := Some(2), created := s3.created + {2}, log := s3.log + [2]);
    assert r3 == [CallProcess(1)] + [AudioStep] && [AudioStep] == [AudioStep] + [];
    RunFirst(s4, CallProcess(1), [AudioStep]);
    RunFirst(Next(s4, CallProcess(1)), AudioStep, []);
    var end := AudioNext(Next(s4, CallProcess(1)));
    RunNothing(end);
    assert end.audio == AAdopting(1, 2) && end.fadingOut == Some(0);
  }
}
