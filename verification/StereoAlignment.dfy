/** Interleaved stereo on the lock-free queue, step by step: exactly when calls that overlap in time
    keep frames whole, and what happens when they do not. */
module StereoAlignment {
  import opened Lists
  import opened RingBufferSteps

  ghost predicate EvenParts<T>(parts: seq<seq<T>>) {
    forall i | 0 <= i < |parts| :: |parts[i]| % 2 == 0
  }

  lemma {:induction false} EvenPartsAddUp<T>(parts: seq<seq<T>>)
    requires EvenParts(parts)
    ensures |Flatten(parts)| % 2 == 0
  {
    if parts != [] {
      EvenPartsAddUp(parts[1..]);
    }
  }

  /** Capacity, blocks and requests are whole frames. */
  ghost predicate WholeFrames<T>(s: State<T>) {
    && |s.buffer| % 2 == 1
    && EvenParts(s.blocks)
    && (forall i | 0 <= i < |s.asked| :: s.asked[i] % 2 == 0)
  }

  predicate WholeCall<T>(a: Action<T>) {
    match a
    case CallPush(data) => |data| % 2 == 0
    case CallPop(count) => count % 2 == 0
    case _ => true
  }

  /** All calls of a run push or ask for whole frames. */
  ghost predicate WholeCalls<T>(actions: seq<Action<T>>) {
    forall i | 0 <= i < |actions| :: WholeCall(actions[i])
  }

  /** Every call that has returned accepted or delivered whole frames. */
  ghost predicate Aligned<T>(s: State<T>) {
    EvenParts(s.pushes) && EvenParts(s.pops)
  }

  /** A step in which a call gives up on half a frame: a pop finds the queue empty that had seen an
      odd number of samples published, or a push finds it full that had seen an odd number released. */
  ghost predicate OddGiveUp<T>(s: State<T>, a: Action<T>) {
    || (a.ConsumerStep? && s.consumer.CLoadedWrite? && s.consumer.published == s.released && s.released % 2 == 1)
    || (a.ProducerStep? && s.producer.PLoadedRead? && |s.published| - s.producer.released == |s.buffer| - 1
        && s.producer.released % 2 == 1)
  }

  ghost predicate NeverGivesUpOdd<T>(s: State<T>, actions: seq<Action<T>>)
    requires Inv(s)
    decreases |actions|
  {
    actions != [] ==>
      (NextKeepsInv(s, actions[0]);
       !OddGiveUp(s, actions[0]) && NeverGivesUpOdd(Next(s, actions[0]), actions[1..]))
  }

  // ------------------------------------------------------ one step

  lemma PushTotal<T>(s: State<T>)
    requires Inv(s) && s.producer.PLoadedRead?
    ensures |s.published| == |Flatten(s.pushes)| + s.producer.written && s.producer.written < |s.producer.data|
  {
    hide ContentsOk, ConsumerOk, Flatten;
  }

  lemma PushDecides<T>(s: State<T>)
    requires Inv(s) && s.producer.PLoadedRead?
    ensures var n := ProducerNext(s);
            n.pops == s.pops
            && n.pushes == if n.producer.PIdle? then s.pushes + [s.producer.data[..s.producer.written]] else s.pushes
  {
    hide IndicesOk, ContentsOk, ConsumerOk, Flatten;
  }

  /** A push that gives up has accepted whole frames exactly when it had seen an even number of
      samples released. */
  lemma PushGivesUpEvenIff<T>(s: State<T>)
    requires Inv(s) && CallsOk(s) && WholeFrames(s) && Aligned(s) && s.producer.PLoadedRead?
    ensures Aligned(ProducerNext(s)) <==> !OddGiveUp(s, ProducerStep)
  {
    hide Flatten, Inv, CallsOk, ProducerNext, EvenParts;
    PushStopsIffFull(s);
    PushTotal(s);
    EvenPartsAddUp(s.pushes);
    PushDecides(s);
    LastPart(s.pushes, s.producer.data[..s.producer.written]);
  }

  lemma LastPart<T>(parts: seq<seq<T>>, last: seq<T>)
    requires EvenParts(parts)
    ensures EvenParts(parts + [last]) <==> |last| % 2 == 0
  {
    assert (parts + [last])[|parts|] == last;
  }

  lemma PopTotal<T>(s: State<T>)
    requires Inv(s) && s.consumer.CLoadedWrite?
    ensures s.released == |Flatten(s.pops)| + |s.consumer.out|
  {
    hide IndicesOk, ProducerOk, Flatten;
  }

  lemma PopDecides<T>(s: State<T>)
    requires Inv(s) && s.consumer.CLoadedWrite?
    ensures var n := ConsumerNext(s);
            n.pushes == s.pushes
            && n.pops == if n.consumer.CIdle? then s.pops + [s.consumer.out] else s.pops
  {
    hide IndicesOk, ContentsOk, ProducerOk, Flatten;
  }

  /** A pop that gives up has delivered whole frames exactly when it had seen an even number of
      samples published. */
  lemma PopGivesUpEvenIff<T>(s: State<T>)
    requires Inv(s) && CallsOk(s) && WholeFrames(s) && Aligned(s) && s.consumer.CLoadedWrite?
    ensures Aligned(ConsumerNext(s)) <==> !OddGiveUp(s, ConsumerStep)
  {
    hide Flatten, Inv, CallsOk, ConsumerNext, EvenParts;
    PopStopsIffEmpty(s);
    PopTotal(s);
    EvenPartsAddUp(s.pops);
    PopDecides(s);
    LastPart(s.pops, s.consumer.out);
  }

  lemma ProducerAlignedIff<T>(s: State<T>)
    requires Inv(s) && CallsOk(s) && WholeFrames(s) && Aligned(s)
    ensures Aligned(ProducerNext(s)) <==> !OddGiveUp(s, ProducerStep)
  {
    hide IndicesOk, ContentsOk, ConsumerOk;
    if s.producer.PLoadedRead? {
      hide *;
      PushGivesUpEvenIff(s);
    } else {
      assert !s.producer.PIdle? ==> |s.blocks[|s.pushes|]| % 2 == 0;
    }
  }

  lemma ConsumerAlignedIff<T>(s: State<T>)
    requires Inv(s) && CallsOk(s) && WholeFrames(s) && Aligned(s)
    ensures Aligned(ConsumerNext(s)) <==> !OddGiveUp(s, ConsumerStep)
  {
    hide IndicesOk, ContentsOk, ProducerOk;
    if s.consumer.CLoadedWrite? {
      hide *;
      PopGivesUpEvenIff(s);
    }
  }

  lemma StepAlignedIff<T>(s: State<T>, a: Action<T>)
    requires Inv(s) && CallsOk(s) && WholeFrames(s) && WholeCall(a) && Aligned(s)
    ensures Aligned(Next(s, a)) <==> !OddGiveUp(s, a)
    ensures WholeFrames(Next(s, a))
  {
    hide Inv, CallsOk;
    NextKeepsCalls(s, a);
    match a
    case ProducerStep => ProducerAlignedIff(s);
    case ConsumerStep => ConsumerAlignedIff(s);
    case _ =>
  }

  lemma StepStaysMisaligned<T>(s: State<T>, a: Action<T>)
    requires Inv(s) && !Aligned(s)
    ensures !Aligned(Next(s, a))
  {
    hide Inv;
    var t := Next(s, a);
    assert s.pushes <= t.pushes && s.pops <= t.pops;
  }

  lemma {:induction false} StaysMisaligned<T>(s: State<T>, actions: seq<Action<T>>)
    requires Inv(s) && !Aligned(s)
    ensures !Aligned(Run(s, actions))
    decreases |actions|
  {
    hide Inv, Next, Aligned;
    if actions != [] {
      NextKeepsInv(s, actions[0]);
      StepStaysMisaligned(s, actions[0]);
      StaysMisaligned(Next(s, actions[0]), actions[1..]);
    }
  }

  // ------------------------------------------------------ whole runs

  lemma {:induction false} AlignedFromIff<T>(s: State<T>, actions: seq<Action<T>>)
    requires Inv(s) && CallsOk(s) && WholeFrames(s) && Aligned(s)
    requires WholeCalls(actions)
    ensures Aligned(Run(s, actions)) <==> NeverGivesUpOdd(s, actions)
    decreases |actions|
  {
    hide Inv, CallsOk, WholeFrames, Next, Aligned, OddGiveUp, WholeCall;
    if actions != [] {
      NextKeepsInv(s, actions[0]);
      NextKeepsCalls(s, actions[0]);
      StepAlignedIff(s, actions[0]);
      if OddGiveUp(s, actions[0]) {
        StaysMisaligned(Next(s, actions[0]), actions[1..]);
      } else {
        AlignedFromIff(Next(s, actions[0]), actions[1..]);
      }
    }
  }

  lemma StartOk<T>(buffer: seq<T>)
    requires |buffer| % 2 == 1
    ensures var s := Init(buffer); Inv(s) && CallsOk(s) && WholeFrames(s) && Aligned(s) && Quiet(s)
  {
    InitOk(buffer);
  }

  /** In every interleaving of whole-frame calls on a queue of even capacity: all calls move whole
      frames if and only if no call gives up having seen the other side in the middle of a frame. */
  lemma AlignedIff<T>(buffer: seq<T>, actions: seq<Action<T>>)
    requires |buffer| % 2 == 1 && WholeCalls(actions)
    ensures Inv(Init(buffer))
    ensures Aligned(Run(Init(buffer), actions)) <==> NeverGivesUpOdd(Init(buffer), actions)
  {
    StartOk(buffer);
    hide *;
    AlignedFromIff(Init(buffer), actions);
  }

  // ------------------------------------------------------ calls that do not overlap

  /** At no moment are both sides inside a call. */
  ghost predicate Apart<T>(s: State<T>, actions: seq<Action<T>>)
    requires Inv(s)
    decreases |actions|
  {
    && (s.producer.PIdle? || s.consumer.CIdle?)
    && (actions != [] ==> (NextKeepsInv(s, actions[0]); Apart(Next(s, actions[0]), actions[1..])))
  }

  /** Nobody moves between a load and its use. */
  ghost predicate Quiet<T>(s: State<T>) {
    && (s.producer.PIdle? || s.consumer.CIdle?)
    && (s.consumer.CLoadedWrite? ==> s.consumer.published == |s.published|)
    && (s.producer.PLoadedRead? ==> s.producer.released == s.released)
  }

  lemma QuietStep<T>(s: State<T>, a: Action<T>)
    requires Inv(s) && Quiet(s) && Aligned(s)
    requires Next(s, a).producer.PIdle? || Next(s, a).consumer.CIdle?
    ensures !OddGiveUp(s, a) && Quiet(Next(s, a))
  {
    EvenPartsAddUp(s.pushes);
    EvenPartsAddUp(s.pops);
    hide Flatten, ContentsOk;
  }

  lemma {:induction false} ApartFromAligned<T>(s: State<T>, actions: seq<Action<T>>)
    requires Inv(s) && CallsOk(s) && WholeFrames(s) && Aligned(s) && Quiet(s) && Apart(s, actions)
    requires WholeCalls(actions)
    ensures NeverGivesUpOdd(s, actions)
    decreases |actions|
  {
    hide Inv, CallsOk, WholeFrames, Next, Aligned, OddGiveUp, WholeCall, Quiet;
    if actions != [] {
      NextKeepsInv(s, actions[0]);
      NextKeepsCalls(s, actions[0]);
      QuietStep(s, actions[0]);
      StepAlignedIff(s, actions[0]);
      ApartFromAligned(Next(s, actions[0]), actions[1..]);
    }
  }

  /** Whole-frame calls that never overlap in time move whole frames, however they are split into
      steps. */
  lemma ApartIsAligned<T>(buffer: seq<T>, actions: seq<Action<T>>)
    requires |buffer| % 2 == 1 && WholeCalls(actions)
    ensures Inv(Init(buffer))
    ensures Apart(Init(buffer), actions) ==> Aligned(Run(Init(buffer), actions))
  {
    StartOk(buffer);
    hide *;
    AlignedIff(buffer, actions);
    if Apart(Init(buffer), actions) {
      ApartFromAligned(Init(buffer), actions);
    }
  }

  // ------------------------------------------------------ which ear a sample reaches

  /** The part a position of a concatenation falls into. */
  lemma {:induction false} FindPart<T>(parts: seq<seq<T>>, j: nat) returns (i: nat, o: nat)
    requires j < |Flatten(parts)|
    ensures i < |parts| && o < |parts[i]| && Flatten(parts)[j] == parts[i][o]
    ensures EvenParts(parts) ==> o % 2 == j % 2
  {
    if j < |parts[0]| {
      i, o := 0, j;
    } else {
      i, o := FindPart(parts[1..], j - |parts[0]|);
      i := i + 1;
    }
  }

  lemma PoppedIsPublished<T>(s: State<T>)
    requires Inv(s)
    ensures Flatten(s.pops) <= s.published
  {
    hide Flatten;
  }

  /** Each pop delivers the stretch of the published stream behind the pops before it. */
  lemma PopIsStretch<T>(s: State<T>, k: nat)
    requires Inv(s) && k < |s.pops|
    ensures var start := |Flatten(s.pops[..k])|;
            start + |s.pops[k]| <= |s.published| && s.pops[k] == s.published[start..start + |s.pops[k]|]
  {
    PoppedIsPublished(s);
    hide Inv, Flatten;
    FlattenSplit(s.pops, k);
    var all, start, len := Flatten(s.pops), |Flatten(s.pops[..k])|, |s.pops[k]|;
    assert all[start..start + len] == s.pops[k];
    assert all == s.published[..|all|];
  }

  /** Where a published sample came from. */
  lemma PublishedIsPushed<T>(s: State<T>, j: nat) returns (i: nat, o: nat)
    requires Inv(s) && CallsOk(s) && EvenParts(s.pushes) && j < |s.published|
    ensures i < |s.blocks| && o < |s.blocks[i]|
    ensures s.published[j] == s.blocks[i][o] && o % 2 == j % 2
  {
    hide ContentsOk, ConsumerOk, PopsOk;
    EvenPartsAddUp(s.pushes);
    if j < |Flatten(s.pushes)| {
      i, o := FindPart(s.pushes, j);
      assert s.pushes[i] <= s.blocks[i];
    } else {
      hide Flatten;
      i, o := |s.pushes|, j - |Flatten(s.pushes)|;
    }
  }

  /** As long as calls move whole frames, left samples come out left and right samples right: every
      delivered sample sits at the same side of its frame as in the block it was pushed in. */
  lemma SidesAreKept<T>(s: State<T>, k: nat, q: nat) returns (i: nat, o: nat)
    requires Inv(s) && CallsOk(s) && Aligned(s) && k < |s.pops| && q < |s.pops[k]|
    ensures i < |s.blocks| && o < |s.blocks[i]|
    ensures s.pops[k][q] == s.blocks[i][o] && o % 2 == q % 2
  {
    hide Inv, CallsOk, Flatten;
    PopIsStretch(s, k);
    EvenPartsAddUp(s.pops[..k]);
    i, o := PublishedIsPushed(s, |Flatten(s.pops[..k])| + q);
  }

  // ------------------------------------------------------ calls that do overlap

  /** A run goes on with a push call, or a pop call. */
  lemma PushThen<T>(s: State<T>, data: seq<T>, done: seq<Action<T>>, t: State<T>) returns (u: State<T>)
    requires Inv(s) && t == Run(s, done) && t.producer.PIdle?
    ensures u == t.(producer := PTop(data, 0), blocks := t.blocks + [data])
    ensures Inv(u) && Run(s, done + [CallPush(data)]) == u
    ensures WholeCalls(done) && |data| % 2 == 0 ==> WholeCalls(done + [CallPush(data)])
  {
    NextKeepsInv(t, CallPush(data));
    RunBoth(s, done, [CallPush(data)]);
    RunOne(t, CallPush(data));
    hide Run, Inv;
    u := Next(t, CallPush(data));
  }

  lemma PopThen<T>(s: State<T>, count: nat, done: seq<Action<T>>, t: State<T>) returns (u: State<T>)
    requires Inv(s) && t == Run(s, done) && t.consumer.CIdle?
    ensures u == t.(consumer := CTop(count, []), asked := t.asked + [count])
    ensures Inv(u) && Run(s, done + [CallPop(count)]) == u
    ensures WholeCalls(done) && count % 2 == 0 ==> WholeCalls(done + [CallPop(count)])
  {
    NextKeepsInv(t, CallPop(count));
    RunBoth(s, done, [CallPop(count)]);
    RunOne(t, CallPop(count));
    hide Run, Inv;
    u := Next(t, CallPop(count));
  }

  lemma {:induction false} ProducerStepsKeepCalls<T>(s: State<T>, k: nat)
    requires Inv(s)
    ensures ProducerSteps(s, k).blocks == s.blocks && ProducerSteps(s, k).asked == s.asked
    decreases k
  {
    hide Inv;
    if k > 0 {
      ProducerKeepsInv(s);
      ProducerStepsKeepCalls(ProducerNext(s), k - 1);
    }
  }

  lemma ProducerThen<T>(s: State<T>, k: nat, done: seq<Action<T>>, t: State<T>)
    requires Inv(s) && t == Run(s, done)
    ensures Run(s, done + Repeat(ProducerStep, k)) == ProducerSteps(t, k)
    ensures WholeCalls(done) ==> WholeCalls(done + Repeat(ProducerStep, k))
    ensures ProducerSteps(t, k).blocks == t.blocks && ProducerSteps(t, k).asked == t.asked
  {
    hide Run, Inv;
    RunBoth(s, done, Repeat(ProducerStep, k));
    ProducerStepsAreRun(t, k);
    ProducerStepsKeepCalls(t, k);
  }

  lemma {:induction false} ConsumerStepsKeepCalls<T>(s: State<T>, k: nat)
    requires Inv(s)
    ensures ConsumerSteps(s, k).blocks == s.blocks && ConsumerSteps(s, k).asked == s.asked
    decreases k
  {
    hide Inv;
    if k > 0 {
      ConsumerKeepsInv(s);
      ConsumerStepsKeepCalls(ConsumerNext(s), k - 1);
    }
  }

  lemma ConsumerThen<T>(s: State<T>, k: nat, done: seq<Action<T>>, t: State<T>)
    requires Inv(s) && t == Run(s, done)
    ensures Run(s, done + Repeat(ConsumerStep, k)) == ConsumerSteps(t, k)
    ensures WholeCalls(done) ==> WholeCalls(done + Repeat(ConsumerStep, k))
    ensures ConsumerSteps(t, k).blocks == t.blocks && ConsumerSteps(t, k).asked == t.asked
  {
    hide Run, Inv;
    RunBoth(s, done, Repeat(ConsumerStep, k));
    ConsumerStepsAreRun(t, k);
    ConsumerStepsKeepCalls(t, k);
  }

  lemma StartOfRun<T>(buffer: seq<T>)
    requires |buffer| > 0
    ensures Inv(Init(buffer)) && Run(Init(buffer), []) == Init(buffer) && WholeCalls<T>([])
  {
    InitOk(buffer);
  }

  /** On a queue of any size, with calls of one whole frame each: while a push has published the left
      sample, a pop comes in, reads it, finds nothing more and returns half a frame. */
  lemma OverlappingPopSplitsAFrame<T>(buffer: seq<T>, left: T, right: T) returns (actions: seq<Action<T>>)
    requires |buffer| >= 3
    ensures Inv(Init(buffer)) && WholeCalls(actions)
    ensures var s := Run(Init(buffer), actions);
            && !Aligned(s) && s.blocks == [[left, right]] && s.asked == [2]
            && s.pops == [[left]] && s.published == [left] && s.released == 1
            && s.producer == PTop([left, right], 1) && s.pushes == [] && s.consumer.CIdle? && |s.buffer| == |buffer|
  {
    hide Run, Inv, Next, ProducerSteps, ConsumerSteps, Repeat, WholeCalls;
    var s0 := Init(buffer);
    StartOfRun(buffer);
    var s1 := PushThen(s0, [left, right], [], s0);
    var done: seq<Action<T>> := [] + [CallPush([left, right])];
    TurnWrites(s1);
    ProducerThen(s0, 5, done, s1);
    var s2 := ProducerSteps(s1, 5);
    done := done + Repeat(ProducerStep, 5);
    var s3 := PopThen(s0, 2, done, s2);
    done := done + [CallPop(2)];
    var k := LonePopTakesWhatIsThere(s3);
    ConsumerThen(s0, k, done, s3);
    actions := done + Repeat(ConsumerStep, k);
    assert s3.published == [left] && [] + [left][0..1] == [left];
    assert ConsumerSteps(s3, k).pops[0] == [left];
  }

  /** What the playback callback makes of it: the half frame counts as no frame at all, so its sample
      is lost; the frames delivered from then on start with a right sample, and the ears have swapped. */
  lemma ChannelsSwapAfterASplit<T>(buffer: seq<T>, left: T, right: T, nextLeft: T, nextRight: T) returns (actions: seq<Action<T>>)
    requires |buffer| >= 4
    ensures Inv(Init(buffer)) && WholeCalls(actions)
    ensures var s := Run(Init(buffer), actions);
            && !Aligned(s) && s.blocks == [[left, right], [nextLeft, nextRight]] && s.asked == [2, 2]
            && s.pushes == [[left, right], [nextLeft, nextRight]]
            && s.pops == [[left], [right, nextLeft]]
            && |s.pops[0]| / 2 == 0 && |s.pops[1]| / 2 == 1
  {
    hide Run, Inv, Next, ProducerSteps, ConsumerSteps, Repeat, WholeCalls;
    var s0 := Init(buffer);
    var done := OverlappingPopSplitsAFrame(buffer, left, right);
    var s1 := Run(s0, done);
    var k := LonePushAcceptsWhatFits(s1);
    ProducerThen(s0, k, done, s1);
    var s2 := ProducerSteps(s1, k);
    assert [left, right][..2] == [left, right] && [left, right][1..2] == [right];
    assert s2.published == [left, right] && s2.pushes == [[left, right]];
    done := done + Repeat(ProducerStep, k);
    var s3 := PushThen(s0, [nextLeft, nextRight], done, s2);
    done := done + [CallPush([nextLeft, nextRight])];
    var m := LonePushAcceptsWhatFits(s3);
    ProducerThen(s0, m, done, s3);
    var s4 := ProducerSteps(s3, m);
    done := done + Repeat(ProducerStep, m);
    assert [nextLeft, nextRight][..2] == [nextLeft, nextRight] == [nextLeft, nextRight][0..2];
    assert s4.published == [left, right, nextLeft, nextRight] && s4.published[1..3] == [right, nextLeft];
    var s5 := PopThen(s0, 2, done, s4);
    done := done + [CallPop(2)];
    var n := LonePopTakesWhatIsThere(s5);
    ConsumerThen(s0, n, done, s5);
    actions := done + Repeat(ConsumerStep, n);
    assert [] + [right, nextLeft] == [right, nextLeft];
    assert ConsumerSteps(s5, n).pops[0] == [left];
  }

  /** Push splits frames too: on a full queue of any capacity, while a pop has released one sample of
      its frame, a push of a whole frame comes in, fills that one place and accepts half of it. */
  lemma OverlappingPushSplitsAFrame<T>(buffer: seq<T>, block: seq<T>, left: T, right: T) returns (actions: seq<Action<T>>)
    requires |buffer| >= 3 && |block| == |buffer| - 1
    ensures Inv(Init(buffer)) && (|block| % 2 == 0 ==> WholeCalls(actions))
    ensures var s := Run(Init(buffer), actions);
            && !Aligned(s) && s.blocks == [block, [left, right]] && s.asked == [2]
            && s.pushes == [block, [left]]
  {
    hide Run, Inv, Next, ProducerSteps, ConsumerSteps, Repeat, WholeCalls;
    var s0 := Init(buffer);
    StartOfRun(buffer);
    var s1 := PushThen(s0, block, [], s0);
    var done: seq<Action<T>> := [] + [CallPush(block)];
    var k := LonePushAcceptsWhatFits(s1);
    ProducerThen(s0, k, done, s1);
    var s2 := ProducerSteps(s1, k);
    done := done + Repeat(ProducerStep, k);
    var s3 := PopThen(s0, 2, done, s2);
    done := done + [CallPop(2)];
    TurnReads(s3);
    ConsumerThen(s0, 5, done, s3);
    var s4 := ConsumerSteps(s3, 5);
    done := done + Repeat(ConsumerStep, 5);
    var s5 := PushThen(s0, [left, right], done, s4);
    done := done + [CallPush([left, right])];
    var m := LonePushAcceptsWhatFits(s5);
    ProducerThen(s0, m, done, s5);
    actions := done + Repeat(ProducerStep, m);
    assert block[..|block|] == block && [left, right][..1] == [left];
    assert ProducerSteps(s5, m).pushes[1] == [left];
  }
}
