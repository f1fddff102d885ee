/** The lock-free sample queue as a system of atomic steps: every load, store and buffer access
    of the one producer and the one consumer is a step of its own, in any interleaving. */
module RingBufferSteps {
  import opened CircularIndex
  import opened Lists

  /** Where the producer is inside Push. The indices are the values it loaded, which may be out of
      date by now; `released` is how many elements the consumer had released at that load. */
  datatype Producer<T> =
    | PIdle
    | PTop(data: seq<T>, written: nat)
    | PLoadedWrite(data: seq<T>, written: nat, writeIdx: nat)
    | PLoadedRead(data: seq<T>, written: nat, writeIdx: nat, readIdx: nat, released: nat)
    | PWriting(data: seq<T>, written: nat, writeIdx: nat, next: nat)
    | PWritten(data: seq<T>, written: nat, next: nat)

  /** Where the consumer is inside Pop; `published` is how many elements there were at its load. */
  datatype Consumer<T> =
    | CIdle
    | CTop(count: nat, out: seq<T>)
    | CLoadedRead(count: nat, out: seq<T>, readIdx: nat)
    | CLoadedWrite(count: nat, out: seq<T>, readIdx: nat, writeIdx: nat, published: nat)
    | CReading(count: nat, out: seq<T>, readIdx: nat)
    | CRead(count: nat, out: seq<T>, readIdx: nat)

  /** Shared memory, both threads, and the history: what was published, what was popped, how much
      of it was released, what each call was given, and what each finished call accepted or
      delivered. */
  datatype State<T> = State(
    buffer: seq<T>, writeIndex: nat, readIndex: nat,
    producer: Producer<T>, consumer: Consumer<T>,
    published: seq<T>, popped: seq<T>, released: nat,
    blocks: seq<seq<T>>, asked: seq<nat>, pushes: seq<seq<T>>, pops: seq<seq<T>>)

  datatype Action<T> = CallPush(data: seq<T>) | ProducerStep | CallPop(count: nat) | ConsumerStep

  function Init<T>(buffer: seq<T>): State<T> {
    State(buffer, 0, 0, PIdle, CIdle, [], [], 0, [], [], [], [])
  }

  // ------------------------------------------------------ the invariant

  ghost predicate IndicesOk<T>(s: State<T>) {
    && |s.buffer| > 0
    && s.writeIndex == Pos(|s.published|, |s.buffer|)
    && s.readIndex == Pos(s.released, |s.buffer|)
    && s.released <= |s.popped| <= |s.published| < s.released + |s.buffer|
  }

  /** Whatever is in flight is where the indices say. */
  ghost predicate ContentsOk<T>(s: State<T>)
    requires IndicesOk(s)
  {
    && s.popped == s.published[..|s.popped|]
    && (forall i | s.released <= i < |s.published| :: s.buffer[Pos(i, |s.buffer|)] == s.published[i])
  }

  ghost predicate ProducerOk<T>(s: State<T>)
    requires IndicesOk(s)
  {
    var size, n := |s.buffer|, |s.published|;
    match s.producer
    case PIdle => s.published == Flatten(s.pushes)
    case PTop(data, written) =>
      written <= |data| && s.published == Flatten(s.pushes) + data[..written]
    case PLoadedWrite(data, written, writeIdx) =>
      && written < |data| && s.published == Flatten(s.pushes) + data[..written]
      && writeIdx == Pos(n, size)
    case PLoadedRead(data, written, writeIdx, readIdx, seen) =>
      && written < |data| && s.published == Flatten(s.pushes) + data[..written]
      && writeIdx == Pos(n, size)
      && readIdx == Pos(seen, size) && seen <= s.released && n < seen + size
    case PWriting(data, written, writeIdx, next) =>
      && written < |data| && s.published == Flatten(s.pushes) + data[..written]
      && writeIdx == Pos(n, size) && next == Pos(n + 1, size) && n + 1 < s.released + size
    case PWritten(data, written, next) =>
      && 0 < written <= |data| && s.published == Flatten(s.pushes) + data[..written - 1]
      && next == Pos(n + 1, size) && n + 1 < s.released + size
      && s.buffer[Pos(n, size)] == data[written - 1]
  }

  ghost predicate ConsumerOk<T>(s: State<T>)
    requires IndicesOk(s)
  {
    var size, n := |s.buffer|, s.released;
    match s.consumer
    case CIdle => |s.popped| == n && s.popped == Flatten(s.pops)
    case CTop(count, out) => |s.popped| == n && |out| <= count && s.popped == Flatten(s.pops) + out
    case CLoadedRead(count, out, readIdx) =>
      && |s.popped| == n && |out| < count && s.popped == Flatten(s.pops) + out
      && readIdx == Pos(n, size)
    case CLoadedWrite(count, out, readIdx, writeIdx, seen) =>
      && |s.popped| == n && |out| < count && s.popped == Flatten(s.pops) + out
      && readIdx == Pos(n, size) && writeIdx == Pos(seen, size) && n <= seen <= |s.published|
    case CReading(count, out, readIdx) =>
      && |s.popped| == n < |s.published| && |out| < count && s.popped == Flatten(s.pops) + out
      && readIdx == Pos(n, size)
    case CRead(count, out, readIdx) =>
      && |s.popped| == n + 1 && |out| <= count && s.popped == Flatten(s.pops) + out
      && readIdx == Pos(n, size)
  }

  ghost predicate Inv<T>(s: State<T>) {
    IndicesOk(s) && ContentsOk(s) && ProducerOk(s) && ConsumerOk(s)
  }

  // ------------------------------------------------------ the steps

  /** One step of Push: each load, the full check, the buffer write, the publishing store. */
  ghost function ProducerNext<T>(s: State<T>): State<T>
    requires Inv(s)
  {
    match s.producer
    case PIdle => s
    case PTop(data, written) =>
      if written < |data| then s.(producer := PLoadedWrite(data, written, s.writeIndex))
      else s.(producer := PIdle, pushes := s.pushes + [data[..written]])
    case PLoadedWrite(data, written, writeIdx) =>
      s.(producer := PLoadedRead(data, written, writeIdx, s.readIndex, s.released))
    case PLoadedRead(data, written, writeIdx, readIdx, _) =>
      var next := Bump(writeIdx, |s.buffer|);
      if next == readIdx then s.(producer := PIdle, pushes := s.pushes + [data[..written]])
      else s.(producer := PWriting(data, written, writeIdx, next))
    case PWriting(data, written, writeIdx, next) =>
      s.(buffer := s.buffer[writeIdx := data[written]], producer := PWritten(data, written + 1, next))
    case PWritten(data, written, next) =>
      s.(writeIndex := next, published := s.published + [data[written - 1]], producer := PTop(data, written))
  }

  /** One step of Pop. */
  ghost function ConsumerNext<T>(s: State<T>): State<T>
    requires Inv(s)
  {
    match s.consumer
    case CIdle => s
    case CTop(count, out) =>
      if |out| < count then s.(consumer := CLoadedRead(count, out, s.readIndex))
      else s.(consumer := CIdle, pops := s.pops + [out])
    case CLoadedRead(count, out, readIdx) =>
      s.(consumer := CLoadedWrite(count, out, readIdx, s.writeIndex, |s.published|))
    case CLoadedWrite(count, out, readIdx, writeIdx, _) =>
      if readIdx == writeIdx then s.(consumer := CIdle, pops := s.pops + [out])
      else s.(consumer := CReading(count, out, readIdx))
    case CReading(count, out, readIdx) =>
      s.(popped := s.popped + [s.buffer[readIdx]], consumer := CRead(count, out + [s.buffer[readIdx]], readIdx))
    case CRead(count, out, readIdx) =>
      s.(readIndex := Bump(readIdx, |s.buffer|), released := s.released + 1, consumer := CTop(count, out))
  }

  /** One step of the system; a call while one is in progress is not a step of this queue. */
  ghost function Next<T>(s: State<T>, a: Action<T>): State<T>
    requires Inv(s)
  {
    match a
    case CallPush(data) => if s.producer.PIdle? then s.(producer := PTop(data, 0), blocks := s.blocks + [data]) else s
    case CallPop(count) => if s.consumer.CIdle? then s.(consumer := CTop(count, []), asked := s.asked + [count]) else s
    case ProducerStep => ProducerNext(s)
    case ConsumerStep => ConsumerNext(s)
  }

  lemma InitOk<T>(buffer: seq<T>)
    requires |buffer| > 0
    ensures Inv(Init(buffer))
  {
  }

  lemma TopKeepsInv<T>(s: State<T>)
    requires Inv(s) && (s.producer.PIdle? || s.producer.PTop? || s.producer.PLoadedWrite?)
    ensures Inv(ProducerNext(s))
  {
    hide Pos;
    hide Flatten;
    if s.producer.PTop? && s.producer.written == |s.producer.data| {
      FlattenAppend(s.pushes, s.producer.data[..s.producer.written]);
    }
  }

  /** The check against a possibly stale read index is still safe: it only errs on the full side. */
  lemma RoomAfterCheck(n: nat, seen: nat, size: nat)
    requires n < seen + size && seen <= n
    ensures Bump(Pos(n, size), size) == Pos(n + 1, size)
    ensures Pos(n + 1, size) != Pos(seen, size) ==> n + 1 < seen + size
  {
    if n + 1 == seen + size { PosRound(seen, size); }
  }

  lemma DecisionKeepsInv<T>(s: State<T>)
    requires Inv(s) && s.producer.PLoadedRead?
    ensures Inv(ProducerNext(s))
  {
    hide Pos;
    hide Flatten;
    hide Bump;
    RoomAfterCheck(|s.published|, s.producer.released, |s.buffer|);
    FlattenAppend(s.pushes, s.producer.data[..s.producer.written]);
  }

  lemma WriteKeepsInv<T>(s: State<T>)
    requires Inv(s) && s.producer.PWriting?
    ensures Inv(ProducerNext(s))
  {
    hide Pos;
    hide Flatten;
    var n, size, t := |s.published|, |s.buffer|, ProducerNext(s);
    var data, written := s.producer.data, s.producer.written;
    forall i | s.released <= i < n ensures t.buffer[Pos(i, size)] == s.published[i] {
      PosDistinct(i, n, size);
    }
    assert data[..written + 1 - 1] == data[..written];
  }

  lemma PublishKeepsInv<T>(s: State<T>)
    requires Inv(s) && s.producer.PWritten?
    ensures Inv(ProducerNext(s))
  {
    hide Pos;
    hide Flatten;
    var data, written := s.producer.data, s.producer.written;
    assert data[..written - 1] + [data[written - 1]] == data[..written];
  }

  lemma ProducerKeepsInv<T>(s: State<T>)
    requires Inv(s)
    ensures Inv(ProducerNext(s))
  {
    hide Inv;
    match s.producer
    case PLoadedRead(_, _, _, _, _) => DecisionKeepsInv(s);
    case PWriting(_, _, _, _) => WriteKeepsInv(s);
    case PWritten(_, _, _) => PublishKeepsInv(s);
    case _ => TopKeepsInv(s);
  }

  /** After a whole round the index is the same. */
  lemma PosRound(n: nat, size: nat)
    requires size > 0
    ensures Pos(n + size, size) == Pos(n, size)
  {
    PosAdd(n, size - 1, size);
    assert Pos(n + size, size) == Bump(Pos(n + size - 1, size), size);
  }

  lemma PopTopKeepsInv<T>(s: State<T>)
    requires Inv(s) && !s.consumer.CReading? && !s.consumer.CRead?
    ensures Inv(ConsumerNext(s))
  {
    hide Pos;
    hide Flatten;
    if !s.consumer.CIdle? { FlattenAppend(s.pops, s.consumer.out); }
    if s.consumer.CLoadedWrite? && s.consumer.readIdx != s.consumer.writeIdx {
      assert s.consumer.published != s.released;
    }
  }

  lemma ReadKeepsInv<T>(s: State<T>)
    requires Inv(s) && s.consumer.CReading?
    ensures Inv(ConsumerNext(s))
  {
    hide Pos;
    hide Flatten;
    assert s.published[..s.released] + [s.published[s.released]] == s.published[..s.released + 1];
  }

  lemma ReleaseKeepsInv<T>(s: State<T>)
    requires Inv(s) && s.consumer.CRead?
    ensures Inv(ConsumerNext(s))
  {
    assert Pos(s.released + 1, |s.buffer|) == Bump(Pos(s.released, |s.buffer|), |s.buffer|);
    hide Pos;
    hide Flatten;
  }

  lemma ConsumerKeepsInv<T>(s: State<T>)
    requires Inv(s)
    ensures Inv(ConsumerNext(s))
  {
    hide Inv;
    match s.consumer
    case CReading(_, _, _) => ReadKeepsInv(s);
    case CRead(_, _, _) => ReleaseKeepsInv(s);
    case _ => PopTopKeepsInv(s);
  }

  lemma NextKeepsInv<T>(s: State<T>, a: Action<T>)
    requires Inv(s)
    ensures Inv(Next(s, a))
  {
    match a
    case CallPush(data) => assert data[..0] == [];
    case CallPop(_) =>
    case ProducerStep => ProducerKeepsInv(s);
    case ConsumerStep => ConsumerKeepsInv(s);
  }

  /** A run: any interleaving of calls and steps. */
  ghost function Run<T>(s: State<T>, actions: seq<Action<T>>): (t: State<T>)
    requires Inv(s)
    ensures Inv(t)
    decreases |actions|
  {
    if actions == [] then s else NextKeepsInv(s, actions[0]); Run(Next(s, actions[0]), actions[1..])
  }

  // ------------------------------------------------------ the results

  /** Finished pushes answer the pushes made, one by one: each accepted a prefix of its block. */
  ghost predicate PushesOk<T>(s: State<T>) {
    && |s.blocks| == |s.pushes| + (if s.producer.PIdle? then 0 else 1)
    && (!s.producer.PIdle? ==> s.blocks[|s.pushes|] == s.producer.data)
    && (forall i | 0 <= i < |s.pushes| :: s.pushes[i] <= s.blocks[i])
  }

  /** Likewise each finished pop delivered at most what it was asked for. */
  ghost predicate PopsOk<T>(s: State<T>) {
    && |s.asked| == |s.pops| + (if s.consumer.CIdle? then 0 else 1)
    && (!s.consumer.CIdle? ==> s.asked[|s.pops|] == s.consumer.count)
    && (forall i | 0 <= i < |s.pops| :: |s.pops[i]| <= s.asked[i])
  }

  ghost predicate CallsOk<T>(s: State<T>) {
    PushesOk(s) && PopsOk(s)
  }

  lemma ProducerKeepsCalls<T>(s: State<T>)
    requires Inv(s) && CallsOk(s)
    ensures CallsOk(ProducerNext(s)) && |ProducerNext(s).buffer| == |s.buffer|
  {
    hide Pos, Flatten, ContentsOk, ConsumerOk;
  }

  lemma ConsumerKeepsCalls<T>(s: State<T>)
    requires Inv(s) && CallsOk(s)
    ensures CallsOk(ConsumerNext(s)) && |ConsumerNext(s).buffer| == |s.buffer|
  {
    hide Pos, Flatten, ContentsOk, ProducerOk;
  }

  lemma NextKeepsCalls<T>(s: State<T>, a: Action<T>)
    requires Inv(s) && CallsOk(s)
    ensures CallsOk(Next(s, a)) && |Next(s, a).buffer| == |s.buffer|
  {
    hide Inv, ProducerNext, ConsumerNext;
    match a
    case ProducerStep => ProducerKeepsCalls(s);
    case ConsumerStep => ConsumerKeepsCalls(s);
    case _ =>
  }

  lemma {:induction false} RunKeepsCalls<T>(s: State<T>, actions: seq<Action<T>>)
    requires Inv(s) && CallsOk(s)
    ensures CallsOk(Run(s, actions)) && |Run(s, actions).buffer| == |s.buffer|
    decreases |actions|
  {
    hide Inv, CallsOk, Next;
    if actions != [] {
      NextKeepsInv(s, actions[0]);
      NextKeepsCalls(s, actions[0]);
      RunKeepsCalls(Next(s, actions[0]), actions[1..]);
    }
  }

  /** In every interleaving: what was popped is a prefix of what was published, in order; what the
      pops returned and the pushes accepted are prefixes of the two; each push accepted a prefix of
      its own block and each pop delivered at most what it asked for; and never more elements are
      in flight than the buffer's size less one. */
  lemma QueueIsFifo<T>(buffer: seq<T>, actions: seq<Action<T>>)
    requires |buffer| > 0
    ensures Inv(Init(buffer))
    ensures
      var s := Run(Init(buffer), actions);
      && s.popped <= s.published
      && Flatten(s.pops) <= s.popped
      && Flatten(s.pushes) <= s.published
      && |s.published| - s.released <= |buffer| - 1
      && |s.pushes| <= |s.blocks| && (forall i | 0 <= i < |s.pushes| :: s.pushes[i] <= s.blocks[i])
      && |s.pops| <= |s.asked| && (forall i | 0 <= i < |s.pops| :: |s.pops[i]| <= s.asked[i])
  {
    InitOk(buffer);
    RunKeepsCalls(Init(buffer), actions);
    var s := Run(Init(buffer), actions);
    assert s.popped == s.published[..|s.popped|];
  }

  /** No interleaving ever lets the consumer read the slot the producer is writing. */
  lemma NoSlotIsReadWhileWritten<T>(buffer: seq<T>, actions: seq<Action<T>>)
    requires |buffer| > 0
    ensures Inv(Init(buffer))
    ensures
      var s := Run(Init(buffer), actions);
      s.producer.PWriting? && s.consumer.CReading? ==> s.producer.writeIdx != s.consumer.readIdx
  {
    InitOk(buffer);
    var s := Run(Init(buffer), actions);
    if s.producer.PWriting? && s.consumer.CReading? {
      PosDistinct(s.released, |s.published|, |s.buffer|);
    }
  }

  /** Push stops early exactly when the queue was full at the moment it loaded the read index. */
  lemma PushStopsIffFull<T>(s: State<T>)
    requires Inv(s) && s.producer.PLoadedRead?
    ensures ProducerNext(s).producer.PIdle? <==> |s.published| - s.producer.released == |s.buffer| - 1
  {
    var size, n, seen := |s.buffer|, |s.published|, s.producer.released;
    assert Bump(Pos(n, size), size) == Pos(n + 1, size);
    if n + 1 == seen + size {
      PosRound(seen, size);
    } else {
      PosDistinct(seen, n + 1, size);
    }
  }

  /** Pop stops early exactly when the queue was empty at the moment it loaded the write index. */
  lemma PopStopsIffEmpty<T>(s: State<T>)
    requires Inv(s) && s.consumer.CLoadedWrite?
    ensures ConsumerNext(s).consumer.CIdle? <==> s.consumer.published == s.released
  {
    if s.consumer.published > s.released {
      PosDistinct(s.released, s.consumer.published, |s.buffer|);
    }
  }

  /** With nobody in between, the two index loads of AvailableToRead give the number in flight. */
  lemma AvailableIsInFlight<T>(s: State<T>)
    requires Inv(s)
    ensures s.writeIndex + |s.buffer| >= s.readIndex
    ensures (s.writeIndex + |s.buffer| - s.readIndex) % |s.buffer| == |s.published| - s.released
  {
    var size, k := |s.buffer|, |s.published| - s.released;
    PosAdd(s.released, k, size);
    if s.writeIndex >= s.readIndex {
      RemainderAfterRound(k, size);
    } else {
      SmallRemainder(k, size);
    }
  }

  // ------------------------------------------------------ calls that run alone

  /** `k` steps of the producer, the consumer standing still. */
  ghost function ProducerSteps<T>(s: State<T>, k: nat): (t: State<T>)
    requires Inv(s)
    ensures Inv(t)
    decreases k
  {
    if k == 0 then s else ProducerKeepsInv(s); ProducerSteps(ProducerNext(s), k - 1)
  }

  lemma {:induction false} ProducerStepsAdd<T>(s: State<T>, j: nat, k: nat)
    requires Inv(s)
    ensures ProducerSteps(s, j + k) == ProducerSteps(ProducerSteps(s, j), k)
    decreases j
  {
    hide Inv;
    hide ProducerNext;
    if j > 0 {
      ProducerKeepsInv(s);
      ProducerStepsAdd(ProducerNext(s), j - 1, k);
    }
  }

  lemma LoadBoth<T>(s: State<T>)
    requires Inv(s) && s.producer.PTop? && s.producer.written < |s.producer.data|
    ensures ProducerSteps(s, 2) == s.(producer :=
      PLoadedRead(s.producer.data, s.producer.written, s.writeIndex, s.readIndex, s.released))
  {
    hide Inv;
    ProducerKeepsInv(s);
    var a := ProducerNext(s);
    assert ProducerSteps(s, 2) == ProducerSteps(a, 1);
    ProducerKeepsInv(a);
    assert ProducerSteps(a, 1) == ProducerSteps(ProducerNext(a), 0);
  }

  /** One turn of the loop on a queue with room. */
  lemma TurnWrites<T>(s: State<T>)
    requires Inv(s) && s.producer.PTop? && s.producer.written < |s.producer.data|
    requires |s.published| - s.released < |s.buffer| - 1
    ensures
      var t := ProducerSteps(s, 5);
      && t.producer == PTop(s.producer.data, s.producer.written + 1)
      && t.published == s.published + [s.producer.data[s.producer.written]]
      && t.pushes == s.pushes && t.consumer == s.consumer && t.released == s.released && t.pops == s.pops
      && |t.buffer| == |s.buffer|
  {
    hide Inv;
    LoadBoth(s);
    ProducerStepsAdd(s, 2, 3);
    var b := ProducerSteps(s, 2);
    PushStopsIffFull(b);
    ProducerKeepsInv(b);
    var c := ProducerNext(b);
    ProducerKeepsInv(c);
    var d := ProducerNext(c);
    ProducerKeepsInv(d);
    assert ProducerSteps(b, 3) == ProducerSteps(c, 2);
    assert ProducerSteps(c, 2) == ProducerSteps(d, 1);
    assert ProducerSteps(d, 1) == ProducerSteps(ProducerNext(d), 0);
  }

  /** The last turn: on a full queue the push returns what it has written. */
  lemma TurnGivesUp<T>(s: State<T>)
    requires Inv(s) && s.producer.PTop? && s.producer.written < |s.producer.data|
    requires |s.published| - s.released == |s.buffer| - 1
    ensures
      var t := ProducerSteps(s, 3);
      && t == s.(producer := PIdle, pushes := s.pushes + [s.producer.data[..s.producer.written]])
  {
    hide Inv;
    LoadBoth(s);
    ProducerStepsAdd(s, 2, 1);
    var b := ProducerSteps(s, 2);
    PushStopsIffFull(b);
    ProducerKeepsInv(b);
    assert ProducerSteps(b, 1) == ProducerSteps(ProducerNext(b), 0);
  }

  /** A push that runs alone accepts exactly as much of its block as there is room for. */
  lemma {:induction false} LonePushAcceptsWhatFits<T>(s: State<T>) returns (k: nat)
    requires Inv(s) && s.producer.PTop? && s.producer.written <= |s.producer.data|
    ensures
      var data, written := s.producer.data, s.producer.written;
      var room := s.released + |s.buffer| - 1 - |s.published|;
      var accepted := if |data| <= written + room then |data| else written + room;
      var t := ProducerSteps(s, k);
      && 0 <= accepted <= |data|
      && t.producer.PIdle? && t.pushes == s.pushes + [data[..accepted]]
      && t.published == s.published + data[written..accepted]
      && t.consumer == s.consumer && t.released == s.released && t.pops == s.pops && |t.buffer| == |s.buffer|
    decreases |s.producer.data| - s.producer.written
  {
    hide Inv;
    InFlightBound(s);
    if s.producer.written == |s.producer.data| {
      k := 1;
      ProducerKeepsInv(s);
      assert ProducerSteps(s, 1) == ProducerSteps(ProducerNext(s), 0);
    } else if |s.published| - s.released == |s.buffer| - 1 {
      TurnGivesUp(s);
      k := 3;
    } else {
      TurnWrites(s);
      var j := LonePushAcceptsWhatFits(ProducerSteps(s, 5));
      ProducerStepsAdd(s, 5, j);
      k := 5 + j;
    }
  }

  lemma InFlightBound<T>(s: State<T>)
    requires Inv(s)
    ensures 0 <= |s.published| - s.released <= |s.buffer| - 1
  {
  }

  /** `k` steps of the consumer, the producer standing still. */
  ghost function ConsumerSteps<T>(s: State<T>, k: nat): (t: State<T>)
    requires Inv(s)
    ensures Inv(t)
    decreases k
  {
    if k == 0 then s else ConsumerKeepsInv(s); ConsumerSteps(ConsumerNext(s), k - 1)
  }

  lemma {:induction false} ConsumerStepsAdd<T>(s: State<T>, j: nat, k: nat)
    requires Inv(s)
    ensures ConsumerSteps(s, j + k) == ConsumerSteps(ConsumerSteps(s, j), k)
    decreases j
  {
    hide Inv;
    hide ConsumerNext;
    if j > 0 {
      ConsumerKeepsInv(s);
      ConsumerStepsAdd(ConsumerNext(s), j - 1, k);
    }
  }

  lemma LoadBothToPop<T>(s: State<T>)
    requires Inv(s) && s.consumer.CTop? && |s.consumer.out| < s.consumer.count
    ensures ConsumerSteps(s, 2) == s.(consumer :=
      CLoadedWrite(s.consumer.count, s.consumer.out, s.readIndex, s.writeIndex, |s.published|))
  {
    hide Inv;
    ConsumerKeepsInv(s);
    var a := ConsumerNext(s);
    assert ConsumerSteps(s, 2) == ConsumerSteps(a, 1);
    ConsumerKeepsInv(a);
    assert ConsumerSteps(a, 1) == ConsumerSteps(ConsumerNext(a), 0);
  }

  /** The oldest element in flight is the one at the read index. */
  lemma OldestIsRead<T>(s: State<T>)
    requires Inv(s) && s.consumer.CReading?
    ensures s.released < |s.published| && s.consumer.readIdx < |s.buffer|
    ensures s.buffer[s.consumer.readIdx] == s.published[s.released]
  {
  }

  /** One turn of the loop on a queue that holds something. */
  lemma TurnReads<T>(s: State<T>)
    requires Inv(s) && s.consumer.CTop? && |s.consumer.out| < s.consumer.count
    requires s.released < |s.published|
    ensures
      var t := ConsumerSteps(s, 5);
      && t.consumer == CTop(s.consumer.count, s.consumer.out + [s.published[s.released]])
      && t.released == s.released + 1 && t.pops == s.pops
      && t.published == s.published && t.producer == s.producer && t.pushes == s.pushes && |t.buffer| == |s.buffer|
  {
    hide Inv;
    LoadBothToPop(s);
    ConsumerStepsAdd(s, 2, 3);
    var b := ConsumerSteps(s, 2);
    PopStopsIffEmpty(b);
    ConsumerKeepsInv(b);
    var c := ConsumerNext(b);
    OldestIsRead(c);
    ConsumerKeepsInv(c);
    var d := ConsumerNext(c);
    ConsumerKeepsInv(d);
    assert ConsumerSteps(b, 3) == ConsumerSteps(c, 2);
    assert ConsumerSteps(c, 2) == ConsumerSteps(d, 1);
    assert ConsumerSteps(d, 1) == ConsumerSteps(ConsumerNext(d), 0);
  }

  /** The last turn: on an empty queue the pop returns what it has read. */
  lemma TurnRunsDry<T>(s: State<T>)
    requires Inv(s) && s.consumer.CTop? && |s.consumer.out| < s.consumer.count
    requires s.released == |s.published|
    ensures ConsumerSteps(s, 3) == s.(consumer := CIdle, pops := s.pops + [s.consumer.out])
  {
    hide Inv;
    LoadBothToPop(s);
    ConsumerStepsAdd(s, 2, 1);
    var b := ConsumerSteps(s, 2);
    PopStopsIffEmpty(b);
    ConsumerKeepsInv(b);
    assert ConsumerSteps(b, 1) == ConsumerSteps(ConsumerNext(b), 0);
  }

  /** A pop that runs alone delivers exactly the oldest elements, as many as asked for and there. */
  lemma {:induction false} LonePopTakesWhatIsThere<T>(s: State<T>) returns (k: nat)
    requires Inv(s) && s.consumer.CTop? && |s.consumer.out| <= s.consumer.count
    ensures
      var out, wanted := s.consumer.out, s.consumer.count - |s.consumer.out|;
      var present := |s.published| - s.released;
      var taken := if wanted <= present then wanted else present;
      var t := ConsumerSteps(s, k);
      && 0 <= taken <= present
      && t.consumer.CIdle? && t.pops == s.pops + [out + s.published[s.released..s.released + taken]]
      && t.published == s.published && t.producer == s.producer && t.released == s.released + taken
      && t.pushes == s.pushes && |t.buffer| == |s.buffer|
    decreases s.consumer.count - |s.consumer.out|
  {
    hide Inv;
    InFlightBound(s);
    if |s.consumer.out| == s.consumer.count {
      k := 1;
      ConsumerKeepsInv(s);
      assert ConsumerSteps(s, 1) == ConsumerSteps(ConsumerNext(s), 0);
      assert s.consumer.out + s.published[s.released..s.released] == s.consumer.out;
    } else if s.released == |s.published| {
      TurnRunsDry(s);
      k := 3;
      assert s.consumer.out + s.published[s.released..s.released] == s.consumer.out;
    } else {
      TurnReads(s);
      var j := LonePopTakesWhatIsThere(ConsumerSteps(s, 5));
      ConsumerStepsAdd(s, 5, j);
      k := 5 + j;
      TakenJoins(s.published, s.released, ConsumerSteps(s, k).released, s.consumer.out);
    }
  }

  lemma TakenJoins<T>(published: seq<T>, from: nat, to: nat, out: seq<T>)
    requires from < to <= |published|
    ensures (out + [published[from]]) + published[from + 1..to] == out + published[from..to]
  {
  }

  // ------------------------------------------------------ runs in pieces

  lemma {:induction false} RunBoth<T>(s: State<T>, actions: seq<Action<T>>, more: seq<Action<T>>)
    requires Inv(s)
    ensures Run(s, actions + more) == Run(Run(s, actions), more)
    decreases |actions|
  {
    hide Inv, Next;
    if actions == [] {
      assert actions + more == more;
    } else {
      NextKeepsInv(s, actions[0]);
      assert (actions + more)[1..] == actions[1..] + more;
      RunBoth(Next(s, actions[0]), actions[1..], more);
    }
  }

  lemma RunOne<T>(s: State<T>, a: Action<T>)
    requires Inv(s)
    ensures Run(s, [a]) == Next(s, a)
  {
    hide Inv, Next;
    NextKeepsInv(s, a);
    assert Run(Next(s, a), [a][1..]) == Next(s, a);
  }

  function Repeat<T>(a: Action<T>, k: nat): seq<Action<T>> {
    seq(k, _ => a)
  }

  lemma {:induction false} ProducerStepsAreRun<T>(s: State<T>, k: nat)
    requires Inv(s)
    ensures Run(s, Repeat(ProducerStep, k)) == ProducerSteps(s, k)
    decreases k
  {
    hide Inv, ProducerNext;
    if k > 0 {
      ProducerKeepsInv(s);
      ProducerStepsAreRun(ProducerNext(s), k - 1);
      var p: Action<T> := ProducerStep;
      assert Repeat(p, k)[1..] == Repeat(p, k - 1);
    }
  }

  lemma {:induction false} ConsumerStepsAreRun<T>(s: State<T>, k: nat)
    requires Inv(s)
    ensures Run(s, Repeat(ConsumerStep, k)) == ConsumerSteps(s, k)
    decreases k
  {
    hide Inv, ConsumerNext;
    if k > 0 {
      ConsumerKeepsInv(s);
      ConsumerStepsAreRun(ConsumerNext(s), k - 1);
      var q: Action<T> := ConsumerStep;
      assert Repeat(q, k)[1..] == Repeat(q, k - 1);
    }
  }
}
