/** The bookkeeping of the convolver's input and output queues, apart from the samples. A state
    is a pair: samples waiting for a full block, and finished samples not yet handed out. */
module ConvolverQueue {
  import opened OverlapSave

  ghost predicate Rest(waiting: nat, finished: nat) {
    && waiting < BLOCK
    && finished <= BLOCK
    && (finished > 0 ==> waiting == 0)
  }

  /** Blocks a call of `frames` samples would have to compute to fill its output. */
  function Needed(finished: nat, frames: nat): nat {
    if frames <= finished then 0 else (frames - finished + BLOCK - 1) / BLOCK
  }

  /** Blocks for which the input suffices. */
  function Possible(waiting: nat, frames: nat): nat {
    (waiting + frames) / BLOCK
  }

  function Blocks(waiting: nat, finished: nat, frames: nat): (b: nat)
    ensures b <= Needed(finished, frames) && b <= Possible(waiting, frames)
    ensures b == Needed(finished, frames) || b == Possible(waiting, frames)
  {
    var n, p := Needed(finished, frames), Possible(waiting, frames);
    if n <= p then n else p
  }

  /** How many output samples the call fills. */
  function Emits(waiting: nat, finished: nat, frames: nat): (e: nat)
    ensures e <= frames
  {
    var e := finished + BLOCK * Blocks(waiting, finished, frames);
    if e <= frames then e else frames
  }

  /** How many input samples the call takes in. */
  function Consumes(waiting: nat, finished: nat, frames: nat): (c: nat)
    requires Rest(waiting, finished)
    ensures c <= frames
  {
    var n := Needed(finished, frames);
    if n > Possible(waiting, frames) then frames
    else if n == 0 then 0
    else BLOCK * n - waiting
  }

  function WaitingAfter(waiting: nat, finished: nat, frames: nat): (w: nat)
    requires Rest(waiting, finished)
  {
    waiting + Consumes(waiting, finished, frames) - BLOCK * Blocks(waiting, finished, frames)
  }

  function FinishedAfter(waiting: nat, finished: nat, frames: nat): (f: nat)
    requires Rest(waiting, finished)
  {
    finished + BLOCK * Blocks(waiting, finished, frames) - Emits(waiting, finished, frames)
  }

  /** Calls leave the queues at rest again: nothing waits while finished samples remain. */
  lemma CallRests(waiting: nat, finished: nat, frames: nat)
    requires Rest(waiting, finished)
    ensures Rest(WaitingAfter(waiting, finished, frames), FinishedAfter(waiting, finished, frames))
  {
  }

  /** A call that reads every input sample and fills every output sample. */
  ghost predicate Lossless(waiting: nat, finished: nat, frames: nat)
    requires Rest(waiting, finished)
  {
    Consumes(waiting, finished, frames) == frames && Emits(waiting, finished, frames) == frames
  }

  /** On empty queues a call is lossless exactly when its size is a multiple of the block size. */
  lemma LosslessIffAligned(frames: nat)
    ensures Lossless(0, 0, frames) <==> frames % BLOCK == 0
    ensures frames % BLOCK == 0 ==> WaitingAfter(0, 0, frames) == 0 && FinishedAfter(0, 0, frames) == 0
  {
  }

  /** Are all calls of a run lossless, from the given queue lengths on? */
  ghost predicate RunLossless(waiting: nat, finished: nat, calls: seq<nat>)
    requires Rest(waiting, finished)
    decreases |calls|
  {
    calls == [] ||
    (Lossless(waiting, finished, calls[0]) &&
     (CallRests(waiting, finished, calls[0]);
      RunLossless(WaitingAfter(waiting, finished, calls[0]), FinishedAfter(waiting, finished, calls[0]), calls[1..])))
  }

  /** A freshly loaded convolver serves a whole run without losing or missing a sample exactly
      when every call is a multiple of the block size. */
  lemma {:induction false} RunLosslessIffAligned(calls: seq<nat>)
    ensures RunLossless(0, 0, calls) <==> forall i | 0 <= i < |calls| :: calls[i] % BLOCK == 0
    decreases |calls|
  {
    if calls != [] {
      LosslessIffAligned(calls[0]);
      RunLosslessIffAligned(calls[1..]);
      if RunLossless(0, 0, calls) {
        forall i | 0 <= i < |calls| ensures calls[i] % BLOCK == 0 {
          if i > 0 { assert calls[1..][i - 1] == calls[i]; }
        }
      }
    }
  }

  /** Input a call drops: unread samples at the end of its buffer. It happens exactly when the queues
      hold more samples than the call's last block has room for. */
  lemma DropsInputIff(waiting: nat, finished: nat, frames: nat)
    requires Rest(waiting, finished)
    ensures Consumes(waiting, finished, frames) < frames
       <==> frames > 0 && waiting + finished > (finished - frames) % BLOCK
  {
    if frames > finished {
      var n := Needed(finished, frames);
      assert finished - frames == -n * BLOCK + (n * BLOCK + finished - frames);
      assert 0 <= n * BLOCK + finished - frames < BLOCK;
    }
  }

  /** A caller that always asks for 100 frames loses 72 input samples on its second call. */
  lemma HundredFrameCallsLoseInput()
    ensures WaitingAfter(0, 0, 100) == 100 && FinishedAfter(0, 0, 100) == 0
    ensures Consumes(100, 0, 100) == 28
  {
  }

  /** How a call ends that fills its output after `blocks` blocks. */
  lemma FilledCall(waiting: nat, finished: nat, frames: nat, blocks: nat, taken: nat, left: nat)
    requires Rest(waiting, finished) && taken <= frames
    requires frames <= finished + BLOCK * blocks && waiting + taken == BLOCK * blocks + left
    requires blocks == 0 ==> taken == 0
    requires blocks > 0 ==> left == 0 && finished + BLOCK * (blocks - 1) < frames
    ensures Consumes(waiting, finished, frames) == taken && Emits(waiting, finished, frames) == frames
    ensures WaitingAfter(waiting, finished, frames) == left
    ensures FinishedAfter(waiting, finished, frames) == finished + BLOCK * blocks - frames
  {
  }

  /** How a call ends that runs out of input after `blocks` blocks. */
  lemma StarvedCall(waiting: nat, finished: nat, frames: nat, blocks: nat, left: nat)
    requires Rest(waiting, finished) && left < BLOCK
    requires finished + BLOCK * blocks < frames && waiting + frames == BLOCK * blocks + left
    ensures Consumes(waiting, finished, frames) == frames
    ensures Emits(waiting, finished, frames) == finished + BLOCK * blocks
    ensures WaitingAfter(waiting, finished, frames) == left && FinishedAfter(waiting, finished, frames) == 0
  {
  }

  // ------------------------------------------------------ the turns of one call

  /** The state of a call at the top of its loop, after `blocks` blocks: `read` and `written` samples
      so far, `filled` samples waiting for the next block and `ready` samples left of the last. */
  ghost predicate Turn(waiting: nat, finished: nat, frames: nat, blocks: nat, read: nat, written: nat, filled: nat, ready: nat) {
    && read <= frames && written <= frames && (frames == 0 || written < frames)
    && waiting + read == BLOCK * blocks + filled
    && finished + BLOCK * blocks == written + ready
    && (blocks == 0 ==> read == 0 && written == 0)
    && (blocks > 0 ==> filled == 0 && finished + BLOCK * (blocks - 1) < frames)
  }

  lemma FirstTurn(waiting: nat, finished: nat, frames: nat)
    ensures Turn(waiting, finished, frames, 0, 0, 0, waiting, finished)
  {
  }

  /** The loop ends with the output filled. */
  lemma TurnFills(waiting: nat, finished: nat, frames: nat, blocks: nat, read: nat, written: nat, filled: nat, ready: nat, left: nat)
    requires Rest(waiting, finished) && Turn(waiting, finished, frames, blocks, read, written, filled, ready)
    requires frames + left == written + ready
    ensures Consumes(waiting, finished, frames) == read && Emits(waiting, finished, frames) == frames
    ensures WaitingAfter(waiting, finished, frames) == filled && FinishedAfter(waiting, finished, frames) == left
  {
    FilledCall(waiting, finished, frames, blocks, read, filled);
  }

  /** The loop ends with the input used up in the middle of a block. */
  lemma TurnStarves(waiting: nat, finished: nat, frames: nat, blocks: nat, read: nat, written: nat, filled: nat, ready: nat, left: nat)
    requires Rest(waiting, finished) && Turn(waiting, finished, frames, blocks, read, written, filled, ready)
    requires written + ready < frames && left == filled + frames - read && left < BLOCK
    ensures Consumes(waiting, finished, frames) == frames && Emits(waiting, finished, frames) == written + ready
    ensures WaitingAfter(waiting, finished, frames) == left && FinishedAfter(waiting, finished, frames) == 0
  {
    StarvedCall(waiting, finished, frames, blocks, left);
  }

  /** The loop goes round with one more block. */
  lemma TurnGoesOn(waiting: nat, finished: nat, frames: nat, blocks: nat, read: nat, written: nat, filled: nat, ready: nat, taken: nat)
    requires Turn(waiting, finished, frames, blocks, read, written, filled, ready)
    requires written + ready < frames && taken <= frames && filled + taken == read + BLOCK
    ensures Turn(waiting, finished, frames, blocks + 1, taken, written + ready, 0, BLOCK)
  {
  }
}
