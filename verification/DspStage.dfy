/** What every processing stage shares: the bound on a block, and interleaved stereo. */
module DspStage {
  const MAX_PROCESS_FRAMES: nat := 8192

  const STEREO: nat := 2

  /** The samples of one channel of an interleaved stereo block. */
  function Channel(stereo: seq<real>, channel: nat): (c: seq<real>)
    requires channel < 2 && |stereo| % 2 == 0
    ensures |c| == |stereo| / 2
  {
    seq(|stereo| / 2, (i: nat) requires i < |stereo| / 2 => stereo[2 * i + channel])
  }
}
