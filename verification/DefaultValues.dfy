/** The daemon's default floats, given as bit patterns elsewhere, as the numbers they stand for. */
module DefaultValues {
  import opened Complexes
  import opened Wire
  import Protocol
  import Settings
  import GraphicEq

  function PowerOfTwo(n: nat): (p: real)
    ensures p > 0.0
  {
    if n == 0 then 1.0 else 2.0 * PowerOfTwo(n - 1)
  }

  /** The value of a positive normal IEEE 754 single. */
  function FloatValue(w: word): real {
    var exponent, fraction := w / 0x80_0000 % 0x100, w % 0x80_0000;
    (1.0 + fraction as real / 8388608.0)
    * if exponent >= 127 then PowerOfTwo(exponent - 127) else 1.0 / PowerOfTwo(127 - exponent)
  }

  lemma PowersInNumbers()
    ensures PowerOfTwo(1) == 2.0 && PowerOfTwo(4) == 16.0 && PowerOfTwo(5) == 32.0 && PowerOfTwo(6) == 64.0
    ensures PowerOfTwo(7) == 128.0 && PowerOfTwo(8) == 256.0 && PowerOfTwo(9) == 512.0 && PowerOfTwo(10) == 1024.0
    ensures PowerOfTwo(11) == 2048.0 && PowerOfTwo(12) == 4096.0 && PowerOfTwo(13) == 8192.0 && PowerOfTwo(0) == 1.0
  {
  }

  lemma CentresInNumbers()
    ensures FloatValue(0x41FC_0000) == 31.5 && FloatValue(0x427C_0000) == 63.0 && FloatValue(0x42FA_0000) == 125.0
    ensures FloatValue(0x437A_0000) == 250.0 && FloatValue(0x43FA_0000) == 500.0 && FloatValue(0x447A_0000) == 1000.0
  {
    PowersInNumbers();
    hide PowerOfTwo;
  }

  lemma UpperCentresInNumbers()
    ensures FloatValue(0x44FA_0000) == 2000.0 && FloatValue(0x457A_0000) == 4000.0
    ensures FloatValue(0x45FA_0000) == 8000.0 && FloatValue(0x467A_0000) == 16000.0
    ensures Abs(FloatValue(0x3FB4_7AE1) - 1.41) < 0.0000001
  {
    PowersInNumbers();
    hide PowerOfTwo;
  }

  /** The settings file's default curve has its bands at the centres the equaliser uses, flat, and at its
      quality factor, as near as a single can hold it. */
  lemma DefaultBandsInNumbers(i: nat)
    requires i < 10
    ensures var b := Settings.DEFAULTS.bands[i];
            && b.filterType == 0 && b.gainDb == 0
            && FloatValue(b.frequencyHz) == GraphicEq.DEFAULT_CENTRES[i]
            && Abs(FloatValue(b.q) - 1.41) < 0.0000001
  {
    CentresInNumbers();
    UpperCentresInNumbers();
    hide FloatValue;
  }

  /** The bass enhancer's defaults, and those of a fresh command's band. */
  lemma BassDefaultsInNumbers(opcode: byte)
    ensures var s := Settings.DEFAULTS.bassEnhancer;
            && !s.enabled && FloatValue(s.cutoffHz) == 60.0 && FloatValue(s.drive) == 0.5 && FloatValue(s.mix) == 0.5
            && Protocol.FreshCommand(opcode).bassEnhancer == s
    ensures var b := Protocol.FreshCommand(opcode).band;
            b.filterType == 0 && FloatValue(b.frequencyHz) == 1000.0 && b.gainDb == 0 && Abs(FloatValue(b.q) - 0.707) < 0.0000001
  {
    PowersInNumbers();
    hide PowerOfTwo;
  }
}
