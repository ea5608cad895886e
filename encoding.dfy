/** The BD3491FS register map as the driver sees it, and the byte each
    audio control is encoded into. Register addresses and enumerator values
    live in the driver's header, which is not part of this model: registers
    are distinct tags, and the two enumerators the driver names are
    abstract constants; no property here depends on their values. */
module Encoding {
  import opened Bits

  /** The registers the driver writes. */
  datatype Register =
    | SystemReset
    | InputSelector
    | InputGain
    | VolumeCh1
    | VolumeCh2
    | BassGain
    | TrebleGain
    | Surround

  /** A value of the `BD3491FS_Level` enumeration (a gain step). */
  type Level = nat
  /** A value of the `BD3491FS_Input` enumeration (an input source). */
  type Input = nat
  /** A value of the `BD3491FS_Surround_Level` enumeration. */
  type SurroundLevel = nat

  /** `BD3491FS_INPUT_MUTE`: the input-selector value that mutes the chip. */
  const INPUT_MUTE: Input
  /** `BD3491FS_SURR_OFF`: the surround level meaning "surround disabled". */
  const SURR_OFF: SurroundLevel

  /** The byte `reset` writes to the system-reset register. */
  const RESET_COMMAND: byte := 0x81
  /** The largest attenuation either volume register accepts. */
  const MAX_ATTENUATION: byte := 87
  /** The largest bass or treble level accepted. */
  const MAX_TONE_LEVEL: Level := 7

  /** The input-gain levels the chip does not support (10 dB and 14 dB). */
  predicate IsReservedGain(gain: Level) {
    gain == 5 || gain == 7
  }

  /** `input`, written raw to the one-byte input-selector register. */
  function InputByte(input: Input): (b: byte)
    ensures input < 256 ==> b == input
    ensures (input - b) % 256 == 0
  {
    LowByte(input)
  }

  /** `gain << 1`, written to the one-byte input-gain register. The low bit
      of the register is always clear, and as long as the shifted gain fits
      the byte, halving gives the gain back. */
  function InputGainByte(gain: Level): (b: byte)
    ensures b % 2 == 0
    ensures gain < 128 ==> b / 2 == gain
    ensures (2 * gain - b) % 256 == 0
  {
    EvenLowByte(gain);
    LowByte(2 * gain)
  }

  /** Truncating an even value to a byte leaves it even. */
  lemma EvenLowByte(half: nat)
    ensures LowByte(2 * half) % 2 == 0
  {
    var q := (2 * half) / 256;
    assert 2 * half == 256 * q + LowByte(2 * half);
    assert LowByte(2 * half) == 2 * (half - 128 * q);
  }

  /** `attenuation << 1` for an accepted attenuation: even, at most 174, and
      halving it gives the attenuation back. */
  function VolumeByte(attenuation: byte): (b: byte)
    requires attenuation <= MAX_ATTENUATION
    ensures b % 2 == 0 && b <= 2 * MAX_ATTENUATION
    ensures b / 2 == attenuation
  {
    LowByte(attenuation * 2)
  }

  /** `(cut ? (1 << 7) : 0) | level` for an accepted bass or treble level:
      bit 7 holds the cut flag and the low seven bits hold the level. */
  function ToneByte(level: Level, cut: bool): (b: byte)
    requires level <= MAX_TONE_LEVEL
    ensures Bit7(b) == cut
    ensures Low7(b) == level
  {
    PackFlag(cut, level);
    Or(FlagByte(cut), level)
  }

  /** `(state ? (1 << 7) : 0) | (level & 0b01111111)`: bit 7 holds `state`
      and the low seven bits are those of the level. The driver passes
      `level != SURR_OFF` as `state`. */
  function SurroundByte(state: bool, level: SurroundLevel): (b: byte)
    ensures Bit7(b) == state
    ensures Low7(b) == level % 128
  {
    var masked := And(level, 0x7F);
    AndLow7(level);
    PackFlag(state, masked);
    Or(FlagByte(state), masked)
  }

  /** The bytes of distinct accepted tone settings differ, so a tone byte
      decodes to exactly one (level, cut) pair. */
  lemma ToneByteInjective(l1: Level, c1: bool, l2: Level, c2: bool)
    requires l1 <= MAX_TONE_LEVEL && l2 <= MAX_TONE_LEVEL
    ensures ToneByte(l1, c1) == ToneByte(l2, c2) <==> l1 == l2 && c1 == c2
  {}

  /** Distinct accepted attenuations give distinct volume bytes. */
  lemma VolumeByteInjective(a1: byte, a2: byte)
    requires a1 <= MAX_ATTENUATION && a2 <= MAX_ATTENUATION
    ensures VolumeByte(a1) == VolumeByte(a2) <==> a1 == a2
  {}
}
