/**
 * The colour of one pixel of an LED matrix and its packed form 0xRRGGBB
 * (src/experiments.ts:87-91, 618-642). The operands of `>>`, `<<`, `&` and `|`
 * are the 32-bit images JavaScript gives its numbers, hence `bv32`. An
 * arithmetic `>>` and Dafny's logical `>>` agree on the eight bits each mask keeps.
 */
module MatrixLeds {

  datatype MatrixLed = MatrixLed(r: bv32, g: bv32, b: bv32)

  /** Every channel within the byte range [0, 255]. */
  predicate InByteRange(m: MatrixLed) {
    m.r <= 0xFF && m.g <= 0xFF && m.b <= 0xFF
  }

  /** The colour with each channel cut down to its low eight bits, as the packing masks do. */
  function Truncated(m: MatrixLed): (t: MatrixLed)
    ensures InByteRange(t)
    ensures InByteRange(m) ==> t == m
  {
    MatrixLed(m.r & 0xFF, m.g & 0xFF, m.b & 0xFF)
  }

  /** numberToMatrixLed: red from bits 16-23, green from bits 8-15, blue from bits 0-7. */
  function NumberToMatrixLed(value: bv32): (m: MatrixLed)
    ensures InByteRange(m)
  {
    MatrixLed((value >> 16) & 0xFF, (value >> 8) & 0xFF, value & 0xFF)
  }

  /** matrixLedToNumber: the channels' low bytes side by side, so the result fits in 24 bits. */
  function MatrixLedToNumber(m: MatrixLed): (value: bv32)
    ensures value < 0x100_0000
    ensures NumberToMatrixLed(value) == Truncated(m)
  {
    ((m.r & 0xFF) << 16) | ((m.g & 0xFF) << 8) | (m.b & 0xFF)
  }

  /** A colour whose channels are in [0, 255] survives packing and unpacking. */
  lemma UnpackPack(m: MatrixLed)
    requires InByteRange(m)
    ensures NumberToMatrixLed(MatrixLedToNumber(m)) == m
  {
  }

  /** Unpacking and packing keeps exactly the low 24 bits of a number. */
  lemma PackUnpack(value: bv32)
    ensures MatrixLedToNumber(NumberToMatrixLed(value)) == (value & 0xFF_FFFF)
  {
  }

  /** A channel outside [0, 255] is truncated by the mask, not rejected. */
  lemma PackTruncatesExample()
    ensures MatrixLedToNumber(MatrixLed(0x1FF, 0x100, 0x12)) == 0xFF_0012
  {
  }
}
