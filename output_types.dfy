/**
 * The channel descriptor of an output (src/experiments.ts:77-85) and its compact
 * integer form: bit 0 = led, bit 1 = audio, bit 2 = image, bit 3 = matrix.
 * Every flag is optional, because the encoder tells an undefined flag from `false`.
 * JavaScript applies `&` and `|` to the 32-bit two's-complement image of a number,
 * so raw values are `bv32`.
 */
module OutputTypes {
  import opened Wrappers

  datatype OutputType = OutputType(
    led: Option<bool>,
    image: Option<bool>,
    imageFile: Option<string>,
    audio: Option<bool>,
    audioFile: Option<string>,
    matrix: Option<bool>,
    matrixContent: Option<seq<bv32>>)

  const LedBit: bv32 := 0x01
  const AudioBit: bv32 := 0x02
  const ImageBit: bv32 := 0x04
  const MatrixBit: bv32 := 0x08

  /** `flag !== undefined && flag`: the flag is present and true. */
  predicate IsOn(flag: Option<bool>) {
    flag == Some(true)
  }

  /** createLedOutputConfiguration: only the LED channel, no assets. */
  function LedOutputConfiguration(): (c: OutputType)
    ensures FullyDefined(c) && c == Flags(c)
    ensures IsOn(c.led) && !IsOn(c.audio) && !IsOn(c.image) && !IsOn(c.matrix)
  {
    OutputType(
      led := Some(true), image := Some(false), imageFile := None,
      audio := Some(false), audioFile := None,
      matrix := Some(false), matrixContent := None)
  }

  /** Every one of the four flags defined (the asset fields may be anything). */
  predicate FullyDefined(t: OutputType) {
    t.led.Some? && t.audio.Some? && t.image.Some? && t.matrix.Some?
  }

  /** The four flags of a descriptor, without its asset fields. */
  function Flags(t: OutputType): OutputType {
    t.(imageFile := None, audioFile := None, matrixContent := None)
  }

  // ------------------------------------------------------ specification

  /** The descriptor outputTypeFromRaw produces: each flag is the test of its bit. */
  function Decoded(raw: bv32): (d: OutputType)
    ensures FullyDefined(d) && d == Flags(d)
  {
    OutputType(
      led := Some((raw & LedBit) != 0), image := Some((raw & ImageBit) != 0), imageFile := None,
      audio := Some((raw & AudioBit) != 0), audioFile := None,
      matrix := Some((raw & MatrixBit) != 0), matrixContent := None)
  }

  /**
   * The number outputTypeToRaw produces. The matrix bit is guarded by the image
   * flag being defined, not by the matrix flag (src/experiments.ts:381).
   */
  function Encoded(t: OutputType): (raw: bv32)
    ensures raw <= 0xF
    ensures (raw & LedBit) != 0 <==> IsOn(t.led)
    ensures (raw & AudioBit) != 0 <==> IsOn(t.audio)
    ensures (raw & ImageBit) != 0 <==> IsOn(t.image)
    ensures (raw & MatrixBit) != 0 <==> t.image.Some? && IsOn(t.matrix)
  {
    (if IsOn(t.led) then LedBit else 0) |
    (if IsOn(t.audio) then AudioBit else 0) |
    (if IsOn(t.image) then ImageBit else 0) |
    (if t.image.Some? && IsOn(t.matrix) then MatrixBit else 0)
  }

  // --------------------------------------------------- the two helpers

  /** outputTypeFromRaw: start from all flags false and switch on the ones whose bit is set. */
  method OutputTypeFromRaw(outputTypeRaw: bv32) returns (outputType: OutputType)
    ensures outputType == Decoded(outputTypeRaw)
  {
    outputType := OutputType(
      led := Some(false), image := Some(false), imageFile := None,
      audio := Some(false), audioFile := None,
      matrix := Some(false), matrixContent := None);
    if (outputTypeRaw & LedBit) != 0 {
      outputType := outputType.(led := Some(true));
    }
    if (outputTypeRaw & AudioBit) != 0 {
      outputType := outputType.(audio := Some(true));
    }
    if (outputTypeRaw & ImageBit) != 0 {
      outputType := outputType.(image := Some(true));
    }
    if (outputTypeRaw & MatrixBit) != 0 {
      outputType := outputType.(matrix := Some(true));
    }
  }

  /** outputTypeToRaw: accumulate the bit of every channel that is switched on. */
  method OutputTypeToRaw(outputType: OutputType) returns (outputTypeRaw: bv32)
    ensures outputTypeRaw == Encoded(outputType)
  {
    outputTypeRaw := 0;
    if outputType.led != None && outputType.led == Some(true) {
      outputTypeRaw := outputTypeRaw | LedBit;
    }
    if outputType.audio != None && outputType.audio == Some(true) {
      outputTypeRaw := outputTypeRaw | AudioBit;
    }
    if outputType.image != None && outputType.image == Some(true) {
      outputTypeRaw := outputTypeRaw | ImageBit;
    }
    if outputType.image != None && outputType.matrix == Some(true) {
      outputTypeRaw := outputTypeRaw | MatrixBit;
    }
  }

  // ------------------------------------------------------------ lemmas

  /** Decoding defines all four flags, each true exactly when its bit is set. */
  lemma DecodedDefinesAllFlags(raw: bv32)
    ensures FullyDefined(Decoded(raw))
    ensures IsOn(Decoded(raw).led) <==> (raw & 0x01) == 0x01
    ensures IsOn(Decoded(raw).audio) <==> (raw & 0x02) == 0x02
    ensures IsOn(Decoded(raw).image) <==> (raw & 0x04) == 0x04
    ensures IsOn(Decoded(raw).matrix) <==> (raw & 0x08) == 0x08
    ensures Decoded(raw) == Flags(Decoded(raw))
  {
  }

  /** Bits above bit 3 do not influence decoding. */
  lemma DecodedIgnoresHighBits(raw: bv32)
    ensures Decoded(raw) == Decoded(raw & 0xF)
  {
  }

  /** Encoding a decoded number gives back its low four bits. */
  lemma EncodeDecode(raw: bv32)
    ensures Encoded(Decoded(raw)) == (raw & 0xF)
  {
  }

  /** A defined flag is `Some` of whether it is on. */
  lemma DefinedFlagIsOn(flag: Option<bool>)
    requires flag.Some?
    ensures flag == Some(IsOn(flag))
  {
    if flag.value {
      assert flag == Some(true);
    } else {
      assert flag == Some(false);
    }
  }

  /** Decoding an encoded descriptor whose four flags are defined gives back its flags. */
  lemma DecodeEncode(t: OutputType)
    requires FullyDefined(t)
    ensures Decoded(Encoded(t)) == Flags(t)
  {
    DefinedFlagIsOn(t.led);
    DefinedFlagIsOn(t.audio);
    DefinedFlagIsOn(t.image);
    DefinedFlagIsOn(t.matrix);
  }

  /** A defined matrix flag without a defined image flag is lost by the encoder. */
  lemma MatrixNeedsDefinedImage(t: OutputType)
    requires t.image == None && t.matrix == Some(true)
    ensures (Encoded(t) & MatrixBit) == 0
    ensures Decoded(Encoded(t)).matrix == Some(false)
  {
  }

  /** The LED-only configuration encodes to 1, and 1 decodes to it. */
  lemma LedOutputConfigurationCode()
    ensures Encoded(LedOutputConfiguration()) == 1
    ensures Decoded(1) == LedOutputConfiguration()
  {
  }

  /** LED and image on, audio and matrix off, encode to 0b0101. */
  lemma EncodedExample()
    ensures Encoded(OutputType(Some(true), Some(true), None, Some(false), None, Some(false), None)) == 5
  {
  }
}
