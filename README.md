# Experiment helpers of the stimulator's shared model

This project models the helper layer of the shared TypeScript model of the
neuro-stimulator experiments (`src/experiments.ts`), and the older helpers still
kept in `src/index.ts`. It covers these parts:

- **Enumerations and lenient parsers.** `ExperimentType`, `HorizontalAlignment`,
  `VerticalAlignment`, `Edge`, `Random` and `ReaOnResponseFail`. Each parser
  upper-cases its input, compares it with the member names and falls back to a fixed
  member on anything else (`enums.dfy`, with the ASCII upper-casing in `text.dfy`).
- **The output-channel descriptor (`OutputType`) and its 4-bit code.** Bit 0 is
  the LED, bit 1 audio, bit 2 the image and bit 3 the matrix. `outputTypeFromRaw`
  and `outputTypeToRaw` are methods with the source's step-by-step flag updates.
  They are proved equal to the specification functions `Decoded` and `Encoded`.
  The round trips are proved about those functions (`output_types.dfy`).
- **The LED-matrix pixel colour and its packed form `0xRRGGBB`** (`matrix_led.dfy`).
- **The default experiments and outputs.**
  - The base default (`createEmptyExperiment`), one factory per experiment kind,
    and the dispatch by type.
  - The default output of each kind and its dispatch.
  - `createAllTypesExperiments`, which numbers one default experiment per
    supported type.
  - The two asset projections of an output (`experiments.dfy`).
- **The older `src/index.ts` helpers.** They have their own `ExperimentType`
  declaration, in which TVEP comes before FVEP. The project proves how that
  declaration and its parser relate to the newer ones (`legacy_index.dfy`).

Experiments of different kinds share one record. `base` holds the common fields,
and `variant` holds the kind-specific ones. The factories are the source's
functions of no arguments. Each one reads the clock (`new Date().getTime()`); the
model passes that reading in as the parameter `created`. The field named `type` in
TypeScript is called `experimentType`, because `type` is a keyword in Dafny. A
TypeScript field that may be `undefined` becomes an `Option`.

`createAllTypesExperiments` iterates over the enum in its declaration order, in
which FVEP comes before TVEP (ERP, CVEP, FVEP, TVEP, REA), and names each
experiment "{type}-{index}". The names are therefore ERP-0, CVEP-1, FVEP-2, TVEP-3
and REA-4: see `Experiments.NumberedDefaultFields` and `AllTypesNames`.

## Model

| member | source | states |
|---|---|---|
| Text.UpperChar | src/experiments.ts:267 | the result of upper-casing one character is never a lower-case letter; letters a-z map to A-Z, every other character is unchanged |
| Text.ToUpper | src/experiments.ts:267 | upper-casing keeps the length of the string |
| Text.ToUpperAt | src/experiments.ts:267 | upper-casing works character by character: position i of the result is the upper-cased character i |
| Text.ToUpperFixesUpper | src/experiments.ts:267 | a string with no lower-case letter is left unchanged |
| Text.ToUpperCharwise | src/experiments.ts:267 | a string of the same length whose every character is the upper-cased input character is the upper-cased input |
| Text.ToUpperIdempotent | src/experiments.ts:267 | upper-casing twice is the same as upper-casing once |
| Text.DigitChar | src/experiments.ts:590 | the character of a decimal digit lies in '0'..'9' |
| Text.DecimalString | src/experiments.ts:590 | the template literal's text of a natural number is a non-empty digit string with no leading zero whose decimal value is the number |
| Enums.ExperimentTypeOrdinal | src/experiments.ts:73-75 | the number of a member is its position in the declaration NONE, ERP, CVEP, FVEP, TVEP, REA |
| Enums.ExperimentTypeOrdinalInjective | src/experiments.ts:73-75 | two members have the same number exactly when they are the same member |
| Enums.ExperimentTypeFromRaw | src/experiments.ts:266-283 | a result other than NONE is the member named by the upper-cased input; NONE comes back only when the input names no other member |
| Enums.HorizontalAlignmentFromRaw | src/experiments.ts:285-294 | a result other than CENTER is the member named by the upper-cased input; CENTER comes back only when the input names no other member |
| Enums.VerticalAlignmentFromRaw | src/experiments.ts:296-305 | a result other than CENTER is the member named by the upper-cased input; CENTER comes back only when the input names no other member |
| Enums.EdgeFromRaw | src/experiments.ts:307-316 | a result other than LEADING is the member named by the upper-cased input; LEADING comes back only when the input names no other member |
| Enums.RandomFromRaw | src/experiments.ts:318-331 | a result other than OFF is the member named by the upper-cased input; OFF comes back only when the input names no other member |
| Enums.ReaOnResponseFailFromRaw | src/experiments.ts:333-342 | a result other than CONTINUE is the member named by the upper-cased input; CONTINUE comes back only when the input names no other member |
| Enums.ExperimentTypeFromRawMatches | src/experiments.ts:266-283 | the parser yields t exactly when the upper-cased input is t's name, or when t is NONE and the input names no member |
| Enums.HorizontalAlignmentFromRawMatches | src/experiments.ts:285-294 | yields a exactly when the upper-cased input is a's name, or when a is CENTER and the input names no member |
| Enums.VerticalAlignmentFromRawMatches | src/experiments.ts:296-305 | yields a exactly when the upper-cased input is a's name, or when a is CENTER and the input names no member |
| Enums.EdgeFromRawMatches | src/experiments.ts:307-316 | yields e exactly when the upper-cased input is e's name, or when e is LEADING and the input names no member |
| Enums.RandomFromRawMatches | src/experiments.ts:318-331 | yields r exactly when the upper-cased input is r's name, or when r is OFF and the input names no member |
| Enums.ReaOnResponseFailFromRawMatches | src/experiments.ts:333-342 | yields f exactly when the upper-cased input is f's name, or when f is CONTINUE and the input names no member |
| Enums.ExperimentTypeFromRawIgnoresCase | src/experiments.ts:266-283 | the parser gives the same member for an input and for its upper-cased form |
| Enums.HorizontalAlignmentFromRawIgnoresCase | src/experiments.ts:285-294 | the parser gives the same member for an input and for its upper-cased form |
| Enums.VerticalAlignmentFromRawIgnoresCase | src/experiments.ts:296-305 | the parser gives the same member for an input and for its upper-cased form |
| Enums.EdgeFromRawIgnoresCase | src/experiments.ts:307-316 | the parser gives the same member for an input and for its upper-cased form |
| Enums.RandomFromRawIgnoresCase | src/experiments.ts:318-331 | the parser gives the same member for an input and for its upper-cased form |
| Enums.ReaOnResponseFailFromRawIgnoresCase | src/experiments.ts:333-342 | the parser gives the same member for an input and for its upper-cased form |
| Enums.ExperimentTypeNameIsUpper | src/experiments.ts:73-75 | every declared ExperimentType name is already upper case |
| Enums.ExperimentTypeNameRoundTrip | src/experiments.ts:266-283 | parsing a member's name gives back that member |
| Enums.HorizontalAlignmentNameIsUpper | src/experiments.ts:61-65 | every declared name is already upper case |
| Enums.HorizontalAlignmentNameRoundTrip | src/experiments.ts:285-294 | parsing a member's name gives back that member |
| Enums.VerticalAlignmentNameIsUpper | src/experiments.ts:67-71 | every declared name is already upper case |
| Enums.VerticalAlignmentNameRoundTrip | src/experiments.ts:296-305 | parsing a member's name gives back that member |
| Enums.EdgeNameIsUpper | src/experiments.ts:109-111 | every declared name is already upper case |
| Enums.EdgeNameRoundTrip | src/experiments.ts:307-316 | parsing a member's name gives back that member |
| Enums.RandomNameIsUpper | src/experiments.ts:116-118 | every declared name is already upper case |
| Enums.RandomNameRoundTrip | src/experiments.ts:318-331 | parsing a member's name gives back that member, SHORT_LONG included |
| Enums.ReaOnResponseFailNameIsUpper | src/experiments.ts:225-230 | every declared name is already upper case |
| Enums.ReaOnResponseFailNameRoundTrip | src/experiments.ts:333-342 | parsing a member's name gives back that member |
| Enums.ExperimentTypeFromRawExamples | src/experiments.ts:266-283 | "erp" parses to ERP, and "bogus" falls back to NONE |
| Enums.EdgeFromRawExample | src/experiments.ts:307-316 | an undeclared edge name ("rising") falls back to LEADING |
| OutputTypes.LedOutputConfiguration | src/experiments.ts:388-398 | the LED-only configuration defines all four flags and no asset; only the LED is on |
| OutputTypes.Decoded | src/experiments.ts:344-364 | decoding a number defines all four flags and sets no asset field |
| OutputTypes.Encoded | src/experiments.ts:366-386 | the code fits in four bits; the LED, audio and image bits are set exactly when their flag is defined and true; the matrix bit is set exactly when the image flag is defined and the matrix flag is true |
| OutputTypes.OutputTypeFromRaw | src/experiments.ts:344-364 | the flags the method builds step by step are the descriptor `Decoded` of the number |
| OutputTypes.OutputTypeToRaw | src/experiments.ts:366-386 | the number the method builds with its or-assignments is `Encoded` of the descriptor |
| OutputTypes.DecodedDefinesAllFlags | src/experiments.ts:344-364 | decoding defines all four flags, each flag is true exactly when its mask bit is set, and it sets no asset field |
| OutputTypes.DecodedIgnoresHighBits | src/experiments.ts:344-364 | only the low four bits of the number matter to decoding |
| OutputTypes.EncodeDecode | src/experiments.ts:344-386 | encoding the descriptor decoded from a number gives back the number's low four bits |
| OutputTypes.DefinedFlagIsOn | src/experiments.ts:366-386 | a defined flag is exactly the "defined and true" test that the encoder applies |
| OutputTypes.DecodeEncode | src/experiments.ts:344-386 | a descriptor with all four flags defined decodes back from its code to its own flags |
| OutputTypes.MatrixNeedsDefinedImage | src/experiments.ts:381-383 | with the image flag undefined, the matrix bit is never set, so a matrix flag is lost in the round trip |
| OutputTypes.LedOutputConfigurationCode | src/experiments.ts:388-398 | the LED-only configuration has code 1, and code 1 decodes to it |
| OutputTypes.EncodedExample | src/experiments.ts:366-386 | LED and image on, audio and matrix off, gives code 5 |
| MatrixLeds.Truncated | src/experiments.ts:638-642 | masking to eight bits per channel gives a colour in byte range and changes nothing on a colour already in range |
| MatrixLeds.NumberToMatrixLed | src/experiments.ts:624-630 | every channel unpacked from a number lies in [0, 255] |
| MatrixLeds.MatrixLedToNumber | src/experiments.ts:638-642 | the packed number is below 2^24, and unpacking it gives the colour with each channel cut to eight bits |
| MatrixLeds.UnpackPack | src/experiments.ts:618-642 | a colour in byte range survives packing then unpacking |
| MatrixLeds.PackUnpack | src/experiments.ts:618-642 | unpacking then packing a number keeps its low 24 bits and drops the rest |
| MatrixLeds.PackTruncatesExample | src/experiments.ts:638-642 | out-of-range channels 0x1FF, 0x100 and 0x12 pack to 0xFF0012 |
| Experiments.CreateEmptyExperiment | src/experiments.ts:400-413 | the base default has no id, empty name and description, the given creation time, type NONE, no sequence support, no outputs, one output slot, no tags, an empty user-group map and the LED-only configuration, whose code is the LED bit |
| Experiments.CreateEmptyOutput | src/experiments.ts:415-430 | the base output carries the experiment's id (undefined stays undefined) and the index as its order; it has id 1, the LED-only configuration, brightness 100, zero placement and size, no manual alignment and centred alignment |
| Experiments.DefaultExperiment | src/experiments.ts:400-547 | the default of each type has that type in its field and its shape; its base is the base default with that type; sequences are supported exactly for ERP; it has no outputs, one output slot and the LED-only configuration |
| Experiments.CreateEmptyExperimentErp | src/experiments.ts:432-448 | the method's step-by-step updates of the base default give the ERP default |
| Experiments.CreateEmptyExperimentCvep | src/experiments.ts:463-476 | the method gives the CVEP default |
| Experiments.CreateEmptyExperimentFvep | src/experiments.ts:486-494 | the method gives the FVEP default |
| Experiments.CreateEmptyExperimentTvep | src/experiments.ts:509-518 | the method gives the TVEP default |
| Experiments.CreateEmptyExperimentRea | src/experiments.ts:533-547 | the method gives the REA default |
| Experiments.CreateEmptyExperimentByType | src/experiments.ts:562-577 | the dispatch gives the default of the requested type, and the base default for NONE |
| Experiments.DefaultExperimentFields | src/experiments.ts:400-547 | the field values of each kind's default: ERP out 1000, wait 1000, FALLING, OFF, max distribution 100, sequence size 10, no sequence; CVEP out/wait 1000, pattern 0, bit shift 0, brightness 100; TVEP shares the pattern length; REA 1 cycle at 1000 ms, CONTINUE, brightness 100; the base has no id, empty texts, no tags and an empty user-group map |
| Experiments.DefaultExperimentUsesLedOnly | src/experiments.ts:388-413 | every default experiment's used outputs encode to the LED bit alone |
| Experiments.CreateEmptyOutputErp | src/experiments.ts:450-461 | an ERP output: the base output plus pulses up and down of 1000, distribution 0 and an empty dependency list with an undefined second slot |
| Experiments.CreateEmptyOutputCvep | src/experiments.ts:478-484 | a CVEP output: exactly the base output |
| Experiments.CreateEmptyOutputFvep | src/experiments.ts:496-507 | an FVEP output: the base output plus on and off times of 1000, frequency 2000 and duty cycle 2 |
| Experiments.CreateEmptyOutputTvep | src/experiments.ts:520-531 | a TVEP output: the base output plus out and wait of 1000, pattern length 1 and pattern 0 |
| Experiments.CreateEmptyOutputRea | src/experiments.ts:549-555 | a REA output: exactly the base output |
| Experiments.CreateEmptyOutputByType | src/experiments.ts:601-616 | the output's kind follows the experiment's `type` field, and its shared part is always the base output default |
| Experiments.DefaultOutputFields | src/experiments.ts:415-430 | the default output carries the experiment's id (undefined stays undefined) and the index; it has id 1, brightness 100, zero placement, no manual alignment, centred alignment and the LED-only channel, whose code is 1 and which round-trips |
| Experiments.DefaultOutputKindFields | src/experiments.ts:450-531 | ERP outputs get pulses of 1000, distribution 0 and no dependencies; FVEP outputs get 1000/1000 ms at 2000 with duty cycle 2; TVEP outputs get out/wait 1000, pattern length 1, pattern 0 |
| Experiments.ErpOutputExample | src/experiments.ts:450-461 | output 3 of an ERP experiment with id 7 belongs to experiment 7, has order 3 and the ERP defaults |
| Experiments.SupportedTypes | src/experiments.ts:582-585 | the filter keeps exactly the given types other than NONE, and never lengthens the list |
| Experiments.SupportedTypesCounts | src/experiments.ts:582-585 | the filter drops every NONE and keeps every other type exactly as often as it occurs |
| Experiments.SupportedTypesAppend | src/experiments.ts:582-585 | the filter keeps the input's order: filtering a concatenation gives the concatenation of the filtered parts |
| Experiments.SupportedTypesInDeclarationOrder | src/experiments.ts:582-585 | filtering the declaration leaves ERP, CVEP, FVEP, TVEP, REA in that order |
| Experiments.NumberedDefaultFields | src/experiments.ts:586-592 | the i-th numbered default has the i-th supported type, id i and the name ERP-0, CVEP-1, FVEP-2, TVEP-3 or REA-4 |
| Experiments.AllTypesDistinct | src/experiments.ts:582-585 | no supported type is listed twice |
| Experiments.NumberedDefaults | src/experiments.ts:586-592 | the map yields one experiment per type; each is that type's default, made at its own clock reading, with its position as id and "{type}-{position}" as name |
| Experiments.CreateAllTypesExperiments | src/experiments.ts:582-593 | five experiments, the i-th being the numbered default of the i-th supported type made at the i-th clock reading, with id i, its name and that reading, all of distinct types |
| Experiments.OutputToAudioAssetInfo | src/experiments.ts:247-251 | the audio asset's name is the output's audio file name, undefined included |
| Experiments.OutputToImageAssetInfo | src/experiments.ts:253-264 | the image asset's name is the output's image file name; its placement, size and alignment are the output's |
| Experiments.DefaultOutputAssets | src/experiments.ts:247-264 | a default output references no audio or image file and sits at the origin, centred, with no size |
| Experiments.AssetInfoIgnoresKind | src/experiments.ts:247-264 | both projections read only the fields every output kind shares |
| LegacyIndex.ExperimentTypeOrdinal | src/index.ts:28-30 | the number of a member is its position in the older declaration NONE, ERP, CVEP, TVEP, FVEP, REA |
| LegacyIndex.CreateEmptyExperiment | src/index.ts:104-112 | no id, empty name and description, the given creation time, type NONE (number 0) and no output switch defined |
| LegacyIndex.ExperimentTypeFromRaw | src/index.ts:85-102 | a result other than NONE is the member named by the upper-cased input; NONE comes back only when the input names no other member |
| LegacyIndex.ExperimentTypeFromRawMatches | src/index.ts:85-102 | the older parser yields a member other than NONE exactly when the upper-cased input is its name, and NONE exactly when the input names no other member |
| LegacyIndex.ExperimentTypeFromRawIgnoresCase | src/index.ts:85-102 | the older parser gives the same member for an input and for its upper-cased form |
| LegacyIndex.ExperimentTypeNameIsUpper | src/index.ts:28-30 | every declared name of the older enum is already upper case |
| LegacyIndex.ExperimentTypeNameRoundTrip | src/index.ts:85-102 | parsing a member's name gives back that member (for NONE through the fallback) |
| LegacyIndex.ExperimentTypeFromRawExamples | src/index.ts:85-102 | "tvep" parses to TVEP, and the empty string gives NONE |
| LegacyIndex.ToCurrent | src/index.ts:28-30 | each older member corresponds to the newer member with the same name |
| LegacyIndex.ParsersAgree | src/index.ts:85-102 | on every input, the older and the newer parser pick members with the same name |
| LegacyIndex.OrdinalsDifferOnlyForTvepAndFvep | src/index.ts:28-30 | the two declarations number every member alike except TVEP and FVEP; the older TVEP number means FVEP in the newer enum, and the other way round; an older number read through the newer enum names the same type exactly when the type is neither TVEP nor FVEP |
| LegacyIndex.EmptyExperimentsAgree | src/index.ts:104-112 | the older and the newer base default agree on id, name, description, creation time and type |

## Left out

- Text.UpperChar, Text.ToUpper: model `toUpperCase` on the ASCII letters only and leave every other character unchanged. JavaScript also maps some non-ASCII letters onto ASCII ones: 'ı' (U+0131) to "I", 'ſ' (U+017F) to "S", 'ß' to "SS" and ligatures such as 'ﬀ' to "FF". The last two make the string longer, so the model's `|u| == |s|` does not hold in JavaScript. The source's parsers therefore accept inputs the model's do not: `edgeFromRaw("fallıng")` returns FALLING, `randomFromRaw("ſhort")` SHORT, `horizontalAlignmentFromRaw("rıght")` RIGHT and `reaOnResponseFailFromRaw("waıt")` WAIT. The model returns the fallbacks LEADING, OFF, CENTER and CONTINUE for them. Any other JavaScript case mapping into ASCII would change the parsers in the same way. Full Unicode case mapping is not part of this model.
- JavaScript numbers as doubles: the model has no NaN and no fractions. The bit operations see the 32-bit two's-complement image of a number (`bv32`). Ids, indices and times are unbounded integers.
- The reverse-mapping keys that `Object.keys` returns for a numeric enum ("0" to "5"): the `isNaN` filter of `createAllTypesExperiments` drops them. The model starts from the member list in declaration order, which is what the filter leaves once they are gone.
- The untyped second slot of the ERP dependency pair (`[OutputDependency[], any]`): modelled as an opaque value that is either undefined or something else.
- The clock read by the factories (`new Date().getTime()`): each factory takes the reading as its `created` parameter. `createAllTypesExperiments` reads the clock once per experiment, so it takes one reading per element (`created[i]`). Nothing is assumed about how the readings relate to each other.
- The in-place updates inside the factories (`experiment.type = ...` on a fresh local object): modelled as successive record updates in a method. Nothing else can see that object, so no aliasing is lost.
- Experiments.CreateEmptyExperimentByType, Experiments.CreateEmptyOutputByType: TypeScript lets any number into a numeric enum, so a record read from elsewhere may carry a `type` outside 0-5. Such a value reaches the `default:` branch (src/experiments.ts:574-575, 613-614) and gets the base experiment or the base output. The model's `ExperimentType` has only the six declared members, so it cannot express such a value. Of the `default:` branch, it covers only NONE.
- Ordinals of the enums other than `ExperimentType`: no function of the core uses them.
- The interfaces of `src/index.ts` other than `Experiment` (`ExperimentERP`, `ErpOutput`, `OutputDependency`, the response message types): they are declarations only, with no behaviour.
- src/acl.ts, src/users.ts, src/player.ts and the socket-message specialisation file are not part of this model.
- TypeScript casts (`as number`, `as string`) and `@ts-ignore`: they have no run-time effect, so an undefined id or file name is carried through as `None`.
