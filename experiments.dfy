/**
 * Experiments and their outputs (src/experiments.ts): one record shape shared by
 * all kinds, extended per kind (ERP, CVEP, FVEP, TVEP, REA); the factories that
 * build default instances; the dispatchers on the experiment type; the list of
 * one default experiment per supported type; and the asset projections of an output.
 *
 * The clock read of `createEmptyExperiment` is the parameter `created`.
 */
module Experiments {
  import opened Wrappers
  import opened Text
  import opened Enums
  import opened OutputTypes

  // ------------------------------------------------------------- records

  datatype UserGroupInfo = UserGroupInfo(id: int, name: Option<string>)

  /** A sequencing constraint: `destOutput` must occur `count` times before `sourceOutput` may. */
  datatype ErpOutputDependency = ErpOutputDependency(
    id: int, experimentId: int, sourceOutput: int, destOutput: int, count: int)

  /** The untyped second slot of `dependencies: [T[], any]`; only whether it is set is modelled. */
  datatype Untyped = Undefined | Opaque

  datatype Dependencies = Dependencies(list: seq<ErpOutputDependency>, extra: Untyped)

  /** The fields every output has (Output, OutputLedDefinition, OutputImageDefinition). */
  datatype OutputBase = OutputBase(
    id: int,
    experimentId: Option<int>,
    orderId: int,
    outputType: OutputType,
    brightness: int,
    x: int,
    y: int,
    width: int,
    height: int,
    manualAlignment: bool,
    horizontalAlignment: HorizontalAlignment,
    verticalAlignment: VerticalAlignment)

  /** The fields one kind of output adds to the shared ones (ErpOutput, CvepOutput, ...). */
  datatype OutputVariant =
    | PlainOutput
    | ErpOutput(pulseUp: int, pulseDown: int, distribution: int, dependencies: Dependencies)
    | CvepOutput
    | FvepOutput(timeOn: int, timeOff: int, frequency: int, dutyCycle: int)
    | TvepOutput(patternLength: int, pattern: int, out: int, wait: int)
    | ReaOutput

  /** An output: the shared fields and those of its kind. */
  datatype Output = Output(base: OutputBase, variant: OutputVariant)

  /** The fields every experiment has (Experiment<O>); `experimentType` is the source's `type`. */
  datatype ExperimentBase = ExperimentBase(
    id: Option<int>,
    name: string,
    description: string,
    experimentType: ExperimentType,
    created: int,
    usedOutputs: OutputType,
    outputCount: int,
    tags: seq<string>,
    supportSequences: bool,
    outputs: seq<Output>,
    userGroups: Option<map<int, UserGroupInfo>>)

  /**
   * The fields one kind of experiment adds to the shared ones (ExperimentERP with
   * ExperimentSupportSequences, ExperimentCVEP, ...); the bare Experiment<O> adds none.
   */
  datatype ExperimentVariant =
    | PlainExperiment
    | ErpExperiment(out: int, wait: int, edge: Edge, random: Random, maxDistribution: int,
                    defaultSequenceSize: int,
                    // the factory sets `sequenceId: null`; `None` stands for that null
                    sequenceId: Option<int>)
    | CvepExperiment(out: int, wait: int, pattern: int, bitShift: int, brightness: int)
    | FvepExperiment
    | TvepExperiment(sharePatternLength: bool)
    | ReaExperiment(cycleCount: int, waitTimeMin: int, waitTimeMax: int, missTime: int,
                    onFail: ReaOnResponseFail, brightness: int)

  /** An experiment: the shared fields and those of its kind. */
  datatype Experiment = Experiment(base: ExperimentBase, variant: ExperimentVariant)

  /** The experiment type a kind of record stands for; the bare record stands for NONE. */
  function VariantType(v: ExperimentVariant): ExperimentType {
    match v
    case PlainExperiment => NONE
    case ErpExperiment(_, _, _, _, _, _, _) => ERP
    case CvepExperiment(_, _, _, _, _) => CVEP
    case FvepExperiment => FVEP
    case TvepExperiment(_) => TVEP
    case ReaExperiment(_, _, _, _, _, _) => REA
  }

  function OutputVariantType(v: OutputVariant): ExperimentType {
    match v
    case PlainOutput => NONE
    case ErpOutput(_, _, _, _) => ERP
    case CvepOutput => CVEP
    case FvepOutput(_, _, _, _) => FVEP
    case TvepOutput(_, _, _, _) => TVEP
    case ReaOutput => REA
  }

  // ---------------------------------------------------- base factories

  /** createEmptyExperiment: an unnamed experiment of type NONE with one LED output slot. */
  function CreateEmptyExperiment(created: int): (e: ExperimentBase)
    ensures e.id == None && e.name == "" && e.description == "" && e.created == created
    ensures e.experimentType == NONE && !e.supportSequences
    ensures e.outputs == [] && e.outputCount == 1 && e.tags == [] && e.userGroups == Some(map[])
    ensures e.usedOutputs == LedOutputConfiguration() && Encoded(e.usedOutputs) == LedBit
  {
    LedOutputConfigurationCode();
    ExperimentBase(
      id := None, name := "", description := "", experimentType := NONE, created := created,
      usedOutputs := LedOutputConfiguration(), outputCount := 1, tags := [],
      supportSequences := false, outputs := [], userGroups := Some(map[]))
  }

  /**
   * createEmptyOutput: output number `index` of `experiment`. The experiment's id is
   * copied as it is; `as number` is only a type cast, so an undefined id stays undefined.
   */
  function CreateEmptyOutput(experiment: Experiment, index: int): (o: OutputBase)
    ensures o.experimentId == experiment.base.id && o.orderId == index && o.id == 1
    ensures o.outputType == LedOutputConfiguration() && o.brightness == 100
    ensures o.x == 0 && o.y == 0 && o.width == 0 && o.height == 0 && !o.manualAlignment
    ensures o.horizontalAlignment == HorizontalAlignment.CENTER
    ensures o.verticalAlignment == VerticalAlignment.CENTER
  {
    OutputBase(
      id := 1, experimentId := experiment.base.id, orderId := index,
      outputType := LedOutputConfiguration(), brightness := 100,
      x := 0, y := 0, width := 0, height := 0, manualAlignment := false,
      horizontalAlignment := HorizontalAlignment.CENTER,
      verticalAlignment := VerticalAlignment.CENTER)
  }

  // ------------------------------------------ default experiments

  /**
   * The default experiment of each type: the base default with the type set (and
   * sequences supported for ERP), extended by the kind's own default fields.
   */
  function DefaultExperiment(t: ExperimentType, created: int): (e: Experiment)
    ensures e.base.experimentType == t && VariantType(e.variant) == t
    ensures e.base == CreateEmptyExperiment(created).(experimentType := t, supportSequences := t == ERP)
    ensures e.base.supportSequences <==> t == ERP
    ensures e.base.outputs == [] && e.base.outputCount == 1
    ensures e.base.usedOutputs == LedOutputConfiguration()
  {
    var base := CreateEmptyExperiment(created).(experimentType := t, supportSequences := t == ERP);
    match t
    case NONE => Experiment(base, PlainExperiment)
    case ERP => Experiment(base, ErpExperiment(out := 1000, wait := 1000, edge := FALLING, random := OFF,
                              maxDistribution := 100, defaultSequenceSize := 10, sequenceId := None))
    case CVEP => Experiment(base, CvepExperiment(out := 1000, wait := 1000, pattern := 0,
                                                 bitShift := 0, brightness := 100))
    case FVEP => Experiment(base, FvepExperiment)
    case TVEP => Experiment(base, TvepExperiment(sharePatternLength := true))
    case REA => Experiment(base, ReaExperiment(cycleCount := 1, waitTimeMin := 1000,
                                               waitTimeMax := 1000, missTime := 1000,
                                               onFail := CONTINUE, brightness := 100))
  }

  // The per-type factories take the base default, change its type (and for ERP its
  // sequence support) and copy it into the kind's record with the kind's defaults.

  method CreateEmptyExperimentErp(created: int) returns (e: Experiment)
    ensures e == DefaultExperiment(ERP, created)
  {
    var experiment := CreateEmptyExperiment(created);
    experiment := experiment.(experimentType := ERP);
    experiment := experiment.(supportSequences := true);
    e := Experiment(experiment.(outputs := []),
                    ErpExperiment(maxDistribution := 100, out := 1000, wait := 1000,
                                  edge := FALLING, random := OFF, sequenceId := None,
                                  defaultSequenceSize := 10));
  }

  method CreateEmptyExperimentCvep(created: int) returns (e: Experiment)
    ensures e == DefaultExperiment(CVEP, created)
  {
    var experiment := CreateEmptyExperiment(created);
    experiment := experiment.(experimentType := CVEP);
    e := Experiment(experiment.(outputs := []),
                    CvepExperiment(out := 1000, wait := 1000, pattern := 0, bitShift := 0,
                                   brightness := 100));
  }

  method CreateEmptyExperimentFvep(created: int) returns (e: Experiment)
    ensures e == DefaultExperiment(FVEP, created)
  {
    var experiment := CreateEmptyExperiment(created);
    experiment := experiment.(experimentType := FVEP);
    e := Experiment(experiment.(outputs := []), FvepExperiment);
  }

  method CreateEmptyExperimentTvep(created: int) returns (e: Experiment)
    ensures e == DefaultExperiment(TVEP, created)
  {
    var experiment := CreateEmptyExperiment(created);
    experiment := experiment.(experimentType := TVEP);
    e := Experiment(experiment.(outputs := []), TvepExperiment(sharePatternLength := true));
  }

  method CreateEmptyExperimentRea(created: int) returns (e: Experiment)
    ensures e == DefaultExperiment(REA, created)
  {
    var experiment := CreateEmptyExperiment(created);
    experiment := experiment.(experimentType := REA);
    e := Experiment(experiment.(outputs := []),
                    ReaExperiment(cycleCount := 1, waitTimeMin := 1000, waitTimeMax := 1000,
                                  missTime := 1000, onFail := CONTINUE, brightness := 100));
  }

  /** createEmptyExperimentByType: the default experiment of the given type; NONE gives the base default. */
  method CreateEmptyExperimentByType(t: ExperimentType, created: int) returns (e: Experiment)
    ensures e == DefaultExperiment(t, created)
  {
    match t {
      case ERP => e := CreateEmptyExperimentErp(created);
      case CVEP => e := CreateEmptyExperimentCvep(created);
      case TVEP => e := CreateEmptyExperimentTvep(created);
      case FVEP => e := CreateEmptyExperimentFvep(created);
      case REA => e := CreateEmptyExperimentRea(created);
      case NONE => e := Experiment(CreateEmptyExperiment(created), PlainExperiment);
    }
  }

  /** The defaults of every kind, field by field. */
  lemma DefaultExperimentFields(created: int)
    ensures var e := DefaultExperiment(ERP, created).variant;
      e.out == 1000 && e.wait == 1000 && e.edge == FALLING && e.random == OFF &&
      e.maxDistribution == 100 && e.defaultSequenceSize == 10 && e.sequenceId == None
    ensures var e := DefaultExperiment(CVEP, created).variant;
      e.out == 1000 && e.wait == 1000 && e.pattern == 0 && e.bitShift == 0 && e.brightness == 100
    ensures DefaultExperiment(TVEP, created).variant.sharePatternLength
    ensures var e := DefaultExperiment(REA, created).variant;
      e.cycleCount == 1 && e.waitTimeMin == 1000 && e.waitTimeMax == 1000 &&
      e.missTime == 1000 && e.onFail == CONTINUE && e.brightness == 100
    ensures var b := DefaultExperiment(NONE, created).base;
      b.id == None && b.name == "" && b.description == "" && b.created == created &&
      b.tags == [] && b.userGroups == Some(map[])
  {
  }

  /** Every default experiment records exactly the LED channel as used. */
  lemma DefaultExperimentUsesLedOnly(t: ExperimentType, created: int)
    ensures Encoded(DefaultExperiment(t, created).base.usedOutputs) == LedBit
  {
    LedOutputConfigurationCode();
  }

  // ---------------------------------------------------- default outputs

  function CreateEmptyOutputErp(experiment: Experiment, index: int): (o: Output)
    ensures o.base == CreateEmptyOutput(experiment, index) && OutputVariantType(o.variant) == ERP
    ensures o.variant.pulseUp == 1000 && o.variant.pulseDown == 1000 && o.variant.distribution == 0
    ensures o.variant.dependencies == Dependencies([], Undefined)
  {
    Output(CreateEmptyOutput(experiment, index),
           ErpOutput(distribution := 0, pulseDown := 1000, pulseUp := 1000,
                     dependencies := Dependencies([], Undefined)))
  }

  function CreateEmptyOutputCvep(experiment: Experiment, index: int): (o: Output)
    ensures o.base == CreateEmptyOutput(experiment, index) && OutputVariantType(o.variant) == CVEP
  {
    Output(CreateEmptyOutput(experiment, index), CvepOutput)
  }

  function CreateEmptyOutputFvep(experiment: Experiment, index: int): (o: Output)
    ensures o.base == CreateEmptyOutput(experiment, index) && OutputVariantType(o.variant) == FVEP
    ensures o.variant.timeOn == 1000 && o.variant.timeOff == 1000
    ensures o.variant.frequency == 2000 && o.variant.dutyCycle == 2
  {
    Output(CreateEmptyOutput(experiment, index),
           FvepOutput(timeOn := 1000, timeOff := 1000, frequency := 2000, dutyCycle := 2))
  }

  function CreateEmptyOutputTvep(experiment: Experiment, index: int): (o: Output)
    ensures o.base == CreateEmptyOutput(experiment, index) && OutputVariantType(o.variant) == TVEP
    ensures o.variant.out == 1000 && o.variant.wait == 1000
    ensures o.variant.patternLength == 1 && o.variant.pattern == 0
  {
    Output(CreateEmptyOutput(experiment, index),
           TvepOutput(out := 1000, wait := 1000, patternLength := 1, pattern := 0))
  }

  function CreateEmptyOutputRea(experiment: Experiment, index: int): (o: Output)
    ensures o.base == CreateEmptyOutput(experiment, index) && OutputVariantType(o.variant) == REA
  {
    Output(CreateEmptyOutput(experiment, index), ReaOutput)
  }

  /**
   * createEmptyOutputByType: dispatches on the experiment's `type` field (not on its
   * shape), and every kind's output extends the same base default.
   */
  function CreateEmptyOutputByType(experiment: Experiment, index: int): (o: Output)
    ensures OutputVariantType(o.variant) == experiment.base.experimentType
    ensures o.base == CreateEmptyOutput(experiment, index)
  {
    match experiment.base.experimentType
    case ERP => CreateEmptyOutputErp(experiment, index)
    case CVEP => CreateEmptyOutputCvep(experiment, index)
    case TVEP => CreateEmptyOutputTvep(experiment, index)
    case FVEP => CreateEmptyOutputFvep(experiment, index)
    case REA => CreateEmptyOutputRea(experiment, index)
    case NONE => Output(CreateEmptyOutput(experiment, index), PlainOutput)
  }

  /** The shared output defaults: bound to the experiment and index, LED only, full brightness, centred. */
  lemma DefaultOutputFields(experiment: Experiment, index: int)
    ensures var b := CreateEmptyOutputByType(experiment, index).base;
      b.experimentId == experiment.base.id && b.orderId == index && b.id == 1 &&
      b.brightness == 100 && b.x == 0 && b.y == 0 && b.width == 0 && b.height == 0 &&
      !b.manualAlignment && b.horizontalAlignment == HorizontalAlignment.CENTER &&
      b.verticalAlignment == VerticalAlignment.CENTER &&
      Encoded(b.outputType) == LedBit && Decoded(Encoded(b.outputType)) == b.outputType
  {
    LedOutputConfigurationCode();
  }

  /** The kind-specific output defaults. */
  lemma DefaultOutputKindFields(experiment: Experiment, index: int)
    ensures var o := CreateEmptyOutputByType(experiment, index).variant;
      experiment.base.experimentType == ERP ==>
        o.pulseUp == 1000 && o.pulseDown == 1000 && o.distribution == 0 &&
        o.dependencies == Dependencies([], Undefined)
    ensures var o := CreateEmptyOutputByType(experiment, index).variant;
      experiment.base.experimentType == FVEP ==>
        o.timeOn == 1000 && o.timeOff == 1000 && o.frequency == 2000 && o.dutyCycle == 2
    ensures var o := CreateEmptyOutputByType(experiment, index).variant;
      experiment.base.experimentType == TVEP ==>
        o.out == 1000 && o.wait == 1000 && o.patternLength == 1 && o.pattern == 0
  {
  }

  /** Output 3 of an ERP experiment whose id is 7. */
  lemma ErpOutputExample(experiment: Experiment)
    requires experiment.base.experimentType == ERP && experiment.base.id == Some(7)
    ensures var o := CreateEmptyOutputByType(experiment, 3);
      o.variant.ErpOutput? && o.base.experimentId == Some(7) && o.base.orderId == 3 &&
      o.variant.pulseUp == 1000 && o.variant.pulseDown == 1000 && o.variant.distribution == 0 &&
      o.variant.dependencies == Dependencies([], Undefined)
  {
  }

  // ------------------------------------------------ all types at once

  /** The members of ExperimentType other than NONE, in the order given. */
  function SupportedTypes(types: seq<ExperimentType>): (r: seq<ExperimentType>)
    ensures forall t :: t in r <==> t in types && t != NONE
    ensures |r| <= |types|
  {
    if types == [] then []
    else (if types[0] != NONE then [types[0]] else []) + SupportedTypes(types[1..])
  }

  /** The filter removes every NONE and keeps every other type as often as it occurs. */
  lemma {:induction false} SupportedTypesCounts(types: seq<ExperimentType>)
    ensures multiset(SupportedTypes(types)) == multiset(types)[NONE := 0]
  {
    if types != [] {
      assert types == [types[0]] + types[1..];
      SupportedTypesCounts(types[1..]);
    }
  }

  /** The filter keeps the order of its input: filtering a concatenation concatenates the filtered parts. */
  lemma {:induction false} SupportedTypesAppend(a: seq<ExperimentType>, b: seq<ExperimentType>)
    ensures SupportedTypes(a + b) == SupportedTypes(a) + SupportedTypes(b)
  {
    if a == [] {
      assert a + b == b;
    } else {
      assert (a + b)[1..] == a[1..] + b;
      SupportedTypesAppend(a[1..], b);
    }
  }

  const AllTypes: seq<ExperimentType> := [ERP, CVEP, FVEP, TVEP, REA]

  /** The supported types follow the declaration order of ExperimentType. */
  lemma SupportedTypesInDeclarationOrder()
    ensures SupportedTypes(ExperimentTypes) == AllTypes
  {
  }

  /** What the `map` callback does to the default experiment at position `index`. */
  function Numbered(e: Experiment, index: nat): Experiment {
    e.(base := e.base.(id := Some(index),
                       name := ExperimentTypeName(e.base.experimentType) + "-" + DecimalString(index)))
  }

  const AllTypesNames: seq<string> := ["ERP-0", "CVEP-1", "FVEP-2", "TVEP-3", "REA-4"]

  /** The i-th numbered default has the i-th supported type, id i and the name "{type}-{i}". */
  lemma NumberedDefaultFields(created: int, i: nat)
    requires i < |AllTypes|
    ensures var b := Numbered(DefaultExperiment(AllTypes[i], created), i).base;
      b.experimentType == AllTypes[i] && b.id == Some(i) && b.name == AllTypesNames[i]
  {
    assert DecimalString(i) == [DigitChar(i)];
  }

  /** No supported type is listed twice. */
  lemma AllTypesDistinct(i: nat, j: nat)
    requires i < j < |AllTypes|
    ensures AllTypes[i] != AllTypes[j]
  {
  }

  /**
   * The `map` step of createAllTypesExperiments: the default experiment of each
   * type in turn, given the position as its id and "{type}-{position}" as its name.
   * Every callback reads the clock afresh; `created[k]` is the reading of call k.
   */
  method NumberedDefaults(types: seq<ExperimentType>, created: seq<int>) returns (experiments: seq<Experiment>)
    requires |created| == |types|
    ensures |experiments| == |types|
    ensures forall k :: 0 <= k < |types| ==>
      experiments[k] == Numbered(DefaultExperiment(types[k], created[k]), k)
  {
    experiments := [];
    var index := 0;
    while index < |types|
      invariant 0 <= index <= |types|
      invariant |experiments| == index
      invariant forall k :: 0 <= k < index ==>
        experiments[k] == Numbered(DefaultExperiment(types[k], created[k]), k)
    {
      var t := types[index];
      var experiment := CreateEmptyExperimentByType(t, created[index]);
      experiment := experiment.(base := experiment.base.(id := Some(index)));
      experiment := experiment.(base := experiment.base.(
        name := ExperimentTypeName(t) + "-" + DecimalString(index)));
      experiments := experiments + [experiment];
      index := index + 1;
    }
  }

  /**
   * createAllTypesExperiments: one default experiment per supported type, in
   * declaration order, numbered from 0 and named "{type}-{index}". `created[i]` is
   * the clock reading taken when experiment i is made.
   */
  method CreateAllTypesExperiments(created: seq<int>) returns (experiments: seq<Experiment>)
    requires |created| == |AllTypes|
    ensures |experiments| == |AllTypes|
    ensures forall i :: 0 <= i < |experiments| ==>
      experiments[i] == Numbered(DefaultExperiment(AllTypes[i], created[i]), i)
    ensures forall i :: 0 <= i < |experiments| ==>
      experiments[i].base.experimentType == AllTypes[i] &&
      experiments[i].base.id == Some(i) && experiments[i].base.name == AllTypesNames[i] &&
      experiments[i].base.created == created[i]
    ensures forall i, j :: 0 <= i < j < |experiments| ==>
      experiments[i].base.experimentType != experiments[j].base.experimentType
  {
    var types := SupportedTypes(ExperimentTypes);
    SupportedTypesInDeclarationOrder();
    experiments := NumberedDefaults(types, created);
    forall i | 0 <= i < |experiments|
      ensures experiments[i].base.experimentType == AllTypes[i]
      ensures experiments[i].base.id == Some(i) && experiments[i].base.name == AllTypesNames[i]
    {
      NumberedDefaultFields(created[i], i);
    }
    forall i, j | 0 <= i < j < |experiments|
      ensures experiments[i].base.experimentType != experiments[j].base.experimentType
    {
      AllTypesDistinct(i, j);
    }
  }

  // -------------------------------------------------- asset projections

  datatype AudioAssetInfo = AudioAssetInfo(name: Option<string>)

  datatype ImageAssetInfo = ImageAssetInfo(
    name: Option<string>, x: int, y: int, width: int, height: int, manualAlignment: bool,
    horizontalAlignment: HorizontalAlignment, verticalAlignment: VerticalAlignment)

  /** outputToAudioAssetInfo: the audio file name, carried through even when undefined. */
  function OutputToAudioAssetInfo(output: Output): (a: AudioAssetInfo)
    ensures a.name == output.base.outputType.audioFile
  {
    AudioAssetInfo(output.base.outputType.audioFile)
  }

  /** outputToImageAssetInfo: the image file name with the output's placement. */
  function OutputToImageAssetInfo(output: Output): (i: ImageAssetInfo)
    ensures i.name == output.base.outputType.imageFile
    ensures i.x == output.base.x && i.y == output.base.y
    ensures i.width == output.base.width && i.height == output.base.height
    ensures i.manualAlignment == output.base.manualAlignment
    ensures i.horizontalAlignment == output.base.horizontalAlignment
    ensures i.verticalAlignment == output.base.verticalAlignment
  {
    var b := output.base;
    ImageAssetInfo(b.outputType.imageFile, b.x, b.y, b.width, b.height, b.manualAlignment,
                   b.horizontalAlignment, b.verticalAlignment)
  }

  /** A default output references no asset file and sits at the origin, centred, with no size. */
  lemma DefaultOutputAssets(experiment: Experiment, index: int)
    ensures OutputToAudioAssetInfo(CreateEmptyOutputByType(experiment, index)) == AudioAssetInfo(None)
    ensures OutputToImageAssetInfo(CreateEmptyOutputByType(experiment, index)) ==
      ImageAssetInfo(None, 0, 0, 0, 0, false, HorizontalAlignment.CENTER, VerticalAlignment.CENTER)
  {
  }

  /** The projections read only the shared output fields, whatever the kind. */
  lemma AssetInfoIgnoresKind(output: Output)
    ensures OutputToAudioAssetInfo(output) == OutputToAudioAssetInfo(Output(output.base, PlainOutput))
    ensures OutputToImageAssetInfo(output) == OutputToImageAssetInfo(Output(output.base, PlainOutput))
  {
  }
}
