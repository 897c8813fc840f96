/**
 * The older experiment helpers of src/index.ts: its own ExperimentType enum,
 * declared in a different order from the one in src/experiments.ts (TVEP before
 * FVEP), the lenient parser experimentTypeFromRaw and the factory
 * createEmptyExperiment for the older, flat experiment record.
 */
module LegacyIndex {
  import opened Wrappers
  import opened Text
  import Enums
  import Experiments

  datatype ExperimentType = NONE | ERP | CVEP | TVEP | FVEP | REA

  function ExperimentTypeName(t: ExperimentType): string {
    match t
    case NONE => "NONE"
    case ERP => "ERP"
    case CVEP => "CVEP"
    case TVEP => "TVEP"
    case FVEP => "FVEP"
    case REA => "REA"
  }

  /** The members in declaration order: NONE = 0, ERP = 1, CVEP = 2, TVEP = 3, FVEP = 4, REA = 5. */
  const ExperimentTypes: seq<ExperimentType> := [NONE, ERP, CVEP, TVEP, FVEP, REA]

  /** The numeric value TypeScript gives a member: its position in the declaration. */
  function ExperimentTypeOrdinal(t: ExperimentType): (n: nat)
    ensures n < |ExperimentTypes| && ExperimentTypes[n] == t
  {
    match t
    case NONE => 0
    case ERP => 1
    case CVEP => 2
    case TVEP => 3
    case FVEP => 4
    case REA => 5
  }

  /** The output switches of the flat record; every one may be left undefined. */
  datatype OutputSwitches = OutputSwitches(led: Option<bool>, image: Option<bool>, sound: Option<bool>)

  /** The flat experiment record of src/index.ts (`type` is spelled `experimentType`). */
  datatype Experiment = Experiment(
    id: Option<int>,
    name: string,
    description: string,
    experimentType: ExperimentType,
    created: int,
    output: OutputSwitches)

  /**
   * experimentTypeFromRaw: upper-case the input and compare it with ERP, CVEP,
   * TVEP, FVEP and REA in that order; anything else, NONE included, gives NONE.
   */
  function ExperimentTypeFromRaw(raw: string): (r: ExperimentType)
    ensures r != NONE ==> ToUpper(raw) == ExperimentTypeName(r)
    ensures r == NONE ==> forall m :: m != NONE ==> ToUpper(raw) != ExperimentTypeName(m)
  {
    var upper := ToUpper(raw);
    if upper == ExperimentTypeName(ERP) then ERP
    else if upper == ExperimentTypeName(CVEP) then CVEP
    else if upper == ExperimentTypeName(TVEP) then TVEP
    else if upper == ExperimentTypeName(FVEP) then FVEP
    else if upper == ExperimentTypeName(REA) then REA
    else NONE
  }

  /**
   * createEmptyExperiment: no id, empty name and description, type NONE and no
   * output switch set. The clock reading `new Date().getTime()` is the parameter.
   */
  function CreateEmptyExperiment(created: int): (e: Experiment)
    ensures e.id.None? && e.name == "" && e.description == ""
    ensures e.created == created
    ensures e.experimentType == NONE && ExperimentTypeOrdinal(e.experimentType) == 0
    ensures e.output.led.None? && e.output.image.None? && e.output.sound.None?
  {
    Experiment(None, "", "", NONE, created, OutputSwitches(None, None, None))
  }

  // ------------------------------------------------------------ the parser

  /**
   * experimentTypeFromRaw yields `t` exactly when the upper-cased input is the
   * name of `t` and `t` is not NONE, or when `t` is NONE and the input names no
   * other member.
   */
  lemma ExperimentTypeFromRawMatches(raw: string, t: ExperimentType)
    ensures ExperimentTypeFromRaw(raw) == t <==>
      (t != NONE && ToUpper(raw) == ExperimentTypeName(t)) ||
      (t == NONE && forall m :: m != NONE ==> ToUpper(raw) != ExperimentTypeName(m))
  {
  }

  lemma ExperimentTypeFromRawIgnoresCase(raw: string)
    ensures ExperimentTypeFromRaw(ToUpper(raw)) == ExperimentTypeFromRaw(raw)
  {
    ToUpperIdempotent(raw);
  }

  lemma ExperimentTypeNameIsUpper(t: ExperimentType)
    ensures ToUpper(ExperimentTypeName(t)) == ExperimentTypeName(t)
  {
    match t
    case NONE => ToUpperFixesUpper("NONE");
    case ERP => ToUpperFixesUpper("ERP");
    case CVEP => ToUpperFixesUpper("CVEP");
    case TVEP => ToUpperFixesUpper("TVEP");
    case FVEP => ToUpperFixesUpper("FVEP");
    case REA => ToUpperFixesUpper("REA");
  }

  /** Every member's name parses back to that member; for NONE this is the fallback. */
  lemma ExperimentTypeNameRoundTrip(t: ExperimentType)
    ensures ExperimentTypeFromRaw(ExperimentTypeName(t)) == t
  {
    ExperimentTypeNameIsUpper(t);
  }

  lemma ExperimentTypeFromRawExamples()
    ensures ExperimentTypeFromRaw("tvep") == TVEP
    ensures ExperimentTypeFromRaw("") == NONE
  {
    ToUpperCharwise("tvep", "TVEP");
  }

  // ------------------------------------- against src/experiments.ts

  /** The member of the newer enum with the same name. */
  function ToCurrent(t: ExperimentType): (c: Enums.ExperimentType)
    ensures Enums.ExperimentTypeName(c) == ExperimentTypeName(t)
  {
    match t
    case NONE => Enums.NONE
    case ERP => Enums.ERP
    case CVEP => Enums.CVEP
    case TVEP => Enums.TVEP
    case FVEP => Enums.FVEP
    case REA => Enums.REA
  }

  /** The two parsers accept the same names and pick the member of the same name. */
  lemma ParsersAgree(raw: string)
    ensures ToCurrent(ExperimentTypeFromRaw(raw)) == Enums.ExperimentTypeFromRaw(raw)
  {
  }

  /**
   * The two enums give the same number to every member except TVEP and FVEP,
   * whose numbers are swapped, so a stored number means a different type
   * depending on which declaration reads it.
   */
  lemma OrdinalsDifferOnlyForTvepAndFvep(t: ExperimentType)
    ensures ExperimentTypeOrdinal(t) == Enums.ExperimentTypeOrdinal(ToCurrent(t)) <==>
      t != TVEP && t != FVEP
    ensures t == TVEP ==> Enums.ExperimentTypes[ExperimentTypeOrdinal(t)] == Enums.FVEP
    ensures t == FVEP ==> Enums.ExperimentTypes[ExperimentTypeOrdinal(t)] == Enums.TVEP
    ensures Enums.ExperimentTypes[ExperimentTypeOrdinal(t)] == ToCurrent(t) <==> t != TVEP && t != FVEP
  {
    var current := Enums.ExperimentTypes[ExperimentTypeOrdinal(t)];
    Enums.ExperimentTypeOrdinalInjective(current, ToCurrent(t));
  }

  /** Both createEmptyExperiment functions agree on the fields they share. */
  lemma EmptyExperimentsAgree(created: int)
    ensures var legacy := CreateEmptyExperiment(created);
      var current := Experiments.CreateEmptyExperiment(created);
      legacy.id == current.id && legacy.name == current.name &&
      legacy.description == current.description && legacy.created == current.created &&
      ToCurrent(legacy.experimentType) == current.experimentType
  {
  }
}
