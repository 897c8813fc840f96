/**
 * The enumerations of src/experiments.ts, the reverse lookup from a member to
 * its declared name (`ExperimentType[ExperimentType.ERP] == "ERP"`), and the
 * six lenient parsers that upper-case their input, compare it with the member
 * names and fall back to a fixed member on anything else.
 */
module Enums {
  import opened Text

  datatype HorizontalAlignment = LEFT | CENTER | RIGHT
  datatype VerticalAlignment = BOTTOM | CENTER | TOP
  datatype ExperimentType = NONE | ERP | CVEP | FVEP | TVEP | REA
  datatype Edge = LEADING | FALLING
  datatype Random = OFF | SHORT | LONG | SHORT_LONG
  datatype ReaOnResponseFail = CONTINUE | WAIT

  // ---------------------------------------------------------------- names

  function HorizontalAlignmentName(a: HorizontalAlignment): string {
    match a
    case LEFT => "LEFT"
    case CENTER => "CENTER"
    case RIGHT => "RIGHT"
  }

  function VerticalAlignmentName(a: VerticalAlignment): string {
    match a
    case BOTTOM => "BOTTOM"
    case CENTER => "CENTER"
    case TOP => "TOP"
  }

  function ExperimentTypeName(t: ExperimentType): string {
    match t
    case NONE => "NONE"
    case ERP => "ERP"
    case CVEP => "CVEP"
    case FVEP => "FVEP"
    case TVEP => "TVEP"
    case REA => "REA"
  }

  function EdgeName(e: Edge): string {
    match e
    case LEADING => "LEADING"
    case FALLING => "FALLING"
  }

  function RandomName(r: Random): string {
    match r
    case OFF => "OFF"
    case SHORT => "SHORT"
    case LONG => "LONG"
    case SHORT_LONG => "SHORT_LONG"
  }

  function ReaOnResponseFailName(f: ReaOnResponseFail): string {
    match f
    case CONTINUE => "CONTINUE"
    case WAIT => "WAIT"
  }

  // ------------------------------------------------------------- ordinals

  /** The members of ExperimentType in declaration order: NONE = 0, ERP = 1, ..., REA = 5. */
  const ExperimentTypes: seq<ExperimentType> := [NONE, ERP, CVEP, FVEP, TVEP, REA]

  /** The numeric value TypeScript gives a member of ExperimentType: its position in the declaration. */
  function ExperimentTypeOrdinal(t: ExperimentType): (n: nat)
    ensures n < |ExperimentTypes| && ExperimentTypes[n] == t
  {
    match t
    case NONE => 0
    case ERP => 1
    case CVEP => 2
    case FVEP => 3
    case TVEP => 4
    case REA => 5
  }

  /** Distinct members have distinct ordinals. */
  lemma ExperimentTypeOrdinalInjective(s: ExperimentType, t: ExperimentType)
    ensures ExperimentTypeOrdinal(s) == ExperimentTypeOrdinal(t) <==> s == t
  {
  }

  // -------------------------------------------------------------- parsers

  function ExperimentTypeFromRaw(raw: string): (r: ExperimentType)
    ensures r != NONE ==> ToUpper(raw) == ExperimentTypeName(r)
    ensures r == NONE ==> forall m :: m != NONE ==> ToUpper(raw) != ExperimentTypeName(m)
  {
    var upper := ToUpper(raw);
    if upper == ExperimentTypeName(ERP) then ERP
    else if upper == ExperimentTypeName(CVEP) then CVEP
    else if upper == ExperimentTypeName(TVEP) then TVEP
    else if upper == ExperimentTypeName(FVEP) then FVEP
    else if upper == ExperimentTypeName(REA) then REA
    else NONE
  }

  function HorizontalAlignmentFromRaw(raw: string): (r: HorizontalAlignment)
    ensures r != HorizontalAlignment.CENTER ==> ToUpper(raw) == HorizontalAlignmentName(r)
    ensures r == HorizontalAlignment.CENTER ==> forall m :: m != HorizontalAlignment.CENTER ==> ToUpper(raw) != HorizontalAlignmentName(m)
  {
    var upper := ToUpper(raw);
    if upper == HorizontalAlignmentName(LEFT) then LEFT
    else if upper == HorizontalAlignmentName(RIGHT) then RIGHT
    else HorizontalAlignment.CENTER
  }

  function VerticalAlignmentFromRaw(raw: string): (r: VerticalAlignment)
    ensures r != VerticalAlignment.CENTER ==> ToUpper(raw) == VerticalAlignmentName(r)
    ensures r == VerticalAlignment.CENTER ==> forall m :: m != VerticalAlignment.CENTER ==> ToUpper(raw) != VerticalAlignmentName(m)
  {
    var upper := ToUpper(raw);
    if upper == VerticalAlignmentName(TOP) then TOP
    else if upper == VerticalAlignmentName(BOTTOM) then BOTTOM
    else VerticalAlignment.CENTER
  }

  function EdgeFromRaw(raw: string): (r: Edge)
    ensures r != LEADING ==> ToUpper(raw) == EdgeName(r)
    ensures r == LEADING ==> forall m :: m != LEADING ==> ToUpper(raw) != EdgeName(m)
  {
    var upper := ToUpper(raw);
    if upper == EdgeName(LEADING) then LEADING
    else if upper == EdgeName(FALLING) then FALLING
    else LEADING
  }

  function RandomFromRaw(raw: string): (r: Random)
    ensures r != OFF ==> ToUpper(raw) == RandomName(r)
    ensures r == OFF ==> forall m :: m != OFF ==> ToUpper(raw) != RandomName(m)
  {
    var upper := ToUpper(raw);
    if upper == RandomName(OFF) then OFF
    else if upper == RandomName(SHORT) then SHORT
    else if upper == RandomName(LONG) then LONG
    else if upper == RandomName(SHORT_LONG) then SHORT_LONG
    else OFF
  }

  function ReaOnResponseFailFromRaw(raw: string): (r: ReaOnResponseFail)
    ensures r != CONTINUE ==> ToUpper(raw) == ReaOnResponseFailName(r)
    ensures r == CONTINUE ==> forall m :: m != CONTINUE ==> ToUpper(raw) != ReaOnResponseFailName(m)
  {
    var upper := ToUpper(raw);
    if upper == ReaOnResponseFailName(CONTINUE) then CONTINUE
    else if upper == ReaOnResponseFailName(WAIT) then WAIT
    else CONTINUE
  }

  // ------------------------------------------ what each parser accepts

  /**
   * experimentTypeFromRaw yields `t` exactly when the upper-cased input is the
   * name of `t`, or when `t` is the fallback NONE and the input names no member.
   */
  lemma ExperimentTypeFromRawMatches(raw: string, t: ExperimentType)
    ensures ExperimentTypeFromRaw(raw) == t <==>
      ToUpper(raw) == ExperimentTypeName(t) ||
      (t == NONE && forall m :: ToUpper(raw) != ExperimentTypeName(m))
  {
  }

  lemma HorizontalAlignmentFromRawMatches(raw: string, a: HorizontalAlignment)
    ensures HorizontalAlignmentFromRaw(raw) == a <==>
      ToUpper(raw) == HorizontalAlignmentName(a) ||
      (a == HorizontalAlignment.CENTER && forall m :: ToUpper(raw) != HorizontalAlignmentName(m))
  {
  }

  lemma VerticalAlignmentFromRawMatches(raw: string, a: VerticalAlignment)
    ensures VerticalAlignmentFromRaw(raw) == a <==>
      ToUpper(raw) == VerticalAlignmentName(a) ||
      (a == VerticalAlignment.CENTER && forall m :: ToUpper(raw) != VerticalAlignmentName(m))
  {
  }

  lemma EdgeFromRawMatches(raw: string, e: Edge)
    ensures EdgeFromRaw(raw) == e <==>
      ToUpper(raw) == EdgeName(e) ||
      (e == LEADING && forall m :: ToUpper(raw) != EdgeName(m))
  {
  }

  lemma RandomFromRawMatches(raw: string, r: Random)
    ensures RandomFromRaw(raw) == r <==>
      ToUpper(raw) == RandomName(r) ||
      (r == OFF && forall m :: ToUpper(raw) != RandomName(m))
  {
  }

  lemma ReaOnResponseFailFromRawMatches(raw: string, f: ReaOnResponseFail)
    ensures ReaOnResponseFailFromRaw(raw) == f <==>
      ToUpper(raw) == ReaOnResponseFailName(f) ||
      (f == CONTINUE && forall m :: ToUpper(raw) != ReaOnResponseFailName(m))
  {
  }

  // ------------------------------------------------- case insensitivity

  lemma ExperimentTypeFromRawIgnoresCase(raw: string)
    ensures ExperimentTypeFromRaw(ToUpper(raw)) == ExperimentTypeFromRaw(raw)
  {
    ToUpperIdempotent(raw);
  }

  lemma HorizontalAlignmentFromRawIgnoresCase(raw: string)
    ensures HorizontalAlignmentFromRaw(ToUpper(raw)) == HorizontalAlignmentFromRaw(raw)
  {
    ToUpperIdempotent(raw);
  }

  lemma VerticalAlignmentFromRawIgnoresCase(raw: string)
    ensures VerticalAlignmentFromRaw(ToUpper(raw)) == VerticalAlignmentFromRaw(raw)
  {
    ToUpperIdempotent(raw);
  }

  lemma EdgeFromRawIgnoresCase(raw: string)
    ensures EdgeFromRaw(ToUpper(raw)) == EdgeFromRaw(raw)
  {
    ToUpperIdempotent(raw);
  }

  lemma RandomFromRawIgnoresCase(raw: string)
    ensures RandomFromRaw(ToUpper(raw)) == RandomFromRaw(raw)
  {
    ToUpperIdempotent(raw);
  }

  lemma ReaOnResponseFailFromRawIgnoresCase(raw: string)
    ensures ReaOnResponseFailFromRaw(ToUpper(raw)) == ReaOnResponseFailFromRaw(raw)
  {
    ToUpperIdempotent(raw);
  }

  // ------------------------------------------------ names round-trip

  // Every declared member name is already in upper case, so it parses back to its member.

  lemma ExperimentTypeNameIsUpper(t: ExperimentType)
    ensures ToUpper(ExperimentTypeName(t)) == ExperimentTypeName(t)
  {
    match t
    case NONE => ToUpperFixesUpper("NONE");
    case ERP => ToUpperFixesUpper("ERP");
    case CVEP => ToUpperFixesUpper("CVEP");
    case FVEP => ToUpperFixesUpper("FVEP");
    case TVEP => ToUpperFixesUpper("TVEP");
    case REA => ToUpperFixesUpper("REA");
  }

  lemma ExperimentTypeNameRoundTrip(t: ExperimentType)
    ensures ExperimentTypeFromRaw(ExperimentTypeName(t)) == t
  {
    ExperimentTypeNameIsUpper(t);
  }

  lemma HorizontalAlignmentNameIsUpper(a: HorizontalAlignment)
    ensures ToUpper(HorizontalAlignmentName(a)) == HorizontalAlignmentName(a)
  {
    match a
    case LEFT => ToUpperFixesUpper("LEFT");
    case CENTER => ToUpperFixesUpper("CENTER");
    case RIGHT => ToUpperFixesUpper("RIGHT");
  }

  lemma HorizontalAlignmentNameRoundTrip(a: HorizontalAlignment)
    ensures HorizontalAlignmentFromRaw(HorizontalAlignmentName(a)) == a
  {
    HorizontalAlignmentNameIsUpper(a);
  }

  lemma VerticalAlignmentNameIsUpper(a: VerticalAlignment)
    ensures ToUpper(VerticalAlignmentName(a)) == VerticalAlignmentName(a)
  {
    match a
    case BOTTOM => ToUpperFixesUpper("BOTTOM");
    case CENTER => ToUpperFixesUpper("CENTER");
    case TOP => ToUpperFixesUpper("TOP");
  }

  lemma VerticalAlignmentNameRoundTrip(a: VerticalAlignment)
    ensures VerticalAlignmentFromRaw(VerticalAlignmentName(a)) == a
  {
    VerticalAlignmentNameIsUpper(a);
  }

  lemma EdgeNameIsUpper(e: Edge)
    ensures ToUpper(EdgeName(e)) == EdgeName(e)
  {
    match e
    case LEADING => ToUpperFixesUpper("LEADING");
    case FALLING => ToUpperFixesUpper("FALLING");
  }

  lemma EdgeNameRoundTrip(e: Edge)
    ensures EdgeFromRaw(EdgeName(e)) == e
  {
    EdgeNameIsUpper(e);
  }

  lemma RandomNameIsUpper(r: Random)
    ensures ToUpper(RandomName(r)) == RandomName(r)
  {
    match r
    case OFF => ToUpperFixesUpper("OFF");
    case SHORT => ToUpperFixesUpper("SHORT");
    case LONG => ToUpperFixesUpper("LONG");
    case SHORT_LONG => ToUpperFixesUpper("SHORT_LONG");
  }

  lemma RandomNameRoundTrip(r: Random)
    ensures RandomFromRaw(RandomName(r)) == r
  {
    RandomNameIsUpper(r);
  }

  lemma ReaOnResponseFailNameIsUpper(f: ReaOnResponseFail)
    ensures ToUpper(ReaOnResponseFailName(f)) == ReaOnResponseFailName(f)
  {
    match f
    case CONTINUE => ToUpperFixesUpper("CONTINUE");
    case WAIT => ToUpperFixesUpper("WAIT");
  }

  lemma ReaOnResponseFailNameRoundTrip(f: ReaOnResponseFail)
    ensures ReaOnResponseFailFromRaw(ReaOnResponseFailName(f)) == f
  {
    ReaOnResponseFailNameIsUpper(f);
  }

  /** A lower-case name is accepted, an unknown one falls back. */
  lemma ExperimentTypeFromRawExamples()
    ensures ExperimentTypeFromRaw("erp") == ERP
    ensures ExperimentTypeFromRaw("bogus") == NONE
  {
    ToUpperCharwise("erp", "ERP");
    ToUpperCharwise("bogus", "BOGUS");
  }

  /** An edge name that is not declared falls back to LEADING. */
  lemma EdgeFromRawExample()
    ensures EdgeFromRaw("rising") == LEADING
  {
    ToUpperCharwise("rising", "RISING");
  }
}
