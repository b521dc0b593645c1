/** The property details form (src/components/PropertyDetailsForm.tsx): three text
    fields checked against inclusive ranges, a per-field error map, and the
    parsed property data handed on only when the map is empty. */
module PropertyForm {
  import opened Common
  import opened Types

  /** `Partial<PropertyData>`: what the form may be opened with. */
  datatype InitialData = InitialData(
    area: Option<real>,
    year: Option<int>,
    floor: Option<int>,
    hasElevator: Option<bool>,
    hasParking: Option<bool>,
    marketType: Option<MarketType>)

  const NoInitialData := InitialData(None, None, None, None, None, None)

  /** The keys of the error map: the names of the three checked fields. */
  datatype Field = AreaField | FloorField | YearField

  const AreaRequired := "Podaj metraż"
  const AreaOutOfRange := "Metraż musi być między 15-300 m²"
  const FloorRequired := "Podaj piętro"
  const FloorOutOfRange := "Piętro musi być między -2 a 50"
  const YearRequired := "Podaj rok budowy"
  const YearOutOfRange := "Rok musi być między 1900-2025"

  predicate AreaInRange(a: real) { 15.0 <= a <= 300.0 }
  predicate FloorInRange(f: int) { -2 <= f <= 50 }
  predicate YearInRange(y: int) { 1900 <= y <= 2025 }

  /** The error of the area field, if any. */
  function AreaError(text: string): (e: Option<string>)
  {
    var parsed := ParseFloat(text);
    if text == "" || parsed.None? then Some(AreaRequired)
    else if parsed.value < 15.0 || parsed.value > 300.0 then Some(AreaOutOfRange)
    else None
  }

  /** The error of the floor field, if any. */
  function FloorError(text: string): (e: Option<string>)
  {
    var parsed := ParseInt(text);
    if text == "" || parsed.None? then Some(FloorRequired)
    else if parsed.value < -2 || parsed.value > 50 then Some(FloorOutOfRange)
    else None
  }

  /** The error of the year field, if any. */
  function YearError(text: string): (e: Option<string>)
  {
    var parsed := ParseInt(text);
    if text == "" || parsed.None? then Some(YearRequired)
    else if parsed.value < 1900 || parsed.value > 2025 then Some(YearOutOfRange)
    else None
  }

  /** What each field's error means: missing or unparsable text asks for the
      value, a parsed value outside the inclusive range gets the range message,
      and an in-range value gets no error. */
  lemma FieldErrorsMeaning(text: string)
    ensures AreaError(text) == Some(AreaRequired) <==> ParseFloat(text).None?
    ensures AreaError(text) == Some(AreaOutOfRange) <==> ParseFloat(text).Some? && !AreaInRange(ParseFloat(text).value)
    ensures AreaError(text) == None <==> ParseFloat(text).Some? && AreaInRange(ParseFloat(text).value)
    ensures FloorError(text) == Some(FloorRequired) <==> ParseInt(text).None?
    ensures FloorError(text) == Some(FloorOutOfRange) <==> ParseInt(text).Some? && !FloorInRange(ParseInt(text).value)
    ensures FloorError(text) == None <==> ParseInt(text).Some? && FloorInRange(ParseInt(text).value)
    ensures YearError(text) == Some(YearRequired) <==> ParseInt(text).None?
    ensures YearError(text) == Some(YearOutOfRange) <==> ParseInt(text).Some? && !YearInRange(ParseInt(text).value)
    ensures YearError(text) == None <==> ParseInt(text).Some? && YearInRange(ParseInt(text).value)
  {
    AreaErrorMeaning(text);
    FloorErrorMeaning(text);
    YearErrorMeaning(text);
  }

  lemma AreaErrorMeaning(text: string)
    ensures AreaError(text) == Some(AreaRequired) <==> ParseFloat(text).None?
    ensures AreaError(text) == Some(AreaOutOfRange) <==> ParseFloat(text).Some? && !AreaInRange(ParseFloat(text).value)
    ensures AreaError(text) == None <==> ParseFloat(text).Some? && AreaInRange(ParseFloat(text).value)
  {
  }

  lemma FloorErrorMeaning(text: string)
    ensures FloorError(text) == Some(FloorRequired) <==> ParseInt(text).None?
    ensures FloorError(text) == Some(FloorOutOfRange) <==> ParseInt(text).Some? && !FloorInRange(ParseInt(text).value)
    ensures FloorError(text) == None <==> ParseInt(text).Some? && FloorInRange(ParseInt(text).value)
  {
  }

  lemma YearErrorMeaning(text: string)
    ensures YearError(text) == Some(YearRequired) <==> ParseInt(text).None?
    ensures YearError(text) == Some(YearOutOfRange) <==> ParseInt(text).Some? && !YearInRange(ParseInt(text).value)
    ensures YearError(text) == None <==> ParseInt(text).Some? && YearInRange(ParseInt(text).value)
  {
  }

  /** `errors[key] = e` when the field has an error. */
  function Put(errors: map<Field, string>, key: Field, e: Option<string>): map<Field, string> {
    if e.Some? then errors[key := e.value] else errors
  }

  /** The error map `validateForm` stores. */
  function FormErrors(area: string, floor: string, year: string): (errors: map<Field, string>)
    ensures errors.Keys <= {AreaField, FloorField, YearField}
    ensures (AreaField in errors <==> AreaError(area).Some?) && (AreaField in errors ==> errors[AreaField] == AreaError(area).value)
    ensures (FloorField in errors <==> FloorError(floor).Some?) && (FloorField in errors ==> errors[FloorField] == FloorError(floor).value)
    ensures (YearField in errors <==> YearError(year).Some?) && (YearField in errors ==> errors[YearField] == YearError(year).value)
  {
    Put(Put(Put(map[], AreaField, AreaError(area)), FloorField, FloorError(floor)), YearField, YearError(year))
  }

  /** The form is valid exactly when all three texts parse and fall in range. */
  lemma FormErrorsEmptyIff(area: string, floor: string, year: string)
    ensures FormErrors(area, floor, year) == map[] <==>
      ParseFloat(area).Some? && AreaInRange(ParseFloat(area).value)
      && ParseInt(floor).Some? && FloorInRange(ParseInt(floor).value)
      && ParseInt(year).Some? && YearInRange(ParseInt(year).value)
  {
    FieldErrorsMeaning(area);
    FieldErrorsMeaning(floor);
    FieldErrorsMeaning(year);
    var errors := FormErrors(area, floor, year);
    if errors == map[] {
      assert AreaField !in errors && FloorField !in errors && YearField !in errors;
    } else {
      var k :| k in errors;
      assert k == AreaField || k == FloorField || k == YearField;
    }
  }

  /** `value?.toString() || ''` for each text field. */
  function AreaText(area: Option<real>): string {
    if area.Some? then NumberText(area.value) else ""
  }

  function IntText(i: Option<int>): string {
    if i.Some? then ShowInt(i.value) else ""
  }

  /** The property data `handleSave` hands on from valid texts. */
  function ParsedData(area: string, floor: string, year: string, marketType: MarketType, hasElevator: bool, hasParking: bool): PropertyData
    requires FormErrors(area, floor, year) == map[]
  {
    FormErrorsEmptyIff(area, floor, year);
    PropertyData(ParseFloat(area).value, ParseInt(year).value, ParseInt(floor).value, hasElevator, hasParking, marketType)
  }

  class PropertyDetailsForm {
    var area: string
    var floor: string
    var year: string
    var marketType: MarketType
    var hasElevator: bool
    var hasParking: bool
    var errors: map<Field, string>

    /** The form's state when it opens: texts of the initial values, the market
        type defaulting to secondary, the flags to false, no errors. */
    constructor (initial: InitialData)
      ensures area == AreaText(initial.area) && floor == IntText(initial.floor) && year == IntText(initial.year)
      ensures marketType == initial.marketType.GetOr(Secondary)
      ensures hasElevator == initial.hasElevator.GetOr(false) && hasParking == initial.hasParking.GetOr(false)
      ensures errors == map[]
    {
      area := AreaText(initial.area);
      floor := IntText(initial.floor);
      year := IntText(initial.year);
      marketType := if initial.marketType.Some? then initial.marketType.value else Secondary;
      hasElevator := if initial.hasElevator.Some? then initial.hasElevator.value else false;
      hasParking := if initial.hasParking.Some? then initial.hasParking.value else false;
      errors := map[];
    }

    /** `validateForm`: fills a fresh error map field by field, stores it, and
        reports whether it is empty. */
    method ValidateForm() returns (valid: bool)
      modifies this`errors
      ensures errors == FormErrors(area, floor, year)
      ensures valid <==> errors == map[]
    {
      var newErrors: map<Field, string> := map[];
      var areaError := AreaError(area);
      if areaError.Some? {
        newErrors := newErrors[AreaField := areaError.value];
      }
      assert newErrors == Put(map[], AreaField, AreaError(area));
      var floorError := FloorError(floor);
      if floorError.Some? {
        newErrors := newErrors[FloorField := floorError.value];
      }
      assert newErrors == Put(Put(map[], AreaField, AreaError(area)), FloorField, FloorError(floor));
      var yearError := YearError(year);
      if yearError.Some? {
        newErrors := newErrors[YearField := yearError.value];
      }
      assert newErrors == Put(Put(Put(map[], AreaField, AreaError(area)), FloorField, FloorError(floor)), YearField, YearError(year));
      errors := newErrors;
      valid := |newErrors| == 0;
    }

    /** `handleSave`: validates, then hands on the parsed data (`Some`) or
        nothing (`None`). */
    method HandleSave() returns (saved: Option<PropertyData>)
      modifies this`errors
      ensures errors == FormErrors(area, floor, year)
      ensures saved.Some? <==> errors == map[]
      ensures saved.Some? ==> saved.value == ParsedData(area, floor, year, marketType, hasElevator, hasParking)
    {
      var valid := ValidateForm();
      if valid {
        saved := Some(ParsedData(area, floor, year, marketType, hasElevator, hasParking));
      } else {
        saved := None;
      }
    }
  }

  /** Data that passed the form is within the form's ranges. */
  lemma ParsedDataInRange(area: string, floor: string, year: string, marketType: MarketType, hasElevator: bool, hasParking: bool)
    requires FormErrors(area, floor, year) == map[]
    ensures var d := ParsedData(area, floor, year, marketType, hasElevator, hasParking);
      AreaInRange(d.area) && FloorInRange(d.floor) && YearInRange(d.year)
      && d.marketType == marketType && d.hasElevator == hasElevator && d.hasParking == hasParking
  {
    FormErrorsEmptyIff(area, floor, year);
  }

  /** Opening the form on complete, in-range data with a whole area and saving
      without edits hands the same data back. */
  lemma InitialDataRoundTrip(d: PropertyData, wholeArea: int)
    requires d.area == wholeArea as real
    requires AreaInRange(d.area) && FloorInRange(d.floor) && YearInRange(d.year)
    ensures var area, floor, year := AreaText(Some(d.area)), IntText(Some(d.floor)), IntText(Some(d.year));
      FormErrors(area, floor, year) == map[]
      && ParsedData(area, floor, year, d.marketType, d.hasElevator, d.hasParking) == d
  {
    NumberTextWhole(wholeArea);
    ParseFloatShowInt(wholeArea);
    ParseIntShowInt(d.floor);
    ParseIntShowInt(d.year);
    FormErrorsEmptyIff(AreaText(Some(d.area)), IntText(Some(d.floor)), IntText(Some(d.year)));
  }

  /** A form opened without data asks for every field. */
  lemma EmptyFormErrors()
    ensures FormErrors("", "", "") == map[AreaField := AreaRequired, FloorField := FloorRequired, YearField := YearRequired]
  {
    var errors := FormErrors("", "", "");
    assert errors.Keys == {AreaField, FloorField, YearField};
  }
}
