/**
 * The line-creation form: a draft of the new line (`formInput`), one error string
 * per field group (`errorMessage`), the change handlers that update them one field
 * at a time, the section check that runs after the selected stations change, and
 * the submit guard that either aborts or requests the new line and closes the form.
 *
 * Handlers update the two records in place, so they are methods of `LineAddForm`;
 * the decisions they take (name validity, section error, colour in use, submit)
 * are functions, and the methods are proved against them.
 */
module LineAddModal {

  /** A JavaScript number as the form sees it: `valueAsNumber` of an empty number input, or `Number` of a non-numeric string, is NaN. */
  datatype JsNumber = Finite(value: real) | NaN

  /** JavaScript truthiness of a number: 0 and NaN are falsy. */
  predicate IsTruthyNumber(n: JsNumber) {
    n.Finite? && n.value != 0.0
  }

  datatype FormInput = FormInput(name: string, upStationId: string, downStationId: string, distance: JsNumber, color: string)

  datatype ErrorMessage = ErrorMessage(name: string, section: string, distance: string)

  /** Which end of the section a station select box sets (the `type` given to `onChangeStations`). */
  datatype StationField = UpStationId | DownStationId

  /** A loaded line; the form only reads its colour. */
  datatype Line = Line(id: int, name: string, color: string)

  /** The body of the `addLine` request: the draft with both station ids converted to numbers. */
  datatype AddLineRequestData = AddLineRequestData(name: string, upStationId: JsNumber, downStationId: JsNumber, distance: JsNumber, color: string)

  /** What a submit does, in order: dispatch `addLine` with the API's base URL and the request data, then call `onClose`. */
  datatype Effect = DispatchAddLine(baseUrl: string, requestData: AddLineRequestData) | Close

  /** `SECTION.MIN_DISTANCE`. */
  const MIN_DISTANCE: real := 1.0

  /** The `ERROR_MESSAGE` entries the form uses; only their being non-empty and distinct matters. */
  const NONE_OF_SELECTED_SECTION: string := "NONE_OF_SELECTED_SECTION"
  const DUPLICATED_SECTION: string := "DUPLICATED_SECTION"
  const INVALID_LINE_NAME: string := "INVALID_LINE_NAME"

  const InitialFormInput: FormInput := FormInput("", "", "", Finite(MIN_DISTANCE), "")
  const InitialErrorMessage: ErrorMessage := ErrorMessage("", "", "")

  // ---------------------------------------------------------------------------
  // Validation

  /** The length JavaScript reports for a string: UTF-16 code units, two for a character outside the Basic Multilingual Plane. */
  function Utf16Length(s: string): (n: nat)
    ensures |s| <= n <= 2 * |s|
    decreases |s|
  {
    if s == [] then 0 else (if s[0] as int >= 0x1_0000 then 2 else 1) + Utf16Length(s[1..])
  }

  /** On Korean syllables, digits and every other character of the Basic Multilingual Plane, the two lengths agree. */
  lemma {:induction false} Utf16LengthOfBmp(s: string)
    requires forall i :: 0 <= i < |s| ==> s[i] as int < 0x1_0000
    ensures Utf16Length(s) == |s|
    decreases |s|
  {
    if s != [] {
      Utf16LengthOfBmp(s[1..]);
    }
  }

  /** The name rule of `onChangeName`: a length of at least two (in UTF-16 units), and accepted by `isKoreanAndNumber`. */
  predicate IsValidName(value: string, isKoreanAndNumber: string -> bool) {
    Utf16Length(value) >= 2 && isKoreanAndNumber(value)
  }

  /** The name error `onChangeName` stores for `value`. */
  function NameError(value: string, isKoreanAndNumber: string -> bool): (message: string)
    ensures message == "" <==> IsValidName(value, isKoreanAndNumber)
    ensures message != "" ==> message == INVALID_LINE_NAME
  {
    if Utf16Length(value) >= 2 && isKoreanAndNumber(value) then "" else INVALID_LINE_NAME
  }

  /**
   * The section error for the selected stations. "Not selected" is checked first,
   * so two empty selections are never reported as a duplicate.
   */
  function SectionError(upStationId: string, downStationId: string): (message: string)
    ensures message == "" <==> upStationId != "" && downStationId != "" && upStationId != downStationId
    ensures message == NONE_OF_SELECTED_SECTION <==> upStationId == "" || downStationId == ""
    ensures message == DUPLICATED_SECTION <==> upStationId != "" && upStationId == downStationId
  {
    if upStationId == "" || downStationId == "" then NONE_OF_SELECTED_SECTION
    else if upStationId == downStationId then DUPLICATED_SECTION
    else ""
  }

  /**
   * The section error agrees with the selected stations, except before either
   * select box has been touched: the check runs only when the selection changes,
   * so the initial draft has no section error although nothing is selected.
   */
  predicate SectionErrorInSync(form: FormInput, errors: ErrorMessage) {
    || errors.section == SectionError(form.upStationId, form.downStationId)
    || (form.upStationId == "" && form.downStationId == "" && errors.section == "")
  }

  // ---------------------------------------------------------------------------
  // Colours in use

  /** The colours of the loaded lines, one per line, in order. */
  function UsedLineColors(lines: seq<Line>): (colors: seq<string>)
    ensures |colors| == |lines|
    ensures forall i :: 0 <= i < |lines| ==> colors[i] == lines[i].color
  {
    seq(|lines|, i requires 0 <= i < |lines| => lines[i].color)
  }

  /** A colour is in use, and its radio disabled, iff some loaded line already has it. */
  function IsUsedLineColor(lines: seq<Line>, color: string): (used: bool)
    ensures used <==> exists i :: 0 <= i < |lines| && lines[i].color == color
  {
    var colors := UsedLineColors(lines);
    assert forall i :: 0 <= i < |lines| ==> colors[i] == lines[i].color;
    color in colors
  }

  // ---------------------------------------------------------------------------
  // Number conversion of the selected station ids

  predicate IsDigit(c: char) {
    '0' <= c <= '9'
  }

  predicate AllDigits(s: string) {
    forall i :: 0 <= i < |s| ==> IsDigit(s[i])
  }

  /** The value of a string of decimal digits; the empty string is 0. */
  function DigitsValue(s: string): nat
    requires AllDigits(s)
    decreases |s|
  {
    if s == [] then 0 else DigitsValue(s[..|s| - 1]) * 10 + (s[|s| - 1] as int - '0' as int)
  }

  /** JavaScript's `Number(s)` on a select box value: a digit string gives its value ("" gives 0), anything else NaN. */
  function ToNumber(s: string): JsNumber {
    if AllDigits(s) then Finite(DigitsValue(s) as real) else NaN
  }

  function DigitChar(d: nat): (c: char)
    requires d < 10
    ensures IsDigit(c) && c as int - '0' as int == d
  {
    ('0' as int + d) as char
  }

  /** How a station's numeric id is written as an option value (JavaScript's decimal `String(id)`). */
  function DecimalString(n: nat): (s: string)
    ensures s != "" && AllDigits(s)
    decreases n
  {
    if n < 10 then [DigitChar(n)] else DecimalString(n / 10) + [DigitChar(n % 10)]
  }

  lemma {:induction false} DigitsValueOfDecimalString(n: nat)
    ensures DigitsValue(DecimalString(n)) == n
    decreases n
  {
    var s := DecimalString(n);
    if n >= 10 {
      DigitsValueOfDecimalString(n / 10);
      assert s[..|s| - 1] == DecimalString(n / 10);
    }
  }

  /** Converting a station id to an option value and back with `Number` gives the id. */
  lemma ToNumberOfDecimalString(n: nat)
    ensures ToNumber(DecimalString(n)) == Finite(n as real)
  {
    DigitsValueOfDecimalString(n);
  }

  // ---------------------------------------------------------------------------
  // Submit

  /** Some field's error string is non-empty. */
  predicate HasErrorMessage(errors: ErrorMessage) {
    errors.name != "" || errors.section != "" || errors.distance != ""
  }

  /** Some draft value is falsy in JavaScript: an empty string, or a distance of 0 or NaN. */
  predicate HasFalsyValue(form: FormInput) {
    form.name == "" || form.upStationId == "" || form.downStationId == "" || !IsTruthyNumber(form.distance) || form.color == ""
  }

  /**
   * `onAddLine`: nothing happens if any error is shown or any value is missing;
   * otherwise the draft is requested, with the station ids as numbers, and the form closes.
   */
  function OnAddLine(form: FormInput, errors: ErrorMessage, baseUrl: string): (effects: seq<Effect>)
    ensures effects == [] <==> HasErrorMessage(errors) || HasFalsyValue(form)
    ensures effects != [] ==> |effects| == 2 && effects[0].DispatchAddLine? && effects[1] == Close
    ensures effects != [] ==> effects[0].baseUrl == baseUrl
    ensures effects != [] ==>
      var data := effects[0].requestData;
      && data.name == form.name && data.distance == form.distance && data.color == form.color
      && data.upStationId == ToNumber(form.upStationId) && data.downStationId == ToNumber(form.downStationId)
  {
    if HasErrorMessage(errors) || HasFalsyValue(form) then []
    else
      var data := AddLineRequestData(form.name, ToNumber(form.upStationId), ToNumber(form.downStationId), form.distance, form.color);
      [DispatchAddLine(baseUrl, data), Close]
  }

  /** The untouched draft cannot be submitted. */
  lemma InitialFormIsNotSubmitted(baseUrl: string)
    ensures OnAddLine(InitialFormInput, InitialErrorMessage, baseUrl) == []
  {
  }

  /** While the section error is in sync, a submitted line has two selected, distinct stations. */
  lemma SubmittedSectionIsDistinct(form: FormInput, errors: ErrorMessage, baseUrl: string)
    requires SectionErrorInSync(form, errors)
    requires OnAddLine(form, errors, baseUrl) != []
    ensures form.upStationId != "" && form.downStationId != "" && form.upStationId != form.downStationId
  {
  }

  /**
   * When the select boxes hold station ids, the request carries exactly those ids
   * as numbers, and (the section error being in sync) the two differ.
   */
  lemma SubmittedStationIds(form: FormInput, errors: ErrorMessage, baseUrl: string, up: nat, down: nat)
    requires form.upStationId == DecimalString(up) && form.downStationId == DecimalString(down)
    requires SectionErrorInSync(form, errors)
    requires OnAddLine(form, errors, baseUrl) != []
    ensures OnAddLine(form, errors, baseUrl)[0].requestData.upStationId == Finite(up as real)
    ensures OnAddLine(form, errors, baseUrl)[0].requestData.downStationId == Finite(down as real)
    ensures up != down
  {
    ToNumberOfDecimalString(up);
    ToNumberOfDecimalString(down);
  }

  // ---------------------------------------------------------------------------
  // The form's state and handlers

  /** The draft with one station select box set. */
  function WithStation(form: FormInput, field: StationField, value: string): FormInput {
    match field
    case UpStationId => form.(upStationId := value)
    case DownStationId => form.(downStationId := value)
  }

  class LineAddForm {
    var formInput: FormInput
    var errorMessage: ErrorMessage

    constructor ()
      ensures formInput == InitialFormInput && errorMessage == InitialErrorMessage
      ensures SectionErrorInSync(formInput, errorMessage)
    {
      formInput := InitialFormInput;
      errorMessage := InitialErrorMessage;
    }

    /** The name is always stored; its error is cleared or set by the name rule. */
    method OnChangeName(value: string, isKoreanAndNumber: string -> bool)
      modifies this
      ensures formInput == old(formInput).(name := value)
      ensures errorMessage == old(errorMessage).(name := NameError(value, isKoreanAndNumber))
      ensures old(SectionErrorInSync(formInput, errorMessage)) ==> SectionErrorInSync(formInput, errorMessage)
    {
      if Utf16Length(value) >= 2 && isKoreanAndNumber(value) {
        errorMessage := errorMessage.(name := "");
      } else {
        errorMessage := errorMessage.(name := INVALID_LINE_NAME);
      }
      formInput := formInput.(name := value);
    }

    method OnChangeStations(field: StationField, value: string)
      modifies this
      ensures formInput == WithStation(old(formInput), field, value)
      ensures errorMessage == old(errorMessage)
    {
      match field
      case UpStationId => formInput := formInput.(upStationId := value);
      case DownStationId => formInput := formInput.(downStationId := value);
    }

    /** The section check run after a render in which a selected station changed; it sets only the section error. */
    method ValidateSection()
      modifies this
      ensures formInput == old(formInput)
      ensures errorMessage == old(errorMessage).(section := SectionError(formInput.upStationId, formInput.downStationId))
      ensures SectionErrorInSync(formInput, errorMessage)
    {
      if formInput.upStationId == "" || formInput.downStationId == "" {
        errorMessage := errorMessage.(section := NONE_OF_SELECTED_SECTION);
        return;
      }
      if formInput.upStationId == formInput.downStationId {
        errorMessage := errorMessage.(section := DUPLICATED_SECTION);
        return;
      }
      errorMessage := errorMessage.(section := "");
    }

    /** One selection in a station select box: the handler, then the section check if the selection changed. */
    method SelectStation(field: StationField, value: string)
      modifies this
      ensures formInput == WithStation(old(formInput), field, value)
      ensures errorMessage.name == old(errorMessage.name) && errorMessage.distance == old(errorMessage.distance)
      ensures errorMessage.section ==
        if formInput.upStationId != old(formInput.upStationId) || formInput.downStationId != old(formInput.downStationId)
        then SectionError(formInput.upStationId, formInput.downStationId)
        else old(errorMessage.section)
      ensures old(SectionErrorInSync(formInput, errorMessage)) ==> SectionErrorInSync(formInput, errorMessage)
    {
      var before := formInput;
      OnChangeStations(field, value);
      if formInput.upStationId != before.upStationId || formInput.downStationId != before.downStationId {
        ValidateSection();
      }
    }

    method OnChangeDistance(valueAsNumber: JsNumber)
      modifies this
      ensures formInput == old(formInput).(distance := valueAsNumber)
      ensures errorMessage == old(errorMessage)
    {
      formInput := formInput.(distance := valueAsNumber);
    }

    method OnChangeLineColor(value: string)
      modifies this
      ensures formInput == old(formInput).(color := value)
      ensures errorMessage == old(errorMessage)
    {
      formInput := formInput.(color := value);
    }
  }
}
