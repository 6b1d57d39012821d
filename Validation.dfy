/** The client-side checks run before a prediction: validateField decides
    whether one control's value is acceptable, and validateForm runs it on
    every required input and select of the form. Showing and clearing the
    error text under a control is represented by the outcome itself. */
module Validation {
  import opened JsText
  import opened JsNumbers

  /** The element a form control is made of; only inputs and selects take
      part in validateForm. */
  datatype Tag = Input | Select | TextArea

  /** A form control: its element, its `type` property ("number", "text",
      "select-one", ...), whether it carries the `required` attribute and
      its current value. */
  datatype Control = Control(tag: Tag, inputType: string, required: bool, value: string)

  /** What validateField decides: the control is accepted (its error is
      cleared), or one of the two errors is shown under it. */
  datatype FieldCheck = Accepted | Required | InvalidNumber

  /** The error text shown under a rejected control. */
  function Message(check: FieldCheck): string
    requires check != Accepted
  {
    match check
    case Required => "This field is required"
    case InvalidNumber => "Please enter a valid positive number"
  }

  /** validateField: a value that is blank once trimmed is missing; a
      number control whose trimmed value parses to NaN or to a negative
      number is invalid; anything else is accepted. A control is reported
      missing exactly when its value is white space only, whatever its
      type, and only a number control can be an invalid number, so any
      other control is accepted exactly when it is not blank. */
  function ValidateField(c: Control): (r: FieldCheck)
    ensures r == Required <==> AllWhiteSpace(c.value)
    ensures r == InvalidNumber ==> c.inputType == "number"
    ensures c.inputType != "number" ==> (r == Accepted <==> !AllWhiteSpace(c.value))
  {
    TrimEmptyIffBlank(c.value);
    var value := Trim(c.value);
    if value == [] then Required
    else if c.inputType == "number" && (ParseFloat(value).NaN? || LessThan(ParseFloat(value), 0.0)) then InvalidNumber
    else Accepted
  }

  /** A decimal numeral has nothing to trim on either side. */
  lemma NumeralTrimmed(n: int)
    ensures Trim(DecimalString(n)) == DecimalString(n)
  {
  }

  /** A number control holding the numeral of an integer is accepted
      exactly when the integer is not negative, and otherwise gets the
      invalid-number error. */
  lemma NumeralAcceptedIffNonNegative(c: Control, n: int)
    requires c.inputType == "number" && c.value == DecimalString(n)
    ensures ValidateField(c) == Accepted <==> n >= 0
    ensures ValidateField(c) == InvalidNumber <==> n < 0
  {
    NumeralTrimmed(n);
    ParseFloatDecimal(n);
    assert DecimalString(n) != [];
  }

  /** `input[required], select[required]`: the controls validateForm
      visits, in document order. */
  predicate IsChecked(c: Control) {
    c.required && (c.tag == Input || c.tag == Select)
  }

  function CheckedControls(controls: seq<Control>): seq<Control> {
    if controls == [] then []
    else
      var init := CheckedControls(controls[..|controls| - 1]);
      var last := controls[|controls| - 1];
      if IsChecked(last) then init + [last] else init
  }

  /** The controls visited are exactly the required inputs and selects. */
  lemma {:induction false} CheckedControlsMembers(controls: seq<Control>)
    ensures forall c :: c in CheckedControls(controls) <==> c in controls && IsChecked(c)
  {
    if controls != [] {
      var init := controls[..|controls| - 1];
      CheckedControlsMembers(init);
      assert controls == init + [controls[|controls| - 1]];
    }
  }

  /** The outcome of validateField for each control, in order. */
  function Outcomes(cs: seq<Control>): seq<FieldCheck> {
    if cs == [] then [] else Outcomes(cs[..|cs| - 1]) + [ValidateField(cs[|cs| - 1])]
  }

  predicate AllAccepted(outcomes: seq<FieldCheck>) {
    forall k :: 0 <= k < |outcomes| ==> outcomes[k] == Accepted
  }

  lemma AllAcceptedAppend(outcomes: seq<FieldCheck>, last: FieldCheck)
    ensures AllAccepted(outcomes + [last]) <==> AllAccepted(outcomes) && last == Accepted
  {
    if AllAccepted(outcomes + [last]) {
      assert forall k :: 0 <= k < |outcomes| ==> outcomes[k] == (outcomes + [last])[k];
      assert (outcomes + [last])[|outcomes|] == last;
    }
  }

  /** One outcome per control, each the one validateField gives it. */
  lemma {:induction false} OutcomesPointwise(cs: seq<Control>)
    ensures |Outcomes(cs)| == |cs|
    ensures forall k :: 0 <= k < |cs| ==> Outcomes(cs)[k] == ValidateField(cs[k])
  {
    if cs != [] {
      OutcomesPointwise(cs[..|cs| - 1]);
    }
  }

  /** validateForm: every checked control is validated, one after the
      other and without stopping at the first error, so each one shows
      its own outcome; the form is valid exactly when all are accepted. */
  method ValidateForm(controls: seq<Control>) returns (isValid: bool, outcomes: seq<FieldCheck>)
    ensures outcomes == Outcomes(CheckedControls(controls))
    ensures isValid <==> AllAccepted(outcomes)
  {
    var inputs := CheckedControls(controls);
    isValid := true;
    outcomes := [];
    for i := 0 to |inputs|
      invariant |outcomes| == i
      invariant outcomes == Outcomes(inputs[..i])
      invariant isValid <==> AllAccepted(outcomes)
    {
      var outcome := ValidateField(inputs[i]);
      assert inputs[..i + 1][..i] == inputs[..i];
      assert Outcomes(inputs[..i + 1]) == outcomes + [outcome];
      AllAcceptedAppend(outcomes, outcome);
      outcomes := outcomes + [outcome];
      if outcome != Accepted {
        isValid := false;
      }
    }
    assert inputs[..|inputs|] == inputs;
  }

  /** The form is valid exactly when every required input and select is
      accepted by validateField. */
  lemma ValidIffEveryCheckedAccepted(controls: seq<Control>)
    ensures AllAccepted(Outcomes(CheckedControls(controls)))
        <==> forall c :: c in controls && IsChecked(c) ==> ValidateField(c) == Accepted
  {
    var inputs := CheckedControls(controls);
    CheckedControlsMembers(controls);
    OutcomesPointwise(inputs);
    if !AllAccepted(Outcomes(inputs)) {
      var k :| 0 <= k < |inputs| && Outcomes(inputs)[k] != Accepted;
      assert inputs[k] in controls && IsChecked(inputs[k]);
    }
  }
}
