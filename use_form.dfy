/** The form controller (src/hooks/useForm.ts): per-field validation against
    a rule table, and four state cells, `values`, `errors`, `touched` and
    `isSubmitting`, updated by `setValue`, `setTouched`, `validateAll`,
    `handleSubmit` and `reset`.

    Field values, errors and touched flags are maps keyed by field name. A
    rule's `pattern` is any predicate on the value and its `custom` check any
    function from the value to an optional message. */
module UseForm {
  import opened Wrappers
  import opened Text
  import opened Types

  type Values = map<string, string>
  type Rules = map<string, ValidationRule>

  /** A length bound takes part only when it is truthy: present and not 0. */
  predicate IsActiveBound(bound: Option<int>) {
    bound.Some? && bound.value != 0
  }

  function RequiredMessage(field: string): string {
    field + " is required"
  }

  function MinLengthMessage(field: string, n: int): string {
    field + " must be at least " + IntToString(n) + " characters"
  }

  function MaxLengthMessage(field: string, n: int): string {
    field + " must be no more than " + IntToString(n) + " characters"
  }

  function FormatMessage(field: string): string {
    field + " format is invalid"
  }

  /** `values[field]`; a field that has no value reads as `undefined`, which
      every test below treats like the empty string. */
  function FieldValue(values: Values, field: string): string {
    if field in values then values[field] else ""
  }

  /** `validateField(field)`: no rule means no error; a blank value is
      either "required" or fine; otherwise minimum length, maximum length,
      pattern and custom check are tried in that order and the first that
      fails gives the result. */
  function ValidateField(rules: Rules, values: Values, field: string): (r: Option<string>)
    ensures field !in rules ==> r == None
    ensures field in rules && IsBlank(FieldValue(values, field)) ==>
              r == if rules[field].required then Some(RequiredMessage(field)) else None
  {
    if field !in rules then None
    else
      var rule := rules[field];
      var value := FieldValue(values, field);
      if rule.required && IsBlank(value) then Some(RequiredMessage(field))
      else if IsBlank(value) then None
      else if IsActiveBound(rule.minLength) && |value| < rule.minLength.value then
        Some(MinLengthMessage(field, rule.minLength.value))
      else if IsActiveBound(rule.maxLength) && |value| > rule.maxLength.value then
        Some(MaxLengthMessage(field, rule.maxLength.value))
      else if rule.pattern.Some? && !rule.pattern.value(value) then
        Some(FormatMessage(field))
      else if rule.custom.Some? then rule.custom.value(value)
      else None
  }

  /** `error || ''`: what is stored in `errors` for a validation result. */
  function ErrorText(error: Option<string>): string {
    if error.Some? then error.value else ""
  }

  /** The `errors` map `validateAll` builds: one entry per field that has a
      value, whether or not it has a rule. */
  function AllErrors(rules: Rules, values: Values): (errors: map<string, string>)
    ensures errors.Keys == values.Keys
  {
    map field | field in values :: ErrorText(ValidateField(rules, values, field))
  }

  /** `Object.values(errors).every(error => !error)`. */
  predicate NoErrors(errors: map<string, string>) {
    forall field :: field in errors ==> errors[field] == ""
  }

  /** Adding an entry keeps a map free of errors exactly when the entry is
      empty. */
  lemma NoErrorsAdd(errors: map<string, string>, field: string, error: string)
    requires field !in errors
    ensures NoErrors(errors[field := error]) <==> NoErrors(errors) && error == ""
  {
    if NoErrors(errors[field := error]) {
      forall f | f in errors
        ensures errors[f] == ""
      {
        assert errors[field := error][f] == errors[f];
      }
      assert errors[field := error][field] == error;
    }
  }

  /** The `touched` map `handleSubmit` builds: every field with a value. */
  function AllTouched(values: Values): (touched: map<string, bool>)
    ensures touched.Keys == values.Keys
    ensures forall field :: field in touched ==> touched[field]
  {
    map field | field in values :: true
  }

  class FormController {
    const initialValues: Values
    const rules: Rules
    const hasOnSubmit: bool
    var values: Values
    var errors: map<string, string>
    var touched: map<string, bool>
    var isSubmitting: bool
    /** The values `onSubmit` was called with, call by call. */
    var submissions: seq<Values>

    /** The state the hook starts from, and `reset` returns to. */
    predicate IsPristine()
      reads this
    {
      values == initialValues && errors == map[] && touched == map[] && !isSubmitting
    }

    /** `isValid`: no recorded error is truthy. */
    predicate IsValid()
      reads this`errors
      ensures errors == map[] ==> IsValid()
    {
      NoErrors(errors)
    }

    constructor (initialValues: Values, rules: Rules, hasOnSubmit: bool)
      ensures this.initialValues == initialValues && this.rules == rules
      ensures this.hasOnSubmit == hasOnSubmit
      ensures IsPristine() && submissions == []
      ensures IsValid()
    {
      this.initialValues := initialValues;
      this.rules := rules;
      this.hasOnSubmit := hasOnSubmit;
      values := initialValues;
      errors := map[];
      touched := map[];
      isSubmitting := false;
      submissions := [];
    }

    /** `setValue(field, value)`: stores the value and clears the field's
        error if it had one, without validating anything. */
    method SetValue(field: string, value: string)
      modifies this
      ensures values == old(values)[field := value]
      ensures errors ==
                if field in old(errors) && old(errors)[field] != "" then old(errors)[field := ""]
                else old(errors)
      ensures touched == old(touched) && isSubmitting == old(isSubmitting)
      ensures submissions == old(submissions)
      ensures old(IsValid()) ==> IsValid()
    {
      values := values[field := value];
      if field in errors && errors[field] != "" {
        errors := errors[field := ""];
      }
    }

    /** `setTouched(field)`: marks the field touched and records its
        validation result; no other field's error or flag changes. */
    method SetTouched(field: string)
      modifies this
      ensures touched == old(touched)[field := true]
      ensures errors == old(errors)[field := ErrorText(ValidateField(rules, values, field))]
      ensures values == old(values) && isSubmitting == old(isSubmitting)
      ensures submissions == old(submissions)
      ensures IsValid() <==>
                && ErrorText(ValidateField(rules, values, field)) == ""
                && forall f :: f in old(errors) && f != field ==> old(errors)[f] == ""
    {
      touched := touched[field := true];
      var error := ValidateField(rules, values, field);
      var before := errors;
      errors := errors[field := ErrorText(error)];
      assert field in errors && errors[field] == ErrorText(error);
      if IsValid() {
        forall f | f in before && f != field
          ensures before[f] == ""
        {
          assert errors[f] == before[f];
        }
      }
    }

    /** `validateAll()`: replaces `errors` by the result of validating every
        field that has a value, and reports whether none failed. */
    method ValidateAll() returns (isFormValid: bool)
      modifies this`errors
      ensures errors == AllErrors(rules, values)
      ensures isFormValid <==> NoErrors(errors)
      ensures isFormValid <==> IsValid()
    {
      var newErrors: map<string, string> := map[];
      isFormValid := true;
      var remaining := values.Keys;
      while remaining != {}
        invariant remaining <= values.Keys
        invariant newErrors.Keys == values.Keys - remaining
        invariant forall f :: f in newErrors ==> newErrors[f] == ErrorText(ValidateField(rules, values, f))
        invariant isFormValid <==> NoErrors(newErrors)
        decreases remaining
      {
        var field :| field in remaining;
        var error := ValidateField(rules, values, field);
        NoErrorsAdd(newErrors, field, ErrorText(error));
        newErrors := newErrors[field := ErrorText(error)];
        if ErrorText(error) != "" {
          isFormValid := false;
        }
        remaining := remaining - {field};
      }
      assert newErrors == AllErrors(rules, values);
      errors := newErrors;
    }

    /** The `reduce` in `handleSubmit`: a flag for every field with a value. */
    method MarkAllTouched()
      modifies this`touched
      ensures touched == AllTouched(values)
    {
      var allTouched: map<string, bool> := map[];
      var remaining := values.Keys;
      while remaining != {}
        invariant remaining <= values.Keys
        invariant allTouched.Keys == values.Keys - remaining
        invariant forall f :: f in allTouched ==> allTouched[f]
        decreases remaining
      {
        var field :| field in remaining;
        allTouched := allTouched[field := true];
        remaining := remaining - {field};
      }
      touched := allTouched;
    }

    /** `handleSubmit()`: without `onSubmit` it does nothing. Otherwise it
        marks every field touched and validates them all; only when none
        fails is `onSubmit` called, once, with the values, and
        `isSubmitting` is false again once it settles, even if it threw. */
    method HandleSubmit() returns (called: bool)
      modifies this`touched, this`errors, this`isSubmitting, this`submissions
      ensures !hasOnSubmit ==> !called && unchanged(this)
      ensures hasOnSubmit ==>
                touched == AllTouched(old(values)) && errors == AllErrors(rules, old(values))
      ensures values == old(values)
      ensures called <==> hasOnSubmit && NoErrors(AllErrors(rules, old(values)))
      ensures submissions == if called then old(submissions) + [old(values)] else old(submissions)
      ensures isSubmitting == if called then false else old(isSubmitting)
      ensures hasOnSubmit ==> (called <==> IsValid())
    {
      called := false;
      if !hasOnSubmit {
        return;
      }
      MarkAllTouched();
      var isFormValid := ValidateAll();
      if isFormValid {
        CallOnSubmit();
        called := true;
      }
    }

    /** The awaited `onSubmit(values)` between setting and clearing
        `isSubmitting`. The await is collapsed into one step: whether
        `onSubmit` resolves or throws (a throw is caught and only logged),
        the state afterwards is the same, so the model does not tell them
        apart. */
    method CallOnSubmit()
      modifies this`isSubmitting, this`submissions
      ensures submissions == old(submissions) + [values]
      ensures !isSubmitting
    {
      isSubmitting := true;
      submissions := submissions + [values];
      isSubmitting := false;
    }

    /** `reset()`: back to the initial values with nothing recorded. */
    method Reset()
      modifies this
      ensures IsPristine() && IsValid()
      ensures submissions == old(submissions)
    {
      values := initialValues;
      errors := map[];
      touched := map[];
      isSubmitting := false;
    }
  }

  /** A field without a rule never has an error, whatever its value. */
  lemma UnruledFieldIsValid(rules: Rules, values: Values, field: string, value: string)
    requires field !in rules
    ensures ValidateField(rules, values[field := value], field) == None
  {
  }

  /** A blank required field is reported as required, before any length,
      pattern or custom check; a blank optional field passes even when
      those checks are set. */
  lemma BlankValueShortCircuits(rules: Rules, values: Values, field: string)
    requires field in rules && IsBlank(FieldValue(values, field))
    ensures rules[field].required ==> ValidateField(rules, values, field) == Some(field + " is required")
    ensures !rules[field].required ==> ValidateField(rules, values, field) == None
  {
  }

  /** For a value that is not blank, the checks run in the order minimum
      length, maximum length, pattern, custom; the first that fails wins.
      Lengths are those of the untrimmed value. */
  lemma NonBlankCheckOrder(rules: Rules, values: Values, field: string)
    requires field in rules && !IsBlank(FieldValue(values, field))
    ensures var rule, value := rules[field], FieldValue(values, field);
            var minFails := IsActiveBound(rule.minLength) && |value| < rule.minLength.value;
            var maxFails := IsActiveBound(rule.maxLength) && |value| > rule.maxLength.value;
            var patternFails := rule.pattern.Some? && !rule.pattern.value(value);
            var r := ValidateField(rules, values, field);
            && (minFails ==> r == Some(MinLengthMessage(field, rule.minLength.value)))
            && (!minFails && maxFails ==> r == Some(MaxLengthMessage(field, rule.maxLength.value)))
            && (!minFails && !maxFails && patternFails ==> r == Some(FormatMessage(field)))
            && (!minFails && !maxFails && !patternFails && rule.custom.Some? ==>
                  r == rule.custom.value(value))
            && (!minFails && !maxFails && !patternFails && rule.custom.None? ==> r == None)
  {
  }

  /** A length bound of 0 is falsy and is skipped: it behaves exactly as an
      absent bound. */
  lemma ZeroBoundIsSkipped(rules: Rules, values: Values, field: string)
    requires field in rules
    ensures ValidateField(rules[field := rules[field].(minLength := Some(0))], values, field) ==
            ValidateField(rules[field := rules[field].(minLength := None)], values, field)
    ensures ValidateField(rules[field := rules[field].(maxLength := Some(0))], values, field) ==
            ValidateField(rules[field := rules[field].(maxLength := None)], values, field)
  {
    var rule := rules[field];
    SameActiveBoundsValidateAlike(
      rules[field := rule.(minLength := Some(0))], rules[field := rule.(minLength := None)], values, field);
    SameActiveBoundsValidateAlike(
      rules[field := rule.(maxLength := Some(0))], rules[field := rule.(maxLength := None)], values, field);
  }

  /** Two rules that differ only in inactive bounds validate alike. */
  lemma SameActiveBoundsValidateAlike(rules1: Rules, rules2: Rules, values: Values, field: string)
    requires field in rules1 && field in rules2
    requires rules1[field].required == rules2[field].required
    requires rules1[field].pattern == rules2[field].pattern
    requires rules1[field].custom == rules2[field].custom
    requires IsActiveBound(rules1[field].minLength) == IsActiveBound(rules2[field].minLength)
    requires IsActiveBound(rules1[field].minLength) ==> rules1[field].minLength == rules2[field].minLength
    requires IsActiveBound(rules1[field].maxLength) == IsActiveBound(rules2[field].maxLength)
    requires IsActiveBound(rules1[field].maxLength) ==> rules1[field].maxLength == rules2[field].maxLength
    ensures ValidateField(rules1, values, field) == ValidateField(rules2, values, field)
  {
  }

  /** `validateAll` succeeds exactly when no field with a value fails its
      rule (a custom check that returns the empty string does not fail). */
  lemma AllErrorsEmptyIff(rules: Rules, values: Values)
    ensures NoErrors(AllErrors(rules, values)) <==>
            forall field :: field in values ==> ErrorText(ValidateField(rules, values, field)) == ""
  {
  }

  /** A blank required field blocks submission. */
  lemma BlankRequiredFieldBlocksSubmit(rules: Rules, values: Values, field: string)
    requires field in values && field in rules && rules[field].required
    requires IsBlank(values[field])
    ensures !NoErrors(AllErrors(rules, values))
  {
    assert AllErrors(rules, values)[field] == RequiredMessage(field);
  }

  /** `isValid` looks only at the errors recorded so far: a form nobody has
      touched reads as valid even when `validateAll` would fail it. */
  lemma PristineFormReadsValid(form: FormController, field: string)
    requires form.IsPristine()
    requires field in form.values && field in form.rules && form.rules[field].required
    requires form.values[field] == ""
    ensures form.IsValid()
    ensures !NoErrors(AllErrors(form.rules, form.values))
  {
    BlankRequiredFieldBlocksSubmit(form.rules, form.values, field);
  }
}
