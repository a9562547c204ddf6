/** `useFormValidation` (frontend/src/components/FormValidation.tsx): the
    per-field rule check and the values / errors / touched state it keeps. */
module FormValidation {
  import opened Wrappers
  import opened Text

  // ---------------------------------------------------------------------
  // JavaScript strings

  /** The characters `String.prototype.trim` removes: white space and line
      terminators. */
  predicate IsJsSpace(c: char) {
    c == ' ' || ('\t' <= c <= '\r') || c == '\U{a0}' || c == '\U{feff}' || c == '\U{1680}'
    || ('\U{2000}' <= c <= '\U{200a}') || c == '\U{2028}' || c == '\U{2029}'
    || c == '\U{202f}' || c == '\U{205f}' || c == '\U{3000}'
  }

  /** `value.trim()` is the empty string, so it is falsy. */
  predicate JsBlank(value: string) {
    forall i :: 0 <= i < |value| ==> IsJsSpace(value[i])
  }

  /** `value.length`: UTF-16 code units, two for a character above U+FFFF. */
  function Utf16Length(s: string): (n: nat)
    ensures |s| <= n <= 2 * |s|
  {
    if s == [] then 0 else (if s[0] as int > 0xFFFF then 2 else 1) + Utf16Length(s[1..])
  }

  /** A string is truthy when it is not empty. */
  predicate Truthy(s: Option<string>) {
    s.Some? && s.value != []
  }

  /** A number is truthy when it is present and not zero. */
  predicate TruthyNumber(n: Option<int>) {
    n.Some? && n.value != 0
  }

  // ---------------------------------------------------------------------
  // Rules

  /** One field's rule. A missing `required` is false; `pattern` is the
      regular expression's `test`; `custom` gets the value and all values. */
  datatype Rule = Rule(
    required: bool,
    minLength: Option<int>,
    maxLength: Option<int>,
    pattern: Option<string -> bool>,
    custom: Option<(string, map<string, string>) -> Option<string>>,
    message: Option<string>)

  /** `rule.message || fallback` */
  function MessageOr(rule: Rule, fallback: string): (m: string)
    ensures Truthy(rule.message) ==> m == rule.message.value
    ensures !Truthy(rule.message) ==> m == fallback
  {
    if Truthy(rule.message) then rule.message.value else fallback
  }

  /** `validateField(name, value)`, where `values` is the form's current
      values: the first failing check, in the order required, minimum length,
      maximum length, pattern, custom. */
  function ValidateField(fields: map<string, Rule>, values: map<string, string>, name: string, value: string)
    : (r: Option<string>)
    ensures name !in fields ==> r == None
    ensures name in fields && !fields[name].required && JsBlank(value) ==> r == None
  {
    if name !in fields then None
    else
      var rule := fields[name];
      var filled := !JsBlank(value);
      if rule.required && !filled then
        Some(MessageOr(rule, name + " is required"))
      else if filled && TruthyNumber(rule.minLength) && Utf16Length(value) < rule.minLength.value then
        Some(MessageOr(rule, name + " must be at least " + IntToString(rule.minLength.value) + " characters"))
      else if filled && TruthyNumber(rule.maxLength) && Utf16Length(value) > rule.maxLength.value then
        Some(MessageOr(rule, name + " must be no more than " + IntToString(rule.maxLength.value) + " characters"))
      else if filled && rule.pattern.Some? && !rule.pattern.value(value) then
        Some(MessageOr(rule, name + " format is invalid"))
      else if filled && rule.custom.Some? then
        rule.custom.value(value, values)
      else None
  }

  /** The built-in checks, each as the source tests it: a blank required
      value; a non-blank value shorter than a truthy minimum, longer than a
      truthy maximum, or rejected by the pattern. */
  predicate MissingRequired(rule: Rule, value: string) {
    rule.required && JsBlank(value)
  }

  predicate TooShort(rule: Rule, value: string) {
    !JsBlank(value) && TruthyNumber(rule.minLength) && Utf16Length(value) < rule.minLength.value
  }

  predicate TooLong(rule: Rule, value: string) {
    !JsBlank(value) && TruthyNumber(rule.maxLength) && Utf16Length(value) > rule.maxLength.value
  }

  predicate BadFormat(rule: Rule, value: string) {
    !JsBlank(value) && rule.pattern.Some? && !rule.pattern.value(value)
  }

  /** The built-in checks a value passes. */
  predicate PassesBuiltIns(rule: Rule, value: string) {
    !MissingRequired(rule, value) && !TooShort(rule, value) && !TooLong(rule, value) && !BadFormat(rule, value)
  }

  /** The first failing built-in check decides the message, in the order
      required, minimum length, maximum length, pattern; when they all pass
      the custom check (run only on a non-blank value) answers unchanged, and
      otherwise the field has no error. */
  lemma ValidateFieldIsFirstFailure(fields: map<string, Rule>, values: map<string, string>, name: string,
                                    value: string)
    requires name in fields
    ensures var rule := fields[name];
      var r := ValidateField(fields, values, name, value);
      && (!PassesBuiltIns(rule, value) ==> r.Some?)
      && (MissingRequired(rule, value) ==> r == Some(MessageOr(rule, name + " is required")))
      && (!MissingRequired(rule, value) && TooShort(rule, value) ==>
            r == Some(MessageOr(rule, name + " must be at least " + IntToString(rule.minLength.value)
                                      + " characters")))
      && (!MissingRequired(rule, value) && !TooShort(rule, value) && TooLong(rule, value) ==>
            r == Some(MessageOr(rule, name + " must be no more than " + IntToString(rule.maxLength.value)
                                      + " characters")))
      && (!MissingRequired(rule, value) && !TooShort(rule, value) && !TooLong(rule, value)
          && BadFormat(rule, value) ==>
            r == Some(MessageOr(rule, name + " format is invalid")))
      && (PassesBuiltIns(rule, value) && !JsBlank(value) && rule.custom.Some? ==>
            r == rule.custom.value(value, values))
      && (PassesBuiltIns(rule, value) && (JsBlank(value) || rule.custom.None?) ==> r == None)
  {
  }

  /** With a minimum above the maximum, a value failing both reports the
      minimum: the checks are not all run, the first failure wins. */
  lemma MinimumLengthWinsOverMaximum()
    ensures var rule := Rule(false, Some(10), Some(2), None, None, None);
      ValidateField(map["x" := rule], map[], "x", "abcde") ==
        Some("x must be at least " + IntToString(10) + " characters")
  {
    var rule := Rule(false, Some(10), Some(2), None, None, None);
    FiveCharacters();
    var fields := map["x" := rule];
    assert fields["x"] == rule;
    assert TooShort(rule, "abcde");
    assert "x" + " must be at least " == "x must be at least ";
  }

  /** "abcde" is not blank and is five code units long. */
  lemma FiveCharacters()
    ensures !JsBlank("abcde") && Utf16Length("abcde") == 5
  {
    assert "abcde"[0] == 'a';
    assert "abcde"[1..] == "bcde";
    assert "bcde"[1..] == "cde";
    assert "cde"[1..] == "de";
    assert "de"[1..] == "e";
    assert "e"[1..] == "";
  }

  /** A truthy `message` replaces every built-in message; only the custom
      check can answer something else. */
  lemma MessageOverridesBuiltIns(fields: map<string, Rule>, values: map<string, string>, name: string,
                                 value: string)
    requires name in fields && Truthy(fields[name].message)
    requires !PassesBuiltIns(fields[name], value)
    ensures ValidateField(fields, values, name, value) == fields[name].message
  {
  }

  /** A blank required field always reports the required message, whatever
      else the rule says. */
  lemma RequiredComesFirst(fields: map<string, Rule>, values: map<string, string>, name: string,
                           value: string)
    requires name in fields && fields[name].required && JsBlank(value)
    ensures ValidateField(fields, values, name, value) ==
      Some(MessageOr(fields[name], name + " is required"))
  {
  }

  /** The length checks count the untrimmed value: padding with spaces can
      satisfy a minimum length. */
  lemma LengthCountsSpaces()
    ensures var rule := Rule(false, Some(3), None, None, None, None);
      ValidateField(map["code" := rule], map[], "code", "a  ") == None
  {
    var rule := Rule(false, Some(3), None, None, None, None);
    assert !JsBlank("a  ") by {
      assert "a  "[0] == 'a';
    }
    assert Utf16Length("a  ") == 3 by {
      assert "a  "[1..] == "  ";
      assert "  "[1..] == " ";
      assert " "[1..] == "";
    }
  }

  /** The error a field contributes to the errors map, if any: only a
      truthy string counts. */
  function FieldErrorEntry(fields: map<string, Rule>, values: map<string, string>, name: string): Option<string> {
    var e := ValidateField(fields, values, name, if name in values then values[name] else "");
    if Truthy(e) then e else None
  }

  /** The errors map `validateAll` builds from scratch. */
  function ErrorMap(fields: map<string, Rule>, values: map<string, string>, names: set<string>): (m: map<string, string>)
    ensures m.Keys <= names
    ensures forall n :: n in m <==> n in names && FieldErrorEntry(fields, values, n).Some?
  {
    map n | n in names && FieldErrorEntry(fields, values, n).Some? :: FieldErrorEntry(fields, values, n).value
  }

  // ---------------------------------------------------------------------
  // The hook state

  class FormState {
    const fields: map<string, Rule>
    var values: map<string, string>
    var errors: map<string, string>
    var touched: map<string, bool>

    /** A new form: no values, no errors, nothing touched. */
    constructor(fields: map<string, Rule>)
      ensures this.fields == fields
      ensures values == map[] && errors == map[] && touched == map[]
    {
      this.fields := fields;
      values := map[];
      errors := map[];
      touched := map[];
    }

    /** The value the hook validates for `name`: `values[name] || ''`. */
    function ValueOf(name: string): string
      reads this
    {
      if name in values then values[name] else ""
    }

    /** `validateAll`: the errors map is replaced by the declared fields that
        fail, and the form is valid exactly when none does. */
    method ValidateAll() returns (isValid: bool)
      modifies this
      ensures errors == ErrorMap(fields, values, fields.Keys)
      ensures isValid <==> errors == map[]
      ensures values == old(values) && touched == old(touched)
    {
      var newErrors: map<string, string> := map[];
      isValid := true;
      var remaining := fields.Keys;
      while remaining != {}
        invariant remaining <= fields.Keys
        invariant newErrors == ErrorMap(fields, values, fields.Keys - remaining)
        invariant isValid <==> newErrors == map[]
        invariant values == old(values) && touched == old(touched)
        decreases |remaining|
      {
        var name :| name in remaining;
        ghost var done := fields.Keys - remaining;
        ErrorMapAdd(fields, values, done, name);
        var error := ValidateField(fields, values, name, ValueOf(name));
        assert FieldErrorEntry(fields, values, name) == if Truthy(error) then error else None;
        if error.Some? && error.value != [] {
          newErrors := newErrors[name := error.value];
          isValid := false;
        }
        remaining := remaining - {name};
        assert fields.Keys - remaining == done + {name};
      }
      errors := newErrors;
    }

    /** `handleChange`: store the value and drop that field's error, if
        it has a truthy one. */
    method HandleChange(name: string, value: string)
      modifies this
      ensures values == old(values)[name := value]
      ensures errors == (if name in old(errors) && old(errors)[name] != [] then old(errors) - {name} else old(errors))
      ensures touched == old(touched)
    {
      values := values[name := value];
      if name in errors && errors[name] != [] {
        errors := errors - {name};
      }
    }

    /** `handleBlur`: mark the field touched and record its error, if any;
        an existing error is never cleared here. */
    method HandleBlur(name: string)
      modifies this
      ensures touched == old(touched)[name := true]
      ensures var e := FieldErrorEntry(fields, values, name);
        errors == if e.Some? then old(errors)[name := e.value] else old(errors)
      ensures old(errors).Keys <= errors.Keys
      ensures values == old(values)
    {
      touched := touched[name := true];
      var error := ValidateField(fields, values, name, ValueOf(name));
      if error.Some? && error.value != [] {
        errors := errors[name := error.value];
      }
    }

    /** `handleSubmit`: every declared field becomes touched, the form is
        validated, and the values are handed on only when it is valid. */
    method HandleSubmit() returns (submitted: Option<map<string, string>>)
      modifies this
      ensures touched == map n | n in fields.Keys :: true
      ensures errors == ErrorMap(fields, values, fields.Keys)
      ensures submitted.Some? <==> errors == map[]
      ensures submitted.Some? ==> submitted.value == values
      ensures values == old(values)
    {
      touched := map n | n in fields.Keys :: true;
      var isValid := ValidateAll();
      if isValid {
        submitted := Some(values);
      } else {
        submitted := None;
      }
    }
  }

  lemma ErrorMapAdd(fields: map<string, Rule>, values: map<string, string>, names: set<string>, n: string)
    requires n !in names
    ensures var e := FieldErrorEntry(fields, values, n);
      ErrorMap(fields, values, names + {n}) ==
        if e.Some? then ErrorMap(fields, values, names)[n := e.value] else ErrorMap(fields, values, names)
  {
  }

  /** Fields without a rule never reach the errors map. */
  lemma UndeclaredFieldsHaveNoError(fields: map<string, Rule>, values: map<string, string>, name: string)
    requires name !in fields
    ensures name !in ErrorMap(fields, values, fields.Keys)
  {
  }

  /** The form submits exactly when every declared field passes. */
  lemma SubmitsIffAllPass(fields: map<string, Rule>, values: map<string, string>)
    ensures ErrorMap(fields, values, fields.Keys) == map[] <==>
      forall n :: n in fields ==> !Truthy(ValidateField(fields, values, n, if n in values then values[n] else ""))
  {
    var m := ErrorMap(fields, values, fields.Keys);
    if m != map[] {
      var n :| n in m;
      assert FieldErrorEntry(fields, values, n).Some?;
    }
  }
}
