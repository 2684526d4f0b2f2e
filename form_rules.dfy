/** The built-in field rules of react-hook-form's `register(name, rules)` as
    the forms use them, checked in the library's order and reporting the
    first failing rule's message. */
module FormRules {
  import opened JsText

  datatype LengthRule = LengthRule(value: nat, message: string)

  /** A `pattern` rule: the regular expression as a test on the whole value. */
  datatype PatternRule = PatternRule(test: string -> bool, message: string)

  datatype Rules = Rules(required: Option<string>, minLength: Option<LengthRule>, maxLength: Option<LengthRule>,
                         pattern: Option<PatternRule>, validate: Option<string -> Option<string>>)

  /** Only a `required` message. */
  function RequiredOnly(message: string): Rules
  {
    Rules(Some(message), None, None, None, None)
  }

  /** The value passes every rule: an empty value passes all but `required`
      and `validate`; a non-empty one must also be within the length bounds
      and match the pattern. Lengths are `value.length`, in UTF-16 code units. */
  predicate Satisfies(value: string, rules: Rules)
  {
    && (rules.required.Some? ==> value != "")
    && (value != "" && rules.maxLength.Some? ==> Utf16Length(value) <= rules.maxLength.value.value)
    && (value != "" && rules.minLength.Some? ==> Utf16Length(value) >= rules.minLength.value.value)
    && (value != "" && rules.pattern.Some? ==> rules.pattern.value.test(value))
    && (rules.validate.Some? ==> rules.validate.value(value).None?)
  }

  /** The message shown under the field: required, then the length bounds
      (the maximum's message first), then the pattern, then `validate`. */
  function FieldError(value: string, rules: Rules): (e: Option<string>)
    ensures e.None? <==> Satisfies(value, rules)
    ensures value == "" && rules.required.Some? ==> e == rules.required
    ensures value != "" && rules.maxLength.Some? && Utf16Length(value) > rules.maxLength.value.value ==>
              e == Some(rules.maxLength.value.message)
  {
    if value == "" && rules.required.Some? then rules.required
    else if value != "" && rules.maxLength.Some? && Utf16Length(value) > rules.maxLength.value.value then
      Some(rules.maxLength.value.message)
    else if value != "" && rules.minLength.Some? && Utf16Length(value) < rules.minLength.value.value then
      Some(rules.minLength.value.message)
    else if value != "" && rules.pattern.Some? && !rules.pattern.value.test(value) then
      Some(rules.pattern.value.message)
    else if rules.validate.Some? then rules.validate.value(value)
    else None
  }
}
