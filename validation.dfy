/**
 * The field validator `validate` of src/app.ts: a value that is a string or a
 * number, and optional constraints that each apply to one kind of value.
 */
module Validation {
  import opened Wrappers
  import opened Text

  datatype Value = Str(s: string) | Num(x: Number)

  datatype Validatable = Validatable(
    value: Value,
    required: bool,
    minLength: Option<int>,
    maxLength: Option<int>,
    min: Option<int>,
    max: Option<int>)

  /** `value.toString()`. */
  function ValueText(v: Value): string {
    match v
    case Str(s) => s
    case Num(x) => NumberToText(x)
  }

  /**
   * `validate`: threads one flag through five checks in the source's order.
   * The result is the conjunction of the checks that apply: `required` rejects
   * text that trims to nothing, the length bounds apply to strings only and
   * compare the trimmed length inclusively, and the numeric bounds apply to
   * numbers only, are inclusive, and are never met by NaN.
   */
  function Validate(v: Validatable): (ok: bool)
    ensures ok <==>
      && (v.required ==> Trim(ValueText(v.value)) != [])
      && (v.value.Str? && v.minLength.Some? ==> |Trim(v.value.s)| >= v.minLength.value)
      && (v.value.Str? && v.maxLength.Some? ==> |Trim(v.value.s)| <= v.maxLength.value)
      && (v.value.Num? && v.min.Some? ==> v.value.x.Int? && v.value.x.n >= v.min.value)
      && (v.value.Num? && v.max.Some? ==> v.value.x.Int? && v.value.x.n <= v.max.value)
  {
    var isValid := true;
    var isValid := if v.required then isValid && |Trim(ValueText(v.value))| != 0 else isValid;
    var isValid := if v.minLength.Some? && v.value.Str?
      then isValid && |Trim(v.value.s)| >= v.minLength.value else isValid;
    var isValid := if v.maxLength.Some? && v.value.Str?
      then isValid && |Trim(v.value.s)| <= v.maxLength.value else isValid;
    var isValid := if v.min.Some? && v.value.Num?
      then isValid && NumberAtLeast(v.value.x, v.min.value) else isValid;
    var isValid := if v.max.Some? && v.value.Num?
      then isValid && NumberAtMost(v.value.x, v.max.value) else isValid;
    isValid
  }

  /** `x >= bound` on a JavaScript number: false for NaN. */
  function NumberAtLeast(x: Number, bound: int): bool {
    match x
    case Int(n) => n >= bound
    case NaN => false
  }

  /** `x <= bound` on a JavaScript number: false for NaN. */
  function NumberAtMost(x: Number, bound: int): bool {
    match x
    case Int(n) => n <= bound
    case NaN => false
  }

  /** `required` alone fails exactly on text that is all whitespace. */
  lemma RequiredRejectsOnlyBlank(value: Value)
    ensures Validate(Validatable(value, true, None, None, None, None)) <==> !AllWhitespace(ValueText(value))
  {
    TrimEmptyIffBlank(ValueText(value));
  }

  /** The text of a number, even "NaN", is never blank. */
  lemma NumberTextNotBlank(x: Number)
    ensures Trim(NumberToText(x)) != []
  {
    var t := NumberToText(x);
    assert !IsWhitespace(t[0]) by {
      match x
      case NaN =>
      case Int(n) =>
        if n < 0 { assert t[0] == '-'; } else { assert IsDigit(t[0]); }
    }
    TrimEndsNotBlank(t);
  }

  /** So `required` never rejects a number. */
  lemma RequiredIgnoresNumbers(v: Validatable)
    requires v.value.Num?
    ensures Validate(v.(required := true)) == Validate(v.(required := false))
  {
    NumberTextNotBlank(v.value.x);
  }

  /** The length bounds are skipped for a number, the numeric bounds for a string. */
  lemma InapplicableConstraintsSkipped(v: Validatable)
    ensures v.value.Num? ==> Validate(v) == Validate(v.(minLength := None, maxLength := None))
    ensures v.value.Str? ==> Validate(v) == Validate(v.(min := None, max := None))
  {
  }

  /** With no constraint at all, every value passes. */
  lemma NoConstraintsPass(value: Value)
    ensures Validate(Validatable(value, false, None, None, None, None))
  {
  }

  /** Dropping a constraint can only turn a failure into a pass: the result is an AND. */
  lemma DroppingConstraintsWeakens(v: Validatable)
    requires Validate(v)
    ensures Validate(v.(required := false))
    ensures Validate(v.(minLength := None)) && Validate(v.(maxLength := None))
    ensures Validate(v.(min := None)) && Validate(v.(max := None))
  {
  }
}
