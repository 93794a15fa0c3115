/** Request validation (pkg/health/validate.go): a value is checked only
    when its type has a `Validate` method. */
module Validation {
  import opened Base
  import opened Errors

  /** The `Validate` method of a type, if it has one. */
  datatype Validator<!T> = NoValidate | Validates(check: T -> Option<Error>)

  /** `validate`: nil for a type without `Validate`, otherwise exactly the
      error `Validate` returns (nil when it returns nil). */
  function Validate<T>(v: Validator<T>, val: T): (err: Option<Error>)
    ensures v.NoValidate? ==> err.None?
    ensures v.Validates? && v.check(val).None? ==> err.None?
    ensures v.Validates? && v.check(val).Some? ==> err == v.check(val)
  {
    if v.Validates? then
      var e := v.check(val);
      if e.Some? then e else None
    else None
  }

  /** Validation passes exactly when the type's own check passes, or when
      there is no check. */
  lemma ValidatePasses<T>(v: Validator<T>, val: T)
    ensures Validate(v, val).None? <==> v.NoValidate? || v.check(val).None?
  {
  }
}
