/** Option and Result, plus the three-way value of a Terraform attribute. */
module Wrappers {

  datatype Option<+T> = None | Some(value: T) {
    function GetOr(default: T): T {
      match this
      case Some(v) => v
      case None => default
    }
  }

  datatype Result<+T, +E> = Ok(value: T) | Err(error: E)

  /** A framework attribute value: null, not yet known (computed later), or known. */
  datatype Tf<+T> = Null | Unknown | Known(value: T) {
    predicate IsNullOrUnknown() {
      Null? || Unknown?
    }

    /** `ValueBool()`/`ValueString()`: the value when known, the zero value otherwise. */
    function ValueOr(zero: T): T {
      if Known? then value else zero
    }
  }
}
