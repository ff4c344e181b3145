/** Option and Result, used for Odoo's "falsy / absent" values and for failed creates. */
module Wrappers {

  /** `None` stands for a field or dictionary key that holds Python's `False`/`None` or is absent. */
  datatype Option<+T> = None | Some(value: T) {

    /** The value, or `default` when there is none (`d.get(key, default)`). */
    function GetOr(default: T): (r: T)
      ensures Some? ==> r == value
      ensures None? ==> r == default
    {
      match this
      case Some(v) => v
      case None => default
    }
  }

  datatype Result<+T, +E> = Ok(value: T) | Err(error: E)
}
