/** The optional-value datatype the model uses for Rust's `Option`. */
module Wrappers {
  datatype Option<+T> = None | Some(value: T)

  /** Rust's `opt.unwrap_or(0.0)` on an optional stat delta. */
  function OrZero(o: Option<real>): (r: real)
    ensures o.None? ==> r == 0.0
    ensures o.Some? ==> r == o.value
  {
    match o
    case None => 0.0
    case Some(v) => v
  }
}
