/** Rust's `Option`, with the one combinator the dialog uses. */
module Wrappers {

  datatype Option<+T> = None | Some(value: T)

  /** `Option::get_or_insert_with`: keeps a present value, otherwise stores `v`.
      Either way the option is present afterwards. */
  function GetOrInsert<T>(o: Option<T>, v: T): (r: Option<T>)
    ensures r.Some?
    ensures o.Some? ==> r == o
    ensures o.None? ==> r.value == v
  {
    match o
    case Some(_) => o
    case None => Some(v)
  }
}
