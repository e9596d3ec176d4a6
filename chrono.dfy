/** The part of the `chrono` crate the dialog relies on: a calendar date,
    a UTC date-time, and the fallible constructor `with_ymd_and_hms`. */
module Chrono {
  import opened Wrappers

  /** A `NaiveDate`. Every value that reaches the dialog was produced by
      chrono or by the date picker, so it is a real calendar date; the
      calendar itself is not modelled. */
  datatype Date = Date(year: int, month: nat, day: nat)

  /** A `DateTime<Utc>`, kept as its broken-down UTC fields. */
  datatype DateTime = DateTime(year: int, month: nat, day: nat, hour: nat, minute: nat, second: nat)

  /** The time-of-day fields `with_ymd_and_hms` accepts. */
  predicate ValidTime(hour: nat, minute: nat, second: nat)
  {
    hour < 24 && minute < 60 && second < 60
  }

  /** `Utc.with_ymd_and_hms(...)`: `None` stands for the empty `LocalResult`
      on which `unwrap` panics. */
  function WithYmdHms(year: int, month: nat, day: nat, hour: nat, minute: nat, second: nat): (r: Option<DateTime>)
  {
    if ValidTime(hour, minute, second) then Some(DateTime(year, month, day, hour, minute, second))
    else None
  }
}
