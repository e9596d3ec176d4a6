/** Properties of the dialog model, including the two ways the OK path can
    still panic after the frame's clamp, and the corrected conversion. */
module AppProperties {
  import opened Wrappers
  import opened Chrono
  import opened App

  /** Clamping a clamped value changes nothing. */
  lemma ClampIdempotent(v: int, lo: int, hi: int)
    requires lo <= hi
    ensures Clamp(Clamp(v, lo, hi), lo, hi) == Clamp(v, lo, hi)
  {
  }

  /** The frame's clamp lands in range, leaves in-range fields alone, and
      so normalising twice is normalising once. */
  lemma NormaliseIdempotent(hour: int, minute: int)
    ensures IsNormalised(Clamp(hour, 1, 12), Clamp(minute, 0, 60))
    ensures IsNormalised(hour, minute) ==> Clamp(hour, 1, 12) == hour && Clamp(minute, 0, 60) == minute
    ensures Clamp(Clamp(hour, 1, 12), 1, 12) == Clamp(hour, 1, 12)
    ensures Clamp(Clamp(minute, 0, 60), 0, 60) == Clamp(minute, 0, 60)
  {
    ClampIdempotent(hour, 1, 12);
    ClampIdempotent(minute, 0, 60);
  }

  /** On the clamped hours the source's conversion yields 1..24; it reaches 24
      exactly for 12 PM and never yields midnight. */
  lemma To24HourOnDialogRange(hour: nat, amPm: AmPm)
    requires 1 <= hour <= 12
    ensures 1 <= To24Hour(hour, amPm) <= 24
    ensures To24Hour(hour, amPm) == 24 <==> hour == 12 && amPm == Pm
    ensures amPm == Am ==> To24Hour(hour, amPm) == hour
    ensures amPm == Pm ==> To24Hour(hour, amPm) == hour + 12
  {
  }

  /** Whenever the conversion succeeds on a clamped hour, the 12-hour fields
      can be read back from the 24-hour value. */
  lemma DialogTimeRoundTrip(hour: nat, amPm: AmPm)
    requires 1 <= hour <= 12 && To24Hour(hour, amPm) < 24
    ensures DialogTime(To24Hour(hour, amPm)) == (hour, amPm)
  {
  }

  /** Every hour 1..23 is produced by the dialog input `DialogTime` gives for it. */
  lemma DialogTimeReachesHour(hour24: nat)
    requires 1 <= hour24 < 24
    ensures To24Hour(DialogTime(hour24).0, DialogTime(hour24).1) == hour24
  {
  }

  /** On a clamped state with a date, the OK path panics exactly for minute 60 or 12 PM. */
  lemma NormalisedOkPanicsExactly(d: Date, hour: nat, minute: nat, amPm: AmPm)
    requires IsNormalised(hour, minute)
    ensures SelectedDateTime(Some(d), hour, minute, amPm).None? <==> minute == 60 || (hour == 12 && amPm == Pm)
  {
  }

  /** The clamp does not rule out a panic: there are clamped states, with a
      date set, on which `get_selected_date_time` fails, for either of its
      two causes. Two instances of `NormalisedOkPanicsExactly`, stated as
      explicit witnesses of the gap. */
  lemma NormalisationAdmitsPanics(d: Date)
    ensures exists hour: nat, minute: nat :: IsNormalised(hour, minute) && minute < 60
              && SelectedDateTime(Some(d), hour, minute, Pm).None?
    ensures exists hour: nat, minute: nat :: IsNormalised(hour, minute) && hour < 12
              && SelectedDateTime(Some(d), hour, minute, Am).None?
  {
    assert IsNormalised(12, 30) && SelectedDateTime(Some(d), 12, 30, Pm).None?;
    assert IsNormalised(6, 60) && SelectedDateTime(Some(d), 6, 60, Am).None?;
  }

  /** As written, 12 PM becomes hour 24 and panics, 12 AM becomes noon,
      and no dialog input ever selects midnight. */
  lemma TwelveHourConversionFlaws(d: Date, minute: nat)
    requires minute < 60
    ensures To24Hour(12, Pm) == 24 && SelectedDateTime(Some(d), 12, minute, Pm).None?
    ensures SelectedDateTime(Some(d), 12, minute, Am).Some?
    ensures SelectedDateTime(Some(d), 12, minute, Am).value.hour == 12
    ensures forall hour: nat, amPm: AmPm :: 1 <= hour ==> To24Hour(hour, amPm) != 0
  {
  }

  /** As written, every minute entry of 60 or more survives the clamp as 60,
      and the OK path then panics whatever the hour. */
  lemma MinuteSixtyPanics(d: Date, hour: nat, minute: nat, amPm: AmPm)
    requires minute >= 60
    ensures Clamp(minute, 0, 60) == 60
    ensures SelectedDateTime(Some(d), Clamp(hour, 1, 12), Clamp(minute, 0, 60), amPm).None?
  {
  }

  /** The intended 12-hour clock: 12 AM is midnight, 12 PM is noon. */
  function To24HourIntended(hour: nat, amPm: AmPm): (r: nat)
    ensures 1 <= hour <= 12 ==> r < 24 && (r < 12 <==> amPm == Am)
  {
    (if hour == 12 then 0 else hour) + (if amPm == Pm then 12 else 0)
  }

  /** The inverse of the intended conversion. */
  function To12Hour(hour24: nat): (r: (nat, AmPm))
    requires hour24 < 24
    ensures 1 <= r.0 <= 12
    ensures r.1 == Am <==> hour24 < 12
  {
    var h := if hour24 < 12 then hour24 else hour24 - 12;
    (if h == 0 then 12 else h, if hour24 < 12 then Am else Pm)
  }

  /** The intended conversion loses nothing: the 12-hour fields are read back from it. */
  lemma IntendedConversionRoundTrip(hour: nat, amPm: AmPm)
    requires 1 <= hour <= 12
    ensures To12Hour(To24HourIntended(hour, amPm)) == (hour, amPm)
  {
  }

  /** Converting an hour of the day to 12-hour fields and back gives the same
      hour; with `IntendedConversionRoundTrip` the conversion is a bijection
      between the dialog's fields and the hours 0..23. */
  lemma IntendedInverseRoundTrip(hour24: nat)
    requires hour24 < 24
    ensures To24HourIntended(To12Hour(hour24).0, To12Hour(hour24).1) == hour24
  {
  }

  /** Every hour of the day, midnight included, is reachable from the dialog. */
  lemma IntendedConversionOnto(hour24: nat)
    requires hour24 < 24
    ensures exists hour: nat, amPm: AmPm :: 1 <= hour <= 12 && To24HourIntended(hour, amPm) == hour24
  {
    var r := To12Hour(hour24);
    assert 1 <= r.0 <= 12 && To24HourIntended(r.0, r.1) == hour24;
  }

  /** `get_selected_date_time` with the intended conversion. */
  function SelectedDateTimeIntended(date: Option<Date>, hour: nat, minute: nat, amPm: AmPm): (r: Option<DateTime>)
    ensures r.Some? <==> date.Some? && minute < 60 && To24HourIntended(hour, amPm) < 24
    ensures r.Some? ==> r.value == DateTime(date.value.year, date.value.month, date.value.day,
                                            To24HourIntended(hour, amPm), minute, 0)
  {
    match date
    case None => None
    case Some(d) => WithYmdHms(d.year, d.month, d.day, To24HourIntended(hour, amPm), minute, 0)
  }

  /** With the intended conversion and minutes clamped to 0..59, the OK path
      of a rendered dialog (date set) never panics. */
  lemma IntendedOkPathNeverPanics(d: Date, hour: int, minute: int, amPm: AmPm)
    ensures SelectedDateTimeIntended(Some(d), Clamp(hour, 1, 12), Clamp(minute, 0, 59), amPm).Some?
  {
  }
}
