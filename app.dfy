/** The "New Reminder" dialog of the desktop front-end: its state, the
    button handlers, and the per-frame normalisation of the time fields. */
module App {
  import opened Wrappers
  import opened Chrono

  /** Rust's `u32`, the type of the hour and minute fields. */
  type U32 = x: int | 0 <= x < 0x1_0000_0000

  datatype AmPm = Am | Pm

  /** What the user did to the dialog's buttons during one frame. */
  datatype Click = NoClick | CancelClicked | OkClicked

  /** `Ord::clamp`: the point of `[lo, hi]` nearest to `v`; Rust panics when `lo > hi`. */
  function Clamp(v: int, lo: int, hi: int): (r: int)
    requires lo <= hi
    ensures lo <= r <= hi
    ensures lo <= v <= hi ==> r == v
    ensures v < lo ==> r == lo
    ensures hi < v ==> r == hi
  {
    if v < lo then lo else if hi < v then hi else v
  }

  /** The ranges the frame clamps the time fields to. */
  predicate IsNormalised(hour: int, minute: int)
  {
    1 <= hour <= 12 && 0 <= minute <= 60
  }

  /** The source's AM/PM adjustment: twelve hours are added for PM, nothing for AM. */
  function To24Hour(hour: nat, amPm: AmPm): (hour24: nat)
  {
    if amPm == Pm then hour + 12 else hour
  }

  /** Inverse of `To24Hour` on the hours it produces from the dialog's range. */
  function DialogTime(hour24: nat): (r: (nat, AmPm))
    requires 1 <= hour24 < 24
    ensures 1 <= r.0 <= 12
    ensures r.1 == Pm <==> 12 < hour24
  {
    if hour24 <= 12 then (hour24, Am) else (hour24 - 12, Pm)
  }

  /** What `get_selected_date_time` builds from the dialog's fields;
      `None` when one of its two `unwrap`s panics. */
  function SelectedDateTime(date: Option<Date>, hour: nat, minute: nat, amPm: AmPm): (r: Option<DateTime>)
    ensures r.Some? <==> date.Some? && minute < 60 && (if amPm == Am then hour < 24 else hour < 12)
    ensures r.Some? ==> r.value.year == date.value.year && r.value.month == date.value.month
                        && r.value.day == date.value.day
    ensures r.Some? ==> r.value.hour == To24Hour(hour, amPm) && r.value.minute == minute && r.value.second == 0
  {
    match date
    case None => None
    case Some(d) => WithYmdHms(d.year, d.month, d.day, To24Hour(hour, amPm), minute, 0)
  }

  /** `KrabbyDoUi`, the application state behind the dialog. */
  class KrabbyDoUi {
    var isShowNewReminderDialog: bool
    var isDatePickerOpen: bool
    var newEventTitle: string
    var newEventDetails: string
    var date: Option<Date>
    var hour: U32
    var minute: U32
    var amPm: AmPm
    var dateTime: DateTime

    /** `Default::default`: the dialog is open, empty, with no date, at 6:30 PM,
        and the date-time holds a fixed placeholder. */
    constructor ()
      ensures isShowNewReminderDialog && !isDatePickerOpen
      ensures newEventTitle == "" && newEventDetails == ""
      ensures date == None && hour == 6 && minute == 30 && amPm == Pm
      ensures dateTime == DateTime(2023, 5, 20, 22, 2, 0)
    {
      isShowNewReminderDialog := true;
      isDatePickerOpen := false;
      newEventTitle := "";
      newEventDetails := "";
      date := None;
      hour := 6;
      minute := 30;
      amPm := Pm;
      dateTime := WithYmdHms(2023, 5, 20, 22, 2, 0).value;
    }

    /** `get_selected_date`: reports the picked date and changes nothing. */
    method GetSelectedDate() returns (d: Option<Date>)
      ensures d == date
    {
      d := date;
    }

    /** `get_selected_date_time`: stores and returns the picked date at the
        chosen time, with seconds set to 0. The two `requires` are the two
        `unwrap`s: a date must be set, and the 24-hour time must be valid. */
    method GetSelectedDateTime() returns (dt: DateTime)
      requires date.Some?
      requires To24Hour(hour, amPm) < 24 && minute < 60
      modifies this`dateTime
      ensures dateTime == dt
      ensures SelectedDateTime(date, hour, minute, amPm) == Some(dt)
    {
      var hour24 := To24Hour(hour, amPm);
      var d := date.value;
      dateTime := WithYmdHms(d.year, d.month, d.day, hour24, minute, 0).value;
      dt := dateTime;
    }

    /** `handle_new_ok_button_clicked`: hides the dialog and records the selected date-time. */
    method HandleNewOkButtonClicked()
      requires date.Some?
      requires To24Hour(hour, amPm) < 24 && minute < 60
      modifies this`isShowNewReminderDialog, this`dateTime
      ensures !isShowNewReminderDialog
      ensures SelectedDateTime(date, hour, minute, amPm) == Some(dateTime)
    {
      isShowNewReminderDialog := false;
      var _ := GetSelectedDate();
      var _ := GetSelectedDateTime();
    }

    /** `handle_new_cancel_button_clicked`: hides the dialog; the `modifies`
        clause guarantees no other field changes. */
    method HandleNewCancelButtonClicked()
      modifies this`isShowNewReminderDialog
      ensures !isShowNewReminderDialog
    {
      isShowNewReminderDialog := false;
    }

    /** The clamp at the start of each frame that shows the dialog. */
    method NormaliseTime()
      modifies this`hour, this`minute
      ensures IsNormalised(hour, minute)
      ensures hour == Clamp(old(hour), 1, 12) && minute == Clamp(old(minute), 0, 60)
    {
      hour := Clamp(hour, 1, 12);
      minute := Clamp(minute, 0, 60);
    }

    /** The date row of the dialog: an unset date becomes `today`
        (the clock reading is passed in). */
    method DefaultDate(today: Date)
      modifies this`date
      ensures date.Some?
      ensures old(date).Some? ==> date == old(date)
      ensures old(date).None? ==> date == Some(today)
    {
      if date.None? {
        date := Some(today);
      }
    }

    /** The dialog's part of `update`: only while the dialog is shown, the
        time is clamped, the date is defaulted, and then Cancel is checked
        before OK. The `requires` is the OK path's `unwrap` on the clamped time. */
    method Frame(today: Date, click: Click)
      requires isShowNewReminderDialog && click == OkClicked ==>
                 To24Hour(Clamp(hour, 1, 12), amPm) < 24 && Clamp(minute, 0, 60) < 60
      modifies this`hour, this`minute, this`date, this`isShowNewReminderDialog, this`dateTime
      ensures old(isShowNewReminderDialog) ==>
                && hour == Clamp(old(hour), 1, 12) && minute == Clamp(old(minute), 0, 60)
                && date == GetOrInsert(old(date), today)
                && (isShowNewReminderDialog <==> click == NoClick)
                && (click == OkClicked ==> SelectedDateTime(date, hour, minute, amPm) == Some(dateTime))
                && (click != OkClicked ==> dateTime == old(dateTime))
      ensures !old(isShowNewReminderDialog) ==>
                && hour == old(hour) && minute == old(minute) && date == old(date)
                && !isShowNewReminderDialog && dateTime == old(dateTime)
    {
      if isShowNewReminderDialog {
        NormaliseTime();
        DefaultDate(today);
        if click == CancelClicked {
          HandleNewCancelButtonClicked();
        } else if click == OkClicked {
          HandleNewOkButtonClicked();
        }
      }
    }
  }
}
