# KrabbyDo "New Reminder" dialog — a Dafny model

KrabbyDo is a desktop to-do/reminder application. This project models the
state behind its "New Reminder" dialog (`KrabbyDoUi` in `ui/src/app.rs`):

- **Visibility.** The dialog is shown at start-up. Both OK and Cancel hide it.
- **Per-frame normalisation.** While the dialog is shown, each frame clamps the hour to 1..12 and the minute to 0..60.
- **Date defaulting.** In each frame that shows the dialog, an unset date becomes today's date.
- **Date-time assembly.** OK turns the picked date and the 12-hour time with AM/PM into a UTC date-time, with seconds set to 0.

The state is the class `App.KrabbyDoUi`. Each of its fields is a field of the Rust struct.
Each handler is a method, and its field-granular `modifies` clause says which fields it may change.
The pure steps are functions: the clamp (`App.Clamp`), the AM/PM adjustment (`App.To24Hour`) and the date-time construction (`App.SelectedDateTime`).
The handlers call these functions, and the lemmas are stated about them.
The two `unwrap`s in `get_selected_date_time` become `requires` clauses on the methods:
- a date must be set;
- the 24-hour hour must be below 24 and the minute below 60.

The lemmas in `AppProperties` then show that the frame's clamp does not establish those preconditions.
The class models the code as written. The corrected conversion under "## Findings" is separate, with its own proofs.

Modules:
- `Wrappers`: Rust's `Option` and `get_or_insert_with`.
- `Chrono`: the `chrono` types used. These are a date, a UTC date-time, and `with_ymd_and_hms` as a partial constructor.
- `App`: the dialog state and its operations.
- `AppProperties`: lemmas about the model, plus the corrected conversion.

## Model

| member | source | states |
|---|---|---|
| `Wrappers.GetOrInsert` | ui/src/app.rs:181-183 | a present date is kept, an absent one becomes the supplied value; the result is always present |
| `App.Clamp` | ui/src/app.rs:151-152 | the result lies in `[lo, hi]`, equals the input when the input is in range, and is the nearer bound otherwise |
| `App.To24Hour` | ui/src/app.rs:93-96 | PM adds twelve hours, AM leaves the hour; no contract of its own: its values on 1..12 are proved in `AppProperties.To24HourOnDialogRange`, and the `u32` overflow is listed under "## Left out" |
| `Chrono.WithYmdHms` | ui/src/app.rs:97-106 | `Utc.with_ymd_and_hms`: no contract of its own; its `None` is the empty result on which the second `unwrap` panics, and what it yields is stated by `App.SelectedDateTime` |
| `App.DialogTime` | ui/src/app.rs:93-96 | inverse of the AM/PM adjustment on hours 1..23: a clamped 12-hour value, PM exactly for hours after noon |
| `App.SelectedDateTime` | ui/src/app.rs:91-109 | defined exactly when a date is set, the minute is below 60 and the hour is below 24 (AM) or below 12 (PM); then year, month and day come from the date, the hour is the 24-hour value, the minute is copied and seconds are 0 |
| `App.KrabbyDoUi.constructor` | ui/src/app.rs:46-59 | default state: dialog shown, picker closed, empty title and details, no date, 6:30 PM, date-time 2023-05-20 22:02:00 |
| `App.KrabbyDoUi.GetSelectedDate` | ui/src/app.rs:87-90 | returns the current date field and changes no state |
| `App.KrabbyDoUi.GetSelectedDateTime` | ui/src/app.rs:91-109 | with a date set and a valid 24-hour time, stores the assembled date-time and returns that same value; only `dateTime` changes |
| `App.KrabbyDoUi.HandleNewOkButtonClicked` | ui/src/app.rs:77-83 | hides the dialog and stores the assembled date-time; title, details, date and time fields are unchanged |
| `App.KrabbyDoUi.HandleNewCancelButtonClicked` | ui/src/app.rs:84-86 | hides the dialog and changes no other field |
| `App.KrabbyDoUi.NormaliseTime` | ui/src/app.rs:151-152 | the hour is clamped to 1..12 and the minute to 0..60; nothing else changes |
| `App.KrabbyDoUi.DefaultDate` | ui/src/app.rs:181-183 | an existing date is kept, an unset date becomes the supplied "today"; afterwards a date is always set |
| `App.KrabbyDoUi.Frame` | ui/src/app.rs:147-219 | while the dialog is shown: clamp, default the date, then Cancel (checked first) or OK closes the dialog, and OK stores the assembled date-time; while it is hidden the frame changes nothing |
| `AppProperties.ClampIdempotent` | ui/src/app.rs:151-152 | clamping twice equals clamping once |
| `AppProperties.NormaliseIdempotent` | ui/src/app.rs:151-152 | the clamped fields are in range, in-range fields are left alone, and normalising twice equals normalising once |
| `AppProperties.To24HourOnDialogRange` | ui/src/app.rs:93-96 | on hours 1..12 the 24-hour value is `hour` for AM and `hour + 12` for PM, lies in 1..24, and is 24 exactly for 12 PM |
| `AppProperties.DialogTimeRoundTrip` | ui/src/app.rs:93-96 | when the conversion succeeds on a clamped hour, the 12-hour fields are recovered from it |
| `AppProperties.DialogTimeReachesHour` | ui/src/app.rs:93-96 | every hour 1..23 is produced by the dialog input that `DialogTime` gives for it |
| `AppProperties.NormalisedOkPanicsExactly` | ui/src/app.rs:97-106 | on a clamped state with a date set, the OK path panics exactly when the minute is 60 or the time is 12 PM |
| `AppProperties.NormalisationAdmitsPanics` | ui/src/app.rs:151-152 | some clamped states with a date set still make `get_selected_date_time` panic, both through the hour (PM) and through the minute (AM) |
| `AppProperties.TwelveHourConversionFlaws` | ui/src/app.rs:93-96 | as written, 12 PM gives hour 24 and panics, 12 AM gives noon, and no hour in 1..12 gives hour 0 |
| `AppProperties.MinuteSixtyPanics` | ui/src/app.rs:152 | as written, any minute of 60 or more is clamped to 60, and the OK path then panics for every hour |
| `AppProperties.To24HourIntended` | ui/src/app.rs:93-96 | corrected conversion: on hours 1..12 the result is below 24, and it is before noon exactly for AM |
| `AppProperties.To12Hour` | ui/src/app.rs:93-96 | inverse of the corrected conversion: a 12-hour value in 1..12, AM exactly for hours before noon |
| `AppProperties.IntendedConversionRoundTrip` | ui/src/app.rs:93-96 | the 12-hour fields are recovered from the corrected conversion |
| `AppProperties.IntendedInverseRoundTrip` | ui/src/app.rs:93-96 | every hour 0..23 converted to 12-hour fields and back by the corrected conversion is unchanged |
| `AppProperties.IntendedConversionOnto` | ui/src/app.rs:93-96 | with the corrected conversion, every hour 0..23 (midnight included) is reachable from the dialog |
| `AppProperties.SelectedDateTimeIntended` | ui/src/app.rs:97-106 | the corrected assembly is defined exactly when a date is set, the minute is below 60 and the corrected hour is below 24; its value is the date's year, month and day at the corrected hour, the chosen minute and second 0 |
| `AppProperties.IntendedOkPathNeverPanics` | ui/src/app.rs:151-152 | with the corrected conversion and minutes clamped to 0..59, the OK path of a rendered dialog never panics |

## Left out

- Rendering in `update`: panels, the menu, labels and layout constants are not modelled. So are the widgets (`TextEdit`, `DragValue`, `DatePickerButton`, the AM/PM selector). Their edits are treated as arbitrary field values that land between frames. `Frame` models only the clamp, the date defaulting and the Cancel-before-OK dispatch. In the source, the hour and minute `DragValue`s (ui/src/app.rs:195, :200) run after the clamp and before the OK check in the same `update`. So an edit committed in the same frame as the OK click skips the clamp: hour 0 AM would give midnight and hour 13 PM would panic. `NormalisedOkPanicsExactly` and the finding that midnight cannot be chosen hold only under the between-frames assumption. Likewise, a collapsed window skips its closure, so in that frame the date is not defaulted; `Frame` assumes the window body runs.
- `handle_menu_new_clicked` only prints, so nothing in the source shows the dialog again once it is hidden. The model therefore has no transition back to shown.
- `KrabbyDoUi::new` and `save` restore and persist state through eframe storage, which is a library call. Only `am_pm` is not marked `#[serde(skip)]`, so it is the only field that survives a restart.
- `Utc::now()` at ui/src/app.rs:183 reads the clock. `DefaultDate` and `Frame` take "today" as a parameter instead.
- Calendar validation in `with_ymd_and_hms` is not modelled. The date always comes from a `NaiveDate` or from a valid literal, so only the time-of-day check can fail.
- `App.To24Hour`: the `u32` overflow of `hour + 12` (ui/src/app.rs:95) is not modelled; the result is an unbounded integer. A debug build panics on that overflow, while a release build wraps (hour 4294967290 PM would become 06:mm and succeed, where `SelectedDateTime` gives `None`). Under the between-frames assumption above only clamped hours (1..12) reach OK, so the overflow cannot happen there.
- `println!` logging is not modelled.
- The rest of the repository is not part of this model:
  - middleware/src/lib.rs: MongoDB I/O;
  - src/middlewarelib.rs: print-only stubs;
  - notification/src/: the notification trigger, which depends on a function that is not part of this model and on a foreign notifier;
  - src/app.rs: an earlier version of the same dialog;
  - ui/src/style.rs: layout constants;
  - src/main.rs and ui/src/main.rs: bootstrapping.

## Findings

The class above keeps the code as written, so its `requires` clauses expose both problems. The corrected definitions are in `AppProperties`.

| source | as written | input that shows it | evidently intended | confidence | as-written member | corrected member |
|---|---|---|---|---|---|---|
| ui/src/app.rs:93-96 | PM adds 12 to the hour and AM leaves it alone | 12 PM gives hour 24, and `with_ymd_and_hms(..).unwrap()` panics; 12 AM gives noon; midnight cannot be chosen | the usual 12-hour clock: 12 AM is 0, 12 PM is 12, and every hour 0..23 is reachable | high (proved on the model; not executed) | `AppProperties.TwelveHourConversionFlaws` | `AppProperties.IntendedConversionOnto` |
| ui/src/app.rs:152 | the minute is clamped to 0..60 | minute 60 (or any larger entry) survives the clamp as 60, and `with_ymd_and_hms(..).unwrap()` panics | clamp the minute to 0..59 | high (proved on the model; not executed) | `AppProperties.MinuteSixtyPanics` | `AppProperties.IntendedOkPathNeverPanics` |
