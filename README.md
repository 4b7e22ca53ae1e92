# Influencer order page: postcode, delivery date and submission

A Dafny model of the decision logic in the influencer gifting order page
(`ErnieInfluencerGiftingAutomationV1.7.py`). One run of the page:

1. The postcode typed into the form is upper-cased and every space is
   deleted (`Postcode`).
2. A non-empty postcode is looked up, by exact equality, in the delivery
   schedule table; the first matching row gives its schedule code (`Schedule`).
3. When a schedule is found, the date picker offers today through thirty
   days ahead, starting at today; a date whose weekday the schedule does not
   allow (`MWF` allows Monday, Wednesday, Friday; `TTS` Tuesday, Thursday,
   Saturday; any other code nothing) only raises a warning (`Delivery`).
4. A click on Submit appends nothing when a required field is empty;
   otherwise it authorises, opens the sheet, writes the start date as
   `dd/mm/yyyy` and appends one six-field row
   `[email, username, postcode, phone, bundle, date]`. When no schedule was
   found in this run the start date was never set, formatting it raises, the
   handler catches the error and no row is appended (`Submission`).

Files: `wrappers.dfy` (Option), `postcode.dfy`, `schedule.dfy`,
`delivery.dfy`, `submission.dfy`. The worksheet is a class whose `rows`
sequence is the sheet's content; `Submission.Submit` appends exactly the row
`SubmitOutcome` reports as saved and otherwise leaves `rows` unchanged.

Dates are `(day, month, year)` together with the serial day number that
Python's `date.toordinal` gives; the weekday is `(serial + 6) % 7`, Python's
definition (0 is Monday), and "thirty days ahead" is serial + 30.

Facts about the code that the model keeps:

- Only the space character `' '` is deleted from the postcode; tabs and
  other whitespace stay (`Postcode.RemoveSpaces`).
- Nothing checks that the postcode resolved before a submit. Such a submit
  fails only because `start_date` is unbound at line 87, after the sheet was
  authorised and opened (`Submission.SubmitOutcome`, failure
  `StartDateUnbound`).
- A wrong weekday only raises a warning (`Submission.WarningDoesNotBlock`).

## Model

| member | source | states |
|---|---|---|
| `Postcode.Upper` | ErnieInfluencerGiftingAutomationV1.7.py:41 | the upper-cased character is never an ASCII lower-case letter, is a space exactly when the input was, and differs from the input only for 'a'..'z' (by 32) |
| `Postcode.UpperAll` | ErnieInfluencerGiftingAutomationV1.7.py:41 | upper-casing keeps the length and maps each character in place |
| `Postcode.RemoveSpaces` | ErnieInfluencerGiftingAutomationV1.7.py:41 | deleting spaces keeps the multiset of characters except that every `' '` is gone; no longer than the input; only characters of the input |
| `Postcode.Normalize` | ErnieInfluencerGiftingAutomationV1.7.py:41 | the normalised postcode has no space and no lower-case ASCII letter, and is no longer than what was typed |
| `Postcode.RemoveSpacesAppend` | ErnieInfluencerGiftingAutomationV1.7.py:41 | deleting spaces distributes over concatenation, so it keeps the order of the other characters |
| `Postcode.UpperAllAppend` | ErnieInfluencerGiftingAutomationV1.7.py:41 | upper-casing distributes over concatenation |
| `Postcode.NormalizeAppend` | ErnieInfluencerGiftingAutomationV1.7.py:41 | normalising distributes over concatenation |
| `Postcode.RemoveSpacesFixed` | ErnieInfluencerGiftingAutomationV1.7.py:41 | a text without spaces is unchanged by the space deletion |
| `Postcode.UpperAllFixed` | ErnieInfluencerGiftingAutomationV1.7.py:41 | a text without lower-case letters is unchanged by upper-casing |
| `Postcode.NormalizeIdempotent` | ErnieInfluencerGiftingAutomationV1.7.py:41 | normalising twice equals normalising once |
| `Postcode.NormalizeCommutes` | ErnieInfluencerGiftingAutomationV1.7.py:41 | upper-casing then deleting spaces equals deleting spaces then upper-casing (an independent definition of the same postcode) |
| `Postcode.IgnoresSpace` | ErnieInfluencerGiftingAutomationV1.7.py:41 | a space inserted anywhere in the typed postcode does not change the normalised one |
| `Postcode.IgnoresCase` | ErnieInfluencerGiftingAutomationV1.7.py:41 | typing any character in upper case instead does not change the normalised postcode |
| `Schedule.MatchedRows` | ErnieInfluencerGiftingAutomationV1.7.py:46 | the filtered rows are rows of the table whose Postcode equals the postcode exactly, and every such row of the table is among them |
| `Schedule.MatchedRowsHead` | ErnieInfluencerGiftingAutomationV1.7.py:46-48 | the first filtered row (`iloc[0]`) is the table's first row with that Postcode |
| `Schedule.Resolve` | ErnieInfluencerGiftingAutomationV1.7.py:45-48 | no lookup exactly when the normalised postcode is empty; NotFound exactly when it is non-empty and no row has it; Found only with the Sched of a row whose Postcode equals it |
| `Schedule.ResolveFirstMatch` | ErnieInfluencerGiftingAutomationV1.7.py:46-48 | when several rows share the postcode, the first one's schedule is the result |
| `Schedule.ResolveIgnoresCaseAndSpaces` | ErnieInfluencerGiftingAutomationV1.7.py:41-48 | two entries that normalise alike resolve alike |
| `Delivery.WeekdayOf` | ErnieInfluencerGiftingAutomationV1.7.py:58 | the weekday is in 0..6, and serial day 1 (and every seventh after it) is a Monday |
| `Delivery.ShiftWeekday` | ErnieInfluencerGiftingAutomationV1.7.py:58 | k days later the weekday is k places further round the week |
| `Delivery.Weekday` | ErnieInfluencerGiftingAutomationV1.7.py:58 | a date's weekday (`date.weekday()`) is in 0..6 and is WeekdayOf its serial number; what the numbers mean (Monday anchor, shift by k days) is proved for WeekdayOf and ShiftWeekday |
| `Delivery.ValidWeekdays` | ErnieInfluencerGiftingAutomationV1.7.py:52-53 | MWF allows exactly weekdays 0, 2, 4 (Monday, Wednesday, Friday) and TTS exactly 1, 3, 5 (Tuesday, Thursday, Saturday); any other code allows none; Sunday is never allowed |
| `Delivery.DisableInvalidDays` | ErnieInfluencerGiftingAutomationV1.7.py:57-58 | a date is flagged exactly when no entry of the allowed-weekday list equals its weekday (the list's `not in`); which dates each schedule flags is proved in MwfAllows, TtsAllows, SchedulesCoverWeek and UnknownScheduleFlagsAll |
| `Delivery.MwfAllows` | ErnieInfluencerGiftingAutomationV1.7.py:52-58 | under MWF a date is accepted exactly when its weekday is 0, 2 or 4 |
| `Delivery.TtsAllows` | ErnieInfluencerGiftingAutomationV1.7.py:52-58 | under TTS a date is accepted exactly when its weekday is 1, 3 or 5 |
| `Delivery.SchedulesDisjoint` | ErnieInfluencerGiftingAutomationV1.7.py:52 | no weekday is allowed by both MWF and TTS |
| `Delivery.SchedulesCoverWeek` | ErnieInfluencerGiftingAutomationV1.7.py:52-58 | a date is flagged under both schedules exactly when it is a Sunday, and under exactly one of them otherwise |
| `Delivery.UnknownScheduleFlagsAll` | ErnieInfluencerGiftingAutomationV1.7.py:53-58 | with a schedule code other than MWF or TTS every date is flagged invalid |
| `Delivery.DateInput` | ErnieInfluencerGiftingAutomationV1.7.py:60-66 | the start date lies between today and today + 30 days inclusive, is today when the user picked nothing and the picked date otherwise |
| `Delivery.AllowedDateSoon` | ErnieInfluencerGiftingAutomationV1.7.py:52-64 | for MWF or TTS an allowed date lies within two days of today, so the window always offers one |
| `Delivery.Padded` | ErnieInfluencerGiftingAutomationV1.7.py:87 | a zero-padded number has exactly the requested width and only decimal digits |
| `Delivery.PaddedRoundTrip` | ErnieInfluencerGiftingAutomationV1.7.py:87 | reading a zero-padded number back gives the number |
| `Delivery.FormatDate` | ErnieInfluencerGiftingAutomationV1.7.py:87 | `%d/%m/%Y` text is ten characters: two digits, '/', two digits, '/', four digits |
| `Delivery.FormatParseRoundTrip` | ErnieInfluencerGiftingAutomationV1.7.py:87 | the formatted date parses back to the same day, month and year |
| `Delivery.FormatInjective` | ErnieInfluencerGiftingAutomationV1.7.py:87 | two dates formatted alike have the same day, month and year |
| `Submission.SheetRow` | ErnieInfluencerGiftingAutomationV1.7.py:87-88 | the row has six fields: email, username, normalised postcode, phone, bundle, then a date text that parses back to the start date |
| `Submission.Complete` | ErnieInfluencerGiftingAutomationV1.7.py:77 | written as `all` over RequiredFields (a five-entry list), the form is complete exactly when email, username, normalised postcode, phone and bundle are all non-empty |
| `Submission.BundleNeverBlocks` | ErnieInfluencerGiftingAutomationV1.7.py:43-77 | the bundle drop-down only returns non-empty choices, so completeness depends on the other four fields alone |
| `Submission.SubmitOutcome` | ErnieInfluencerGiftingAutomationV1.7.py:76-94 | nothing is attempted exactly when a required field is empty; a row is saved exactly when the form is complete, a start date is set and the sheet is reachable, and it is SheetRow; with no start date nothing is saved; a complete form fails with the authorisation, opening, unbound-date or append failure in the handler's order (auth, open, date, append) |
| `Submission.Worksheet.constructor` | ErnieInfluencerGiftingAutomationV1.7.py:84 | the worksheet starts with the given rows |
| `Submission.Worksheet.AppendRow` | ErnieInfluencerGiftingAutomationV1.7.py:91 | appending adds the row after the existing rows and changes nothing else |
| `Submission.Submit` | ErnieInfluencerGiftingAutomationV1.7.py:76-94 | the handler's result is SubmitOutcome, and the sheet grows by exactly the saved row or stays as it was |
| `Submission.RenderPage` | ErnieInfluencerGiftingAutomationV1.7.py:45-73 | the page shows the postcode's resolution; a start date is set exactly when a schedule was found, and it is the picker's value (today by default, the pick otherwise) inside the window; the warning shows exactly when the start date's weekday is not allowed by the found schedule |
| `Submission.RunPage` | ErnieInfluencerGiftingAutomationV1.7.py:39-94 | one run renders the page and, only when Submit was clicked, handles it; the sheet grows by one row only on a save |
| `Submission.WarningDoesNotBlock` | ErnieInfluencerGiftingAutomationV1.7.py:67-91 | a weekday warning does not stop a complete form being saved with the picked date |
| `Submission.UnresolvedNeverSaves` | ErnieInfluencerGiftingAutomationV1.7.py:60-94 | when the postcode is empty or not found, no click saves a row |
| `Submission.SavedRowDate` | ErnieInfluencerGiftingAutomationV1.7.py:60-91 | a saved row's date is the picker's value (the pick, or today when nothing was picked), lies in the window and parses back from the row |

## Left out

- The widgets and messages (title, success, warning, error and info boxes): only the values the widgets return are modelled, and which message appears is the `Resolution`, `dateWarning` and `Outcome` values.
- Loading the service-account credentials and the private-key line-break fix (lines 10-25): credential handling; a failure there is the `AuthFails` sink status.
- Fetching the schedule CSV over HTTP and caching it (lines 28-33): network I/O; the table is a parameter. Pandas type coercion of the columns (a numeric-looking Postcode column, an empty Sched cell) is not modelled; both columns are text.
- Authorising with the sheet service, opening the spreadsheet by URL and the real append (lines 82-84, 91): network calls; they are the `SinkStatus` parameter and the `Worksheet` class.
- The clock and calendar arithmetic: `today` is a parameter, and how the serial day number relates to day, month and year (month lengths, leap years) is not modelled; a date is only required to have day 1..31, month 1..12 and year 1..9999.
- Case mapping outside ASCII: `str.upper` maps every Unicode letter (some to two characters); the model upper-cases only 'a'..'z'.
- Years below 1000: `Delivery.FormatDate` pads the year to four digits as `%Y` is documented; a C library that prints years below 1000 without padding differs, but the window starts at the clock's today, so such years never reach the sheet.
- Streamlit's rerun of the whole page on every interaction: each run is modelled on its own, with the picker's value given as input.
