/**
 * One run of the order page and its Submit handler: the postcode is
 * resolved, a start date is offered when a schedule was found, and a click
 * on Submit either appends one six-field row to the worksheet or appends
 * nothing (incomplete form, a failure reaching the sheet, or no start date
 * because the postcode was not resolved).
 */
module Submission {
  import opened Wrappers
  import opened Postcode
  import opened Schedule
  import opened Delivery

  /** The values the form's widgets return in one run. */
  datatype Inputs = Inputs(
    email: string,
    username: string,
    rawPostcode: string,   // as typed, before normalisation
    phone: string,
    bundle: string)        // one of BundleOptions

  /** The choices the bundle drop-down offers. */
  const BundleOptions: seq<string> := ["vegan", "non-vegan"]

  /** The fields the Submit handler requires, in the order it lists them. */
  function RequiredFields(form: Inputs): (fs: seq<string>)
    ensures |fs| == 5
  {
    [form.email, form.username, Normalize(form.rawPostcode), form.phone, form.bundle]
  }

  /** Every required field has something in it; the postcode counts once normalised. */
  predicate Complete(form: Inputs): (c: bool)
    ensures c <==> form.email != [] && form.username != [] && Normalize(form.rawPostcode) != [] &&
                   form.phone != [] && form.bundle != []
  {
    var fs := RequiredFields(form);
    assert fs[0] == form.email && fs[1] == form.username && fs[2] == Normalize(form.rawPostcode);
    assert fs[3] == form.phone && fs[4] == form.bundle;
    forall i :: 0 <= i < |fs| ==> fs[i] != []
  }

  /** Whatever the drop-down returns is non-empty, so the bundle never holds up a submit. */
  lemma BundleNeverBlocks(form: Inputs)
    requires form.bundle in BundleOptions
    ensures Complete(form) <==> form.email != [] && form.username != [] &&
                                Normalize(form.rawPostcode) != [] && form.phone != []
  {
  }

  /** The row written to the sheet: email, username, postcode, phone, bundle, dd/mm/yyyy. */
  function SheetRow(form: Inputs, start: ValidDate): (row: seq<string>)
    ensures |row| == 6
    ensures row[..5] == [form.email, form.username, Normalize(form.rawPostcode), form.phone, form.bundle]
    ensures ParseDate(row[5]) == Some((start.day, start.month, start.year))
  {
    FormatParseRoundTrip(start);
    [form.email, form.username, Normalize(form.rawPostcode), form.phone, form.bundle, FormatDate(start)]
  }

  /** How the external sheet service behaves on this click. */
  datatype SinkStatus =
    | Reachable    // authorising, opening and appending all succeed
    | AuthFails    // authorising the service account raises
    | OpenFails    // opening the spreadsheet by its URL, or reading its first worksheet, raises
    | AppendFails  // the append itself raises

  /** Why a complete form was not saved; each is caught and shown as an error. */
  datatype Failure = AuthFailed | OpenFailed | StartDateUnbound | AppendFailed

  /** What a click on Submit ends in. */
  datatype Outcome =
    | Incomplete           // a required field is empty: nothing is attempted
    | Saved(row: seq<string>)
    | Failed(reason: Failure)

  /**
   * The outcome of a click on Submit, taking the steps in the handler's
   * order: the field check, authorising, opening the sheet, formatting the
   * start date (which fails when no start date was set in this run), and
   * the append.
   */
  function SubmitOutcome(form: Inputs, start: Option<ValidDate>, sink: SinkStatus): (o: Outcome)
    ensures o.Incomplete? <==> !Complete(form)
    ensures o.Saved? <==> Complete(form) && start.Some? && sink.Reachable?
    ensures o.Saved? ==> o.row == SheetRow(form, start.value)
    ensures start.None? ==> !o.Saved?
    ensures o == Failed(StartDateUnbound) <==>
      Complete(form) && start.None? && (sink.Reachable? || sink.AppendFails?)
    ensures Complete(form) && sink.AuthFails? ==> o == Failed(AuthFailed)
    ensures Complete(form) && sink.OpenFails? ==> o == Failed(OpenFailed)
    ensures Complete(form) && start.Some? && sink.AppendFails? ==> o == Failed(AppendFailed)
  {
    if !Complete(form) then Incomplete
    else if sink.AuthFails? then Failed(AuthFailed)
    else if sink.OpenFails? then Failed(OpenFailed)
    else if start.None? then Failed(StartDateUnbound)
    else if sink.AppendFails? then Failed(AppendFailed)
    else Saved(SheetRow(form, start.value))
  }

  /** The worksheet the rows are appended to. */
  class Worksheet {
    var rows: seq<seq<string>>

    constructor (initial: seq<seq<string>>)
      ensures rows == initial
    {
      rows := initial;
    }

    /** Append one row after the existing ones. */
    method AppendRow(data: seq<string>)
      modifies this
      ensures rows == old(rows) + [data]
    {
      rows := rows + [data];
    }
  }

  /**
   * The Submit handler: appends exactly the row SubmitOutcome reports as
   * saved, and otherwise leaves the worksheet as it was.
   */
  method Submit(ws: Worksheet, form: Inputs, start: Option<ValidDate>, sink: SinkStatus) returns (o: Outcome)
    modifies ws
    ensures o == SubmitOutcome(form, start, sink)
    ensures ws.rows == if o.Saved? then old(ws.rows) + [o.row] else old(ws.rows)
  {
    if !Complete(form) {
      return Incomplete;
    }
    if sink.AuthFails? {
      return Failed(AuthFailed);
    }
    if sink.OpenFails? {
      return Failed(OpenFailed);
    }
    if start.None? {
      return Failed(StartDateUnbound);
    }
    var data := SheetRow(form, start.value);
    if sink.AppendFails? {
      return Failed(AppendFailed);
    }
    ws.AppendRow(data);
    o := Saved(data);
  }

  /** What one run of the page shows above the Submit button. */
  datatype Page = Page(
    resolution: Resolution,
    startDate: Option<ValidDate>,   // set only when a schedule was found
    dateWarning: bool)              // the picked date is on a weekday the schedule does not allow

  /** Resolve the postcode and, when a schedule is found, read the date picker and check its weekday. */
  function RenderPage(table: seq<Row>, form: Inputs, today: ValidDate, picked: Option<ValidDate>): (p: Page)
    requires picked.Some? ==> Selectable(today, picked.value)
    ensures p.resolution == Resolve(table, form.rawPostcode)
    ensures p.startDate.Some? <==> p.resolution.Found?
    ensures p.startDate.Some? ==> Selectable(today, p.startDate.value)
    ensures p.startDate.Some? ==> p.startDate.value == DateInput(today, picked)
    ensures p.dateWarning <==>
      p.resolution.Found? && Weekday(p.startDate.value) !in ValidWeekdays(p.resolution.sched)
  {
    var r := Resolve(table, form.rawPostcode);
    if r.Found? then
      var start := DateInput(today, picked);
      Page(r, Some(start), DisableInvalidDays(ValidWeekdays(r.sched), start))
    else
      Page(r, None, false)
  }

  /** One whole run: render the page, then handle a click on Submit if there was one. */
  method RunPage(ws: Worksheet, table: seq<Row>, form: Inputs, today: ValidDate,
                 picked: Option<ValidDate>, clicked: bool, sink: SinkStatus)
    returns (p: Page, o: Option<Outcome>)
    requires picked.Some? ==> Selectable(today, picked.value)
    modifies ws
    ensures p == RenderPage(table, form, today, picked)
    ensures o == if clicked then Some(SubmitOutcome(form, p.startDate, sink)) else None
    ensures ws.rows == if o.Some? && o.value.Saved? then old(ws.rows) + [o.value.row] else old(ws.rows)
  {
    p := RenderPage(table, form, today, picked);
    o := None;
    if clicked {
      var r := Submit(ws, form, p.startDate, sink);
      o := Some(r);
    }
  }

  /** A warning about the date's weekday does not stop the row being saved, with that date in it. */
  lemma WarningDoesNotBlock(table: seq<Row>, form: Inputs, today: ValidDate, picked: Option<ValidDate>)
    requires picked.Some? ==> Selectable(today, picked.value)
    requires RenderPage(table, form, today, picked).dateWarning
    requires Complete(form)
    ensures var p := RenderPage(table, form, today, picked);
      SubmitOutcome(form, p.startDate, Reachable) == Saved(SheetRow(form, DateInput(today, picked)))
  {
  }

  /** A postcode that does not resolve never gets a row saved, whatever else is filled in. */
  lemma UnresolvedNeverSaves(table: seq<Row>, form: Inputs, today: ValidDate,
                             picked: Option<ValidDate>, sink: SinkStatus)
    requires picked.Some? ==> Selectable(today, picked.value)
    requires !Resolve(table, form.rawPostcode).Found?
    ensures !SubmitOutcome(form, RenderPage(table, form, today, picked).startDate, sink).Saved?
  {
  }

  /**
   * A saved row's date is one the picker offered and reads back as the
   * picker's value: the date picked, or today when nothing was picked.
   */
  lemma SavedRowDate(table: seq<Row>, form: Inputs, today: ValidDate, picked: Option<ValidDate>, sink: SinkStatus)
    requires picked.Some? ==> Selectable(today, picked.value)
    requires SubmitOutcome(form, RenderPage(table, form, today, picked).startDate, sink).Saved?
    ensures var p := RenderPage(table, form, today, picked);
      var o := SubmitOutcome(form, p.startDate, sink);
      var d := DateInput(today, picked);
      p.startDate == Some(d) && Selectable(today, d) &&
      ParseDate(o.row[5]) == Some((d.day, d.month, d.year)) &&
      (picked.None? ==> d == today) && (picked.Some? ==> d == picked.value)
  {
  }
}
