/**
 * The report builder wizard: step 0 configures the report, step 1 picks
 * the data sources, step 2 shows the generated report.  Selections made in
 * other applications fill the data-source fields.
 *
 * The form store is the record `form`; the clock is `now`; each random
 * draw is a parameter in [0, 1); what the wizard sends out is appended to
 * `effects`.
 */
module ReportBuilderComponent {
  import opened Options
  import opened Strings

  const Source := "remote-distributed"

  datatype ReportType = Sales | Users | Inventory | Custom
  datatype ChartType = Bar | Line | Pie

  /** A picked date range; the two ends are kept as the picker gives them. */
  datatype DateRange = DateRange(start: string, end: string)

  /** The values held by the form store; a field nobody has set is `None`. */
  datatype FormValues = FormValues(
    title: Option<string>,
    reportType: Option<ReportType>,
    dateRange: Option<DateRange>,
    chartType: Option<ChartType>,
    includeUserId: Option<string>,
    includeProductId: Option<string>)

  /** The step-0 form's `initialValues`: a sales report drawn as bars. */
  const InitialForm := FormValues(None, Some(Sales), None, Some(Bar), None, None)

  /** A metric's value: a whole number, or the conversion rate text. */
  datatype MetricValue = Count(n: nat) | Rate(text: string)

  datatype Metric = Metric(metric: string, value: MetricValue)

  /** A generated report: its id, the form values, the generation time and the metric rows. */
  datatype Report = Report(id: string, values: FormValues, generatedAt: nat, data: seq<Metric>)

  /** `Math.floor(Math.random() * n)` for a draw `r` in [0, 1). */
  function Scaled(r: real, n: nat): (v: nat)
    requires 0.0 <= r < 1.0 && n > 0
    ensures v < n
    ensures v as real <= r * n as real < v as real + 1.0
  {
    var x := n as real;
    assert 0.0 <= r * x by {
      assert r >= 0.0 && x > 0.0;
    }
    assert r * x < x by {
      assert x - r * x == (1.0 - r) * x;
      assert (1.0 - r) * x > 0.0;
    }
    (r * x).Floor
  }

  /** The four metric rows, from three draws and the already formatted conversion rate. */
  function Metrics(sales: real, orders: real, users: real, conversion: string): (m: seq<Metric>)
    requires 0.0 <= sales < 1.0 && 0.0 <= orders < 1.0 && 0.0 <= users < 1.0
    ensures |m| == 4
    ensures m[0].metric == "Total Sales" && m[0].value.Count? && m[0].value.n < 100000
    ensures m[1].metric == "Orders" && m[1].value.Count? && m[1].value.n < 1000
    ensures m[2].metric == "Users" && m[2].value.Count? && m[2].value.n < 500
    ensures m[3] == Metric("Conversion", Rate(conversion + "%"))
  {
    [ Metric("Total Sales", Count(Scaled(sales, 100000))),
      Metric("Orders", Count(Scaled(orders, 1000))),
      Metric("Users", Count(Scaled(users, 500))),
      Metric("Conversion", Rate(conversion + "%")) ]
  }

  /** A template literal prints a missing title as `undefined`. */
  function TitleText(title: Option<string>): (t: string)
    ensures title.Some? ==> t == title.value
    ensures title.None? ==> t == "undefined"
  {
    if title.Some? then title.value else "undefined"
  }

  /** The notification title announcing a generated report. */
  function GeneratedTitle(title: Option<string>): (t: string)
    ensures |t| == |TitleText(title)| + 19 && t[..8] == "Report \""
    ensures t[8..8 + |TitleText(title)|] == TitleText(title)
    ensures t[8 + |TitleText(title)|..] == "\" generated"
    ensures title.Some? ==> t[8..8 + |title.value|] == title.value
  {
    "Report \"" + TitleText(title) + "\" generated"
  }

  /** What the wizard sends out. */
  datatype Effect =
    | EmitNotification(notificationType: string, title: string, source: string)
    | ToastInfo(text: string)
    | ToastSuccess(successText: string)

  /** An edit of one form field; each field is rendered only on its own step. */
  datatype FieldEdit =
    | SetTitle(title: Option<string>)
    | SetReportType(reportType: ReportType)
    | SetDateRange(dateRange: Option<DateRange>)
    | SetChartType(chartType: ChartType)
    | SetUserId(userId: Option<string>)
    | SetProductId(productId: Option<string>)

  /** The step on which the edited field's input is shown. */
  function StepOf(e: FieldEdit): (step: nat)
    ensures step <= 1
    ensures step == 1 <==> e.SetUserId? || e.SetProductId?
  {
    match e
    case SetUserId(_) => 1
    case SetProductId(_) => 1
    case _ => 0
  }

  /** The form after an edit: the one field changes, every other field is kept. */
  function ApplyEdit(f: FormValues, e: FieldEdit): (g: FormValues)
    ensures g.title == (if e.SetTitle? then e.title else f.title)
    ensures g.reportType == (if e.SetReportType? then Some(e.reportType) else f.reportType)
    ensures g.dateRange == (if e.SetDateRange? then e.dateRange else f.dateRange)
    ensures g.chartType == (if e.SetChartType? then Some(e.chartType) else f.chartType)
    ensures g.includeUserId == (if e.SetUserId? then e.userId else f.includeUserId)
    ensures g.includeProductId == (if e.SetProductId? then e.productId else f.includeProductId)
  {
    match e
    case SetTitle(t) => f.(title := t)
    case SetReportType(t) => f.(reportType := Some(t))
    case SetDateRange(r) => f.(dateRange := r)
    case SetChartType(c) => f.(chartType := Some(c))
    case SetUserId(u) => f.(includeUserId := u)
    case SetProductId(p) => f.(includeProductId := p)
  }

  /**
   * `form.getFieldsValue()` with no argument: the store's values of the
   * fields whose inputs are mounted, which are those rendered on `step`;
   * every other field reads as unset.
   */
  function MountedValues(f: FormValues, step: nat): (v: FormValues)
    ensures step == 0 ==> v.title == f.title && v.reportType == f.reportType
    ensures step == 0 ==> v.dateRange == f.dateRange && v.chartType == f.chartType
    ensures step == 1 ==> v.includeUserId == f.includeUserId && v.includeProductId == f.includeProductId
    ensures step != 0 ==> v.title.None? && v.reportType.None? && v.dateRange.None? && v.chartType.None?
    ensures step != 1 ==> v.includeUserId.None? && v.includeProductId.None?
  {
    if step == 0 then FormValues(f.title, f.reportType, f.dateRange, f.chartType, None, None)
    else if step == 1 then FormValues(None, None, None, None, f.includeUserId, f.includeProductId)
    else FormValues(None, None, None, None, None, None)
  }

  /**
   * An edit changes only the fields of its own step: the fields mounted on
   * any other step read the same before and after it.
   */
  lemma EditStaysOnItsStep(f: FormValues, e: FieldEdit, step: nat)
    ensures StepOf(e) == 0 ==>
      ApplyEdit(f, e).includeUserId == f.includeUserId && ApplyEdit(f, e).includeProductId == f.includeProductId
    ensures StepOf(e) == 1 ==>
      ApplyEdit(f, e).title == f.title && ApplyEdit(f, e).reportType == f.reportType &&
      ApplyEdit(f, e).dateRange == f.dateRange && ApplyEdit(f, e).chartType == f.chartType
    ensures step != StepOf(e) ==> MountedValues(ApplyEdit(f, e), step) == MountedValues(f, step)
  {
  }

  /** The store auto-fill: a selected id is written only when it is non-empty. */
  function AutoFill(f: FormValues, selectedUserId: Option<string>, selectedProductId: Option<string>)
    : (g: FormValues)
    ensures g.title == f.title && g.reportType == f.reportType && g.dateRange == f.dateRange
    ensures g.chartType == f.chartType
    ensures g.includeUserId ==
      (if selectedUserId.Some? && selectedUserId.value != "" then selectedUserId else f.includeUserId)
    ensures g.includeProductId ==
      (if selectedProductId.Some? && selectedProductId.value != "" then selectedProductId else f.includeProductId)
  {
    var f1 := if selectedUserId.Some? && selectedUserId.value != "" then f.(includeUserId := selectedUserId) else f;
    if selectedProductId.Some? && selectedProductId.value != "" then f1.(includeProductId := selectedProductId) else f1
  }

  /** An empty or missing selection leaves the form as it is. */
  lemma AutoFillSkipsEmpty(f: FormValues)
    ensures AutoFill(f, None, None) == f
    ensures AutoFill(f, Some(""), Some("")) == f
  {
  }

  /** The report generated at time `now` from the form values. */
  function MakeReport(values: FormValues, now: nat, sales: real, orders: real, users: real, conversion: string)
    : (r: Report)
    requires 0.0 <= sales < 1.0 && 0.0 <= orders < 1.0 && 0.0 <= users < 1.0
    ensures r.id == "RPT-" + NatToString(now)
    ensures r.values == values && r.generatedAt == now
    ensures |r.data| == 4
  {
    Report("RPT-" + NatToString(now), values, now, Metrics(sales, orders, users, conversion))
  }

  /** The wizard's state. */
  class Builder {
    var current: nat
    var generatedReport: Option<Report>
    var form: FormValues
    var effects: seq<Effect>

    /** Steps 0 to 2 only; a report exists exactly on step 2, and it has four metric rows. */
    ghost predicate Valid()
      reads this
    {
      current <= 2 &&
      (generatedReport.Some? <==> current == 2) &&
      (generatedReport.Some? ==> |generatedReport.value.data| == 4)
    }

    /** `current === 2 && generatedReport`: the result panel is on screen. */
    predicate ShowsResult()
      reads this
    {
      current == 2 && generatedReport.Some?
    }

    constructor ()
      ensures current == 0 && generatedReport == None && form == InitialForm && effects == []
      ensures Valid()
    {
      current := 0;
      generatedReport := None;
      form := InitialForm;
      effects := [];
    }

    /** A USER_SELECTED event overwrites the user field, whatever step is shown. */
    method OnUserSelected(userId: string)
      modifies this
      ensures form == old(form).(includeUserId := Some(userId))
      ensures effects == old(effects) + [ToastInfo("User " + userId + " included in report")]
      ensures current == old(current) && generatedReport == old(generatedReport)
    {
      form := form.(includeUserId := Some(userId));
      effects := effects + [ToastInfo("User " + userId + " included in report")];
    }

    /** A PRODUCT_SELECTED event overwrites the product field. */
    method OnProductSelected(productId: string)
      modifies this
      ensures form == old(form).(includeProductId := Some(productId))
      ensures effects == old(effects) + [ToastInfo("Product " + productId + " included in report")]
      ensures current == old(current) && generatedReport == old(generatedReport)
    {
      form := form.(includeProductId := Some(productId));
      effects := effects + [ToastInfo("Product " + productId + " included in report")];
    }

    /** The store selection changed: fill the fields from it. */
    method OnStoreSelection(selectedUserId: Option<string>, selectedProductId: Option<string>)
      modifies this
      ensures form == AutoFill(old(form), selectedUserId, selectedProductId)
      ensures current == old(current) && generatedReport == old(generatedReport) && effects == old(effects)
    {
      form := AutoFill(form, selectedUserId, selectedProductId);
    }

    /** The user edits a field of the form shown on the current step. */
    method EditField(e: FieldEdit)
      requires current == StepOf(e)
      modifies this
      ensures form == ApplyEdit(old(form), e)
      ensures current == old(current) && generatedReport == old(generatedReport) && effects == old(effects)
    {
      form := ApplyEdit(form, e);
    }

    /** Next, shown on step 0. */
    method Next()
      requires Valid() && current == 0
      modifies this
      ensures current == 1 && generatedReport == None
      ensures form == old(form) && effects == old(effects)
      ensures Valid()
    {
      current := 1;
    }

    /** Back, shown on step 1. */
    method Back()
      requires Valid() && current == 1
      modifies this
      ensures current == 0 && generatedReport == None
      ensures form == old(form) && effects == old(effects)
      ensures Valid()
    {
      current := 0;
    }

    /**
     * What Generate Report does with the values it reads: build the report
     * from them, go to step 2 and announce the report once under their title.
     */
    method Generate(values: FormValues, now: nat, sales: real, orders: real, users: real, conversion: string)
      requires Valid() && current == 1
      requires 0.0 <= sales < 1.0 && 0.0 <= orders < 1.0 && 0.0 <= users < 1.0
      modifies this
      ensures current == 2
      ensures generatedReport == Some(MakeReport(values, now, sales, orders, users, conversion))
      ensures effects == old(effects) + [EmitNotification("success", GeneratedTitle(values.title), Source)]
      ensures form == old(form)
      ensures Valid() && ShowsResult()
    {
      var report := MakeReport(values, now, sales, orders, users, conversion);
      generatedReport := Some(report);
      current := 2;
      effects := effects + [EmitNotification("success", GeneratedTitle(values.title), Source)];
    }

    /**
     * Generate Report as the handler is written: it reads `getFieldsValue()`,
     * which on step 1 holds only the two data-source fields.
     */
    method HandleGenerateAsWritten(now: nat, sales: real, orders: real, users: real, conversion: string)
      requires Valid() && current == 1
      requires 0.0 <= sales < 1.0 && 0.0 <= orders < 1.0 && 0.0 <= users < 1.0
      modifies this
      ensures current == 2
      ensures generatedReport == Some(MakeReport(MountedValues(old(form), 1), now, sales, orders, users, conversion))
      ensures generatedReport.value.values.title == None
      ensures effects == old(effects) + [EmitNotification("success", "Report \"undefined\" generated", Source)]
      ensures form == old(form)
      ensures Valid() && ShowsResult()
    {
      AsWrittenLosesTitle(form, now, sales, orders, users, conversion);
      Generate(MountedValues(form, 1), now, sales, orders, users, conversion);
    }

    /**
     * Generate Report reading the whole store (`getFieldsValue(true)`), so the
     * report and its announcement carry the title entered on step 0.
     */
    method HandleGenerate(now: nat, sales: real, orders: real, users: real, conversion: string)
      requires Valid() && current == 1
      requires 0.0 <= sales < 1.0 && 0.0 <= orders < 1.0 && 0.0 <= users < 1.0
      modifies this
      ensures current == 2
      ensures generatedReport == Some(MakeReport(old(form), now, sales, orders, users, conversion))
      ensures generatedReport.value.values.title == old(form).title
      ensures effects == old(effects) + [EmitNotification("success", GeneratedTitle(old(form).title), Source)]
      ensures form == old(form)
      ensures Valid() && ShowsResult()
    {
      Generate(form, now, sales, orders, users, conversion);
    }

    /** Export PDF, shown with the result: a toast and one info notification. */
    method HandleExport()
      requires ShowsResult()
      modifies this
      ensures effects == old(effects) +
        [ToastSuccess("Report exported to PDF"),
         EmitNotification("info", "Report exported from Reports app", Source)]
      ensures current == old(current) && generatedReport == old(generatedReport) && form == old(form)
    {
      effects := effects + [ToastSuccess("Report exported to PDF"),
                            EmitNotification("info", "Report exported from Reports app", Source)];
    }

    /** New Report, shown with the result: back to step 0 with no report. */
    method NewReport()
      requires ShowsResult()
      modifies this
      ensures current == 0 && generatedReport == None
      ensures form == old(form) && effects == old(effects)
      ensures Valid()
    {
      current := 0;
      generatedReport := None;
    }
  }

  /**
   * As written, the report built on step 1 holds no title (only the two
   * data-source fields), and the announcement reads `Report "undefined" generated`,
   * whatever title the store holds.
   */
  lemma AsWrittenLosesTitle(f: FormValues, now: nat, sales: real, orders: real, users: real, conversion: string)
    requires 0.0 <= sales < 1.0 && 0.0 <= orders < 1.0 && 0.0 <= users < 1.0
    ensures MakeReport(MountedValues(f, 1), now, sales, orders, users, conversion).values ==
      FormValues(None, None, None, None, f.includeUserId, f.includeProductId)
    ensures GeneratedTitle(MountedValues(f, 1).title) == "Report \"undefined\" generated"
  {
    var t := GeneratedTitle(MountedValues(f, 1).title);
    assert |t| == 28;
    forall i | 0 <= i < 28
      ensures t[i] == "Report \"undefined\" generated"[i]
    {
      if i < 8 {
        assert t[..8][i] == t[i];
      } else if i < 17 {
        assert t[8..17][i - 8] == t[i];
      } else {
        assert t[17..][i - 17] == t[i];
      }
    }
  }

  /** A title typed on step 0 is lost: the announcement differs from the one the title calls for. */
  lemma LostTitleExample()
    ensures var f := InitialForm.(title := Some("Monthly Sales Report"));
      GeneratedTitle(MountedValues(f, 1).title) != GeneratedTitle(f.title)
  {
    var f := InitialForm.(title := Some("Monthly Sales Report"));
    assert |GeneratedTitle(f.title)| == 39;
    assert |GeneratedTitle(MountedValues(f, 1).title)| == 28;
  }

  /** Reading the whole store, the report and its announcement carry the title. */
  lemma GenerateKeepsTitle(f: FormValues, t: string, now: nat, sales: real, orders: real, users: real, conversion: string)
    requires f.title == Some(t)
    requires 0.0 <= sales < 1.0 && 0.0 <= orders < 1.0 && 0.0 <= users < 1.0
    ensures MakeReport(f, now, sales, orders, users, conversion).values.title == Some(t)
    ensures GeneratedTitle(f.title) == "Report \"" + t + "\" generated"
  {
    var g := GeneratedTitle(f.title);
    var w := "Report \"" + t + "\" generated";
    assert |g| == |w|;
    forall i | 0 <= i < |g|
      ensures g[i] == w[i]
    {
      if i < 8 {
        assert g[..8][i] == g[i];
      } else if i < 8 + |t| {
        assert g[8..8 + |t|][i - 8] == g[i];
      } else {
        assert g[8 + |t|..][i - 8 - |t|] == g[i];
      }
    }
  }

  /** Under the invariant the result panel is shown exactly on step 2. */
  lemma ResultShownOnStepTwo(b: Builder)
    requires b.Valid()
    ensures b.ShowsResult() <==> b.current == 2
  {
  }

  /** A whole round: configure, generate, start over; the wizard is back at its start. */
  method RoundTrip(b: Builder, now: nat, sales: real, orders: real, users: real)
    requires b.Valid() && b.current == 0
    requires 0.0 <= sales < 1.0 && 0.0 <= orders < 1.0 && 0.0 <= users < 1.0
    modifies b
    ensures b.current == 0 && b.generatedReport == None && b.Valid()
    ensures b.form == old(b.form)
    ensures b.effects == old(b.effects) +
      [EmitNotification("success", GeneratedTitle(old(b.form).title), Source),
       ToastSuccess("Report exported to PDF"),
       EmitNotification("info", "Report exported from Reports app", Source)]
  {
    b.Next();
    b.HandleGenerate(now, sales, orders, users, "0.00");
    b.HandleExport();
    b.NewReport();
  }
}
