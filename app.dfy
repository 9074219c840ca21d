/**
 * The quote form as `compute` and the copy-summary handler see it: raw
 * field contents, the sanitised snapshot read from them, the field values
 * `compute` writes back, and the two places that price a quote.
 */
module App {
  import opened Inputs
  import opened Engine
  import EngineProperties

  /** One task row of the form: its `data-key` and what its two hour fields parse to. */
  datatype TaskRow = TaskRow(key: string, min: Option<real>, max: Option<real>)

  /** Every field of the form that the pricing reads (the free-text notes are not priced). */
  datatype Form = Form(
    tasks: seq<TaskRow>,
    includeWelding: bool,
    hourlyRate: Option<real>,
    materials: Option<real>,
    markup: Option<real>,
    rushOn: bool,
    rushPct: Option<real>,
    taxPct: Option<real>,
    onSite: bool,
    shopRate: Option<real>,
    siteRate: Option<real>,
    siteMin: Option<real>,
    siteMax: Option<real>,
    travelOn: bool,
    calloutFee: Option<real>,
    miles: Option<real>,
    mileageRate: Option<real>,
    tolls: Option<real>)

  /** `readTasks`: every row keeps its key, and each hour field is read as a non-negative number. */
  function ReadTasks(rows: seq<TaskRow>): (tasks: seq<Task>)
    ensures |tasks| == |rows|
    ensures forall i :: 0 <= i < |rows| ==> tasks[i].key == rows[i].key
    ensures forall i :: 0 <= i < |rows| ==> tasks[i].min == NonNeg(rows[i].min) && tasks[i].max == NonNeg(rows[i].max)
    ensures TasksNonNegative(tasks)
  {
    seq(|rows|, i requires 0 <= i < |rows| => Task(rows[i].key, NonNeg(rows[i].min), NonNeg(rows[i].max)))
  }

  /**
   * The snapshot `compute` reads from the form: every amount non-negative,
   * every percentage clamped to [0, 100] and turned into a fraction.
   */
  function Sanitise(form: Form): (q: QuoteInput)
    ensures NonNegative(q)
    ensures |q.tasks| == |form.tasks|
    ensures q.includeWelding == form.includeWelding
    ensures q.settings.onSite == form.onSite && q.settings.travelOn == form.travelOn && q.settings.rushOn == form.rushOn
  {
    QuoteInput(ReadTasks(form.tasks), form.includeWelding, Settings(
      NonNeg(form.hourlyRate),
      form.onSite, NonNeg(form.shopRate), NonNeg(form.siteRate), NonNeg(form.siteMin), NonNeg(form.siteMax),
      ClampPercent(form.markup) / 100.0, form.rushOn, ClampPercent(form.rushPct) / 100.0,
      ClampPercent(form.taxPct) / 100.0, NonNeg(form.materials),
      form.travelOn, NonNeg(form.calloutFee), NonNeg(form.miles), NonNeg(form.mileageRate), NonNeg(form.tolls)))
  }

  /**
   * A percent field as `compute` leaves it: a number in [0, 100], within half
   * a tenth of the clamped percentage that was typed.
   */
  predicate WrittenPercent(written: Option<real>, typed: Option<real>) {
    && written.Some? && 0.0 <= written.value <= 100.0
    && ClampPercent(typed) - 0.05 < written.value <= ClampPercent(typed) + 0.05
  }

  /**
   * The form after `compute` has written its sanitised readings back into the
   * percentage, on-site hour and travel fields (whether or not validation
   * passed); a percentage is written back rounded to one decimal.
   */
  function AfterCompute(form: Form): (f: Form)
    ensures f.(markup := form.markup, taxPct := form.taxPct, rushPct := form.rushPct,
               siteMin := form.siteMin, siteMax := form.siteMax, calloutFee := form.calloutFee,
               miles := form.miles, mileageRate := form.mileageRate, tolls := form.tolls) == form
    ensures f.markup == Some(Round1(ClampPercent(form.markup))) && WrittenPercent(f.markup, form.markup)
    ensures f.taxPct == Some(Round1(ClampPercent(form.taxPct))) && WrittenPercent(f.taxPct, form.taxPct)
    ensures f.rushPct == Some(Round1(ClampPercent(form.rushPct))) && WrittenPercent(f.rushPct, form.rushPct)
    ensures f.siteMin == Some(NonNeg(form.siteMin)) && f.siteMax == Some(NonNeg(form.siteMax))
    ensures f.calloutFee == Some(NonNeg(form.calloutFee)) && f.miles == Some(NonNeg(form.miles))
    ensures f.mileageRate == Some(NonNeg(form.mileageRate)) && f.tolls == Some(NonNeg(form.tolls))
  {
    Round1Percent(ClampPercent(form.markup));
    Round1Percent(ClampPercent(form.taxPct));
    Round1Percent(ClampPercent(form.rushPct));
    form.(markup := Some(Round1(ClampPercent(form.markup))),
          taxPct := Some(Round1(ClampPercent(form.taxPct))),
          rushPct := Some(Round1(ClampPercent(form.rushPct))),
          siteMin := Some(NonNeg(form.siteMin)),
          siteMax := Some(NonNeg(form.siteMax)),
          calloutFee := Some(NonNeg(form.calloutFee)),
          miles := Some(NonNeg(form.miles)),
          mileageRate := Some(NonNeg(form.mileageRate)),
          tolls := Some(NonNeg(form.tolls)))
  }

  /**
   * `compute`: read and clamp the fields, validate, and either refuse (every
   * output shows "—") or produce the breakdown. Also returns the form with
   * the values it writes back.
   */
  method Compute(form: Form) returns (r: QuoteResult, after: Form)
    ensures r == Price(Sanitise(form))
    ensures after == AfterCompute(form)
  {
    var mk, mkShown := ClampPctInput(form.markup);
    var tx, txShown := ClampPctInput(form.taxPct);
    var rPct, rShown := ClampPctInput(form.rushPct);

    var tasks := ReadTasks(form.tasks);
    var invalid := ValidateTasks(tasks);

    var onSiteEnabled := form.onSite;
    var siteMinVal := NonNeg(form.siteMin);
    var siteMaxVal := NonNeg(form.siteMax);
    if onSiteEnabled && siteMinVal > siteMaxVal {
      invalid := true;
    }

    var callout := NonNeg(form.calloutFee);
    var milesVal := NonNeg(form.miles);
    var mileage := NonNeg(form.mileageRate);
    var tollsVal := NonNeg(form.tolls);
    // `compute` writes the percentages, the on-site hours and the travel
    // fields back as it reads them, always and before the gate; the model
    // gathers those writes into one update.
    after := form.(markup := Some(mkShown), taxPct := Some(txShown), rushPct := Some(rShown),
                   siteMin := Some(siteMinVal), siteMax := Some(siteMaxVal),
                   calloutFee := Some(callout), miles := Some(milesVal),
                   mileageRate := Some(mileage), tolls := Some(tollsVal));

    // The rates and materials are read only past the gate in the source;
    // reading them is side-effect free, so they are read here.
    var settings := Settings(
      NonNeg(form.hourlyRate),
      onSiteEnabled, NonNeg(form.shopRate), NonNeg(form.siteRate), siteMinVal, siteMaxVal,
      mk, form.rushOn, rPct, tx, NonNeg(form.materials),
      form.travelOn, callout, milesVal, mileage, tollsVal);
    var q := QuoteInput(tasks, form.includeWelding, settings);
    assert q == Sanitise(form);
    r := GateAndPrice(q, invalid);
  }

  /** What the copy-summary button ends in: one of its two alerts, or a summary of the breakdown. */
  datatype CopyOutcome = FixTasksAlert | FixSiteAlert | Summary(figures: Breakdown)

  /** `parseFloat(a) > parseFloat(b)`: false when either side is NaN. */
  predicate ParsedGreater(a: Option<real>, b: Option<real>)
    ensures a.None? || b.None? ==> !ParsedGreater(a, b)
    ensures a.Some? && b.Some? && 0.0 <= a.value && 0.0 <= b.value ==> (ParsedGreater(a, b) <==> NonNeg(a) > NonNeg(b))
  {
    a.Some? && b.Some? && a.value > b.value
  }

  /** A percent field holding a number above 100, which only `compute` caps. */
  predicate AboveHundred(field: Option<real>) {
    field.Some? && field.value > 100.0
  }

  /**
   * The snapshot the copy handler reads from the fields: like `compute`, but
   * a percentage is only floored at 0 and not capped at 100, so the two
   * readings agree exactly when no percent field holds more than 100.
   */
  function CopySnapshot(f: Form): (q: QuoteInput)
    ensures TasksNonNegative(q.tasks) && q.tasks == Sanitise(f).tasks
    ensures q == Sanitise(f) <==> !AboveHundred(f.markup) && !AboveHundred(f.rushPct) && !AboveHundred(f.taxPct)
  {
    QuoteInput(ReadTasks(f.tasks), f.includeWelding, Settings(
      NonNeg(f.hourlyRate),
      f.onSite, NonNeg(f.shopRate), NonNeg(f.siteRate), NonNeg(f.siteMin), NonNeg(f.siteMax),
      NonNeg(f.markup) / 100.0, f.rushOn, NonNeg(f.rushPct) / 100.0,
      NonNeg(f.taxPct) / 100.0, NonNeg(f.materials),
      f.travelOn, NonNeg(f.calloutFee), NonNeg(f.miles), NonNeg(f.mileageRate), NonNeg(f.tolls)))
  }

  /**
   * The copy-summary handler: it first runs `compute` (which writes its
   * readings back into the form), then checks the task rows, then the
   * on-site range, and prices the quote from the fields once more.
   */
  function Copy(form: Form): (o: CopyOutcome)
    ensures o == FixTasksAlert <==> !TasksValid(Sanitise(form).tasks)
    ensures o == FixSiteAlert <==>
              TasksValid(Sanitise(form).tasks) && form.onSite && Sanitise(form).settings.siteMin > Sanitise(form).settings.siteMax
    ensures o.Summary? <==> Valid(Sanitise(form))
  {
    var f := AfterCompute(form);
    var tasks := ReadTasks(f.tasks);
    CopyChecksWhatComputeChecks(form);
    if exists i :: 0 <= i < |tasks| && tasks[i].min > tasks[i].max then FixTasksAlert
    else if f.onSite && ParsedGreater(f.siteMin, f.siteMax) then FixSiteAlert
    else Summary(Figures(CopySnapshot(f)))
  }

  /**
   * The copy handler's checks read what `compute` read: the same task rows,
   * and, on the on-site fields `compute` wrote back, the same comparison.
   */
  lemma CopyChecksWhatComputeChecks(form: Form)
    ensures var f, q := AfterCompute(form), Sanitise(form);
            && ReadTasks(f.tasks) == q.tasks && f.onSite == form.onSite
            && (ParsedGreater(f.siteMin, f.siteMax) <==> q.settings.siteMin > q.settings.siteMax)
  {
  }

  /** The clamped percentages are whole numbers of tenths, so writing them back rounded loses nothing. */
  predicate TenthsPercents(form: Form) {
    && Round1(ClampPercent(form.markup)) == ClampPercent(form.markup)
    && Round1(ClampPercent(form.rushPct)) == ClampPercent(form.rushPct)
    && Round1(ClampPercent(form.taxPct)) == ClampPercent(form.taxPct)
  }

  /**
   * The copy handler repeats `compute`'s formula on the fields `compute` has
   * just written back: it prices exactly what a second `compute` would, it
   * produces a summary exactly when `compute` produces figures, and when no
   * percentage was rounded its figures are those `compute` showed.
   */
  lemma CopyAgreesWithCompute(form: Form)
    ensures CopySnapshot(AfterCompute(form)) == Sanitise(AfterCompute(form))
    ensures Copy(form).Summary? <==> Price(Sanitise(form)).Quote?
    ensures Copy(form).Summary? ==> Copy(form).figures == Price(Sanitise(AfterCompute(form))).figures
    ensures TenthsPercents(form) ==> CopySnapshot(AfterCompute(form)) == Sanitise(form)
  {
    var f := AfterCompute(form);
    WrittenPercentStable(form.markup);
    WrittenPercentStable(form.rushPct);
    WrittenPercentStable(form.taxPct);
    assert Sanitise(f).tasks == Sanitise(form).tasks;
    assert CopySnapshot(f) == Sanitise(f);
  }

  /**
   * From the second `compute` on nothing changes: the written-back form is
   * written back unchanged, its percentages are whole tenths, and it passes
   * validation exactly when the typed form did. When no percentage was
   * rounded it also reads as the same snapshot.
   */
  lemma RecomputeIdempotent(form: Form)
    ensures AfterCompute(AfterCompute(form)) == AfterCompute(form)
    ensures TenthsPercents(AfterCompute(form))
    ensures Price(Sanitise(AfterCompute(form))).Quote? <==> Price(Sanitise(form)).Quote?
    ensures TenthsPercents(form) ==> Sanitise(AfterCompute(form)) == Sanitise(form)
  {
    WrittenPercentStable(form.markup);
    WrittenPercentStable(form.rushPct);
    WrittenPercentStable(form.taxPct);
    SnapshotOfWritten(form);
  }

  /**
   * The next `compute` reads the same snapshot as the first, except that each
   * percentage is the one-decimal rounding the first wrote back.
   */
  lemma SnapshotOfWritten(form: Form)
    ensures var q := Sanitise(form);
            Sanitise(AfterCompute(form)) == q.(settings := q.settings.(
              markup := Round1(ClampPercent(form.markup)) / 100.0,
              rush := Round1(ClampPercent(form.rushPct)) / 100.0,
              tax := Round1(ClampPercent(form.taxPct)) / 100.0))
  {
    WrittenPercentStable(form.markup);
    WrittenPercentStable(form.rushPct);
    WrittenPercentStable(form.taxPct);
    assert Sanitise(AfterCompute(form)).tasks == Sanitise(form).tasks;
  }

  /**
   * The converse: a percentage that is not a whole number of tenths once
   * clamped changes the snapshot the next `compute` reads, whether or not
   * the changed rate reaches a figure (a rush rate with rush off does not).
   */
  lemma RoundingChangesSnapshot(form: Form)
    requires !TenthsPercents(form)
    ensures Sanitise(AfterCompute(form)) != Sanitise(form)
  {
    var next := Sanitise(AfterCompute(form));
    SnapshotOfWritten(form);
    if Round1(ClampPercent(form.markup)) != ClampPercent(form.markup) {
      assert next.settings.markup != Sanitise(form).settings.markup;
    } else if Round1(ClampPercent(form.rushPct)) != ClampPercent(form.rushPct) {
      assert next.settings.rush != Sanitise(form).settings.rush;
    } else {
      assert next.settings.tax != Sanitise(form).settings.tax;
    }
  }


  /**
   * A percentage typed with two decimals is priced as typed by the first
   * `compute`, but as its one-decimal rounding by the next `compute` and by
   * the copy handler: a 12.34 % markup becomes 12.3 %.
   */
  lemma RoundedPercentRepriced()
    ensures var form := ExampleForm().(markup := Some(12.34));
            && Sanitise(form).settings.markup == 0.1234
            && Sanitise(AfterCompute(form)).settings.markup == 0.123
            && CopySnapshot(AfterCompute(form)).settings.markup == 0.123
  {
    assert (12.34 * 10.0 + 0.5).Floor == 123;
  }

  /**
   * Whatever the form holds, a quote that `compute` produces has no negative
   * figure and every MIN figure at most its MAX figure.
   */
  lemma QuoteFiguresOrdered(form: Form)
    ensures Price(Sanitise(form)).Quote? ==>
              EngineProperties.AllOrdered(Price(Sanitise(form)).figures)
              && EngineProperties.AllNonNegative(Price(Sanitise(form)).figures)
  {
    var q := Sanitise(form);
    if Valid(q) {
      EngineProperties.MinNotAboveMax(q);
      EngineProperties.FiguresNonNegative(q);
    }
  }

  /**
   * Validation runs on the sanitised readings: a row whose two hour fields
   * are both negative reads as 0–0 and does not block.
   */
  lemma NegativeRowReadsAsZero(key: string, lo: real, hi: real)
    requires lo < 0.0 && hi < lo
    ensures ReadTasks([TaskRow(key, Some(lo), Some(hi))]) == [Task(key, 0.0, 0.0)]
    ensures TasksValid(ReadTasks([TaskRow(key, Some(lo), Some(hi))]))
  {
  }

  /**
   * The example with on-site mode and travel off: 3.25–7 task hours at the
   * single rate of 95, no on-site labor and no travel charge.
   */
  lemma ExampleQuoteSingleRate()
    ensures Price(Sanitise(ExampleForm().(onSite := false, travelOn := false))) == Quote(Breakdown(
      Range(3.25, 7.0), Range(3.25, 7.0),
      Range(308.75, 665.0), Range(0.0, 0.0), Range(308.75, 665.0),
      Range(61.75, 133.0), Range(46.3125, 99.75), 120.0, 0.0,
      Range(536.8125, 1017.75), Range(53.68125, 101.775), Range(590.49375, 1119.525)))
  {
    var q := Sanitise(ExampleForm().(onSite := false, travelOn := false));
    ExampleSnapshot();
    ExampleTaskHours();
    assert q.tasks == ExampleTasks();
    assert TasksValid(q.tasks);
    var s, agg := q.settings, Range(3.25, 7.0);
    assert Labor(s, agg) == Range(308.75, 665.0);
    assert Markup(s, agg) == Range(61.75, 133.0);
    assert Rush(s, agg) == Range(46.3125, 99.75);
    assert Subtotal(s, agg) == Range(536.8125, 1017.75);
  }

  /** The form as the "Example" button fills it. */
  function ExampleForm(): Form {
    Form(
      [TaskRow("fitup", Some(1.0), Some(2.0)), TaskRow("jointprep", Some(0.5), Some(1.5)),
       TaskRow("cleaning", Some(0.25), Some(0.5)), TaskRow("welding", Some(1.5), Some(3.0))],
      true, Some(95.0), Some(120.0), Some(20.0), true, Some(15.0), Some(10.0),
      true, Some(95.0), Some(115.0), Some(2.0), Some(4.0),
      true, Some(85.0), Some(40.0), Some(0.67), Some(10.0))
  }

  /** The example rows as read: the typed hours, all non-negative, kept as they are. */
  function ExampleTasks(): seq<Task> {
    [Task("fitup", 1.0, 2.0), Task("jointprep", 0.5, 1.5), Task("cleaning", 0.25, 0.5), Task("welding", 1.5, 3.0)]
  }

  /** The example form reads as the typed values, with the percentages as fractions. */
  lemma ExampleSnapshot()
    ensures Sanitise(ExampleForm()) == QuoteInput(ExampleTasks(), true, Settings(
              95.0, true, 95.0, 115.0, 2.0, 4.0, 0.2, true, 0.15, 0.1, 120.0, true, 85.0, 40.0, 0.67, 10.0))
  {
    assert ReadTasks(ExampleForm().tasks) == ExampleTasks();
  }

  /** The example rows sum to 3.25–7 task hours (welding included). */
  lemma ExampleTaskHours()
    ensures TaskHours(ExampleTasks(), true) == Range(3.25, 7.0)
  {
    var tasks := ExampleTasks();
    assert tasks[..0] == [];
    assert TaskHours(tasks[..1], true) == Range(1.0, 2.0);
    assert tasks[..2][..1] == tasks[..1];
    assert TaskHours(tasks[..2], true) == Range(1.5, 3.5);
    assert tasks[..3][..2] == tasks[..2];
    assert TaskHours(tasks[..3], true) == Range(1.75, 4.0);
    assert tasks[..3] == tasks[..|tasks| - 1];
  }

  /**
   * The example quote: 3.25–7 task hours at 95 plus 2–4 on-site hours at 115,
   * 20% markup, 15% rush, 120 materials, 121.80 travel, 10% tax.
   */
  lemma ExampleQuote()
    ensures Price(Sanitise(ExampleForm())) == Quote(Breakdown(
      Range(3.25, 7.0), Range(5.25, 11.0),
      Range(308.75, 665.0), Range(230.0, 460.0), Range(538.75, 1125.0),
      Range(107.75, 225.0), Range(80.8125, 168.75), 120.0, 121.8,
      Range(969.1125, 1760.55), Range(96.91125, 176.055), Range(1066.02375, 1936.605)))
  {
    var q := Sanitise(ExampleForm());
    ExampleSnapshot();
    ExampleTaskHours();
    assert TasksValid(q.tasks);
    var s, agg := q.settings, Range(3.25, 7.0);
    assert ShopLabor(s, agg) == Range(308.75, 665.0);
    assert SiteLabor(s) == Range(230.0, 460.0);
    assert Labor(s, agg) == Range(538.75, 1125.0);
    assert Markup(s, agg) == Range(107.75, 225.0);
    assert Rush(s, agg) == Range(80.8125, 168.75);
    assert Travel(s) == 121.8;
    assert Subtotal(s, agg) == Range(969.1125, 1760.55);
  }
}
