/**
 * The pricing engine of the welding quote calculator: from a sanitised
 * snapshot of the form to a MIN/MAX cost breakdown, behind a gate that
 * refuses any inverted hour range.
 */
module Engine {

  /** A task row after reading: its key (`fitup`, `welding`, ...) and its hour range. */
  datatype Task = Task(key: string, min: real, max: real)

  /** The key of the task that the "include welding" toggle can leave out. */
  const WeldingKey: string := "welding"

  /**
   * Everything `compute` prices besides the task rows, once read: amounts
   * are sanitised numbers and `markup`, `rush` and `tax` are fractions (a
   * percentage divided by 100).
   */
  datatype Settings = Settings(
    hourlyRate: real,
    onSite: bool,
    shopRate: real,
    siteRate: real,
    siteMin: real,
    siteMax: real,
    markup: real,
    rushOn: bool,
    rush: real,
    tax: real,
    materials: real,
    travelOn: bool,
    calloutFee: real,
    miles: real,
    mileageRate: real,
    tolls: real)

  /** The snapshot `compute` works on once every field has been read. */
  datatype QuoteInput = QuoteInput(tasks: seq<Task>, includeWelding: bool, settings: Settings)

  /** A MIN/MAX pair. */
  datatype Range = Range(min: real, max: real)

  /** Every figure the calculator shows, each MIN/MAX where the page shows a pair. */
  datatype Breakdown = Breakdown(
    shopHours: Range,
    hours: Range,
    shopLabor: Range,
    siteLabor: Range,
    labor: Range,
    markup: Range,
    rush: Range,
    materials: real,
    travel: real,
    subtotal: Range,
    tax: Range,
    total: Range)

  /** `Invalid` is the state in which every output shows the placeholder "—". */
  datatype QuoteResult = Invalid | Quote(figures: Breakdown)

  predicate Ordered(r: Range) {
    r.min <= r.max
  }

  predicate TasksValid(tasks: seq<Task>) {
    forall i :: 0 <= i < |tasks| ==> tasks[i].min <= tasks[i].max
  }

  predicate TasksNonNegative(tasks: seq<Task>) {
    forall i :: 0 <= i < |tasks| ==> 0.0 <= tasks[i].min && 0.0 <= tasks[i].max
  }

  /** Every task range is ordered, and so is the on-site range when on-site mode is on. */
  predicate Valid(q: QuoteInput)
    ensures !q.settings.onSite ==> (Valid(q) <==> TasksValid(q.tasks))
    ensures Valid(q) ==> Ordered(TaskHours(q.tasks, q.includeWelding))
  {
    TasksValid(q.tasks) && (q.settings.onSite ==> q.settings.siteMin <= q.settings.siteMax)
  }

  /** What sanitising guarantees of the settings: no negative amount, fractions in [0, 1]. */
  predicate SettingsNonNegative(s: Settings) {
    && 0.0 <= s.hourlyRate && 0.0 <= s.shopRate && 0.0 <= s.siteRate
    && 0.0 <= s.siteMin && 0.0 <= s.siteMax
    && 0.0 <= s.markup <= 1.0 && 0.0 <= s.rush <= 1.0 && 0.0 <= s.tax <= 1.0
    && 0.0 <= s.materials
    && 0.0 <= s.calloutFee && 0.0 <= s.miles && 0.0 <= s.mileageRate && 0.0 <= s.tolls
  }

  /** What sanitising guarantees of a snapshot. */
  predicate NonNegative(q: QuoteInput) {
    TasksNonNegative(q.tasks) && SettingsNonNegative(q.settings)
  }

  /** Whether a row's hours are left out of the totals: the welding row while welding is not included. */
  predicate Excluded(t: Task, includeWelding: bool)
    ensures Excluded(t, includeWelding) ==> t.key == WeldingKey
    ensures includeWelding ==> !Excluded(t, includeWelding)
  {
    t.key == WeldingKey && !includeWelding
  }

  /**
   * The shop task hours: every row's range summed in row order, an excluded
   * row adding 0 (the source multiplies its hours by 0, the others' by 1).
   */
  function TaskHours(tasks: seq<Task>, includeWelding: bool): (agg: Range)
    ensures TasksValid(tasks) ==> Ordered(agg)
    ensures TasksNonNegative(tasks) ==> 0.0 <= agg.min && 0.0 <= agg.max
    decreases |tasks|
  {
    if tasks == [] then Range(0.0, 0.0)
    else
      var acc := TaskHours(tasks[..|tasks| - 1], includeWelding);
      var t := tasks[|tasks| - 1];
      if Excluded(t, includeWelding) then acc else Range(acc.min + t.min, acc.max + t.max)
  }

  /** A pair scaled by a rate: hours times an hourly rate, an amount times a fraction. */
  function Scale(r: Range, k: real): (p: Range)
    ensures 0.0 <= k && 0.0 <= r.min ==> 0.0 <= p.min
    ensures 0.0 <= k && 0.0 <= r.max ==> 0.0 <= p.max
    ensures 0.0 <= k && Ordered(r) ==> Ordered(p)
  {
    Range(r.min * k, r.max * k)
  }

  function Plus(a: Range, b: Range): Range {
    Range(a.min + b.min, a.max + b.max)
  }

  /** Shop labor on the task hours `agg`: at the shop rate with on-site mode on, at the single hourly rate otherwise. */
  function ShopLabor(s: Settings, agg: Range): (r: Range)
    ensures SettingsNonNegative(s) && 0.0 <= agg.min ==> 0.0 <= r.min
    ensures SettingsNonNegative(s) && 0.0 <= agg.max ==> 0.0 <= r.max
    ensures SettingsNonNegative(s) && Ordered(agg) ==> Ordered(r)
  {
    if s.onSite then Scale(agg, s.shopRate) else Scale(agg, s.hourlyRate)
  }

  /** On-site labor: the on-site hours at the on-site rate, and nothing with on-site mode off. */
  function SiteLabor(s: Settings): (r: Range)
    ensures !s.onSite ==> r == Range(0.0, 0.0)
    ensures SettingsNonNegative(s) ==> 0.0 <= r.min && 0.0 <= r.max
    ensures SettingsNonNegative(s) && s.siteMin <= s.siteMax ==> Ordered(r)
  {
    if s.onSite then Scale(Range(s.siteMin, s.siteMax), s.siteRate) else Range(0.0, 0.0)
  }

  /** Labor: shop labor alone, or shop plus on-site labor with on-site mode on. */
  function Labor(s: Settings, agg: Range): (r: Range)
    ensures SettingsNonNegative(s) && 0.0 <= agg.min ==> 0.0 <= r.min
    ensures SettingsNonNegative(s) && 0.0 <= agg.max ==> 0.0 <= r.max
  {
    if s.onSite then Plus(ShopLabor(s, agg), SiteLabor(s)) else ShopLabor(s, agg)
  }

  /** Markup: the markup fraction of labor. */
  function Markup(s: Settings, agg: Range): (r: Range)
    ensures SettingsNonNegative(s) && 0.0 <= agg.min ==> 0.0 <= r.min
    ensures SettingsNonNegative(s) && 0.0 <= agg.max ==> 0.0 <= r.max
  {
    Scale(Labor(s, agg), s.markup)
  }

  /** Rush: the rush fraction of labor with rush on, and nothing with rush off. */
  function Rush(s: Settings, agg: Range): (r: Range)
    ensures !s.rushOn ==> r == Range(0.0, 0.0)
    ensures SettingsNonNegative(s) && 0.0 <= agg.min ==> 0.0 <= r.min
    ensures SettingsNonNegative(s) && 0.0 <= agg.max ==> 0.0 <= r.max
  {
    if s.rushOn then Scale(Labor(s, agg), s.rush) else Range(0.0, 0.0)
  }

  /** Travel charge: nothing when travel is off, otherwise call-out plus mileage plus tolls. */
  function Travel(s: Settings): (t: real)
    ensures !s.travelOn ==> t == 0.0
    ensures SettingsNonNegative(s) ==> 0.0 <= t
    ensures s.travelOn && SettingsNonNegative(s) ==> s.calloutFee + s.tolls <= t
  {
    if s.travelOn then s.calloutFee + s.miles * s.mileageRate + s.tolls else 0.0
  }

  /**
   * The pre-tax subtotal: labor, markup and rush, then materials and travel
   * added to both bounds. Markup and rush only ever add to labor.
   */
  function Subtotal(s: Settings, agg: Range): (r: Range)
    ensures SettingsNonNegative(s) && 0.0 <= agg.min && 0.0 <= agg.max ==>
              Labor(s, agg).min + s.materials + Travel(s) <= r.min
              && Labor(s, agg).max + s.materials + Travel(s) <= r.max
  {
    var labor, markup, rush := Labor(s, agg), Markup(s, agg), Rush(s, agg);
    var extra := s.materials + Travel(s);
    Range(labor.min + markup.min + rush.min + extra, labor.max + markup.max + rush.max + extra)
  }

  /** The hours shown: the shop task hours, plus the on-site hours with on-site mode on. */
  function Hours(s: Settings, agg: Range): (h: Range)
    ensures !s.onSite ==> h == agg
    ensures SettingsNonNegative(s) ==> agg.min <= h.min && agg.max <= h.max
    ensures Ordered(agg) && (s.onSite ==> s.siteMin <= s.siteMax) ==> Ordered(h)
  {
    if s.onSite then Plus(agg, Range(s.siteMin, s.siteMax)) else agg
  }

  /**
   * The breakdown built on the task hours `agg`: tax is charged on the whole
   * pre-tax subtotal and the total is the subtotal plus tax.
   */
  function FiguresOn(s: Settings, agg: Range): (b: Breakdown)
    ensures b.shopHours == agg && b.materials == s.materials && b.travel == Travel(s)
    ensures b.total == Plus(b.subtotal, b.tax)
  {
    var subtotal := Subtotal(s, agg);
    var tax := Scale(subtotal, s.tax);
    Breakdown(agg, Hours(s, agg), ShopLabor(s, agg), SiteLabor(s), Labor(s, agg),
              Markup(s, agg), Rush(s, agg), s.materials, Travel(s), subtotal, tax, Plus(subtotal, tax))
  }

  /** The breakdown `compute` derives from a snapshot: the task rows count only through their hour sum. */
  function Figures(q: QuoteInput): (b: Breakdown)
    ensures b.shopHours == TaskHours(q.tasks, q.includeWelding)
    ensures TasksValid(q.tasks) ==> Ordered(b.shopHours)
    ensures TasksNonNegative(q.tasks) ==> 0.0 <= b.shopHours.min
  {
    FiguresOn(q.settings, TaskHours(q.tasks, q.includeWelding))
  }

  /**
   * The validation gate followed by the breakdown: any inverted task range,
   * or an inverted on-site range while on-site mode is on, yields no figures.
   */
  function Price(q: QuoteInput): (r: QuoteResult)
    ensures r.Invalid? <==>
              (exists i :: 0 <= i < |q.tasks| && q.tasks[i].min > q.tasks[i].max)
              || (q.settings.onSite && q.settings.siteMin > q.settings.siteMax)
    ensures r.Quote? ==> r.figures == Figures(q)
  {
    if Valid(q) then Quote(Figures(q)) else Invalid
  }

  /** The validation pass over the task rows: raises a flag on any row whose min exceeds its max. */
  method ValidateTasks(tasks: seq<Task>) returns (invalid: bool)
    ensures invalid <==> !TasksValid(tasks)
  {
    invalid := false;
    for i := 0 to |tasks|
      invariant invalid <==> exists j :: 0 <= j < i && tasks[j].min > tasks[j].max
    {
      if tasks[i].min > tasks[i].max {
        invalid := true;
      }
    }
  }

  /** The `reduce` that adds every task's weighted hours into a MIN and a MAX accumulator. */
  method AggregateHours(tasks: seq<Task>, includeWelding: bool) returns (aggMin: real, aggMax: real)
    ensures Range(aggMin, aggMax) == TaskHours(tasks, includeWelding)
  {
    aggMin, aggMax := 0.0, 0.0;
    for i := 0 to |tasks|
      invariant Range(aggMin, aggMax) == TaskHours(tasks[..i], includeWelding)
    {
      var t := tasks[i];
      var mult := if t.key == WeldingKey && !includeWelding then 0.0 else 1.0;
      aggMin := aggMin + t.min * mult;
      aggMax := aggMax + t.max * mult;
      assert tasks[..i + 1][..i] == tasks[..i];
    }
    assert tasks[..|tasks|] == tasks;
  }

  /** Labor by mode: task hours at the shop or hourly rate, plus on-site hours at the on-site rate when on. */
  method LaborByMode(s: Settings, aggMin: real, aggMax: real)
    returns (shopMin: real, shopMax: real, siteMin: real, siteMax: real, laborMin: real, laborMax: real)
    ensures Range(shopMin, shopMax) == ShopLabor(s, Range(aggMin, aggMax))
    ensures Range(siteMin, siteMax) == SiteLabor(s)
    ensures Range(laborMin, laborMax) == Labor(s, Range(aggMin, aggMax))
  {
    siteMin, siteMax := 0.0, 0.0;
    if !s.onSite {
      shopMin := aggMin * s.hourlyRate;
      shopMax := aggMax * s.hourlyRate;
      laborMin := shopMin;
      laborMax := shopMax;
    } else {
      shopMin := aggMin * s.shopRate;
      shopMax := aggMax * s.shopRate;
      siteMin := s.siteMin * s.siteRate;
      siteMax := s.siteMax * s.siteRate;
      laborMin := shopMin + siteMin;
      laborMax := shopMax + siteMax;
    }
  }

  /** Markup on labor, and rush on labor when rush is on. */
  method MarkupAndRush(s: Settings, agg: Range, laborMin: real, laborMax: real)
    returns (markupMin: real, markupMax: real, rushMin: real, rushMax: real)
    requires Range(laborMin, laborMax) == Labor(s, agg)
    ensures Range(markupMin, markupMax) == Markup(s, agg)
    ensures Range(rushMin, rushMax) == Rush(s, agg)
  {
    markupMin := laborMin * s.markup;
    markupMax := laborMax * s.markup;
    rushMin, rushMax := 0.0, 0.0;
    if s.rushOn {
      rushMin := laborMin * s.rush;
      rushMax := laborMax * s.rush;
    }
  }

  /** The pre-tax subtotal, the tax on it and the total, from the labor, markup, rush and travel amounts. */
  method SubtotalTaxTotal(s: Settings, agg: Range, laborMin: real, laborMax: real, markupMin: real, markupMax: real,
                          rushMin: real, rushMax: real, travel: real)
    returns (subtotal: Range, tax: Range, total: Range)
    requires Range(laborMin, laborMax) == Labor(s, agg)
    requires Range(markupMin, markupMax) == Markup(s, agg) && Range(rushMin, rushMax) == Rush(s, agg)
    requires travel == Travel(s)
    ensures subtotal == Subtotal(s, agg)
    ensures tax == Scale(subtotal, s.tax) && total == Plus(subtotal, tax)
  {
    var subMin := laborMin + markupMin + rushMin + s.materials + travel;
    var subMax := laborMax + markupMax + rushMax + s.materials + travel;
    var taxMin := subMin * s.tax;
    var taxMax := subMax * s.tax;
    subtotal, tax := Range(subMin, subMax), Range(taxMin, taxMax);
    total := Range(subMin + taxMin, subMax + taxMax);
  }

  /**
   * The pricing half of `compute`, run once validation has passed and the
   * task hours are aggregated: labor by mode, markup, rush, travel,
   * subtotal, tax, total and the hours shown.
   */
  method ComputeFigures(s: Settings, aggMin: real, aggMax: real) returns (b: Breakdown)
    ensures b == FiguresOn(s, Range(aggMin, aggMax))
  {
    var agg := Range(aggMin, aggMax);
    var shopMin, shopMax, siteMin, siteMax, laborMin, laborMax := LaborByMode(s, aggMin, aggMax);
    var markupMin, markupMax, rushMin, rushMax := MarkupAndRush(s, agg, laborMin, laborMax);
    var travel := Travel(s);
    var subtotal, tax, total := SubtotalTaxTotal(s, agg, laborMin, laborMax, markupMin, markupMax, rushMin, rushMax, travel);

    var hoursMin, hoursMax := aggMin, aggMax;
    if s.onSite {
      hoursMin, hoursMax := aggMin + s.siteMin, aggMax + s.siteMax;
    }

    b := Breakdown(
      agg, Range(hoursMin, hoursMax),
      Range(shopMin, shopMax), Range(siteMin, siteMax), Range(laborMin, laborMax),
      Range(markupMin, markupMax), Range(rushMin, rushMax), s.materials, travel,
      subtotal, tax, total);
  }

  /**
   * The end of `compute` once every field is read and checked: refuse on a
   * raised flag, otherwise aggregate the task hours and price them.
   */
  method GateAndPrice(q: QuoteInput, invalid: bool) returns (r: QuoteResult)
    requires invalid <==> !Valid(q)
    ensures r == Price(q)
  {
    if invalid {
      r := Invalid;
      return;
    }
    var aggMin, aggMax := AggregateHours(q.tasks, q.includeWelding);
    var b := ComputeFigures(q.settings, aggMin, aggMax);
    r := Quote(b);
  }
}
