/**
 * What the pricing engine promises: what each toggle removes, what markup,
 * rush and travel do not depend on, and that every MIN figure stays at or
 * below its MAX figure once the inputs pass validation.
 */
module EngineProperties {
  import opened Engine

  /** The task rows other than welding, in order. */
  function WithoutWelding(tasks: seq<Task>): seq<Task>
    decreases |tasks|
  {
    if tasks == [] then []
    else
      var rest := WithoutWelding(tasks[..|tasks| - 1]);
      if tasks[|tasks| - 1].key == WeldingKey then rest else rest + [tasks[|tasks| - 1]]
  }

  /** The welding rows alone, in order. */
  function OnlyWelding(tasks: seq<Task>): seq<Task>
    decreases |tasks|
  {
    if tasks == [] then []
    else
      var rest := OnlyWelding(tasks[..|tasks| - 1]);
      if tasks[|tasks| - 1].key == WeldingKey then rest + [tasks[|tasks| - 1]] else rest
  }

  /** Dropping the element just appended gives the sequence back. */
  lemma DropLast<T>(s: seq<T>, x: T)
    ensures (s + [x])[..|s + [x]| - 1] == s
  {
  }

  /** With welding included, every row contributes its full range: the other rows' hours plus the welding rows'. */
  lemma {:induction false} IncludedHoursSplit(tasks: seq<Task>)
    ensures TaskHours(tasks, true).min == TaskHours(WithoutWelding(tasks), true).min + TaskHours(OnlyWelding(tasks), true).min
    ensures TaskHours(tasks, true).max == TaskHours(WithoutWelding(tasks), true).max + TaskHours(OnlyWelding(tasks), true).max
    decreases |tasks|
  {
    if tasks != [] {
      var init := tasks[..|tasks| - 1];
      var last := tasks[|tasks| - 1];
      IncludedHoursSplit(init);
      if last.key == WeldingKey {
        DropLast(OnlyWelding(init), last);
      } else {
        DropLast(WithoutWelding(init), last);
      }
    }
  }

  /**
   * Switching welding off takes away exactly the welding rows' hours,
   * whatever their stored values: the result is the sum over the other rows.
   */
  lemma {:induction false} WeldingExcludedHours(tasks: seq<Task>)
    ensures TaskHours(tasks, false) == TaskHours(WithoutWelding(tasks), true)
    decreases |tasks|
  {
    if tasks != [] {
      var init := tasks[..|tasks| - 1];
      var last := tasks[|tasks| - 1];
      WeldingExcludedHours(init);
      if last.key != WeldingKey {
        var w := WithoutWelding(init);
        DropLast(w, last);
      }
    }
  }

  /** Rows that differ only in the stored hours of welding rows. */
  predicate SameExceptWelding(a: seq<Task>, b: seq<Task>) {
    |a| == |b| &&
    forall i :: 0 <= i < |a| ==> a[i].key == b[i].key && (a[i].key != WeldingKey ==> a[i] == b[i])
  }

  /** With welding off, the welding rows' stored hours do not reach the hour totals. */
  lemma {:induction false} ExcludedWeldingValuesIgnored(a: seq<Task>, b: seq<Task>)
    requires SameExceptWelding(a, b)
    ensures TaskHours(a, false) == TaskHours(b, false)
    decreases |a|
  {
    if a != [] {
      var n := |a| - 1;
      assert SameExceptWelding(a[..n], b[..n]);
      ExcludedWeldingValuesIgnored(a[..n], b[..n]);
    }
  }

  /** Settings that agree on labor, markup, rush, hours, materials, travel and tax rate agree on every figure. */
  lemma SameFigures(s: Settings, s': Settings, agg: Range)
    requires s'.onSite == s.onSite && ShopLabor(s', agg) == ShopLabor(s, agg) && SiteLabor(s') == SiteLabor(s)
    requires Markup(s', agg) == Markup(s, agg) && Rush(s', agg) == Rush(s, agg) && Hours(s', agg) == Hours(s, agg)
    requires s'.materials == s.materials && Travel(s') == Travel(s) && s'.tax == s.tax
    ensures FiguresOn(s', agg) == FiguresOn(s, agg)
  {
    assert Labor(s', agg) == Labor(s, agg);
    assert Subtotal(s', agg) == Subtotal(s, agg);
  }

  /**
   * The same at the level of the whole quote: as long as both snapshots pass
   * validation, changing an excluded welding row changes no figure.
   */
  lemma ExcludedWeldingQuoteUnchanged(q: QuoteInput, tasks: seq<Task>)
    requires !q.includeWelding
    requires SameExceptWelding(q.tasks, tasks)
    requires Valid(q) && TasksValid(tasks)
    ensures Price(q.(tasks := tasks)) == Price(q)
  {
    ExcludedWeldingValuesIgnored(q.tasks, tasks);
  }

  /** Validation looks at every row, an excluded welding row too: its inverted range still blocks. */
  lemma ExcludedWeldingStillValidated(q: QuoteInput, i: int)
    requires 0 <= i < |q.tasks| && q.tasks[i].key == WeldingKey && q.tasks[i].min > q.tasks[i].max
    ensures Price(q) == Invalid
  {
  }

  /**
   * With on-site mode off, the on-site range and the shop and on-site rates
   * are not priced, and labor is the task hours at the single hourly rate.
   */
  lemma OnSiteOffIgnoresSiteFields(s: Settings, siteMin: real, siteMax: real, shopRate: real, siteRate: real, agg: Range)
    requires !s.onSite
    ensures FiguresOn(s.(siteMin := siteMin, siteMax := siteMax, shopRate := shopRate, siteRate := siteRate), agg) == FiguresOn(s, agg)
    ensures Labor(s, agg) == Scale(agg, s.hourlyRate)
    ensures SiteLabor(s) == Range(0.0, 0.0) && Hours(s, agg) == agg
  {
    var s' := s.(siteMin := siteMin, siteMax := siteMax, shopRate := shopRate, siteRate := siteRate);
    assert Labor(s', agg) == Labor(s, agg);
    SameFigures(s, s', agg);
  }

  /**
   * With on-site mode off, the on-site range is not validated either: an
   * inverted one does not block the quote, and it changes no figure.
   */
  lemma OnSiteOffNotValidated(q: QuoteInput, siteMin: real, siteMax: real, shopRate: real, siteRate: real)
    requires !q.settings.onSite
    ensures Price(q.(settings := q.settings.(siteMin := siteMin, siteMax := siteMax, shopRate := shopRate, siteRate := siteRate)))
            == Price(q)
  {
    OnSiteOffIgnoresSiteFields(q.settings, siteMin, siteMax, shopRate, siteRate, TaskHours(q.tasks, q.includeWelding));
  }

  /**
   * With on-site mode on, the single hourly rate is not used: labor is the
   * task hours at the shop rate plus the on-site hours at the on-site rate.
   */
  lemma OnSiteOnIgnoresHourlyRate(s: Settings, hourlyRate: real, agg: Range)
    requires s.onSite
    ensures FiguresOn(s.(hourlyRate := hourlyRate), agg) == FiguresOn(s, agg)
    ensures Labor(s, agg) == Plus(Scale(agg, s.shopRate), Scale(Range(s.siteMin, s.siteMax), s.siteRate))
    ensures Hours(s, agg) == Plus(agg, Range(s.siteMin, s.siteMax))
  {
    var s' := s.(hourlyRate := hourlyRate);
    assert ShopLabor(s', agg) == ShopLabor(s, agg);
    assert Labor(s', agg) == Labor(s, agg);
    SameFigures(s, s', agg);
  }

  /**
   * Markup and rush are charged on labor only: materials, travel and tax
   * leave them, and labor, as they are.
   */
  lemma MarkupRushOnLaborOnly(s: Settings, materials: real, travelOn: bool, calloutFee: real,
                              miles: real, mileageRate: real, tolls: real, tax: real, agg: Range)
    ensures var s' := s.(materials := materials, travelOn := travelOn, calloutFee := calloutFee,
                         miles := miles, mileageRate := mileageRate, tolls := tolls, tax := tax);
            && Labor(s', agg) == Labor(s, agg) && Markup(s', agg) == Markup(s, agg) && Rush(s', agg) == Rush(s, agg)
  {
  }

  /** With rush off, the rush charge is zero whatever rush percentage is stored. */
  lemma RushOffChargesNothing(s: Settings, rush: real, agg: Range)
    requires !s.rushOn
    ensures Rush(s, agg) == Range(0.0, 0.0)
    ensures FiguresOn(s.(rush := rush), agg) == FiguresOn(s, agg)
  {
    var s' := s.(rush := rush);
    assert Labor(s', agg) == Labor(s, agg);
    SameFigures(s, s', agg);
  }

  /** With travel off, the travel charge is zero and the stored travel fields reach no figure. */
  lemma TravelOffIgnoresTravelFields(s: Settings, calloutFee: real, miles: real, mileageRate: real, tolls: real, agg: Range)
    requires !s.travelOn
    ensures Travel(s) == 0.0
    ensures FiguresOn(s.(calloutFee := calloutFee, miles := miles, mileageRate := mileageRate, tolls := tolls), agg) == FiguresOn(s, agg)
  {
    var s' := s.(calloutFee := calloutFee, miles := miles, mileageRate := mileageRate, tolls := tolls);
    assert Labor(s', agg) == Labor(s, agg);
    SameFigures(s, s', agg);
  }

  /** Adding the same amount to both bounds before taxing adds that amount's tax to both tax bounds. */
  lemma TaxOfShifted(r: Range, c: real, t: real)
    ensures Scale(Plus(r, Range(c, c)), t) == Plus(Scale(r, t), Range(c * t, c * t))
  {
    assert (r.min + c) * t == r.min * t + c * t;
    assert (r.max + c) * t == r.max * t + c * t;
  }

  /**
   * Turning travel on adds one and the same travel charge to both subtotal
   * bounds, without markup or rush, and that charge is then taxed.
   */
  lemma TravelAddsToSubtotalUnmarked(s: Settings, agg: Range)
    ensures var on, off := s.(travelOn := true), s.(travelOn := false);
            var charge := s.calloutFee + s.miles * s.mileageRate + s.tolls;
            && Travel(on) == charge
            && Markup(on, agg) == Markup(off, agg) && Rush(on, agg) == Rush(off, agg)
            && Subtotal(on, agg) == Plus(Subtotal(off, agg), Range(charge, charge))
            && FiguresOn(on, agg).tax == Plus(FiguresOn(off, agg).tax, Range(charge * s.tax, charge * s.tax))
  {
    var on, off := s.(travelOn := true), s.(travelOn := false);
    var charge := s.calloutFee + s.miles * s.mileageRate + s.tolls;
    assert Labor(on, agg) == Labor(off, agg);
    assert Subtotal(on, agg) == Plus(Subtotal(off, agg), Range(charge, charge));
    TaxOfShifted(Subtotal(off, agg), charge, s.tax);
  }

  /** Taxing a pair at rate t and adding the tax back is scaling it by 1 + t. */
  lemma PlusTax(r: Range, t: real)
    ensures Plus(r, Scale(r, t)) == Scale(r, 1.0 + t)
  {
    assert r.min + r.min * t == r.min * (1.0 + t);
    assert r.max + r.max * t == r.max * (1.0 + t);
  }

  /** An amount plus two rates of it is the amount scaled by one plus both rates. */
  lemma RatesOnAmount(labor: Range, m: real, r: real)
    ensures Plus(Plus(labor, Scale(labor, m)), Scale(labor, r)) == Scale(labor, 1.0 + m + r)
  {
    assert labor.min + labor.min * m + labor.min * r == labor.min * (1.0 + m + r);
    assert labor.max + labor.max * m + labor.max * r == labor.max * (1.0 + m + r);
  }

  /** Markup is the markup rate on labor, and rush the rush rate on labor (none with rush off). */
  lemma RatesOnLabor(s: Settings, agg: Range)
    ensures Markup(s, agg) == Scale(Labor(s, agg), s.markup)
    ensures Rush(s, agg) == Scale(Labor(s, agg), if s.rushOn then s.rush else 0.0)
  {
    if !s.rushOn {
      var labor := Labor(s, agg);
      assert labor.min * 0.0 == 0.0 && labor.max * 0.0 == 0.0;
    }
  }

  /** The subtotal sums labor, markup, rush, materials and travel. */
  lemma SubtotalSums(s: Settings, agg: Range)
    ensures var extra := s.materials + Travel(s);
            Subtotal(s, agg) == Plus(Plus(Plus(Labor(s, agg), Markup(s, agg)), Rush(s, agg)), Range(extra, extra))
  {
  }

  /**
   * Markup and rush are rates on labor: the subtotal is labor scaled by
   * 1 + markup + rush (rush counting as 0 when off), plus materials and travel.
   */
  lemma SubtotalClosedForm(s: Settings, agg: Range)
    ensures var rushRate, extra := if s.rushOn then s.rush else 0.0, s.materials + Travel(s);
            Subtotal(s, agg) == Plus(Scale(Labor(s, agg), 1.0 + s.markup + rushRate), Range(extra, extra))
  {
    RatesOnLabor(s, agg);
    SubtotalSums(s, agg);
    RatesOnAmount(Labor(s, agg), s.markup, if s.rushOn then s.rush else 0.0);
  }

  /**
   * Tax is charged on the whole pre-tax subtotal, not on labor alone: the
   * total is the subtotal plus tax on it, the subtotal scaled by 1 + tax.
   */
  lemma TotalIsTaxedSubtotal(s: Settings, agg: Range)
    ensures FiguresOn(s, agg).total == Scale(Subtotal(s, agg), 1.0 + s.tax)
  {
    var b := FiguresOn(s, agg);
    assert b.subtotal == Subtotal(s, agg) && b.tax == Scale(b.subtotal, s.tax);
    PlusTax(b.subtotal, s.tax);
  }

  /**
   * The breakdown adds up as shown: labor is shop labor plus on-site labor in
   * both modes, and each subtotal bound is the sum of the figures above it.
   */
  lemma BreakdownAddsUp(s: Settings, agg: Range)
    ensures var b := FiguresOn(s, agg);
            && b.labor == Plus(b.shopLabor, b.siteLabor)
            && b.subtotal.min == b.labor.min + b.markup.min + b.rush.min + b.materials + b.travel
            && b.subtotal.max == b.labor.max + b.markup.max + b.rush.max + b.materials + b.travel
  {
    if !s.onSite {
      assert Labor(s, agg) == Plus(ShopLabor(s, agg), Range(0.0, 0.0));
    }
  }

  /** Scaling by a non-negative rate keeps a pair ordered and keeps a non-negative MIN non-negative. */
  lemma ScaleMonotone(r: Range, k: real)
    requires 0.0 <= k
    ensures Ordered(r) ==> Ordered(Scale(r, k))
    ensures 0.0 <= r.min ==> 0.0 <= Scale(r, k).min
  {
    if Ordered(r) {
      assert r.min * k <= r.max * k;
    }
    if 0.0 <= r.min {
      assert 0.0 <= r.min * k;
    }
  }

  predicate AllOrdered(b: Breakdown) {
    && Ordered(b.shopHours) && Ordered(b.hours)
    && Ordered(b.shopLabor) && Ordered(b.siteLabor) && Ordered(b.labor)
    && Ordered(b.markup) && Ordered(b.rush)
    && Ordered(b.subtotal) && Ordered(b.tax) && Ordered(b.total)
  }

  predicate AllNonNegative(b: Breakdown) {
    && 0.0 <= b.shopHours.min && 0.0 <= b.hours.min
    && 0.0 <= b.shopLabor.min && 0.0 <= b.siteLabor.min && 0.0 <= b.labor.min
    && 0.0 <= b.markup.min && 0.0 <= b.rush.min
    && 0.0 <= b.materials && 0.0 <= b.travel
    && 0.0 <= b.subtotal.min && 0.0 <= b.tax.min && 0.0 <= b.total.min
  }

  /**
   * Labor, markup and rush: a non-negative MIN for non-negative settings and
   * hours, and ordered when the hours and the on-site range in use are.
   */
  lemma LaborMarkupRush(s: Settings, agg: Range)
    requires SettingsNonNegative(s) && 0.0 <= agg.min
    ensures 0.0 <= ShopLabor(s, agg).min && 0.0 <= SiteLabor(s).min && 0.0 <= Labor(s, agg).min
    ensures 0.0 <= Markup(s, agg).min && 0.0 <= Rush(s, agg).min
    ensures Ordered(agg) && (s.onSite ==> s.siteMin <= s.siteMax) ==>
              Ordered(ShopLabor(s, agg)) && Ordered(SiteLabor(s)) && Ordered(Labor(s, agg))
              && Ordered(Markup(s, agg)) && Ordered(Rush(s, agg))
  {
    ScaleMonotone(agg, if s.onSite then s.shopRate else s.hourlyRate);
    ScaleMonotone(Range(s.siteMin, s.siteMax), s.siteRate);
    ScaleMonotone(Labor(s, agg), s.markup);
    ScaleMonotone(Labor(s, agg), s.rush);
  }

  /** With non-negative inputs, no MIN figure is negative. */
  lemma FiguresNonNegative(q: QuoteInput)
    requires NonNegative(q)
    ensures AllNonNegative(Figures(q))
  {
    var s, agg := q.settings, TaskHours(q.tasks, q.includeWelding);
    LaborMarkupRush(s, agg);
    assert 0.0 <= s.miles * s.mileageRate;
    assert 0.0 <= Travel(s);
    assert 0.0 <= Subtotal(s, agg).min;
    ScaleMonotone(Subtotal(s, agg), s.tax);
  }

  /**
   * For inputs that pass validation, every MIN figure is at most the
   * corresponding MAX figure: hours, labor, markup, rush, subtotal, tax, total.
   */
  lemma MinNotAboveMax(q: QuoteInput)
    requires Valid(q) && NonNegative(q)
    ensures AllOrdered(Figures(q))
  {
    var s, agg := q.settings, TaskHours(q.tasks, q.includeWelding);
    LaborMarkupRush(s, agg);
    assert Ordered(Subtotal(s, agg));
    ScaleMonotone(Subtotal(s, agg), s.tax);
  }
}
