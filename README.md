# Welding quote calculator: the pricing engine in Dafny

The calculator is a single browser page for a welding fabrication shop. The
user types task hour ranges (fit-up, joint prep, cleaning, welding), rates,
markup, rush and tax percentages, materials, an optional on-site hour range
and optional travel charges. On every change `compute` reads the form,
clamps and sanitises what it read, validates every task range (and the
on-site range when on-site mode is on), and either
blanks every output with "—" or fills in a MIN/MAX breakdown: hours, shop and
on-site labor, labor, markup, rush, materials, travel, pre-tax subtotal, tax
and total. The "copy summary" button prices the quote a second time from the
fields before copying a text summary.

This project models that pricing engine, and proves what it promises.

- `inputs.dfy` (module `Inputs`): reading a field. A parsed field is an
  `Option<real>`, where `None` is an empty or unparsable field (NaN).
  `NonNeg` is the `Math.max(0, parseFloat(x) || 0)` reading. `ClampPercent`
  and the method `ClampPctInput` model `clampPctInput`, which prices the
  clamped percentage but writes it back rounded to one decimal (`Round1`).
- `engine.dfy` (module `Engine`): the sanitised snapshot `QuoteInput`, made of
  the task rows, the welding toggle and the remaining `Settings` (rates,
  percentages as fractions, toggles, on-site range, materials and travel). It
  also holds the validation gate `Valid` and the pricing functions. `TaskHours` is the hour
  sum, written as a recursive sum over the rows. The labor, markup, rush,
  subtotal and hours functions take that hour sum as their argument, so a
  property of the pricing holds for any hour totals. `Figures` builds the
  whole `Breakdown`, and `Price` puts the validation gate in front of it
  (`Invalid` is the all-"—" state). The imperative parts of `compute` are
  methods proved against these functions: the `invalid` flag loop
  (`ValidateTasks`), the `reduce` accumulator (`AggregateHours`), the labor
  `let` branches (`LaborByMode`), the markup-to-total steps
  (`MarkupAndRush`, `SubtotalTaxTotal`, `ComputeFigures`), and the gate in
  front of them (`GateAndPrice`).
- `engine_properties.dfy` (module `EngineProperties`): lemmas about
  `Price` and `Figures`. They cover what each toggle removes, what markup and
  rush do not depend on, what validation skips, the closed forms of subtotal and total, and MIN ≤ MAX.
- `app.dfy` (module `App`): the raw `Form` and its reading (`ReadTasks`,
  `Sanitise`). The method `Compute` is `compute`, and it also returns the form
  with the values it writes back (`AfterCompute`). `Copy` is the copy
  handler, which re-reads the fields after `compute` has written them back.
  Because a percentage is written back rounded, the copy handler and every
  later `compute` price the rounded percentage. The snapshot they read is the
  one the first `compute` read exactly when the clamped percentages are whole
  tenths (`RecomputeIdempotent` and `RoundingChangesSnapshot`). Their prices
  can still agree when a rounded rate reaches no figure, such as a rush rate
  with rush off (`RoundedPercentRepriced` shows 12.34 % becoming 12.3 %). The
  example button's values give two concrete quotes.

## Model

| member | source | states |
|---|---|---|
| Inputs.NonNeg | app.js:75-76 | the reading is never negative; a non-negative number is kept as typed; any non-zero reading is exactly the number in the field |
| Inputs.ClampPercent | app.js:82-84 | the percentage lies in [0, 100]; an in-range number is kept, above 100 gives 100, NaN or a negative number gives 0 |
| Inputs.Round1 | app.js:85 | the rounding is a whole number of tenths, within half a tenth of the number rounded (a half rounds up) |
| Inputs.Round1Tenths | app.js:85 | a number that is already a whole number of tenths is kept by the rounding |
| Inputs.Round1Percent | app.js:84-85 | rounding a clamped percentage keeps it in [0, 100] |
| Inputs.ClampPctInput | app.js:81-87 | the returned fraction lies in [0, 1] and is the clamped, unrounded percentage over 100; the value written back is that percentage rounded to one decimal, still in [0, 100] |
| Inputs.NonNegIdempotent | app.js:160-163 | reading a field that holds a sanitised number gives that number back |
| Inputs.WrittenPercentStable | app.js:84-85 | the rounded percentage written back reads back as itself, whether clamped again or only floored at 0, and rounding it again changes nothing |
| App.ReadTasks | app.js:72-79 | one task per row, in order, with the row's key and each hour field read as a non-negative number |
| App.Sanitise | app.js:133-247 | the snapshot `compute` prices has no negative amount, fractions in [0, 1], one task per row, and the form's toggles |
| App.AfterCompute | app.js:133-188 | `compute` writes back only the three percentages, the on-site hours and the four travel fields: each percentage as its clamped reading rounded to one decimal (a number in [0, 100] within half a tenth of that reading), each on-site hour and travel field as its non-negative reading |
| App.Compute | app.js:133-261 | the method's result is `Price` of the sanitised snapshot (the "—" state exactly when a range is inverted), and the form it leaves is `AfterCompute` |
| Engine.Valid | app.js:143-177 | with on-site mode off only the task ranges are checked; a valid snapshot has an ordered hour sum |
| Engine.ValidateTasks | app.js:143-155 | the flag is raised exactly when some task's min exceeds its max |
| Engine.Price | app.js:143-196 | no figures (every output "—") exactly when some task has min > max or on-site mode is on with site min > site max; otherwise the figures are `Figures` |
| Engine.Excluded | app.js:199-201 | only a welding row is ever left out of the hour sum, and none is while welding is included |
| Engine.TaskHours | app.js:199-205 | the hour sum is ordered when every task range is, and non-negative when every task is |
| Engine.AggregateHours | app.js:198-205 | the loop's MIN and MAX accumulators end equal to the recursive hour sum `TaskHours` |
| Engine.LaborByMode | app.js:212-236 | the labor branches compute shop labor, on-site labor and labor as `ShopLabor`, `SiteLabor` and `Labor` state them |
| Engine.MarkupAndRush | app.js:238-244 | markup and rush computed from the labor bounds equal `Markup` and `Rush` |
| Engine.ShopLabor | app.js:217-229 | shop labor is never negative for sanitised settings and hours, and ordered when the task hours are |
| Engine.SiteLabor | app.js:231-232 | on-site labor is 0 with on-site mode off; never negative for sanitised settings; ordered when the on-site range is |
| Engine.Labor | app.js:212-236 | labor has a non-negative MIN (and MAX) when the settings and the task hours do |
| Engine.Markup | app.js:238-240 | markup is never negative for sanitised settings and hours |
| Engine.Rush | app.js:242-244 | rush is 0 with rush off, and never negative for sanitised settings and hours |
| Engine.Travel | app.js:249-251 | travel is 0 when off; never negative for sanitised settings; when on, at least call-out plus tolls |
| Engine.Subtotal | app.js:253-255 | markup and rush only add: for sanitised settings and hours each subtotal bound is at least labor plus materials plus travel |
| Engine.Hours | app.js:263-265 | the hours shown are the task hours with on-site mode off, never less than the task hours, and ordered when the task hours and the on-site range in use are |
| Engine.FiguresOn | app.js:207-265 | the breakdown shows the task hours, the materials and the travel charge as they are, and its total is subtotal plus tax |
| Engine.Figures | app.js:198-265 | the breakdown's shop hours are the hour sum of the rows, ordered when every task range is and non-negative when every task is |
| Engine.SubtotalTaxTotal | app.js:253-261 | the subtotal, tax and total steps compute `Subtotal`, the subtotal times the tax rate, and subtotal plus tax |
| Engine.ComputeFigures | app.js:212-265 | the pricing steps after aggregation produce exactly the breakdown `FiguresOn` the task hours |
| Engine.GateAndPrice | app.js:190-261 | refusing on a raised flag, else aggregating and pricing, yields `Price` of the snapshot whenever the flag is raised exactly on an invalid snapshot |
| EngineProperties.IncludedHoursSplit | app.js:199-205 | with welding included, the hour sum is the other rows' sum plus the welding rows' sum |
| EngineProperties.WeldingExcludedHours | app.js:199-205 | with welding off, the hour sum is the sum over the rows other than welding |
| EngineProperties.ExcludedWeldingValuesIgnored | app.js:199-205 | with welding off, the welding rows' stored hours do not change the hour sum |
| EngineProperties.SameFigures | app.js:238-261 | two sets of settings with the same labor, markup, rush, hours, materials, travel and tax rate give the same breakdown |
| EngineProperties.ExcludedWeldingQuoteUnchanged | app.js:143-205 | with welding off, changing the welding row's hours changes no figure (as long as the row still validates) |
| EngineProperties.ExcludedWeldingStillValidated | app.js:145-155 | an inverted welding range blocks the quote even when welding is excluded |
| EngineProperties.OnSiteOffIgnoresSiteFields | app.js:212-223 | with on-site off, the on-site range and the shop and on-site rates change no figure; labor is hours × hourly rate; on-site labor is 0; hours are the task hours |
| EngineProperties.OnSiteOffNotValidated | app.js:165-196 | with on-site off, the on-site range is not validated: changing it (even to an inverted range) or the shop and on-site rates leaves the quote, or its refusal, as it was |
| EngineProperties.OnSiteOnIgnoresHourlyRate | app.js:213-236 | with on-site on, the hourly rate changes nothing; labor is task hours × shop rate plus on-site hours × on-site rate; hours include the on-site hours |
| EngineProperties.MarkupRushOnLaborOnly | app.js:238-244 | labor, markup and rush do not depend on materials, travel or tax |
| EngineProperties.RushOffChargesNothing | app.js:242-244 | with rush off, rush is 0 and the stored rush percentage changes no figure |
| EngineProperties.TravelOffIgnoresTravelFields | app.js:249-251 | with travel off, travel is 0 and the call-out, miles, mileage rate and tolls change no figure |
| EngineProperties.TravelAddsToSubtotalUnmarked | app.js:249-258 | turning travel on charges call-out + miles × rate + tolls, adds that same amount to both subtotal bounds, leaves markup and rush alone, and adds its tax to both tax bounds |
| EngineProperties.SubtotalClosedForm | app.js:238-254 | the subtotal is labor × (1 + markup + rush) + materials + travel in each bound, rush counting as 0 when off |
| EngineProperties.BreakdownAddsUp | app.js:212-255 | labor is shop labor plus on-site labor in both modes, and each subtotal bound is the sum of labor, markup, rush, materials and travel as shown |
| EngineProperties.TotalIsTaxedSubtotal | app.js:256-261 | tax is charged on the whole subtotal: the total is the subtotal × (1 + tax) |
| EngineProperties.LaborMarkupRush | app.js:213-244 | for non-negative inputs labor, markup and rush have non-negative MINs, and are ordered when the hours and the on-site range are |
| EngineProperties.FiguresNonNegative | app.js:198-261 | for sanitised inputs no MIN figure is negative |
| EngineProperties.MinNotAboveMax | app.js:198-265 | for valid sanitised inputs every MIN figure (hours, labor, markup, rush, subtotal, tax, total) is at most its MAX |
| App.CopySnapshot | app.js:413-434 | the copy handler's reading has the same task rows as `compute`'s and agrees with it entirely exactly when no percent field holds more than 100 |
| App.ParsedGreater | app.js:407-408 | the copy handler's raw comparison is false when either field is empty or unparsable, and on non-negative numbers agrees with comparing the sanitised readings |
| App.CopyChecksWhatComputeChecks | app.js:398-408 | after `compute` has written back, the copy handler reads the same task rows and its raw on-site comparison holds exactly when `compute`'s sanitised site min exceeds its site max |
| App.Copy | app.js:398-472 | the task alert fires exactly when a read task range is inverted; the on-site alert exactly when the tasks are fine, on-site mode is on and the read on-site range is inverted; a summary exactly when the snapshot is valid |
| App.CopyAgreesWithCompute | app.js:398-472 | the copy handler prices exactly what a second `compute` would; it produces a summary exactly when `compute` produces figures; when the clamped percentages are whole tenths it reads back exactly the snapshot `compute` priced |
| App.RecomputeIdempotent | app.js:133-188 | a second `compute` writes nothing new, leaves percentages that are whole tenths, and passes validation exactly when the first did; with whole-tenth percentages it reads the same snapshot |
| App.SnapshotOfWritten | app.js:133-188 | the next `compute` reads the snapshot the first read, with each percentage replaced by the one-decimal rounding written back |
| App.RoundingChangesSnapshot | app.js:81-87 | when some clamped percentage is not a whole number of tenths, the next `compute` reads a different snapshot from the first |
| App.RoundedPercentRepriced | app.js:81-87 | a 12.34 % markup is priced at 12.34 % by the first `compute`, and at 12.3 % by the next `compute` and by the copy handler |
| App.QuoteFiguresOrdered | app.js:133-265 | whatever the form holds, a quote `compute` produces has no negative figure and every MIN at most its MAX |
| App.NegativeRowReadsAsZero | app.js:75-76 | a row with two negative hour fields reads as 0–0 and passes validation, though its typed min exceeds its max |
| App.ExampleSnapshot | app.js:333-363 | the example form reads as the typed values, with 20%, 15% and 10% as fractions |
| App.ExampleTaskHours | app.js:336-344 | the example rows sum to 3.25–7 task hours |
| App.ExampleQuoteSingleRate | app.js:333-366 | the example with on-site mode and travel off prices to labor 308.75–665 at the single rate, no on-site labor or travel, subtotal 536.8125–1017.75, tax 53.68125–101.775 and total 590.49375–1119.525 |
| App.ExampleQuote | app.js:333-366 | the example prices to labor 538.75–1125, markup 107.75–225, rush 80.8125–168.75, travel 121.80, subtotal 969.1125–1760.55, tax 96.91125–176.055 and total 1066.02375–1936.605 |

## Left out

- Numbers are `real`, not IEEE doubles: rounding error, `Infinity` and overflow are not modelled, and `parseFloat` is abstracted as `Option<real>`.
- App.Compute: the source writes the fields back in three places as it reads them, and reads the rates and materials only past the gate; the model gathers the writes into one update and reads everything before the gate. Reading has no side effect and every write happens before the gate either way, so neither the result nor the written form depends on this order.
- `Math.round` on doubles is modelled as `Round1` on reals; a percentage whose tenfold value is not exact in binary may round differently in the browser.
- DOM lookup, `.value`/`.textContent` writes other than the written-back fields, CSS classes, disabled fields, row hiding and warning texts: presentation only.
- Event wiring and the example and reset handlers as behaviour; the example values appear only as data in `ExampleForm`.
- The derived shop-hours display strings (`toFixed(2)`), currency formatting, and the summary text: locale-dependent rendering.
- Clipboard writing, `alert`, `setTimeout` and the date stamp of the copy handler: I/O and the clock. The copy handler's two alerts are the outcomes `FixTasksAlert` and `FixSiteAlert`.
- The free-text notes field: it takes no part in pricing.
