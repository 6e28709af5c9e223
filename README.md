# MSS calculator: a verified model of the calculation engine

The application compares two machines for a production program: a manual
machine A and an automated machine B. Both have the same acquisition cost,
useful life and interest rate.

For each machine it computes a machine-hour rate (Maschinenstundensatz, MSS).
The rate has two parts:

- a fixed part per effective hour, from depreciation, imputed interest,
  maintenance, floor space, insurance and tooling;
- a variable energy part.

The production program is a table of part series. The engine costs this table
on both machines:

- processing hours are charged at the machine rate plus labour times the
  operator factor;
- setup hours are charged at the machine rate plus full labour.

From the two costings it derives the key figures:

- each machine's utilisation;
- the yearly saving of B over A, and that saving in percent;
- the simple amortisation of B's higher yearly fixed cost;
- the verdict on that amortisation;
- the recommendation.

Two sweeps re-run the costing:

- the break-even sweep scales every row's series per year by a factor;
- the labour-rate sensitivity sweep varies the labour rate.

The model is in five modules:

| file | module | contents |
|---|---|---|
| `rates.dfy` | `MachineHourRate` | the rate computation |
| `costing.dfy` | `ProgramCosting` | the per-row costing; the costing loop as a method, proved against a specification function; properties of the totals |
| `comparison.dfy` | `Comparison` | utilisation, saving percentage, amortisation, verdict, recommendation |
| `sweeps.dfy` | `Sweeps` | the two sweeps as methods, and their monotonicity and linearity |
| `app.dfy` | `CostComparison` | the page's pipeline from inputs to key figures; facts about the two costings together; the page's defaults worked out |

Amounts are exact reals. The source computes in floating point; see "Left out".

What the code does, which a reader might expect otherwise:

- Interest is charged on half the acquisition cost.
- There is no residual value.
- Amortisation divides B's extra yearly *fixed cost* by the saving. It does not
  divide the acquisition cost.
- Input is not validated beyond the widgets' own limits. Zero effective hours
  and zero units fall back to 0 instead.
- There is no capacity flag. Utilisation may exceed 100 %.
- The costing reads its time columns by whether A's processing-time column
  exists. It does not read them per machine. So with the page's table, B is
  costed with A's times as well (`TimeColumnsSelected`,
  `BothCostingsShareTimes`, `DefaultProgramCost`).

## Model

| member | source | states |
|---|---|---|
| MachineHourRate.BerechneMss | app.py:49-78 | The yearly fixed cost is the sum of depreciation, interest, maintenance, floor space, insurance and tooling. Depreciation times n is ak. Twice the interest is ak times the rate (interest on ak/2). Maintenance is ak times its rate. Floor space is 12 months of area times price. Effective hours are hours times utilisation. The fixed rate times the effective hours gives back the yearly fixed cost, and the fixed rate is 0 without effective hours. The energy rate is kW times price. |
| MachineHourRate.RatesNonNegative | app.py:49-78 | With non-negative inputs, every cost component, the yearly fixed cost, the effective hours and both hourly rates are non-negative. |
| MachineHourRate.FixedRateFallsWithHours | app.py:59-62 | For the same non-negative yearly fixed cost and positive effective hours, more effective hours never give a higher fixed hourly rate. With a negative yearly fixed cost, which the sidebar does not rule out (`ak`, insurance and tooling have no minimum), the rate can rise instead. |
| MachineHourRate.DefaultMachineA | app.py:18-35 | A's default inputs give depreciation 30000, interest 15000, maintenance 15000, floor space 3600, yearly fixed cost 67100, 1800 effective hours and an energy rate of 2.4 per hour. |
| MachineHourRate.DefaultMachineB | app.py:18-46 | B's default inputs give maintenance 27000, floor space 6300, yearly fixed cost 87500, 4250 effective hours and an energy rate of 5.4 per hour. |
| ProgramCosting.SeriesDetail.KostenStueck | app.py:151 | The cost per unit spread over the year's units gives back the row's total cost, and it is 0 for a row with no units. |
| ProgramCosting.TimeColumns | app.py:129-136 | A's time columns are used exactly when A's processing-time column is in the table, and B's otherwise. What this means for the costing is in `TimeColumnsSelected`. |
| ProgramCosting.CostRow | app.py:124-150 | Units per year are series times units per series. Processing and setup hours are the counts times the selected minutes over 60. Processing is charged at fixed + variable + labour × factor per hour. Setup is charged at fixed + variable + full labour. The row total is the sum of the two. |
| ProgramCosting.ProgramCost | app.py:116-173 | The reference definition of the costing: one record per row, each the row costed with the selected time columns, and totals that are the sums of the records' costs, hours and units. |
| ProgramCosting.KalkuliereProgrammDetail | app.py:116-173 | The loop returns one detail record per row, in order, and totals equal to the sums of the records' costs, hours and units. |
| ProgramCosting.EmptyProgram | app.py:118-121 | An empty table gives no records and zero totals. |
| ProgramCosting.DetailsOnePerRow | app.py:123-162 | There is exactly one record per row. Each record carries its row's name, the selected time columns, and series × units per series. |
| ProgramCosting.SumsAppend | app.py:164-166 | Every accumulated total over a concatenation of records is the sum of the totals of the parts. |
| ProgramCosting.ProgramCostAppend | app.py:116-173 | Costing a table made of two parts gives the records of the first part followed by those of the second. The totals add up, so grouping the rows does not matter. |
| ProgramCosting.DetailsAppend | app.py:123-162 | The records of a concatenated table are the records of its parts, concatenated. |
| ProgramCosting.TimeColumnsSelected | app.py:129-136 | Only the time columns picked by the presence of A's processing-time column matter. Tables that agree on them cost the same. Every record uses A's columns when that column exists, and B's otherwise. |
| ProgramCosting.HourSumsAgree | app.py:164-166 | Records that agree row by row on hours and units have equal hour and unit totals. |
| ProgramCosting.HoursIndependentOfRates | app.py:138-140 | Processing hours, setup hours, total hours and units do not depend on the hourly rates, the labour rate or the operator factor. |
| ProgramCosting.DetailHoursAgree | app.py:138-140 | Row by row, hours and units are the same under any rates. |
| ProgramCosting.LabourHoursSplit | app.py:143-148 | The labour hours of a costing are factor × processing hours plus setup hours. |
| ProgramCosting.SumKostenShift | app.py:150-164 | If every record costs `lohn` per labour hour more than a base record, the total cost is the base total plus `lohn` times the base's labour hours. |
| ProgramCosting.RowLabourShift | app.py:142-150 | A row costed at labour rate `lohn` costs the same row at labour rate 0 plus `lohn` per labour hour. |
| ProgramCosting.DetailsLabourShift | app.py:142-166 | The summed cost at labour rate `lohn` is the summed cost at rate 0 plus `lohn` times the labour hours. |
| ProgramCosting.DetailsShifted | app.py:142-150 | Every record at labour rate `lohn` is the rate-0 record shifted by `lohn` per labour hour. |
| ProgramCosting.LabourRateAffine | app.py:142-173 | The program's total cost is affine in the labour rate. It is the cost at labour rate 0 plus `lohn` times the labour hours. |
| ProgramCosting.RowCostMonotone | app.py:138-150 | More series per year never make a row cheaper, given non-negative counts, minutes and rates. |
| ProgramCosting.RowHoursMonotone | app.py:138-140 | Given non-negative counts and minutes, more series per year never give a row fewer processing or setup hours. |
| ProgramCosting.SumKostenMonotone | app.py:164 | If each record costs no more than its counterpart, the total costs no more either. |
| ProgramCosting.CostMonotoneInSeries | app.py:116-173 | Given non-negative counts and minutes in every row and non-negative processing and setup charge rates, raising series counts row by row never lowers the program's total cost. |
| ProgramCosting.DetailProcessingNonNegative | app.py:139 | With non-negative rows, every row's processing hours are non-negative. |
| Comparison.Auslastung | app.py:198 | Utilisation times effective hours is 100 × the program's hours. It is 0 when there are no effective hours. |
| Comparison.AuslastungWithinCapacity | app.py:198 | With effective hours, utilisation is at most 100 % exactly when the program's hours fit in the effective hours. It is never negative for non-negative hours. |
| Comparison.ErsparnisProz | app.py:212 | The percentage times A's cost is 100 × the saving. It is 0 when A's cost is not positive. |
| Comparison.ErsparnisProzBounds | app.py:211-212 | With A's cost positive and B's non-negative, the percentage is positive exactly when B is cheaper. It is at most 100, and it is 100 exactly when B costs nothing. |
| Comparison.Amortise | app.py:222-224 | There is a number of years exactly when the saving is positive. Those years times the saving equal B's yearly fixed cost minus A's. |
| Comparison.Bewertung | app.py:222-236 | "Maschine A günstiger" exactly when there are no amortisation years. Otherwise "Wirtschaftlich" exactly when the years are below the useful life, and "Kritisch prüfen" when they are not. `VerdictMeaning` states the verdict without the division. |
| Comparison.VerdictMeaning | app.py:222-236 | "Wirtschaftlich" is shown exactly when the saving is positive and n years of saving exceed the fixed-cost difference. "Kritisch prüfen" is shown exactly when the saving is positive but n years of saving do not exceed it. "Maschine A günstiger" is shown exactly when the saving is not positive. |
| Comparison.CheaperFixedCostIsEconomical | app.py:222-231 | If B's yearly fixed cost is not above A's, any positive saving makes B economical. |
| Comparison.Empfehle | app.py:239-250 | B is recommended exactly when the saving is positive, with the saving, its percentage and the amortisation years. Otherwise A is recommended, with B's extra cost: non-negative, and the saving's absolute value. |
| Sweeps.RoundHalfEven | app.py:349 | The result is within 0.5 of the input, and on a tie it is the even neighbour. |
| Sweeps.RoundMonotone | app.py:349 | Rounding keeps order. |
| Sweeps.RoundWhole | app.py:349 | Whole numbers are unchanged by rounding. |
| Sweeps.ScaleRow | app.py:349 | Only the row's series per year change. The new count is within 0.5 of the old count times the factor. |
| Sweeps.ScaleProgram | app.py:348-349 | The scaled table keeps its columns and its rows in order. Each row changes only its series per year, which is within 0.5 of the old count times the factor. |
| Sweeps.BreakEvenSweep | app.py:342-356 | For every factor, in order, the sweep records the total cost on A and on B of the table with rounded scaled series counts, and A's total units. |
| Sweeps.SavingAt | app.py:477-479 | One sample of the sensitivity sweep is positive exactly when B's total cost is below A's, and 0 exactly when they are equal. How it moves with the labour rate is in `SavingAffineInLabourRate` and `SavingMonotoneInLabourRate`. |
| Sweeps.LohnSensitivity | app.py:474-479 | For every labour rate, in order, the sweep records A's total cost minus B's on the unchanged table. |
| Sweeps.ScaledRowsOrdered | app.py:349 | Given non-negative rows, a larger non-negative factor gives every row at least as many series and changes nothing else. |
| Sweeps.ScaleRowOrdered | app.py:349 | For one non-negative row and factors 0 ≤ f1 ≤ f2, the larger factor gives at least as many rounded series, and the scaled row stays non-negative. |
| Sweeps.BreakEvenCostMonotone | app.py:347-356 | Given non-negative counts and minutes in every row and non-negative processing and setup charge rates, a larger non-negative factor never gives a cheaper scaled program: the break-even curves do not fall. |
| Sweeps.ScaleByOne | app.py:348-349 | Scaling by 1 gives back the table itself. |
| Sweeps.SumStueckScaled | app.py:166 | If every record has k times its counterpart's units, the unit total is k times as large. |
| Sweeps.ScaledUnits | app.py:349 | Scaling by a whole factor k multiplies every row's units per year by k. |
| Sweeps.ScaleRowWhole | app.py:349 | Scaling a row by a whole factor multiplies its series exactly, with no rounding. |
| Sweeps.ScaleByWholeFactor | app.py:349-356 | Scaling by a whole factor k multiplies the recorded total units by exactly k. |
| Sweeps.SavingAffineInLabourRate | app.py:476-479 | Each sample is the saving at labour rate 0, plus `lohn` times A's labour hours, minus `lohn` times B's. |
| Sweeps.LabourHoursGap | app.py:477-478 | On the same table, A's labour hours minus B's is (factor A − factor B) × the processing hours. |
| Sweeps.SavingMonotoneInLabourRate | app.py:474-479 | When A's operator factor is at least B's and every row has non-negative counts and minutes, a higher labour rate never lowers the saving. The sensitivity curve does not fall. |
| Sweeps.DetailSavingMonotone | app.py:476-479 | When A's operator factor is at least B's and every row has non-negative counts and minutes, the summed saving over the records does not fall with the labour rate. |
| Sweeps.SeqSavingRises | app.py:476-479 | If every record pair is the rate-0 pair shifted per labour hour, with equal hours on both machines and factor A ≥ factor B, the summed saving does not fall as the labour rate rises (given non-negative processing hours). |
| Sweeps.DetailSavingRises | app.py:477-479 | For one row with non-negative processing hours, the saving does not fall as the labour rate rises, when factor A ≥ factor B. |
| Sweeps.SumSavingMonotone | app.py:479 | If each row's saving is no higher at the lower rate, neither is the total. |
| CostComparison.Evaluate | app.py:81-250 | The page computes both machines' rates from the shared and per-machine inputs, with A's operator factor 1.0. It costs the same table for A and for B. Utilisation, saving, percentage, amortisation, verdict and recommendation are the functions above applied to those results. |
| CostComparison.BothCostingsShareTimes | app.py:176-184 | Both costings charge the same hours and units. With A's processing-time column present, B's records use A's times. |
| CostComparison.UtilisationsShareHours | app.py:198-207 | When both machines have positive effective hours, utilisation × effective hours is the same on A and on B, so the two utilisations differ only through the effective hours. |
| CostComparison.FixDifferenceExcludesCapital | app.py:81-84 | Depreciation and interest cancel. B's yearly fixed cost minus A's is the difference in maintenance, floor space, insurance and tooling. |
| CostComparison.EconomicalVerdict | app.py:211-236 | B is judged economical exactly when it saves money and n years of that saving exceed its extra maintenance, floor space, insurance and tooling cost. |
| CostComparison.DefaultProgramCost | app.py:90-98 | The default table gives 6200 units and 2380/3 hours on either machine, all from A's columns. Its cost is 2200/3 processing hours at the processing rate plus 60 setup hours at the setup rate. |
| CostComparison.DefaultPageIsEconomical | app.py:18-236 | With the defaults, B saves more than 44000 a year and its fixed cost is 20400 higher. It pays back in under a year, so the verdict is "Wirtschaftlich". |

## Left out

- The user interface is not modelled: Streamlit widgets, captions, metrics, colours and expanders. The sidebar and table inputs are parameters (`Inputs`, `Program`). Only the useful life's minimum of 1 (app.py:19) is part of the model, through the type `Years`. The slider ranges (app.py:20, 28, 31, 40-42) and the table editor's minimums (app.py:106-111) are not enforced. Some lemmas require non-negative inputs instead. `NonNegativeRow` asks for non-negative counts and minutes, which is weaker than the editor's minimums. `NonNegativeParams` asks for more than the page enforces: it also assumes a non-negative acquisition cost, floor space, floor-space price, electricity price, insurance, tooling, operating hours and power draw, and those inputs have no minimum on the page (app.py:18, 22-23, 27, 32-35, 39, 43-46). The lemmas with such preconditions (`RatesNonNegative`, `FixedRateFallsWithHours`, the monotonicity lemmas) say nothing about negative entries.
- Floating point is not modelled. Amounts are exact reals, so results may differ from the source in the last bits.
- The rounding of the displayed detail fields (app.py:155-161) is not modelled. Records keep unrounded values; those roundings affect only the display.
- The detail table's `DataFrame` is not modelled. Records are a sequence of a datatype. The record's extra `machine` field records which time columns the row was costed with. The source computes that value (app.py:130, 134) but does not store it in the record.
- Missing columns are not an error in the model. The source raises `KeyError` when the table lacks a column it reads (app.py:124-126, 131-132, 135-136). The model reads every cell from the row's fields, and `Program.columns` only decides which time columns are used. So a table without some of the seven columns is costed without error.
- Empty cells are not modelled. A row just added in the editor (app.py:102) has empty cells. An empty unit count fails at `int(stueck_jahr)` (app.py:155). The model's cells are always an `int` or a `real` and cannot be empty, so this error path is not captured.
- `np.linspace` is not modelled. The factors (app.py:342) and labour rates (app.py:474) are parameters of the sweep methods.
- The sensitivity selector (app.py:468-471) also lists electricity price, utilisation and operator factor. The code only implements the labour-rate branch (app.py:473-479), which is modelled. For the other options it computes nothing, so there is nothing more to model.
- The display of the rate tables (app.py:252-288) and the chart values (app.py:290-296 and the plots) are not modelled. They only present figures the model already computes.
- The inner `else 999` at app.py:224 is not modelled. It cannot be reached, because it sits under `if ersparnis > 0`.
- Residual value, net present value, discounted payback and multi-year projections are not modelled, because the code does not compute them.
- The table editor's declared minimums are not modelled as validation: series per year and units per series ≥ 1, processing minutes ≥ 0.1 and setup minutes ≥ 0 (app.py:106-111). The monotonicity lemmas require the weaker condition that all counts and minutes are non-negative (`NonNegativeRow`). The costing itself accepts any numbers.
