# Capital advisor: valuation, DCF, scenario simulator and comparator in Dafny

This project models the numeric core of the capital advisor, a Streamlit application that
helps the owner of a small Japanese company value the business and weigh financing choices.
It covers four computations of `capital_advisor_valu.py`:

- **Multi-method valuation** (`valuation.dfy`). Up to six methods go into an
  insertion-ordered dictionary:
  - PER, when profit is positive;
  - PBR, when net assets are positive;
  - EBITDA multiple, when profit plus depreciation is positive;
  - 年買法 (year purchase), always;
  - the detailed DCF, when its equity value is positive;
  - 純資産法 (net assets), always.

  Each entry carries its fit mark (✅, △ or 参考値). The summary shows the median (the element
  at `len // 2` of the ascending sort), the maximum, the minimum and the mean. The detail
  table lists the entries by value, highest first, with a stable sort.
- **Discounted cash flow** (`dcf.dfy`):
  - CAPM cost of equity from the industry beta;
  - WACC from the book debt ratio;
  - a five-year free-cash-flow loop whose growth rate loses a tenth of itself each year and
    whose margin improves one point a year;
  - a Gordon-growth terminal value, or an exit multiple when WACC does not exceed the
    perpetual growth rate;
  - equity value as enterprise value less half of the liabilities.

  The sensitivity table (`sensitivity.dfy`) has 3 perpetual-growth rows and 5 WACC columns
  and recomputes only the terminal value. The page shows it only when the DCF entry is
  among the valuations, that is when the DCF equity value is positive
  (capital_advisor_valu.py:431-436); `Grid` and `BuildGrid` are defined for any DCF result.
- **Three-year simulator** (`simulator.dfy`). The scenario selects which funding sliders
  apply. A loop over years 0..3 then:
  - compounds revenue year by year;
  - improves the margin by a fixed number of points a year;
  - deducts flat loan interest in the bank-loan scenario only;
  - dilutes the owner once, in year 1;
  - values the company and the owner's stake at a price-earnings multiple.
- **Scenario comparator** (`comparator.dfy`). It takes three presets:
  - VC, with 20 % dilution;
  - bank, at 0.8 times the growth rates;
  - self-funding, at 0.5 times the growth rates.

  It compounds each preset's rates into one year-3 revenue, applies today's margin (no
  margin improvement, no interest) and values the result at the industry's PER from the
  table, not at the simulator's slider. It recommends the first preset with the largest
  owner value (`idxmax`).

Shared pieces:
- `company.dfy` holds the snapshot and the three industry tables.
- `numerics.dfy` holds powers, sums, extremes, the mean, an ascending insertion sort and the
  upper median.

All amounts are exact `real`s (millions of yen; rates in percent).

The model follows the code in these details:
- The WACC capital structure falls back to 30/70 unless `total_assets > 0`.
- The sensitivity rows are `max(0, pg - 1)`, `pg` and `min(5, pg + 1)`. The centre row is
  `pg` itself, unclamped.
- The simulator's base margin falls back to 0 without revenue; the DCF's falls back to 0.1.
  The comparator's final profit is 0 without revenue.
- The comparator values at `industry_pe.get(industry, 15)`, not at the PER slider.

## Model

| member | source | states |
|---|---|---|
| Company.BetaOf | capital_advisor_valu.py:228-238 | the beta looked up, with default 1.0, lies between 0.8 and 1.3 |
| Company.PeOf | capital_advisor_valu.py:900-912 | the PER looked up, with default 15, lies between 10 and 25 |
| Company.UnlistedIndustryValuedAsOther | capital_advisor_valu.py:125-135 | a label absent from the tables gets exactly the その他 multiples, beta and PER |
| Company.PeTableMatchesPerColumn | capital_advisor_valu.py:900-912 | the simulator's PER table equals the PER column of the multiples table for every industry |
| Dcf.CostOfEquity | capital_advisor_valu.py:224-239 | CAPM cost of equity `0.5 + beta * 6`, between 5.3 and 8.3 percent |
| Dcf.StructureOf | capital_advisor_valu.py:245-251 | debt and equity ratios sum to 1; with positive assets, debt ratio times assets equals liabilities; otherwise the debt ratio is 0.3 |
| Dcf.WaccBetweenCosts | capital_advisor_valu.py:241-254 | with liabilities between 0 and assets, WACC lies between the after-tax cost of debt (1.4) and the cost of equity, hence above -100 |
| Dcf.DiscountFactor | capital_advisor_valu.py:297 | `(1 + wacc/100) ** n` is nonzero for wacc != -100 and positive for wacc > -100 |
| Dcf.GrowthDecays | capital_advisor_valu.py:276-277 | each year's growth rate is 0.9 times the previous year's; a positive rate strictly shrinks and stays positive |
| Dcf.ProjectionsUpTo | capital_advisor_valu.py:272-307 | the projection has one row per year, row i being the loop pass for year i+1 |
| Dcf.ProjectCashFlows | capital_advisor_valu.py:272-307 | the loop produces five rows for years 1..5 and the running sum of their present values |
| Dcf.PerpetualGrowth | capital_advisor_valu.py:312 | perpetual growth is at most 2.5 and at most 0.3 times growth, and equals one of them |
| Dcf.GordonIsGrowingPerpetuity | capital_advisor_valu.py:317-319 | the Gordon value equals next year's cash flow plus itself grown by g, both discounted one year at WACC |
| Dcf.DiscountTerminalValue | capital_advisor_valu.py:317-325 | when WACC exceeds perpetual growth, the present value times the five-year discount factor times (WACC - g)/100 equals next year's cash flow `fcf * (1 + g/100)`, the growing perpetuity at that yield; otherwise the present value times the discount factor equals the final cash flow times the exit multiple |
| Dcf.ComputeDcf | capital_advisor_valu.py:221-333 | the DCF block yields exactly the DCF result of the snapshot and EBITDA multiple |
| Dcf.DcfStructure | capital_advisor_valu.py:309-333 | five rows for years 1..5, FCF total = sum of their present values, final FCF from year 5, perpetual growth at most 2.5, equity = FCF total + terminal PV - half the liabilities |
| Dcf.TerminalValueBranch | capital_advisor_valu.py:318-325 | Gordon formula (positive denominator) exactly when WACC exceeds perpetual growth, exit multiple otherwise |
| Sensitivity.WaccCandidates | capital_advisor_valu.py:576-577 | five strictly increasing discount rates centred on the WACC |
| Sensitivity.GrowthCandidates | capital_advisor_valu.py:578-580 | three growth rates, the middle one the perpetual growth rate, none below both 0 and it |
| Sensitivity.CellAt | capital_advisor_valu.py:587-595 | a cell holds a number exactly when its discount rate exceeds its growth rate, "N/A" otherwise |
| Sensitivity.BuildGrid | capital_advisor_valu.py:584-596 | the nested loops build exactly the 3 x 5 table |
| Sensitivity.GridShape | capital_advisor_valu.py:584-596 | 3 rows of 5 cells; cell (i, j) is numeric iff WACC candidate j exceeds growth candidate i |
| Sensitivity.CentreCellIsDcfEquity | capital_advisor_valu.py:576-596 | when the DCF used the Gordon formula, the centre cell equals the DCF's equity value |
| Sensitivity.EquityFallsAsWaccRises | capital_advisor_valu.py:589-592 | with positive final FCF, a higher discount rate gives a strictly lower equity value |
| Sensitivity.EquityRisesWithGrowth | capital_advisor_valu.py:589-592 | with positive final FCF, a higher perpetual growth rate gives a strictly higher equity value |
| Sensitivity.RowDecreasesLeftToRight | capital_advisor_valu.py:584-596 | along a row, numeric cells stay numeric to the right and strictly decrease |
| Valuation.CollectValuations | capital_advisor_valu.py:182-358 | the valuation block yields the DCF of the snapshot and the dictionary of entries in insertion order |
| Valuation.CollectMultipleEntries | capital_advisor_valu.py:184-218 | PER, PBR and EBITDA entries each only when its basis is positive, then the year-purchase entry |
| Valuation.AddDcfAndNetAssetEntries | capital_advisor_valu.py:335-358 | the DCF entry only when its equity value is positive, then the net-asset entry |
| Valuation.EntryLookups | capital_advisor_valu.py:184-218 | each entry answers a lookup for its own key with its value exactly when its condition holds |
| Valuation.IncludedMethods | capital_advisor_valu.py:182-358 | each method is present iff its basis is positive (year purchase and net assets always), with value profit*PER, net assets*PBR, EBITDA*multiple, net assets + years*profit, DCF equity, assets - liabilities |
| Valuation.ValuationsRanked | capital_advisor_valu.py:182-358 | keys appear in insertion order, each at most once |
| Valuation.ValuationsShape | capital_advisor_valu.py:182-358 | two to six entries, distinct keys, insertion order, always ending with net assets |
| Valuation.SoftwareCompanyExample | capital_advisor_valu.py:125-218 | IT company, revenue 500, profit 50, assets 600, liabilities 250, depreciation 25: PER 1250, PBR 1050, EBITDA 600, 年買法 600, 純資産法 350 |
| Valuation.Summarize | capital_advisor_valu.py:366-381 | min <= median <= max and min <= mean <= max; median, max and min are among the values; every value lies between min and max |
| Valuation.SummaryOfValuations | capital_advisor_valu.py:366-381 | over the collected methods (at least two), median, max and min are each some method's value and the mean lies between min and max |
| Numerics.SortAsc | capital_advisor_valu.py:369 | `sorted` returns an ascending permutation of its input |
| Numerics.Median | capital_advisor_valu.py:369 | the median is one of the values and lies between their minimum and maximum |
| Numerics.MedianOfSorted | capital_advisor_valu.py:369 | on ascending values the median is the element at `len // 2` (the upper middle for even counts) |
| Numerics.MaxOf | capital_advisor_valu.py:373 | the maximum is one of the values and no value exceeds it |
| Numerics.MinOf | capital_advisor_valu.py:377 | the minimum is one of the values and no value is below it |
| Numerics.Mean | capital_advisor_valu.py:381 | the mean lies between the minimum and the maximum |
| Valuation.RankByValue | capital_advisor_valu.py:364 | the detail list is a permutation of the entries ordered by value, highest first |
| Valuation.InsertByValueOrdered | capital_advisor_valu.py:364 | inserting an entry into a list ordered highest first keeps it so ordered |
| Valuation.InsertByValueStable | capital_advisor_valu.py:364 | inserting keeps the relative order of the entries of any given value |
| Valuation.RankByValueIsStable | capital_advisor_valu.py:364 | the sort is stable: entries of equal value keep their dictionary order |
| Simulator.FundingBySelection | capital_advisor_valu.py:866-875 | only a VC round or custom scenario can dilute, only a bank loan pays interest, self-funding and listing preparation raise nothing |
| Simulator.GrowthPath | capital_advisor_valu.py:934 | four passes, the first (the present) with no growth |
| Simulator.SimulateYear | capital_advisor_valu.py:935-974 | one loop pass yields the year's row and the revenue and equity carried to the next pass |
| Simulator.Simulate | capital_advisor_valu.py:919-974 | the loop over years 0..3 yields exactly the simulated table |
| Simulator.SimulationUnrolled | capital_advisor_valu.py:922-974 | the table is the four passes chained: each starts from the revenue and equity the previous one carried, the first from today's revenue and 100 % |
| Simulator.SimulationRows | capital_advisor_valu.py:954-974 | exactly four rows for years 0..3 in order; company value = profit * PER, owner value = company value * equity / 100, margin = profit / revenue * 100 (0 without revenue) |
| Simulator.RevenueCompounds | capital_advisor_valu.py:937-952 | year 0 is today's revenue; each year grows the previous year's revenue by its rate, so year 3 is revenue compounded by all three |
| Simulator.ProfitByScenario | capital_advisor_valu.py:938-949 | year 0 shows today's profit; later years earn revenue times the improved margin, less the interest in the bank-loan scenario and in no other |
| Simulator.EquityPath | capital_advisor_valu.py:924-960 | the owner holds 100 at year 0 and, in years 1..3, 100 * (1 - d/100) when d > 0 and 100 otherwise |
| Simulator.UndilutedOwnerHoldsAll | capital_advisor_valu.py:958-963 | without dilution the owner value equals the company value in every year |
| Simulator.UndilutedScenarios | capital_advisor_valu.py:866-963 | bank loan, self-funding and listing preparation keep the owner at 100 % and at the whole company value every year |
| Simulator.SimulationExample | capital_advisor_valu.py:934-974 | 500/50, growth 15, improvement 1, PER 15, dilution 20: year 1 has revenue 575, profit 63.25, margin 11, value 948.75, equity 80, owner value 759 |
| Comparator.Presets | capital_advisor_valu.py:1173-1192 | three presets in the order VC, bank, self-funding, each with three growth rates |
| Comparator.CompoundRevenue | capital_advisor_valu.py:1198-1200 | the inner loop applies the growth rates one after another |
| Comparator.CompoundedIsProduct | capital_advisor_valu.py:1198-1200 | the final revenue equals revenue times the product of the factors `1 + g/100` |
| Comparator.Compare | capital_advisor_valu.py:1194-1216 | the loop over the presets yields exactly the comparison table |
| Comparator.ComparisonLines | capital_advisor_valu.py:1196-1205 | each line: revenue times the product of its factors, value = final profit at today's margin * industry PER, owner equity 80 for VC and 100 otherwise, owner value = value * equity / 100 |
| Comparator.VcLineMatchesSimulation | capital_advisor_valu.py:1173-1200 | the VC line's year-3 revenue equals the simulator's year-3 revenue for the same growth rates |
| Comparator.FirstMaxIndex | capital_advisor_valu.py:1228 | `idxmax` returns a position holding the largest value, with every earlier value strictly smaller |
| Comparator.RecommendationRule | capital_advisor_valu.py:1228 | VC is recommended iff its owner value is not below the others; bank iff it beats VC and is not below self-funding; self-funding iff it beats both |
| Comparator.NoRevenueRecommendsVc | capital_advisor_valu.py:1196-1228 | without revenue every owner value is 0 and the VC preset is recommended |

## Left out

- User interface: widgets, tabs, metrics formatting, charts, the highlighted table and the
  download buttons. Entries carry the fit mark but not the formula or description strings.
- The language-model report (tab 2) and every network call: external services outside the
  numeric core.
- `base_fcf` (line 269) and `initial_cost` (lines 926-932): computed but never used.
- The `discount_rate` slider (lines 168-173): never read by any computation.
- Slider defaults, slider bounds and the optimistic/base/pessimistic growth presets
  (lines 877-913). The model takes the slider values as inputs, and also accepts values
  the widgets would not allow.
- The year-over-year percent-change metrics under the simulation (lines 990-1015):
  presentation only.
- Floating point: all arithmetic is exact over `real`, so rounding, overflow and IEEE
  special values are not modelled. The integer inputs of the number widgets are reals here.
- Dcf.DcfOf, Dcf.ComputeDcf and Valuation.CollectValuations require a WACC other than -100.
  At -100 every discount factor is zero and the source raises ZeroDivisionError; the model
  has no error path for it.
- Sensitivity.Grid and Sensitivity.BuildGrid require perpetual growth above -100. The
  growth slider keeps it at -15 or more; below -100 a discount factor could be zero.
- Simulator.SelectFunding: an interest rate of 0 stands for the `interest_rate` variable that
  non-bank scenarios never define, because only the bank-loan branch reads it.
- Simulator.Simulate: the source's `year <= 3` guard on the interest deduction always
  holds in the loop, so it is not a separate case.
