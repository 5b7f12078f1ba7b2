/** The detailed discounted-cash-flow method of the valuation tab: cost of equity by CAPM,
    WACC from the book capital structure, a five-year free-cash-flow projection with a
    decaying growth rate and a margin that improves one point a year, a Gordon-growth
    terminal value (exit multiple when WACC does not exceed the perpetual growth rate), and
    equity value as enterprise value less half of the liabilities. */
module Dcf {
  import opened Numerics
  import opened Company

  const RiskFreeRate: real := 0.5        // percent
  const MarketRiskPremium: real := 6.0   // percent
  const CostOfDebt: real := 2.0          // percent
  const TaxRate: real := 30.0            // percent
  const ProjectionYears: nat := 5

  /** `cost_of_debt * (1 - tax_rate/100)` = 1.4 percent. */
  const AfterTaxCostOfDebt: real := CostOfDebt * (1.0 - TaxRate / 100.0)

  /** CAPM: `risk_free_rate + beta * market_risk_premium`, between 5.3 and 8.3 percent
      over the beta table. */
  function CostOfEquity(industry: Industry): (r: real)
    ensures r == RiskFreeRate + BetaOf(industry) * MarketRiskPremium
    ensures 5.3 <= r <= 8.3
  {
    RiskFreeRate + BetaOf(industry) * MarketRiskPremium
  }

  datatype CapitalStructure = CapitalStructure(debtRatio: real, equityRatio: real)

  /** Book debt ratio `total_liabilities / total_assets`, or 0.3 when there are no assets. */
  function StructureOf(totalAssets: real, totalLiabilities: real): (c: CapitalStructure)
    ensures c.debtRatio + c.equityRatio == 1.0
    ensures totalAssets > 0.0 ==> c.debtRatio * totalAssets == totalLiabilities
    ensures totalAssets <= 0.0 ==> c.debtRatio == 0.3
  {
    if totalAssets > 0.0 then
      var debtRatio := totalLiabilities / totalAssets;
      CapitalStructure(debtRatio, 1.0 - debtRatio)
    else
      CapitalStructure(0.3, 0.7)
  }

  /** `cost_of_equity * equity_ratio + cost_of_debt * (1 - tax_rate/100) * debt_ratio` */
  function Wacc(s: Snapshot): real
  {
    var c := StructureOf(s.totalAssets, s.totalLiabilities);
    CostOfEquity(s.industry) * c.equityRatio + CostOfDebt * (1.0 - TaxRate / 100.0) * c.debtRatio
  }

  /** With liabilities no larger than assets (or no assets at all) the WACC is a weighted
      average in the plain sense: it lies between the after-tax cost of debt and the cost
      of equity, so every discount factor `(1 + wacc/100) ** n` is positive. */
  lemma WaccBetweenCosts(s: Snapshot)
    requires s.totalAssets > 0.0 ==> 0.0 <= s.totalLiabilities <= s.totalAssets
    ensures AfterTaxCostOfDebt <= Wacc(s) <= CostOfEquity(s.industry)
    ensures Wacc(s) > -100.0
  {
    var c := StructureOf(s.totalAssets, s.totalLiabilities);
    var coe := CostOfEquity(s.industry);
    assert 0.0 <= c.debtRatio <= 1.0 by {
      if s.totalAssets > 0.0 {
        DivideBounds(0.0, s.totalLiabilities, 1.0, s.totalAssets);
        assert c.debtRatio == s.totalLiabilities / s.totalAssets;
      }
    }
    assert Wacc(s) == coe - (coe - AfterTaxCostOfDebt) * c.debtRatio;
    ScaleWeak(coe - AfterTaxCostOfDebt, 0.0, c.debtRatio);
    ScaleWeak(coe - AfterTaxCostOfDebt, c.debtRatio, 1.0);
  }

  /** `(1 + wacc/100) ** n`, never zero while `wacc != -100`. */
  function DiscountFactor(wacc: real, n: nat): (d: real)
    requires wacc != -100.0
    ensures d != 0.0
    ensures wacc > -100.0 ==> d > 0.0
  {
    PowNonzero(1.0 + wacc / 100.0, n);
    if wacc > -100.0 then PowPositive(1.0 + wacc / 100.0, n); Pow(1.0 + wacc / 100.0, n)
    else Pow(1.0 + wacc / 100.0, n)
  }

  /** One row of the five-year projection table. */
  datatype FcfYear = FcfYear(year: nat, revenue: real, fcf: real, pvFcf: real)

  /** `growth_rate * 0.9 ** (year - 1)`: the growth rate loses a tenth of itself each year. */
  function YearGrowth(growthRate: real, year: nat): real
    requires year >= 1
  {
    growthRate * Pow(0.9, year - 1)
  }

  /** Each year's growth rate is nine tenths of the previous year's, so a positive rate
      shrinks every year and stays positive. */
  lemma GrowthDecays(growthRate: real, year: nat)
    requires year >= 1
    ensures YearGrowth(growthRate, year + 1) == 0.9 * YearGrowth(growthRate, year)
    ensures growthRate > 0.0 ==> 0.0 < YearGrowth(growthRate, year + 1) < YearGrowth(growthRate, year)
  {
    var p := Pow(0.9, year - 1);
    assert Pow(0.9, year) == 0.9 * p;
    assert growthRate * (0.9 * p) == 0.9 * (growthRate * p);
    PowPositive(0.9, year - 1);
    if growthRate > 0.0 {
      ScaleStrict(p, 0.0, growthRate);
    }
  }

  /** One pass of the projection loop for `year` in 1..5. */
  function ProjectYear(s: Snapshot, wacc: real, year: nat): FcfYear
    requires wacc != -100.0 && year >= 1
  {
    var yearGrowth := YearGrowth(s.growthRate, year);
    var projectedRevenue := s.revenue * Pow(1.0 + yearGrowth / 100.0, year);
    var profitMargin := if s.revenue > 0.0 then s.profit / s.revenue else 0.1;
    var improvedMargin := profitMargin + 0.01 * (year as real);
    var projectedProfit := projectedRevenue * improvedMargin;
    var yearNopat := projectedProfit * (1.0 - TaxRate / 100.0);
    var yearDepreciation := s.depreciation * Pow(1.0 + yearGrowth / 100.0, year);
    var yearWcChange := projectedRevenue * 0.02 * (yearGrowth / 100.0);
    var yearCapex := yearDepreciation * 1.2;
    var yearFcf := yearNopat + yearDepreciation - yearWcChange - yearCapex;
    var pvFcf := yearFcf / DiscountFactor(wacc, year);
    FcfYear(year, projectedRevenue, yearFcf, pvFcf)
  }

  /** The first `n` rows of the projection, in year order: row `i` is year `i + 1`. */
  function ProjectionsUpTo(s: Snapshot, wacc: real, n: nat): (ps: seq<FcfYear>)
    requires wacc != -100.0
    ensures |ps| == n
    ensures forall i :: 0 <= i < n ==> ps[i] == ProjectYear(s, wacc, i + 1)
  {
    if n == 0 then [] else ProjectionsUpTo(s, wacc, n - 1) + [ProjectYear(s, wacc, n)]
  }

  /** The present values of the rows, added in row order as `pv_fcf_total += pv_fcf` does. */
  function SumPv(ps: seq<FcfYear>): real
  {
    if ps == [] then 0.0 else SumPv(ps[..|ps| - 1]) + ps[|ps| - 1].pvFcf
  }

  /** The projection loop: appends one row per year 1..5 (each computed by `ProjectYear`)
      and accumulates their present values. */
  method ProjectCashFlows(s: Snapshot, wacc: real) returns (projections: seq<FcfYear>, pvTotal: real)
    requires wacc != -100.0
    ensures |projections| == ProjectionYears
    ensures forall i :: 0 <= i < ProjectionYears ==> projections[i] == ProjectYear(s, wacc, i + 1)
    ensures projections == ProjectionsUpTo(s, wacc, ProjectionYears)
    ensures pvTotal == SumPv(projections)
  {
    projections := [];
    pvTotal := 0.0;
    for year: nat := 1 to ProjectionYears + 1
      invariant projections == ProjectionsUpTo(s, wacc, year - 1)
      invariant pvTotal == SumPv(projections)
    {
      var row := ProjectYear(s, wacc, year);
      assert (projections + [row])[..|projections|] == projections;
      pvTotal := pvTotal + row.pvFcf;
      projections := projections + [row];
    }
  }

  /** `min(2.5, growth_rate * 0.3)`: capped at 2.5 percent, with no floor. */
  function PerpetualGrowth(growthRate: real): (pg: real)
    ensures pg <= 2.5 && pg <= growthRate * 0.3
    ensures pg == 2.5 || pg == growthRate * 0.3
  {
    Min(2.5, growthRate * 0.3)
  }

  /** The Gordon-growth value at the end of year 5 of a cash flow `finalFcf` growing at `g`
      percent forever, discounted at `w` percent. */
  function GordonValue(finalFcf: real, w: real, g: real): real
    requires w > g
  {
    (finalFcf * (1.0 + g / 100.0)) / ((w - g) / 100.0)
  }

  /** The Gordon value is the fixed point of "one more year": worth next year's cash flow
      plus itself grown by `g`, both discounted by one year at `w`. */
  lemma GordonIsGrowingPerpetuity(finalFcf: real, w: real, g: real)
    requires w > g
    ensures var tv := GordonValue(finalFcf, w, g);
      tv * (1.0 + w / 100.0) == finalFcf * (1.0 + g / 100.0) + tv * (1.0 + g / 100.0)
  {
    var tv := GordonValue(finalFcf, w, g);
    var a := finalFcf * (1.0 + g / 100.0);
    assert tv * ((w - g) / 100.0) == a;
    assert tv * (1.0 + w / 100.0) - tv * (1.0 + g / 100.0) == tv * ((w - g) / 100.0);
  }

  /** Present value of the terminal value: Gordon growth when `wacc > pg`, otherwise the
      exit-multiple fallback `final_year_fcf * ebitda_multiple`, discounted five years. */
  function TerminalPv(finalFcf: real, wacc: real, pg: real, ebitdaMultiple: real): real
    requires wacc != -100.0
  {
    if wacc > pg then GordonValue(finalFcf, wacc, pg) / DiscountFactor(wacc, 5)
    else finalFcf * ebitdaMultiple / DiscountFactor(wacc, 5)
  }

  /** What the valuation keeps of the DCF for its detail view and the sensitivity grid. */
  datatype DcfResult = DcfResult(
    wacc: real,
    pvFcfTotal: real,
    terminalPv: real,
    enterpriseValue: real,
    netDebt: real,
    equityValue: real,
    perpetualGrowth: real,
    finalYearFcf: real,
    projections: seq<FcfYear>)

  /** The DCF computation of the valuation tab, for the snapshot and the EBITDA-multiple slider. */
  function DcfOf(s: Snapshot, ebitdaMultiple: real): DcfResult
    requires Wacc(s) != -100.0
  {
    var wacc := Wacc(s);
    var projections := ProjectionsUpTo(s, wacc, ProjectionYears);
    var pvFcfTotal := SumPv(projections);
    var pg := PerpetualGrowth(s.growthRate);
    var finalYearFcf := projections[ProjectionYears - 1].fcf;
    var terminalPv := TerminalPv(finalYearFcf, wacc, pg, ebitdaMultiple);
    var enterpriseValue := pvFcfTotal + terminalPv;
    var netDebt := s.totalLiabilities * 0.5;
    DcfResult(wacc, pvFcfTotal, terminalPv, enterpriseValue, netDebt,
              enterpriseValue - netDebt, pg, finalYearFcf, projections)
  }

  /** The terminal-value branch. With `wacc > pg`, the value discounted back five years is
      the perpetuity whose yearly yield at `wacc - pg` equals next year's cash flow; otherwise
      it is the final cash flow at the exit multiple, discounted five years. */
  method DiscountTerminalValue(finalYearFcf: real, wacc: real, perpetualGrowth: real, ebitdaMultiple: real)
    returns (pvTerminal: real)
    requires wacc != -100.0
    ensures wacc > perpetualGrowth ==>
      pvTerminal * DiscountFactor(wacc, 5) * ((wacc - perpetualGrowth) / 100.0)
        == finalYearFcf * (1.0 + perpetualGrowth / 100.0)
    ensures wacc <= perpetualGrowth ==>
      pvTerminal * DiscountFactor(wacc, 5) == finalYearFcf * ebitdaMultiple
    ensures pvTerminal == TerminalPv(finalYearFcf, wacc, perpetualGrowth, ebitdaMultiple)
  {
    var discount := DiscountFactor(wacc, 5);
    if wacc > perpetualGrowth {
      var terminalValue := GordonValue(finalYearFcf, wacc, perpetualGrowth);
      pvTerminal := terminalValue / discount;
      assert pvTerminal * discount == terminalValue;
      assert terminalValue * ((wacc - perpetualGrowth) / 100.0) == finalYearFcf * (1.0 + perpetualGrowth / 100.0);
    } else {
      pvTerminal := finalYearFcf * ebitdaMultiple / discount;
      assert pvTerminal * discount == finalYearFcf * ebitdaMultiple;
    }
  }

  /** The DCF block as the valuation tab runs it: WACC, the projection loop, the terminal
      value on whichever branch applies, and the equity value. */
  method ComputeDcf(s: Snapshot, ebitdaMultiple: real) returns (r: DcfResult)
    requires Wacc(s) != -100.0
    ensures r == DcfOf(s, ebitdaMultiple)
  {
    var wacc := Wacc(s);
    var projections, pvFcfTotal := ProjectCashFlows(s, wacc);
    var perpetualGrowth := PerpetualGrowth(s.growthRate);
    var finalYearFcf := projections[|projections| - 1].fcf;
    var pvTerminal := DiscountTerminalValue(finalYearFcf, wacc, perpetualGrowth, ebitdaMultiple);
    var enterpriseValue := pvFcfTotal + pvTerminal;
    var netDebt := s.totalLiabilities * 0.5;
    r := DcfResult(wacc, pvFcfTotal, pvTerminal, enterpriseValue, netDebt,
                   enterpriseValue - netDebt, perpetualGrowth, finalYearFcf, projections);
  }

  /** The shape of a DCF result: five projection rows for years 1..5 in order whose present
      values add up to the FCF total, the final row feeding the terminal value, a perpetual
      growth rate of at most 2.5 percent, and equity value = FCF total + terminal value
      - half of the liabilities. */
  lemma DcfStructure(s: Snapshot, ebitdaMultiple: real)
    requires Wacc(s) != -100.0
    ensures var r := DcfOf(s, ebitdaMultiple);
      && r.wacc == Wacc(s)
      && |r.projections| == 5
      && (forall i :: 0 <= i < 5 ==> r.projections[i].year == i + 1)
      && r.pvFcfTotal == SumPv(r.projections)
      && r.finalYearFcf == r.projections[4].fcf
      && r.perpetualGrowth <= 2.5
      && r.equityValue == r.pvFcfTotal + r.terminalPv - 0.5 * s.totalLiabilities
  {
  }

  /** The Gordon formula is used exactly when `wacc > pg`, and then its denominator is
      positive; otherwise the exit-multiple fallback is used. */
  lemma TerminalValueBranch(s: Snapshot, ebitdaMultiple: real)
    requires Wacc(s) != -100.0
    ensures var r := DcfOf(s, ebitdaMultiple);
      && (r.wacc > r.perpetualGrowth ==>
            (r.wacc - r.perpetualGrowth) / 100.0 > 0.0
            && r.terminalPv == GordonValue(r.finalYearFcf, r.wacc, r.perpetualGrowth) / DiscountFactor(r.wacc, 5))
      && (r.wacc <= r.perpetualGrowth ==>
            r.terminalPv == r.finalYearFcf * ebitdaMultiple / DiscountFactor(r.wacc, 5))
  {
  }
}
