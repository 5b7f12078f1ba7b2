/** The three-year simulation tab: starting from this year's revenue and profit, it grows
    revenue by a chosen rate each year, improves the profit margin by a fixed number of
    points a year, deducts loan interest in the bank-loan scenario, dilutes the owner's
    stake once (in year 1) when the scenario sells equity, and values the company and the
    owner's stake at a price-earnings multiple. */
module Simulator {
  import opened Company

  /** The scenario selector's five choices. */
  datatype Scenario =
    | VcRound       // シナリオ1: VC調達
    | BankLoan      // シナリオ2: 銀行融資
    | SelfFunded    // シナリオ3: 自己資金で成長
    | ListingPrep   // シナリオ4: 上場準備
    | Custom        // カスタムシナリオ

  /** Funding amount (millions of yen), equity dilution (percent) and loan interest rate
      (percent a year; only the bank-loan scenario reads it). */
  datatype Funding = Funding(amount: real, dilution: real, interestRate: real)

  /** The sliders each scenario shows: amount and dilution for a VC round or a custom
      scenario, amount and interest rate (no dilution) for a bank loan, nothing for the
      other two, which raise no money. */
  function SelectFunding(scenario: Scenario, amountSlider: real, dilutionSlider: real, interestSlider: real): Funding
  {
    match scenario
    case VcRound => Funding(amountSlider, dilutionSlider, 0.0)
    case Custom => Funding(amountSlider, dilutionSlider, 0.0)
    case BankLoan => Funding(amountSlider, 0.0, interestSlider)
    case SelfFunded => Funding(0.0, 0.0, 0.0)
    case ListingPrep => Funding(0.0, 0.0, 0.0)
  }

  /** Only a VC round or a custom scenario can dilute the owner, and only a bank loan pays
      interest; the self-funded and listing-preparation scenarios raise nothing. */
  lemma FundingBySelection(scenario: Scenario, amountSlider: real, dilutionSlider: real, interestSlider: real)
    ensures var f := SelectFunding(scenario, amountSlider, dilutionSlider, interestSlider);
      && (f.dilution != 0.0 ==> scenario == VcRound || scenario == Custom)
      && (f.interestRate != 0.0 ==> scenario == BankLoan)
      && (scenario == SelfFunded || scenario == ListingPrep ==> f.amount == 0.0)
      && (scenario != SelfFunded && scenario != ListingPrep ==> f.amount == amountSlider)
  {
  }

  /** This year's revenue and ordinary profit, from the sidebar. */
  datatype Baseline = Baseline(revenue: real, profit: real)

  /** Growth rates for years 1..3 (percent), margin improvement (points a year) and the
      price-earnings multiple. */
  datatype Outlook = Outlook(year1Growth: real, year2Growth: real, year3Growth: real,
                             marginImprovement: real, peMultiple: real)

  /** One row of the yearly table; year 0 is the present. */
  datatype YearRow = YearRow(year: nat, revenue: real, profit: real, profitMargin: real,
                             companyValue: real, equity: real, ownerValue: real)

  const SimulatedYears: nat := 3

  /** The growth applied in each loop pass: none for the present, then the three sliders. */
  function GrowthPath(o: Outlook): (gs: seq<real>)
    ensures |gs| == SimulatedYears + 1 && gs[0] == 0.0
  {
    [0.0, o.year1Growth, o.year2Growth, o.year3Growth]
  }

  /** `profit / revenue`, or 0 when there is no revenue. */
  function BaseMargin(b: Baseline): real
  {
    if b.revenue > 0.0 then b.profit / b.revenue else 0.0
  }

  function Grown(revenue: real, growth: real): real { revenue * (1.0 + growth / 100.0) }

  /** Revenue times the margin of year `year`: the base margin plus `year` improvements. */
  function MarginProfit(revenue: real, baseMargin: real, improvement: real, year: nat): real
  {
    revenue * (baseMargin + improvement * (year as real) / 100.0)
  }

  /** The yearly interest on a bank loan. */
  function InterestPayment(f: Funding): real { f.amount * (f.interestRate / 100.0) }

  function Diluted(equity: real, dilution: real): real { equity * (1.0 - dilution / 100.0) }

  /** Company value at the price-earnings multiple. */
  function CompanyValue(profit: real, pe: real): real { profit * pe }

  /** The owner's share of the company value. */
  function OwnerValue(companyValue: real, equity: real): real { companyValue * (equity / 100.0) }

  /** `profit / revenue * 100`, or 0 when there is no revenue. */
  function MarginPercent(profit: real, revenue: real): real
  {
    if revenue > 0.0 then profit / revenue * 100.0 else 0.0
  }

  /** One loop pass: the row for `year` and the carried revenue and equity. */
  datatype Step = Step(row: YearRow, revenue: real, equity: real)

  function StepYear(b: Baseline, scenario: Scenario, f: Funding, o: Outlook,
                    year: nat, currentRevenue: real, currentEquity: real): Step
    requires year <= SimulatedYears
  {
    var growth := GrowthPath(o)[year];
    var yearRevenue := if year == 0 then currentRevenue else Grown(currentRevenue, growth);
    var operatingProfit := MarginProfit(yearRevenue, BaseMargin(b), o.marginImprovement, year);
    var yearProfit :=
      if year == 0 then b.profit
      else if scenario == BankLoan then operatingProfit - InterestPayment(f)
      else operatingProfit;
    var companyValue := CompanyValue(yearProfit, o.peMultiple);
    var yearEquity := if year == 1 && f.dilution > 0.0 then Diluted(currentEquity, f.dilution) else currentEquity;
    var row := YearRow(year, yearRevenue, yearProfit, MarginPercent(yearProfit, yearRevenue),
                       companyValue, yearEquity, OwnerValue(companyValue, yearEquity));
    Step(row, yearRevenue, yearEquity)
  }

  /** What one loop pass hands to the next: the current revenue and the owner's equity. */
  datatype Carry = Carry(revenue: real, equity: real)

  /** The carried values after the passes for years 0 .. n-1; the owner starts with
      100 percent of the shares. */
  function CarryAfter(b: Baseline, scenario: Scenario, f: Funding, o: Outlook, n: nat): Carry
    requires n <= SimulatedYears + 1
  {
    if n == 0 then Carry(b.revenue, 100.0)
    else
      var c := CarryAfter(b, scenario, f, o, n - 1);
      var step := StepYear(b, scenario, f, o, n - 1, c.revenue, c.equity);
      Carry(step.revenue, step.equity)
  }

  /** The rows for years 0 .. n-1. */
  function RowsUpTo(b: Baseline, scenario: Scenario, f: Funding, o: Outlook, n: nat): (rows: seq<YearRow>)
    requires n <= SimulatedYears + 1
    ensures |rows| == n
  {
    if n == 0 then []
    else
      var c := CarryAfter(b, scenario, f, o, n - 1);
      RowsUpTo(b, scenario, f, o, n - 1) + [StepYear(b, scenario, f, o, n - 1, c.revenue, c.equity).row]
  }

  /** The whole table, years 0 .. 3. */
  function Simulation(b: Baseline, scenario: Scenario, f: Funding, o: Outlook): (rows: seq<YearRow>)
    ensures |rows| == SimulatedYears + 1
  {
    RowsUpTo(b, scenario, f, o, SimulatedYears + 1)
  }

  /** The body of the simulation loop for one year: the row, then the revenue and equity
      carried into the next pass. */
  method SimulateYear(b: Baseline, scenario: Scenario, f: Funding, o: Outlook, year: nat,
                      growth: real, currentRevenue: real, currentEquity: real)
    returns (row: YearRow, nextRevenue: real, nextEquity: real)
    requires year <= SimulatedYears && growth == GrowthPath(o)[year]
    ensures Step(row, nextRevenue, nextEquity) == StepYear(b, scenario, f, o, year, currentRevenue, currentEquity)
  {
    var currentProfitMargin := BaseMargin(b);
    nextRevenue, nextEquity := currentRevenue, currentEquity;
    var yearRevenue, yearProfit, yearEquity;
    if year == 0 {
      yearRevenue := nextRevenue;
      yearProfit := b.profit;
      yearEquity := nextEquity;
    } else {
      yearRevenue := Grown(nextRevenue, growth);
      yearProfit := MarginProfit(yearRevenue, currentProfitMargin, o.marginImprovement, year);
      if scenario == BankLoan && year <= 3 {
        yearProfit := yearProfit - InterestPayment(f);
      }
      yearEquity := nextEquity;
      nextRevenue := yearRevenue;
    }
    var companyValue := CompanyValue(yearProfit, o.peMultiple);
    if year == 1 && f.dilution > 0.0 {
      yearEquity := Diluted(nextEquity, f.dilution);
      nextEquity := yearEquity;
    }
    var ownerValue := OwnerValue(companyValue, yearEquity);
    row := YearRow(year, yearRevenue, yearProfit, MarginPercent(yearProfit, yearRevenue),
                   companyValue, yearEquity, ownerValue);
  }

  /** The simulation loop over years 0..3, carrying the current revenue and equity. */
  method Simulate(b: Baseline, scenario: Scenario, f: Funding, o: Outlook) returns (rows: seq<YearRow>)
    ensures rows == Simulation(b, scenario, f, o)
  {
    var growths := GrowthPath(o);
    rows := [];
    var currentRevenue := b.revenue;
    var currentEquity := 100.0;
    for year: nat := 0 to |growths|
      invariant rows == RowsUpTo(b, scenario, f, o, year)
      invariant Carry(currentRevenue, currentEquity) == CarryAfter(b, scenario, f, o, year)
    {
      var row;
      row, currentRevenue, currentEquity := SimulateYear(b, scenario, f, o, year, growths[year], currentRevenue, currentEquity);
      rows := rows + [row];
    }
  }

  /** The four loop passes written out: each starts from the revenue and equity the
      previous one carried, the first from today's revenue and 100 percent. */
  lemma SimulationUnrolled(b: Baseline, scenario: Scenario, f: Funding, o: Outlook)
    ensures var s0 := StepYear(b, scenario, f, o, 0, b.revenue, 100.0);
      var s1 := StepYear(b, scenario, f, o, 1, s0.revenue, s0.equity);
      var s2 := StepYear(b, scenario, f, o, 2, s1.revenue, s1.equity);
      var s3 := StepYear(b, scenario, f, o, 3, s2.revenue, s2.equity);
      Simulation(b, scenario, f, o) == [s0.row, s1.row, s2.row, s3.row]
  {
    var s0 := StepYear(b, scenario, f, o, 0, b.revenue, 100.0);
    var s1 := StepYear(b, scenario, f, o, 1, s0.revenue, s0.equity);
    var s2 := StepYear(b, scenario, f, o, 2, s1.revenue, s1.equity);
    var s3 := StepYear(b, scenario, f, o, 3, s2.revenue, s2.equity);
    assert CarryAfter(b, scenario, f, o, 1) == Carry(s0.revenue, s0.equity);
    assert CarryAfter(b, scenario, f, o, 2) == Carry(s1.revenue, s1.equity);
    assert CarryAfter(b, scenario, f, o, 3) == Carry(s2.revenue, s2.equity);
    assert RowsUpTo(b, scenario, f, o, 1) == [s0.row];
    assert RowsUpTo(b, scenario, f, o, 2) == [s0.row, s1.row];
    assert RowsUpTo(b, scenario, f, o, 3) == [s0.row, s1.row, s2.row];
  }

  /** Row `y` of any prefix is the loop pass for `y` from the values carried into it. */
  lemma {:induction false} RowFromCarry(b: Baseline, scenario: Scenario, f: Funding, o: Outlook, n: nat, y: nat)
    requires y < n <= SimulatedYears + 1
    ensures var c := CarryAfter(b, scenario, f, o, y);
      RowsUpTo(b, scenario, f, o, n)[y] == StepYear(b, scenario, f, o, y, c.revenue, c.equity).row
  {
    if y < n - 1 {
      RowFromCarry(b, scenario, f, o, n - 1, y);
    }
  }

  /** Every loop pass labels its row with its year, values the company at the multiple
      and the owner's stake at the row's equity, and carries the row's revenue and equity. */
  lemma StepShape(b: Baseline, scenario: Scenario, f: Funding, o: Outlook,
                  year: nat, currentRevenue: real, currentEquity: real)
    requires year <= SimulatedYears
    ensures var step := StepYear(b, scenario, f, o, year, currentRevenue, currentEquity);
      && step.row.year == year
      && step.row.companyValue == CompanyValue(step.row.profit, o.peMultiple)
      && step.row.ownerValue == OwnerValue(step.row.companyValue, step.row.equity)
      && step.row.profitMargin == MarginPercent(step.row.profit, step.row.revenue)
      && step.revenue == step.row.revenue && step.equity == step.row.equity
  {
  }

  /** The table has one row for each of years 0, 1, 2 and 3, in order; each row values the
      company at the multiple and the owner's stake at the row's equity. */
  lemma SimulationRows(b: Baseline, scenario: Scenario, f: Funding, o: Outlook, y: nat)
    requires y <= SimulatedYears
    ensures var rows := Simulation(b, scenario, f, o);
      && |rows| == 4
      && rows[y].year == y
      && rows[y].companyValue == CompanyValue(rows[y].profit, o.peMultiple)
      && rows[y].ownerValue == OwnerValue(rows[y].companyValue, rows[y].equity)
      && rows[y].profitMargin == MarginPercent(rows[y].profit, rows[y].revenue)
  {
    RowFromCarry(b, scenario, f, o, SimulatedYears + 1, y);
    var c := CarryAfter(b, scenario, f, o, y);
    StepShape(b, scenario, f, o, y, c.revenue, c.equity);
  }

  /** Year 0 is today's revenue; each later year grows the previous year's revenue by that
      year's rate, so year 3 is today's revenue compounded by all three. */
  lemma RevenueCompounds(b: Baseline, scenario: Scenario, f: Funding, o: Outlook)
    ensures var rows := Simulation(b, scenario, f, o);
      && rows[0].revenue == b.revenue
      && rows[1].revenue == Grown(rows[0].revenue, o.year1Growth)
      && rows[2].revenue == Grown(rows[1].revenue, o.year2Growth)
      && rows[3].revenue == Grown(rows[2].revenue, o.year3Growth)
      && rows[3].revenue == Grown(Grown(Grown(b.revenue, o.year1Growth), o.year2Growth), o.year3Growth)
  {
    SimulationUnrolled(b, scenario, f, o);
  }

  /** Year 0 shows today's profit. From year 1 on, profit is revenue times the base margin
      improved by one step a year, less the loan interest in the bank-loan scenario and
      in no other. */
  lemma ProfitByScenario(b: Baseline, scenario: Scenario, f: Funding, o: Outlook, y: nat)
    requires 1 <= y <= SimulatedYears
    ensures var rows := Simulation(b, scenario, f, o);
      && rows[0].profit == b.profit
      && (scenario == BankLoan ==>
            rows[y].profit == MarginProfit(rows[y].revenue, BaseMargin(b), o.marginImprovement, y) - InterestPayment(f))
      && (scenario != BankLoan ==>
            rows[y].profit == MarginProfit(rows[y].revenue, BaseMargin(b), o.marginImprovement, y))
  {
    SimulationUnrolled(b, scenario, f, o);
  }

  /** The owner holds 100 percent today; a positive dilution is applied once, in year 1,
      and the reduced stake is kept through year 3. */
  lemma EquityPath(b: Baseline, scenario: Scenario, f: Funding, o: Outlook, y: nat)
    requires 1 <= y <= SimulatedYears
    ensures var rows := Simulation(b, scenario, f, o);
      && rows[0].equity == 100.0
      && rows[y].equity == if f.dilution > 0.0 then Diluted(100.0, f.dilution) else 100.0
  {
    SimulationUnrolled(b, scenario, f, o);
  }

  /** Without dilution the owner's value equals the company value in every year. */
  lemma UndilutedOwnerHoldsAll(b: Baseline, scenario: Scenario, f: Funding, o: Outlook, y: nat)
    requires f.dilution <= 0.0 && y <= SimulatedYears
    ensures var rows := Simulation(b, scenario, f, o);
      rows[y].ownerValue == rows[y].companyValue
  {
    SimulationRows(b, scenario, f, o, y);
    if y > 0 {
      EquityPath(b, scenario, f, o, y);
    } else {
      EquityPath(b, scenario, f, o, 1);
    }
  }

  /** A bank loan, self-funding or listing preparation, with the sliders as the scenario
      selects them, leaves the owner 100 percent of the shares and so the whole company
      value in every year. */
  lemma UndilutedScenarios(b: Baseline, scenario: Scenario, o: Outlook,
                           amountSlider: real, dilutionSlider: real, interestSlider: real, y: nat)
    requires scenario == BankLoan || scenario == SelfFunded || scenario == ListingPrep
    requires y <= SimulatedYears
    ensures var f := SelectFunding(scenario, amountSlider, dilutionSlider, interestSlider);
      var rows := Simulation(b, scenario, f, o);
      rows[y].equity == 100.0 && rows[y].ownerValue == rows[y].companyValue
  {
    var f := SelectFunding(scenario, amountSlider, dilutionSlider, interestSlider);
    EquityPath(b, scenario, f, o, if y == 0 then 1 else y);
    UndilutedOwnerHoldsAll(b, scenario, f, o, y);
  }

  /** Revenue 500 and profit 50, 15 percent growth in year 1, one point of margin a year,
      a multiple of 15 and a 20 percent VC dilution: year 1 shows revenue 575, profit 63.25
      (an 11 percent margin), company value 948.75 and, at 80 percent, owner value 759. */
  lemma SimulationExample(amount: real, year2Growth: real, year3Growth: real)
    ensures var o := Outlook(15.0, year2Growth, year3Growth, 1.0, 15.0);
      Simulation(Baseline(500.0, 50.0), VcRound, Funding(amount, 20.0, 0.0), o)[1]
        == YearRow(1, 575.0, 63.25, 11.0, 948.75, 80.0, 759.0)
  {
    var b, f, o := Baseline(500.0, 50.0), Funding(amount, 20.0, 0.0), Outlook(15.0, year2Growth, year3Growth, 1.0, 15.0);
    SimulationUnrolled(b, VcRound, f, o);
    assert BaseMargin(b) == 0.1;
  }
}
