/** The comparison tab: three preset financing choices (a VC round with 20 percent
    dilution at the simulator's growth rates, a bank loan at 80 percent of those rates, and
    self-funding at half of them) are each compounded over three years, valued at the
    industry's price-earnings ratio, and the one giving the owner the largest stake value is
    recommended. The preset rows use the sidebar's margin and deduct no interest. */
module Comparator {
  import opened Company
  import opened Simulator

  datatype PresetName = VcPreset | BankPreset | SelfPreset   // VC調達, 銀行融資, 自己資金

  /** A preset: its name, the funding shown, the dilution (percent) and the three yearly
      growth rates (percent). */
  datatype Preset = Preset(name: PresetName, funding: real, dilution: real, growth: seq<real>)

  /** The three presets in the order the table lists them. */
  function Presets(fundingAmount: real, o: Outlook): (ps: seq<Preset>)
    ensures |ps| == 3
    ensures ps[0].name == VcPreset && ps[1].name == BankPreset && ps[2].name == SelfPreset
    ensures forall i :: 0 <= i < 3 ==> |ps[i].growth| == 3
  {
    [ Preset(VcPreset, fundingAmount, 20.0, [o.year1Growth, o.year2Growth, o.year3Growth]),
      Preset(BankPreset, fundingAmount, 0.0, [o.year1Growth * 0.8, o.year2Growth * 0.8, o.year3Growth * 0.8]),
      Preset(SelfPreset, 0.0, 0.0, [o.year1Growth * 0.5, o.year2Growth * 0.5, o.year3Growth * 0.5]) ]
  }

  /** Revenue after applying the growth rates one after another, as the inner loop does. */
  function Compounded(revenue: real, growths: seq<real>): real
  {
    if |growths| == 0 then revenue
    else Grown(Compounded(revenue, growths[..|growths| - 1]), growths[|growths| - 1])
  }

  /** The product of the growth factors `1 + g / 100`. */
  function GrowthFactor(growths: seq<real>): real
  {
    if |growths| == 0 then 1.0
    else GrowthFactor(growths[1..]) * (1.0 + growths[0] / 100.0)
  }

  /** Helper: the product of the factors, peeled from the back. */
  lemma {:induction false} GrowthFactorFromBack(growths: seq<real>)
    requires |growths| > 0
    ensures GrowthFactor(growths)
         == GrowthFactor(growths[..|growths| - 1]) * (1.0 + growths[|growths| - 1] / 100.0)
  {
    if |growths| > 1 {
      var n := |growths|;
      GrowthFactorFromBack(growths[1..]);
      assert growths[1..][..n - 2] == growths[..n - 1][1..];
      assert growths[1..][n - 2] == growths[n - 1];
      var a, b, c := GrowthFactor(growths[..n - 1][1..]), 1.0 + growths[n - 1] / 100.0, 1.0 + growths[0] / 100.0;
      assert GrowthFactor(growths) == (a * b) * c;
      assert GrowthFactor(growths[..n - 1]) == a * c;
      assert (a * b) * c == (a * c) * b;
    } else {
      assert growths[..0] == [];
    }
  }

  /** The final revenue is the starting revenue times the product of the growth factors. */
  lemma {:induction false} CompoundedIsProduct(revenue: real, growths: seq<real>)
    ensures Compounded(revenue, growths) == revenue * GrowthFactor(growths)
  {
    if |growths| > 0 {
      var n := |growths|;
      CompoundedIsProduct(revenue, growths[..n - 1]);
      GrowthFactorFromBack(growths);
      var f, c := GrowthFactor(growths[..n - 1]), 1.0 + growths[n - 1] / 100.0;
      calc {
        Compounded(revenue, growths);
        Compounded(revenue, growths[..n - 1]) * c;
        (revenue * f) * c;
        revenue * (f * c);
        { assert GrowthFactor(growths) == f * c; }
        revenue * GrowthFactor(growths);
      }
    }
  }

  /** The inner loop: `final_revenue *= 1 + g / 100` for each rate in turn. */
  method CompoundRevenue(revenue: real, growths: seq<real>) returns (finalRevenue: real)
    ensures finalRevenue == Compounded(revenue, growths)
  {
    finalRevenue := revenue;
    for k := 0 to |growths|
      invariant finalRevenue == Compounded(revenue, growths[..k])
    {
      assert growths[..k + 1][..k] == growths[..k];
      finalRevenue := Grown(finalRevenue, growths[k]);
    }
    assert growths[..|growths|] == growths;
  }

  /** A preset's line in the table. */
  datatype Outcome = Outcome(name: PresetName, funding: real, dilution: real, finalRevenue: real,
                             companyValue: real, equity: real, ownerValue: real)

  /** Final revenue at today's margin, or 0 when there is no revenue today. */
  function FinalProfit(b: Baseline, finalRevenue: real): real
  {
    if b.revenue > 0.0 then finalRevenue * (b.profit / b.revenue) else 0.0
  }

  /** The owner keeps what the preset does not sell. */
  function OwnerShare(dilution: real): real { 100.0 - dilution }

  function OutcomeOf(b: Baseline, pe: real, p: Preset): Outcome
  {
    var finalRevenue := Compounded(b.revenue, p.growth);
    var companyValue := CompanyValue(FinalProfit(b, finalRevenue), pe);
    var equity := OwnerShare(p.dilution);
    Outcome(p.name, p.funding, p.dilution, finalRevenue, companyValue, equity, OwnerValue(companyValue, equity))
  }

  /** The table: one line per preset, valued at the industry's price-earnings ratio. */
  function Comparison(b: Baseline, industry: Industry, fundingAmount: real, o: Outlook): (results: seq<Outcome>)
    ensures |results| == 3
  {
    var ps := Presets(fundingAmount, o);
    [OutcomeOf(b, PeOf(industry), ps[0]), OutcomeOf(b, PeOf(industry), ps[1]), OutcomeOf(b, PeOf(industry), ps[2])]
  }

  /** The loop over the presets that fills the table. */
  method Compare(b: Baseline, industry: Industry, fundingAmount: real, o: Outlook) returns (results: seq<Outcome>)
    ensures results == Comparison(b, industry, fundingAmount, o)
  {
    var presets := Presets(fundingAmount, o);
    var pe := PeOf(industry);
    results := [];
    for i := 0 to |presets|
      invariant |results| == i
      invariant forall k :: 0 <= k < i ==> results[k] == OutcomeOf(b, pe, presets[k])
    {
      var p := presets[i];
      var finalRevenue := CompoundRevenue(b.revenue, p.growth);
      var finalProfit := FinalProfit(b, finalRevenue);
      var companyValue := CompanyValue(finalProfit, pe);
      var equity := OwnerShare(p.dilution);
      var ownerValue := OwnerValue(companyValue, equity);
      results := results + [Outcome(p.name, p.funding, p.dilution, finalRevenue, companyValue, equity, ownerValue)];
    }
  }

  /** The owner values, in table order. */
  function OwnerValues(results: seq<Outcome>): (vs: seq<real>)
    ensures |vs| == |results| && forall i :: 0 <= i < |results| ==> vs[i] == results[i].ownerValue
  {
    seq(|results|, i requires 0 <= i < |results| => results[i].ownerValue)
  }

  /** `idxmax`: the position of the first largest value. */
  function FirstMaxIndex(values: seq<real>): (i: nat)
    requires |values| > 0
    ensures i < |values|
    ensures forall j :: 0 <= j < |values| ==> values[j] <= values[i]
    ensures forall j :: 0 <= j < i ==> values[j] < values[i]
  {
    if |values| == 1 then 0
    else
      var k := FirstMaxIndex(values[..|values| - 1]);
      if values[|values| - 1] > values[k] then |values| - 1 else k
  }

  /** The recommended preset: the first with the largest owner value. */
  function Recommendation(results: seq<Outcome>): PresetName
    requires |results| > 0
  {
    results[FirstMaxIndex(OwnerValues(results))].name
  }

  /** Each line compounds today's revenue by its own rates (their factors multiplied),
      keeps today's margin, values the profit at the industry ratio, and gives the owner
      80 percent after the VC round and 100 percent otherwise. */
  lemma ComparisonLines(b: Baseline, industry: Industry, fundingAmount: real, o: Outlook, i: nat)
    requires i < 3
    ensures var r := Comparison(b, industry, fundingAmount, o)[i];
      var p := Presets(fundingAmount, o)[i];
      && r.name == p.name
      && r.finalRevenue == b.revenue * GrowthFactor(p.growth)
      && r.companyValue == CompanyValue(FinalProfit(b, r.finalRevenue), PeOf(industry))
      && r.equity == (if p.name == VcPreset then 80.0 else 100.0)
      && r.ownerValue == OwnerValue(r.companyValue, r.equity)
  {
    var p := Presets(fundingAmount, o)[i];
    CompoundedIsProduct(b.revenue, p.growth);
  }

  /** The VC line's final revenue is the simulator's year-3 revenue for the same rates. */
  lemma VcLineMatchesSimulation(b: Baseline, industry: Industry, fundingAmount: real, o: Outlook,
                                scenario: Scenario, f: Funding)
    ensures Comparison(b, industry, fundingAmount, o)[0].finalRevenue
         == Simulation(b, scenario, f, o)[3].revenue
  {
    RevenueCompounds(b, scenario, f, o);
    var gs := [o.year1Growth, o.year2Growth, o.year3Growth];
    assert gs[..2] == [o.year1Growth, o.year2Growth];
    assert gs[..2][..1] == [o.year1Growth];
    assert gs[..2][..1][..0] == [];
    var r1 := Compounded(b.revenue, gs[..2][..1]);
    assert r1 == Grown(Compounded(b.revenue, gs[..2][..1][..0]), o.year1Growth);
    assert Compounded(b.revenue, gs[..2][..1][..0]) == b.revenue;
    var r2 := Compounded(b.revenue, gs[..2]);
    assert r2 == Grown(r1, o.year2Growth);
    assert Compounded(b.revenue, gs) == Grown(r2, o.year3Growth);
    assert Presets(fundingAmount, o)[0].growth == gs;
  }

  /** The recommendation is the first line, in the order VC, bank, self-funding, whose owner
      value is not below any other. */
  lemma RecommendationRule(b: Baseline, industry: Industry, fundingAmount: real, o: Outlook)
    ensures var rs := Comparison(b, industry, fundingAmount, o);
      var vc, bank, self := rs[0].ownerValue, rs[1].ownerValue, rs[2].ownerValue;
      && (Recommendation(rs) == VcPreset <==> vc >= bank && vc >= self)
      && (Recommendation(rs) == BankPreset <==> bank > vc && bank >= self)
      && (Recommendation(rs) == SelfPreset <==> self > vc && self > bank)
  {
    var rs := Comparison(b, industry, fundingAmount, o);
    var i := FirstMaxIndex(OwnerValues(rs));
    assert rs[0].name == VcPreset && rs[1].name == BankPreset && rs[2].name == SelfPreset;
    assert Recommendation(rs) == rs[i].name;
  }

  /** Without revenue today no line has any value, so the VC round, listed first, is the
      recommendation. */
  lemma NoRevenueRecommendsVc(b: Baseline, industry: Industry, fundingAmount: real, o: Outlook)
    requires b.revenue <= 0.0
    ensures var rs := Comparison(b, industry, fundingAmount, o);
      && (forall i :: 0 <= i < 3 ==> rs[i].ownerValue == 0.0)
      && Recommendation(rs) == VcPreset
  {
    RecommendationRule(b, industry, fundingAmount, o);
  }
}
