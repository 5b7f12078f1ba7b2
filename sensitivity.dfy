/** The DCF detail view's sensitivity table: equity value recomputed for three perpetual
    growth rates (rows) and five discount rates (columns), with "N/A" where the discount
    rate does not exceed the growth rate. Only the terminal value is recomputed: the
    five-year FCF total, the final-year FCF and the net debt stay those of the DCF. */
module Sensitivity {
  import opened Numerics
  import opened Company
  import opened Dcf

  datatype Cell = NotApplicable | Equity(value: real)

  /** `[wacc - 2, wacc - 1, wacc, wacc + 1, wacc + 2]`, not clamped. */
  function WaccCandidates(wacc: real): (ws: seq<real>)
    ensures |ws| == 5 && ws[2] == wacc
    ensures forall j, k :: 0 <= j < k < 5 ==> ws[j] < ws[k]
  {
    [wacc - 2.0, wacc - 1.0, wacc, wacc + 1.0, wacc + 2.0]
  }

  /** `[max(0, pg - 1), pg, min(5, pg + 1)]`: none of them is below both 0 and `pg`. */
  function GrowthCandidates(pg: real): (gs: seq<real>)
    ensures |gs| == 3 && gs[1] == pg
    ensures forall i :: 0 <= i < 3 ==> gs[i] >= Min(0.0, pg)
  {
    [Max(0.0, pg - 1.0), pg, Min(5.0, pg + 1.0)]
  }

  /** One cell, as the nested loop computes it for growth `g` and discount rate `w`. */
  function CellAt(d: DcfResult, g: real, w: real): (c: Cell)
    requires g > -100.0
    ensures c.Equity? <==> w > g
  {
    if w > g then
      var pvTv := GordonValue(d.finalYearFcf, w, g) / DiscountFactor(w, 5);
      var ev := d.pvFcfTotal + pvTv;
      Equity(ev - d.netDebt)
    else
      NotApplicable
  }

  /** The table: row `i` for growth candidate `i`, column `j` for discount-rate candidate `j`. */
  function Grid(d: DcfResult): (grid: seq<seq<Cell>>)
    requires d.perpetualGrowth > -100.0
  {
    var gs := GrowthCandidates(d.perpetualGrowth);
    var ws := WaccCandidates(d.wacc);
    seq(3, i requires 0 <= i < 3 => seq(5, j requires 0 <= j < 5 => CellAt(d, gs[i], ws[j])))
  }

  /** The nested loops that fill the table row by row. */
  method BuildGrid(d: DcfResult) returns (grid: seq<seq<Cell>>)
    requires d.perpetualGrowth > -100.0
    ensures grid == Grid(d)
  {
    var waccRange := WaccCandidates(d.wacc);
    var growthRange := GrowthCandidates(d.perpetualGrowth);
    grid := [];
    for i := 0 to |growthRange|
      invariant grid == Grid(d)[..i]
    {
      var g := growthRange[i];
      var row := [];
      for j := 0 to |waccRange|
        invariant row == Grid(d)[i][..j]
      {
        var w := waccRange[j];
        if w > g {
          var tv := GordonValue(d.finalYearFcf, w, g);
          var pvTv := tv / DiscountFactor(w, 5);
          var ev := d.pvFcfTotal + pvTv;
          var equity := ev - d.netDebt;
          assert Equity(equity) == CellAt(d, g, w);
          row := row + [Equity(equity)];
        } else {
          row := row + [NotApplicable];
        }
      }
      assert row == Grid(d)[i];
      grid := grid + [row];
    }
  }

  /** Three rows of five cells; a cell holds a number exactly when its discount rate
      exceeds its growth rate. */
  lemma GridShape(d: DcfResult)
    requires d.perpetualGrowth > -100.0
    ensures var grid := Grid(d);
      && |grid| == 3
      && (forall i :: 0 <= i < 3 ==> |grid[i]| == 5)
      && (forall i, j :: 0 <= i < 3 && 0 <= j < 5 ==>
            (grid[i][j].Equity? <==>
             WaccCandidates(d.wacc)[j] > GrowthCandidates(d.perpetualGrowth)[i]))
  {
  }

  /** The centre cell (`g = pg`, `w = wacc`) reproduces the DCF's equity value whenever the
      DCF itself used the Gordon formula. */
  lemma CentreCellIsDcfEquity(s: Snapshot, ebitdaMultiple: real)
    requires Wacc(s) != -100.0
    requires DcfOf(s, ebitdaMultiple).perpetualGrowth > -100.0
    requires DcfOf(s, ebitdaMultiple).wacc > DcfOf(s, ebitdaMultiple).perpetualGrowth
    ensures Grid(DcfOf(s, ebitdaMultiple))[1][2] == Equity(DcfOf(s, ebitdaMultiple).equityValue)
  {
    var d := DcfOf(s, ebitdaMultiple);
    DcfStructure(s, ebitdaMultiple);
    TerminalValueBranch(s, ebitdaMultiple);
    assert Grid(d)[1][2] == CellAt(d, d.perpetualGrowth, d.wacc);
    assert d.equityValue == d.enterpriseValue - d.netDebt;
    assert d.enterpriseValue == d.pvFcfTotal + d.terminalPv;
  }

  /** Equity value of a numeric cell. */
  function CellEquity(d: DcfResult, g: real, w: real): real
    requires -100.0 < g < w
  {
    CellAt(d, g, w).value
  }

  /** Helper: `a / y < a / x` for `a > 0` and `0 < x < y`. */
  lemma QuotientShrinks(a: real, x: real, y: real)
    requires a > 0.0 && 0.0 < x < y
    ensures a / y < a / x
  {
    var p, q := a / x, a / y;
    assert p * x == a && q * y == a;
    ScaleStrict(q, x, y);
    assert q * x < a;
    if q >= p {
      ScaleWeak(x, p, q);
    }
  }

  /** Helper: `a / y < b / y` for `a < b` and `y > 0`. */
  lemma QuotientGrows(a: real, b: real, y: real)
    requires a < b && y > 0.0
    ensures a / y < b / y
  {
    var p, q := a / y, b / y;
    assert p * y == a && q * y == b;
    if p >= q {
      ScaleWeak(y, q, p);
    }
  }

  /** With a positive final-year FCF, a higher discount rate gives a lower equity value. */
  lemma EquityFallsAsWaccRises(d: DcfResult, g: real, w1: real, w2: real)
    requires d.finalYearFcf > 0.0
    requires -100.0 < g < w1 < w2
    ensures CellEquity(d, g, w2) < CellEquity(d, g, w1)
  {
    var a := d.finalYearFcf * (1.0 + g / 100.0);
    assert a > 0.0 by { ScaleStrict(d.finalYearFcf, 0.0, 1.0 + g / 100.0); }
    var tv1, tv2 := a / ((w1 - g) / 100.0), a / ((w2 - g) / 100.0);
    QuotientShrinks(a, (w1 - g) / 100.0, (w2 - g) / 100.0);
    assert tv1 > 0.0;
    var f1, f2 := DiscountFactor(w1, 5), DiscountFactor(w2, 5);
    PowStrictlyIncreasing(1.0 + w1 / 100.0, 1.0 + w2 / 100.0, 5);
    QuotientShrinks(tv1, f1, f2);
    QuotientGrows(tv2, tv1, f2);
  }

  /** With a positive final-year FCF, a higher perpetual growth rate gives a higher equity
      value. */
  lemma EquityRisesWithGrowth(d: DcfResult, g1: real, g2: real, w: real)
    requires d.finalYearFcf > 0.0
    requires -100.0 < g1 < g2 < w
    ensures CellEquity(d, g1, w) < CellEquity(d, g2, w)
  {
    var a1 := d.finalYearFcf * (1.0 + g1 / 100.0);
    var a2 := d.finalYearFcf * (1.0 + g2 / 100.0);
    assert 0.0 < a1 < a2 by {
      ScaleStrict(d.finalYearFcf, 0.0, 1.0 + g1 / 100.0);
      ScaleStrict(d.finalYearFcf, 1.0 + g1 / 100.0, 1.0 + g2 / 100.0);
    }
    var x1, x2 := (w - g1) / 100.0, (w - g2) / 100.0;
    QuotientGrows(a1, a2, x1);
    QuotientShrinks(a2, x2, x1);
    var tv1, tv2 := a1 / x1, a2 / x2;
    QuotientGrows(tv1, tv2, DiscountFactor(w, 5));
  }

  /** Along a row, left to right, the numeric cells strictly decrease when the final-year
      FCF is positive, as the note under the table says. */
  lemma RowDecreasesLeftToRight(d: DcfResult, i: nat, j: nat, k: nat)
    requires d.perpetualGrowth > -100.0 && d.finalYearFcf > 0.0
    requires i < 3 && j < k < 5
    requires Grid(d)[i][j].Equity?
    ensures Grid(d)[i][k].Equity? && Grid(d)[i][k].value < Grid(d)[i][j].value
  {
    var g := GrowthCandidates(d.perpetualGrowth)[i];
    var ws := WaccCandidates(d.wacc);
    assert Grid(d)[i][j] == CellAt(d, g, ws[j]) && Grid(d)[i][k] == CellAt(d, g, ws[k]);
    EquityFallsAsWaccRises(d, g, ws[j], ws[k]);
  }
}
