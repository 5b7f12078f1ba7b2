/** The company's financial snapshot, as the sidebar and the valuation tab collect it
    (amounts in millions of yen, rates in percent), and the three industry lookup tables:
    default multiples, CAPM betas and price-earnings ratios. */
module Company {

  /** The industry selector's seven labels. `Unlisted` stands for any label the tables do
      not list: the selector never offers one, but every lookup carries a default for it. */
  datatype Industry =
    | Manufacturing   // 製造業
    | Software        // IT・ソフトウェア
    | Healthcare      // 医療・ヘルスケア
    | Energy          // 環境・エネルギー
    | Retail          // 小売・サービス
    | Construction    // 建設・不動産
    | Other           // その他
    | Unlisted

  /** One row of the default-multiples table: PER, PBR, EBITDA multiple and the number of
      years of profit the year-purchase method adds to net assets. */
  datatype Multiples = Multiples(per: real, pbr: real, ebitda: real, yearBuy: real)

  const IndustryMultiples: map<Industry, Multiples> := map[
    Manufacturing := Multiples(15.0, 1.2, 5.0, 3.0),
    Software      := Multiples(25.0, 3.0, 8.0, 5.0),
    Healthcare    := Multiples(20.0, 2.0, 7.0, 4.0),
    Energy        := Multiples(18.0, 1.5, 6.0, 4.0),
    Retail        := Multiples(12.0, 1.0, 4.0, 3.0),
    Construction  := Multiples(10.0, 0.8, 5.0, 3.0),
    Other         := Multiples(15.0, 1.2, 5.0, 3.0)
  ]

  const IndustryBeta: map<Industry, real> := map[
    Manufacturing := 1.0,
    Software      := 1.3,
    Healthcare    := 0.9,
    Energy        := 1.1,
    Retail        := 0.8,
    Construction  := 1.2,
    Other         := 1.0
  ]

  const IndustryPe: map<Industry, real> := map[
    Manufacturing := 15.0,
    Software      := 25.0,
    Healthcare    := 20.0,
    Energy        := 18.0,
    Retail        := 12.0,
    Construction  := 10.0,
    Other         := 15.0
  ]

  /** `industry_multiples.get(industry, industry_multiples["その他"])`: the sliders' defaults. */
  function DefaultMultiples(industry: Industry): Multiples
  {
    if industry in IndustryMultiples then IndustryMultiples[industry] else IndustryMultiples[Other]
  }

  /** `industry_beta.get(industry, 1.0)` */
  function BetaOf(industry: Industry): (beta: real)
    ensures 0.8 <= beta <= 1.3
  {
    if industry in IndustryBeta then IndustryBeta[industry] else 1.0
  }

  /** `industry_pe.get(industry, 15)` */
  function PeOf(industry: Industry): (pe: real)
    ensures 10.0 <= pe <= 25.0
  {
    if industry in IndustryPe then IndustryPe[industry] else 15.0
  }

  /** Every default coincides with the "その他" row, so an unlisted label is valued as "その他". */
  lemma UnlistedIndustryValuedAsOther()
    ensures DefaultMultiples(Unlisted) == DefaultMultiples(Other)
    ensures BetaOf(Unlisted) == BetaOf(Other)
    ensures PeOf(Unlisted) == PeOf(Other)
  {
  }

  /** The simulator's PER table repeats the PER column of the multiples table. */
  lemma PeTableMatchesPerColumn(industry: Industry)
    ensures PeOf(industry) == DefaultMultiples(industry).per
  {
  }

  /** The inputs of the valuation tab: the sidebar's revenue, ordinary profit and growth rate,
      the tab's total assets, total liabilities and depreciation, and the industry. */
  datatype Snapshot = Snapshot(
    revenue: real,
    profit: real,
    growthRate: real,
    totalAssets: real,
    totalLiabilities: real,
    depreciation: real,
    industry: Industry)

  /** `net_assets = total_assets - total_liabilities` (may be negative). */
  function NetAssets(s: Snapshot): real { s.totalAssets - s.totalLiabilities }

  /** `ebitda = profit + depreciation` */
  function Ebitda(s: Snapshot): real { s.profit + s.depreciation }
}
