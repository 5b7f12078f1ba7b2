/** The valuation tab's multi-method estimate: up to six methods, each added only when its
    basis is positive, kept in insertion order as a dictionary keyed by method name; the
    summary metrics (median, maximum, minimum, mean) over their values; and the detail
    table that lists them by value, highest first. */
module Valuation {
  import opened Numerics
  import opened Company
  import opened Dcf

  datatype Option<T> = None | Some(value: T)

  /** The six dictionary keys, in the order the tab inserts them. */
  datatype ValuationMethod =
    | Per            // PER法
    | Pbr            // PBR法
    | EbitdaMultiple // EBITDA倍率法
    | YearPurchase   // 年買法
    | DcfDetailed    // DCF法（詳細版）
    | NetAsset       // 純資産法

  /** The "適用性" column: ✅, △ or 参考値. */
  datatype Fit = Suited | Conditional | ReferenceOnly

  datatype Estimate = Estimate(approach: ValuationMethod, value: real, fit: Fit)

  /** PER method: profit times the PER multiple. */
  function PerValue(s: Snapshot, m: Multiples): real { s.profit * m.per }

  /** PBR method: net assets times the PBR multiple. */
  function PbrValue(s: Snapshot, m: Multiples): real { NetAssets(s) * m.pbr }

  /** EBITDA-multiple method: profit plus depreciation, times the EBITDA multiple. */
  function EbitdaValue(s: Snapshot, m: Multiples): real { Ebitda(s) * m.ebitda }

  /** Year-purchase method (the Japanese small-business M&A practice): net assets at book
      value plus a number of years of profit. */
  function YearPurchaseValue(s: Snapshot, m: Multiples): real { NetAssets(s) + s.profit * m.yearBuy }

  /** PER suits a profitable company growing faster than 10 percent a year. */
  function PerFit(profit: real, growthRate: real): Fit
  {
    if profit > 0.0 && growthRate > 10.0 then Suited else Conditional
  }

  /** DCF suits a growing company. */
  function DcfFit(growthRate: real): Fit
  {
    if growthRate > 0.0 then Suited else Conditional
  }

  /** Position of a method in insertion order. */
  function Rank(k: ValuationMethod): nat
  {
    match k
    case Per => 0
    case Pbr => 1
    case EbitdaMultiple => 2
    case YearPurchase => 3
    case DcfDetailed => 4
    case NetAsset => 5
  }

  /** A dictionary entry that is inserted only when `cond` holds. */
  function EntryIf(cond: bool, e: Estimate): seq<Estimate>
  {
    if cond then [e] else []
  }

  /** PER: profit times the PER multiple, when the profit is positive; suited to growth
      companies (growth above 10 percent). */
  function PerEntry(s: Snapshot, m: Multiples): seq<Estimate>
  {
    EntryIf(s.profit > 0.0,
      Estimate(Per, PerValue(s, m), PerFit(s.profit, s.growthRate)))
  }

  /** PBR: net assets times the PBR multiple, when net assets are positive. */
  function PbrEntry(s: Snapshot, m: Multiples): seq<Estimate>
  {
    EntryIf(NetAssets(s) > 0.0, Estimate(Pbr, PbrValue(s, m), Suited))
  }

  /** EBITDA multiple: EBITDA times the EBITDA multiple, when EBITDA is positive. */
  function EbitdaEntry(s: Snapshot, m: Multiples): seq<Estimate>
  {
    EntryIf(Ebitda(s) > 0.0, Estimate(EbitdaMultiple, EbitdaValue(s, m), Suited))
  }

  /** Year purchase: net assets plus the chosen number of years of profit, always present. */
  function YearPurchaseEntry(s: Snapshot, m: Multiples): seq<Estimate>
  {
    [Estimate(YearPurchase, YearPurchaseValue(s, m), Suited)]
  }

  /** Detailed DCF: the DCF equity value, when it is positive. */
  function DcfEntry(s: Snapshot, dcf: DcfResult): seq<Estimate>
  {
    EntryIf(dcf.equityValue > 0.0,
      Estimate(DcfDetailed, dcf.equityValue, DcfFit(s.growthRate)))
  }

  /** Net assets: the floor price, always present. */
  function NetAssetEntry(s: Snapshot): seq<Estimate>
  {
    [Estimate(NetAsset, NetAssets(s), ReferenceOnly)]
  }

  /** The dictionary the tab builds, in insertion order, for the snapshot, the four multiple
      sliders and the result of the DCF block (`DcfOf(s, m.ebitda)`). */
  function Valuations(s: Snapshot, m: Multiples, dcf: DcfResult): seq<Estimate>
  {
    PerEntry(s, m) + PbrEntry(s, m) + EbitdaEntry(s, m) + YearPurchaseEntry(s, m)
    + DcfEntry(s, dcf) + NetAssetEntry(s)
  }

  /** The valuation block: inserts the entries one after another, running the DCF block
      before deciding on the DCF entry. */
  method CollectValuations(s: Snapshot, m: Multiples) returns (valuations: seq<Estimate>, dcf: DcfResult)
    requires Wacc(s) != -100.0
    ensures dcf == DcfOf(s, m.ebitda)
    ensures valuations == Valuations(s, m, dcf)
  {
    valuations := CollectMultipleEntries(s, m);
    dcf := ComputeDcf(s, m.ebitda);
    valuations := AddDcfAndNetAssetEntries(valuations, s, dcf);
  }

  /** The first four insertions: PER, PBR and EBITDA each when its basis is positive, then
      the year-purchase method. */
  method CollectMultipleEntries(s: Snapshot, m: Multiples) returns (valuations: seq<Estimate>)
    ensures valuations == PerEntry(s, m) + PbrEntry(s, m) + EbitdaEntry(s, m) + YearPurchaseEntry(s, m)
  {
    valuations := [];
    if s.profit > 0.0 {
      valuations := valuations + [Estimate(Per, PerValue(s, m), PerFit(s.profit, s.growthRate))];
    }
    if NetAssets(s) > 0.0 {
      valuations := valuations + [Estimate(Pbr, PbrValue(s, m), Suited)];
    }
    if Ebitda(s) > 0.0 {
      valuations := valuations + [Estimate(EbitdaMultiple, EbitdaValue(s, m), Suited)];
    }
    valuations := valuations + [Estimate(YearPurchase, YearPurchaseValue(s, m), Suited)];
  }

  /** The last two insertions: the DCF equity value when it is positive, then net assets. */
  method AddDcfAndNetAssetEntries(head: seq<Estimate>, s: Snapshot, dcf: DcfResult) returns (valuations: seq<Estimate>)
    ensures valuations == head + DcfEntry(s, dcf) + NetAssetEntry(s)
  {
    valuations := head;
    if dcf.equityValue > 0.0 {
      valuations := valuations + [Estimate(DcfDetailed, dcf.equityValue, DcfFit(s.growthRate))];
    }
    valuations := valuations + [Estimate(NetAsset, NetAssets(s), ReferenceOnly)];
  }

  /** The value stored under key `k`, if any (the first entry with that key). */
  function ValueOf(v: seq<Estimate>, k: ValuationMethod): Option<real>
  {
    if v == [] then None
    else if v[0].approach == k then Some(v[0].value)
    else ValueOf(v[1..], k)
  }

  lemma {:induction false} ValueOfConcat(a: seq<Estimate>, b: seq<Estimate>, k: ValuationMethod)
    ensures ValueOf(a + b, k) == if ValueOf(a, k).Some? then ValueOf(a, k) else ValueOf(b, k)
  {
    if a == [] {
      assert a + b == b;
    } else {
      assert (a + b)[0] == a[0];
      assert (a + b)[1..] == a[1..] + b;
      ValueOfConcat(a[1..], b, k);
    }
  }

  lemma ValueOfSingleton(e: Estimate, k: ValuationMethod)
    ensures ValueOf([e], k) == if e.approach == k then Some(e.value) else None
  {
    assert [e][1..] == [];
  }

  lemma SingletonOrEmpty(v: seq<Estimate>, k: ValuationMethod)
    requires |v| <= 1
    ensures ValueOf(v, k) == if |v| == 1 && v[0].approach == k then Some(v[0].value) else None
  {
    if |v| == 1 {
      assert v == [v[0]];
      ValueOfSingleton(v[0], k);
    }
  }

  /** What each entry contributes to a lookup of key `k`. */
  lemma EntryLookups(s: Snapshot, m: Multiples, dcf: DcfResult, k: ValuationMethod)
    ensures ValueOf(PerEntry(s, m), k) == if s.profit > 0.0 && k == Per then Some(PerValue(s, m)) else None
    ensures ValueOf(PbrEntry(s, m), k) == if NetAssets(s) > 0.0 && k == Pbr then Some(PbrValue(s, m)) else None
    ensures ValueOf(EbitdaEntry(s, m), k) ==
      if Ebitda(s) > 0.0 && k == EbitdaMultiple then Some(EbitdaValue(s, m)) else None
    ensures ValueOf(YearPurchaseEntry(s, m), k) == if k == YearPurchase then Some(YearPurchaseValue(s, m)) else None
    ensures ValueOf(DcfEntry(s, dcf), k) == if dcf.equityValue > 0.0 && k == DcfDetailed then Some(dcf.equityValue) else None
    ensures ValueOf(NetAssetEntry(s), k) == if k == NetAsset then Some(NetAssets(s)) else None
  {
    SingletonOrEmpty(PerEntry(s, m), k);
    SingletonOrEmpty(PbrEntry(s, m), k);
    SingletonOrEmpty(EbitdaEntry(s, m), k);
    SingletonOrEmpty(YearPurchaseEntry(s, m), k);
    SingletonOrEmpty(DcfEntry(s, dcf), k);
    SingletonOrEmpty(NetAssetEntry(s), k);
  }

  function FirstSome(a: Option<real>, b: Option<real>): Option<real>
  {
    if a.Some? then a else b
  }

  /** Which methods are present, and with which value: each conditional method exactly when
      its basis is positive, the year-purchase and net-asset methods always. */
  lemma IncludedMethods(s: Snapshot, m: Multiples, dcf: DcfResult)
    ensures var v := Valuations(s, m, dcf);
      && ValueOf(v, Per) == (if s.profit > 0.0 then Some(PerValue(s, m)) else None)
      && ValueOf(v, Pbr) == (if NetAssets(s) > 0.0 then Some(PbrValue(s, m)) else None)
      && ValueOf(v, EbitdaMultiple) == (if Ebitda(s) > 0.0 then Some(EbitdaValue(s, m)) else None)
      && ValueOf(v, YearPurchase) == Some(YearPurchaseValue(s, m))
      && ValueOf(v, DcfDetailed) == (if dcf.equityValue > 0.0 then Some(dcf.equityValue) else None)
      && ValueOf(v, NetAsset) == Some(s.totalAssets - s.totalLiabilities)
  {
    var p1, p2, p3 := PerEntry(s, m), PbrEntry(s, m), EbitdaEntry(s, m);
    var p4, p5, p6 := YearPurchaseEntry(s, m), DcfEntry(s, dcf), NetAssetEntry(s);
    var q2 := p1 + p2;
    var q3 := q2 + p3;
    var q4 := q3 + p4;
    var q5 := q4 + p5;
    assert Valuations(s, m, dcf) == q5 + p6;
    forall k: ValuationMethod
      ensures ValueOf(Valuations(s, m, dcf), k) ==
        FirstSome(FirstSome(FirstSome(FirstSome(FirstSome(
          ValueOf(p1, k), ValueOf(p2, k)), ValueOf(p3, k)), ValueOf(p4, k)), ValueOf(p5, k)), ValueOf(p6, k))
    {
      ValueOfConcat(p1, p2, k);
      ValueOfConcat(q2, p3, k);
      ValueOfConcat(q3, p4, k);
      ValueOfConcat(q4, p5, k);
      ValueOfConcat(q5, p6, k);
    }
    EntryLookups(s, m, dcf, Per);
    EntryLookups(s, m, dcf, Pbr);
    EntryLookups(s, m, dcf, EbitdaMultiple);
    EntryLookups(s, m, dcf, YearPurchase);
    EntryLookups(s, m, dcf, DcfDetailed);
    EntryLookups(s, m, dcf, NetAsset);
  }

  /** Every key's rank lies in `[lo, hi)` and ranks strictly increase along `v`. */
  predicate RanksBetween(v: seq<Estimate>, lo: nat, hi: nat)
  {
    && (forall i :: 0 <= i < |v| ==> lo <= Rank(v[i].approach) < hi)
    && (forall i, j :: 0 <= i < j < |v| ==> Rank(v[i].approach) < Rank(v[j].approach))
  }

  lemma RanksConcat(a: seq<Estimate>, b: seq<Estimate>, lo: nat, mid: nat, hi: nat)
    requires lo <= mid <= hi && RanksBetween(a, lo, mid) && RanksBetween(b, mid, hi)
    ensures RanksBetween(a + b, lo, hi)
  {
    forall i | 0 <= i < |a + b|
      ensures lo <= Rank((a + b)[i].approach) < hi
    {
      if i < |a| {
        assert (a + b)[i] == a[i];
      } else {
        assert (a + b)[i] == b[i - |a|];
      }
    }
    forall i, j | 0 <= i < j < |a + b|
      ensures Rank((a + b)[i].approach) < Rank((a + b)[j].approach)
    {
      if j < |a| {
        assert (a + b)[i] == a[i] && (a + b)[j] == a[j];
      } else if i < |a| {
        assert (a + b)[i] == a[i] && (a + b)[j] == b[j - |a|];
      } else {
        assert (a + b)[i] == b[i - |a|] && (a + b)[j] == b[j - |a|];
      }
    }
  }

  lemma SingleEntryRanks(p: seq<Estimate>, r: nat)
    requires |p| <= 1 && (|p| == 1 ==> Rank(p[0].approach) == r)
    ensures RanksBetween(p, r, r + 1)
  {
  }

  /** Six optional entries with ranks 0 to 5, concatenated, are ranked in order. */
  lemma SixEntriesRanked(p1: seq<Estimate>, p2: seq<Estimate>, p3: seq<Estimate>,
                         p4: seq<Estimate>, p5: seq<Estimate>, p6: seq<Estimate>)
    requires RanksBetween(p1, 0, 1) && RanksBetween(p2, 1, 2) && RanksBetween(p3, 2, 3)
    requires RanksBetween(p4, 3, 4) && RanksBetween(p5, 4, 5) && RanksBetween(p6, 5, 6)
    ensures RanksBetween(p1 + p2 + p3 + p4 + p5 + p6, 0, 6)
  {
    var q2 := p1 + p2;
    var q3 := q2 + p3;
    var q4 := q3 + p4;
    var q5 := q4 + p5;
    RanksConcat(p1, p2, 0, 1, 2);
    RanksConcat(q2, p3, 0, 2, 3);
    RanksConcat(q3, p4, 0, 3, 4);
    RanksConcat(q4, p5, 0, 4, 5);
    RanksConcat(q5, p6, 0, 5, 6);
  }

  /** Keys appear in insertion order, each at most once. */
  lemma ValuationsRanked(s: Snapshot, m: Multiples, dcf: DcfResult)
    ensures RanksBetween(Valuations(s, m, dcf), 0, 6)
  {
    SingleEntryRanks(PerEntry(s, m), 0);
    SingleEntryRanks(PbrEntry(s, m), 1);
    SingleEntryRanks(EbitdaEntry(s, m), 2);
    SingleEntryRanks(YearPurchaseEntry(s, m), 3);
    SingleEntryRanks(DcfEntry(s, dcf), 4);
    SingleEntryRanks(NetAssetEntry(s), 5);
    SixEntriesRanked(PerEntry(s, m), PbrEntry(s, m), EbitdaEntry(s, m),
                     YearPurchaseEntry(s, m), DcfEntry(s, dcf), NetAssetEntry(s));
  }

  /** The dictionary holds two to six entries, never the same key twice, in insertion order,
      and always ends with the net-asset method; so the mean never divides by zero. */
  lemma ValuationsShape(s: Snapshot, m: Multiples, dcf: DcfResult)
    ensures var v := Valuations(s, m, dcf);
      && 2 <= |v| <= 6
      && (forall i, j :: 0 <= i < j < |v| ==> Rank(v[i].approach) < Rank(v[j].approach))
      && (forall i, j :: 0 <= i < j < |v| ==> v[i].approach != v[j].approach)
      && v[|v| - 1].approach == NetAsset
  {
    ValuationsRanked(s, m, dcf);
    var v := Valuations(s, m, dcf);
    var head := PerEntry(s, m) + PbrEntry(s, m) + EbitdaEntry(s, m) + YearPurchaseEntry(s, m) + DcfEntry(s, dcf);
    assert v == head + NetAssetEntry(s);
    assert 1 <= |head| <= 5;
    assert v[|v| - 1] == NetAssetEntry(s)[0];
  }

  /** A software company with revenue 500, profit 50, assets 600, liabilities 250 and
      depreciation 25 (millions of yen), valued with its industry's default multiples:
      PER 1250, PBR 1050, EBITDA multiple 600, year purchase 600, net assets 350, whatever
      the DCF yields. */
  lemma SoftwareCompanyExample(dcf: DcfResult)
    ensures var s := Snapshot(500.0, 50.0, 10.0, 600.0, 250.0, 25.0, Software);
      var v := Valuations(s, DefaultMultiples(Software), dcf);
      && ValueOf(v, Per) == Some(1250.0)
      && ValueOf(v, Pbr) == Some(1050.0)
      && ValueOf(v, EbitdaMultiple) == Some(600.0)
      && ValueOf(v, YearPurchase) == Some(600.0)
      && ValueOf(v, NetAsset) == Some(350.0)
  {
    var s := Snapshot(500.0, 50.0, 10.0, 600.0, 250.0, 25.0, Software);
    assert DefaultMultiples(Software) == Multiples(25.0, 3.0, 8.0, 5.0);
    IncludedMethods(s, DefaultMultiples(Software), dcf);
  }

  /** The values of the entries, in dictionary order. */
  function Values(v: seq<Estimate>): (xs: seq<real>)
    ensures |xs| == |v|
    ensures forall i :: 0 <= i < |v| ==> xs[i] == v[i].value
  {
    seq(|v|, i requires 0 <= i < |v| => v[i].value)
  }

  /** The four summary metrics: median, highest, lowest and average value. */
  datatype Summary = Summary(median: real, maximum: real, minimum: real, mean: real)

  /** The summary metrics over the values of the collected methods. */
  function Summarize(values: seq<real>): (r: Summary)
    requires |values| > 0
    ensures r.minimum <= r.median <= r.maximum
    ensures r.minimum <= r.mean <= r.maximum
    ensures r.median in values && r.maximum in values && r.minimum in values
    ensures forall i :: 0 <= i < |values| ==> r.minimum <= values[i] <= r.maximum
  {
    Summary(Median(values), MaxOf(values), MinOf(values), Mean(values))
  }

  /** The median, maximum and minimum the tab shows are each the value of one of the
      collected methods, and the mean lies between the extremes. */
  lemma SummaryOfValuations(s: Snapshot, m: Multiples, dcf: DcfResult)
    ensures var v := Valuations(s, m, dcf);
      && |Values(v)| >= 2
      && var r := Summarize(Values(v));
      && (exists i :: 0 <= i < |v| && v[i].value == r.median)
      && (exists i :: 0 <= i < |v| && v[i].value == r.maximum)
      && (exists i :: 0 <= i < |v| && v[i].value == r.minimum)
      && r.minimum <= r.mean <= r.maximum
  {
    var v := Valuations(s, m, dcf);
    ValuationsShape(s, m, dcf);
    var xs := Values(v);
    var r := Summarize(xs);
    var a :| 0 <= a < |xs| && xs[a] == r.median;
    var b :| 0 <= b < |xs| && xs[b] == r.maximum;
    var c :| 0 <= c < |xs| && xs[c] == r.minimum;
    assert v[a].value == r.median && v[b].value == r.maximum && v[c].value == r.minimum;
  }

  /** The detail table's order: by value, highest first. */
  predicate ValueNonIncreasing(v: seq<Estimate>)
  {
    forall i, j :: 0 <= i < j < |v| ==> v[i].value >= v[j].value
  }

  /** Inserts `e` into a list ordered highest first, in front of every entry whose value
      does not exceed its own. */
  function InsertByValue(e: Estimate, t: seq<Estimate>): (r: seq<Estimate>)
    ensures |r| == |t| + 1
    ensures multiset(r) == multiset(t) + multiset{e}
    ensures r[0] == e || (|t| > 0 && r[0] == t[0])
  {
    if t == [] || e.value >= t[0].value then [e] + t
    else
      assert t == [t[0]] + t[1..];
      [t[0]] + InsertByValue(e, t[1..])
  }

  /** Inserting into a list ordered highest first keeps it so ordered. */
  lemma {:induction false} InsertByValueOrdered(e: Estimate, t: seq<Estimate>)
    requires ValueNonIncreasing(t)
    ensures ValueNonIncreasing(InsertByValue(e, t))
  {
    if t != [] && e.value < t[0].value {
      var rest := InsertByValue(e, t[1..]);
      InsertByValueOrdered(e, t[1..]);
      assert t[0].value >= rest[0].value;
      assert InsertByValue(e, t) == [t[0]] + rest;
    }
  }

  /** `sorted(valuations.items(), key=value, reverse=True)`: a permutation of the entries,
      highest value first. */
  function RankByValue(v: seq<Estimate>): (r: seq<Estimate>)
    ensures |r| == |v|
    ensures ValueNonIncreasing(r)
    ensures multiset(r) == multiset(v)
  {
    if v == [] then []
    else
      assert v == [v[0]] + v[1..];
      var rest := RankByValue(v[1..]);
      InsertByValueOrdered(v[0], rest);
      InsertByValue(v[0], rest)
  }

  /** The entries whose value is `x`, in order. */
  function WithValue(v: seq<Estimate>, x: real): seq<Estimate>
  {
    if v == [] then [] else (if v[0].value == x then [v[0]] else []) + WithValue(v[1..], x)
  }

  lemma WithValueCons(e: Estimate, t: seq<Estimate>, x: real)
    ensures WithValue([e] + t, x) == (if e.value == x then [e] else []) + WithValue(t, x)
  {
    assert ([e] + t)[1..] == t;
  }

  /** Helper: entries of value `x` are unaffected by placing `e`, whose value is not `x`
      or is below `h`'s, after `h` rather than before it. */
  lemma WithValueSwap(h: Estimate, e: Estimate, ins: seq<Estimate>, t: seq<Estimate>, x: real)
    requires e.value < h.value
    requires WithValue(ins, x) == (if e.value == x then [e] else []) + WithValue(t, x)
    ensures WithValue([h] + ins, x) == (if e.value == x then [e] else []) + WithValue([h] + t, x)
  {
    WithValueCons(h, ins, x);
    WithValueCons(h, t, x);
  }

  lemma {:induction false} InsertByValueStable(e: Estimate, t: seq<Estimate>, x: real)
    ensures WithValue(InsertByValue(e, t), x) == (if e.value == x then [e] else []) + WithValue(t, x)
  {
    if t == [] || e.value >= t[0].value {
      WithValueCons(e, t, x);
    } else {
      var ins := InsertByValue(e, t[1..]);
      InsertByValueStable(e, t[1..], x);
      assert InsertByValue(e, t) == [t[0]] + ins;
      WithValueSwap(t[0], e, ins, t[1..], x);
      assert t == [t[0]] + t[1..];
    }
  }

  /** Python's sort is stable: entries of equal value keep their dictionary order. Together
      with the ordering and the permutation this pins the detail table down completely. */
  lemma {:induction false} RankByValueIsStable(v: seq<Estimate>, x: real)
    ensures WithValue(RankByValue(v), x) == WithValue(v, x)
  {
    if v != [] {
      RankByValueIsStable(v[1..], x);
      InsertByValueStable(v[0], RankByValue(v[1..]), x);
    }
  }
}
