/** The data behind the analyst panel's charts and its analyse button: the
    allocation by asset type, the top-ten performance table, and the guard
    that refuses an empty portfolio. */
module AnalystCharts {
  import opened Portfolio

  // ---------------------------------------------------------------------
  // Allocation by asset type

  /** One pie slice: an asset type and the market value held in it. */
  datatype Slice = Slice(name: string, value: real)

  function Names(slices: seq<Slice>): (r: seq<string>)
    ensures |r| == |slices|
    ensures forall i :: 0 <= i < |slices| ==> r[i] == slices[i].name
  {
    if slices == [] then [] else [slices[0].name] + Names(slices[1..])
  }

  predicate NoDup(s: seq<string>) {
    forall i, j :: 0 <= i < j < |s| ==> s[i] != s[j]
  }

  /** What `typeMap.get(name) || 0` reads: the first slice of that name, or 0. */
  function ValueOf(slices: seq<Slice>, name: string): real {
    if slices == [] then 0.0
    else if slices[0].name == name then slices[0].value
    else ValueOf(slices[1..], name)
  }

  function SliceTotal(slices: seq<Slice>): real {
    if slices == [] then 0.0 else slices[0].value + SliceTotal(slices[1..])
  }

  /** `typeMap.set(name, current + v)`: the slice of that name grows by `v`,
      or a new slice is appended (a Map keeps insertion order). */
  function Bump(slices: seq<Slice>, name: string, v: real): (r: seq<Slice>)
    ensures name in Names(slices) ==> Names(r) == Names(slices)
    ensures name !in Names(slices) ==> Names(r) == Names(slices) + [name]
    ensures forall m :: ValueOf(r, m) == ValueOf(slices, m) + (if m == name then v else 0.0)
    ensures SliceTotal(r) == SliceTotal(slices) + v
  {
    if slices == [] then [Slice(name, v)]
    else if slices[0].name == name then [Slice(name, slices[0].value + v)] + slices[1..]
    else [slices[0]] + Bump(slices[1..], name, v)
  }

  /** The reference sums: the value held in one type, and in all assets. */
  function TypeTotal(assets: seq<Asset>, name: string): real {
    if assets == [] then 0.0
    else
      var last := assets[|assets| - 1];
      TypeTotal(assets[..|assets| - 1], name) + (if last.assetType == name then MarketValue(last) else 0.0)
  }

  function PortfolioTotal(assets: seq<Asset>): real {
    if assets == [] then 0.0
    else PortfolioTotal(assets[..|assets| - 1]) + MarketValue(assets[|assets| - 1])
  }

  function Types(assets: seq<Asset>): set<string> {
    set i | 0 <= i < |assets| :: assets[i].assetType
  }

  /** `allocationData`: one slice per distinct asset type, in order of first
      appearance, each holding the total value of that type; the slices add
      up to the value of the whole portfolio. */
  function Allocation(assets: seq<Asset>): (r: seq<Slice>)
    ensures NoDup(Names(r))
    ensures (set n | n in Names(r)) == Types(assets)
    ensures forall name :: ValueOf(r, name) == TypeTotal(assets, name)
    ensures SliceTotal(r) == PortfolioTotal(assets)
  {
    if assets == [] then []
    else
      var init := assets[..|assets| - 1];
      var last := assets[|assets| - 1];
      var prev := Allocation(init);
      assert Types(assets) == Types(init) + {last.assetType} by {
        assert forall i :: 0 <= i < |init| ==> init[i] == assets[i];
      }
      Bump(prev, last.assetType, MarketValue(last))
  }

  // ---------------------------------------------------------------------
  // Performance table

  datatype PerfRow = PerfRow(symbol: string, pnlPercent: real, change24h: real)

  /** Profit in percent of the average price; 0 when that price is not
      positive. */
  function PnlPercent(a: Asset): real {
    if a.avgPrice > 0.0 then (a.currentPrice - a.avgPrice) / a.avgPrice * 100.0 else 0.0
  }

  function Rows(assets: seq<Asset>): (r: seq<PerfRow>)
    ensures |r| == |assets|
    ensures forall i :: 0 <= i < |assets| ==>
      r[i] == PerfRow(assets[i].symbol, PnlPercent(assets[i]), assets[i].change24h)
  {
    if assets == [] then []
    else [PerfRow(assets[0].symbol, PnlPercent(assets[0]), assets[0].change24h)] + Rows(assets[1..])
  }

  predicate Descending(s: seq<PerfRow>) {
    forall i, j :: 0 <= i < j < |s| ==> s[i].pnlPercent >= s[j].pnlPercent
  }

  /** Places `x` before the first row it is not below, so rows that compare
      equal keep their original order. */
  function InsertByPnl(x: PerfRow, s: seq<PerfRow>): (r: seq<PerfRow>)
    requires Descending(s)
    ensures Descending(r)
    ensures multiset(r) == multiset(s) + multiset{x}
    ensures |r| == |s| + 1
    ensures r[0] == x || (s != [] && r[0] == s[0])
  {
    if s == [] || x.pnlPercent >= s[0].pnlPercent then [x] + s
    else
      assert s == [s[0]] + s[1..];
      var rest := InsertByPnl(x, s[1..]);
      var r := [s[0]] + rest;
      assert r[0].pnlPercent >= r[1].pnlPercent;
      r
  }

  /** `sort((a, b) => b.pnlPercent - a.pnlPercent)`. */
  function SortByPnl(s: seq<PerfRow>): (r: seq<PerfRow>)
    ensures Descending(r)
    ensures multiset(r) == multiset(s)
    ensures |r| == |s|
  {
    if s == [] then []
    else
      assert s == [s[0]] + s[1..];
      InsertByPnl(s[0], SortByPnl(s[1..]))
  }

  function Min(a: int, b: int): int {
    if a < b then a else b
  }

  /** `performanceData`: at most ten rows, best profit first, drawn from the
      portfolio's rows, and every row left out is at most as profitable as
      every row kept. */
  function PerformanceData(assets: seq<Asset>): (r: seq<PerfRow>)
    ensures |r| == Min(10, |assets|)
    ensures Descending(r)
    ensures multiset(r) <= multiset(Rows(assets))
    ensures forall x, y :: x in multiset(Rows(assets)) - multiset(r) && y in r ==>
      x.pnlPercent <= y.pnlPercent
  {
    var s := SortByPnl(Rows(assets));
    var k := Min(10, |s|);
    PrefixDominates(s, k);
    assert s == s[..k] + s[k..];
    s[..k]
  }

  /** In a descending table, every row past the first `k` is at most as
      profitable as every row among them. */
  lemma PrefixDominates(s: seq<PerfRow>, k: nat)
    requires Descending(s) && k <= |s|
    ensures forall x, y :: x in multiset(s) - multiset(s[..k]) && y in s[..k] ==>
      x.pnlPercent <= y.pnlPercent
  {
    assert s == s[..k] + s[k..];
    assert multiset(s) - multiset(s[..k]) == multiset(s[k..]);
    forall x, y | x in multiset(s) - multiset(s[..k]) && y in s[..k]
      ensures x.pnlPercent <= y.pnlPercent
    {
      assert x in s[k..];
      var j :| 0 <= j < |s[k..]| && s[k..][j] == x;
      var i :| 0 <= i < k && s[i] == y;
      assert s[k + j] == x;
    }
  }

  // ---------------------------------------------------------------------
  // Analyse button

  const EmptyPortfolioError: string := "Portfolio is empty. Add positions to generate analysis."

  /** What `handleAnalyze` does first: refuse with an error, or hand the
      portfolio to the analyzer. */
  datatype AnalyzeStart = Refused(error: string) | CallAnalyzer(portfolio: seq<Asset>)

  function HandleAnalyze(assets: seq<Asset>): (r: AnalyzeStart)
    ensures r.Refused? <==> |assets| == 0
    ensures r.Refused? ==> r.error == EmptyPortfolioError
    ensures r.CallAnalyzer? ==> r.portfolio == assets
  {
    if |assets| == 0 then Refused(EmptyPortfolioError) else CallAnalyzer(assets)
  }
}
