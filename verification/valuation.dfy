/**
 * The dashboard figures of routes.py (`dashboard`, routes.py:68-152): realised results
 * from the trade history, and the value, cost and daily change of the open lots at the
 * prices of a batch lookup. The figures are specified by sums over the lots; the
 * dashboard loop is proved to compute them.
 */
module Valuation {
  import opened Wrappers
  import opened Lots
  import opened Quotes

  // ----- the trade history -----

  /** The number of SELL records. */
  function Sells(hist: seq<Txn>): nat {
    if hist == [] then 0
    else Sells(hist[..|hist| - 1]) + (if hist[|hist| - 1].kind == SELL then 1 else 0)
  }

  /** A sell whose booked gain is positive. */
  predicate IsWin(t: Txn) {
    t.kind == SELL && t.realizedGain.Some? && t.realizedGain.value > 0.0
  }

  /** The number of SELL records with a positive gain. */
  function Wins(hist: seq<Txn>): nat {
    if hist == [] then 0
    else Wins(hist[..|hist| - 1]) + (if IsWin(hist[|hist| - 1]) then 1 else 0)
  }

  lemma {:induction false} WinsAtMostSells(hist: seq<Txn>)
    ensures Wins(hist) <= Sells(hist)
  {
    if hist != [] {
      WinsAtMostSells(hist[..|hist| - 1]);
    }
  }

  /** routes.py:74-77: the percentage of sells that gained, 0 when there are none. */
  function WinRate(hist: seq<Txn>): (r: real)
    ensures Sells(hist) > 0 ==> r * Sells(hist) as real == Wins(hist) as real * 100.0
  {
    if Sells(hist) > 0 then Wins(hist) as real / Sells(hist) as real * 100.0 else 0.0
  }

  /** The win rate is a percentage; it is 0 without sells and 100 when every sell gained. */
  lemma WinRateBounds(hist: seq<Txn>)
    ensures 0.0 <= WinRate(hist) <= 100.0
    ensures Sells(hist) == 0 ==> WinRate(hist) == 0.0
    ensures Sells(hist) > 0 && Wins(hist) == Sells(hist) ==> WinRate(hist) == 100.0
  {
    WinsAtMostSells(hist);
    if Sells(hist) > 0 {
      var w, n := Wins(hist) as real, Sells(hist) as real;
      FractionAtMostOne(w, n);
      assert WinRate(hist) == w / n * 100.0;
    }
  }

  lemma FractionAtMostOne(w: real, s: real)
    requires 0.0 <= w <= s && s > 0.0
    ensures 0.0 <= w / s <= 1.0
    ensures w == s ==> w / s == 1.0
  {
  }

  /** routes.py:79: the sum of every booked gain. */
  function TotalRealized(hist: seq<Txn>): real {
    if hist == [] then 0.0
    else TotalRealized(hist[..|hist| - 1]) + hist[|hist| - 1].realizedGain.GetOr(0.0)
  }

  /** routes.py:80-81: proceeds of every sell, price times quantity, as the realised cost basis. */
  function RealizedCostBasis(hist: seq<Txn>): real {
    if hist == [] then 0.0
    else RealizedCostBasis(hist[..|hist| - 1]) + (if hist[|hist| - 1].kind == SELL then hist[|hist| - 1].price * hist[|hist| - 1].qty else 0.0)
  }

  /** When only sells carry gains, as the trade route writes them, the realised total is the sells' gains. */
  lemma {:induction false} RealizedFromSells(hist: seq<Txn>)
    requires HistoryWellFormed(hist)
    ensures TotalRealized(hist) == SellGains(hist)
  {
    if hist != [] {
      RealizedFromSells(hist[..|hist| - 1]);
    }
  }

  /** The gains carried by the SELL records. */
  function SellGains(hist: seq<Txn>): real {
    if hist == [] then 0.0
    else
      var t := hist[|hist| - 1];
      SellGains(hist[..|hist| - 1]) + (if t.kind == SELL then t.realizedGain.GetOr(0.0) else 0.0)
  }

  /** Every SELL record carries a gain; comparing a missing one with 0 raises (routes.py:76). */
  predicate SellsHaveGains(hist: seq<Txn>) {
    forall i :: 0 <= i < |hist| && hist[i].kind == SELL ==> hist[i].realizedGain.Some?
  }

  // ----- the open lots -----

  /** The running totals of routes.py:83-85 and what each priced lot adds to them. */
  datatype Metric = Value | Cost | Unrealised | DayGain | PrevValue

  /**
   * routes.py:97-119: what one lot adds to a total. A lot whose symbol has no entry in
   * the price map adds nothing; the daily figures only count a truthy previous close.
   */
  function Contribution(lot: Lot, pm: map<string, PriceData>, m: Metric): real {
    if lot.symbol !in pm then 0.0
    else
      var d := pm[lot.symbol];
      match m
      case Value => d.price * lot.qty
      case Cost => lot.priceBought * lot.qty
      case Unrealised => d.price * lot.qty - lot.priceBought * lot.qty
      case DayGain => if Truthy(d.prev) then (d.price - d.prev.value) * lot.qty else 0.0
      case PrevValue => if Truthy(d.prev) then d.prev.value * lot.qty else 0.0
  }

  /** The total of a metric over the lots, in list order. */
  function Total(h: seq<Lot>, pm: map<string, PriceData>, m: Metric): real {
    if h == [] then 0.0 else Total(h[..|h| - 1], pm, m) + Contribution(h[|h| - 1], pm, m)
  }

  /** One more lot adds its own contribution to a total. */
  lemma TotalStep(h: seq<Lot>, pm: map<string, PriceData>, m: Metric, i: int)
    requires 0 <= i < |h|
    ensures Total(h[..i + 1], pm, m) == Total(h[..i], pm, m) + Contribution(h[i], pm, m)
  {
    assert h[..i + 1][..i] == h[..i];
  }

  /** routes.py:106,119: the unrealised total is the value total minus the cost total. */
  lemma {:induction false} UnrealisedIsValueMinusCost(h: seq<Lot>, pm: map<string, PriceData>)
    ensures Total(h, pm, Unrealised) == Total(h, pm, Value) - Total(h, pm, Cost)
  {
    if h != [] {
      UnrealisedIsValueMinusCost(h[..|h| - 1], pm);
    }
  }

  /** A lot whose symbol has a price. */
  function HasPrice(pm: map<string, PriceData>): Lot -> bool {
    (lot: Lot) => lot.symbol in pm
  }

  /** The lots whose symbol has a price, in list order. */
  function Priced(h: seq<Lot>, pm: map<string, PriceData>): (r: seq<Lot>)
    ensures forall i :: 0 <= i < |r| ==> r[i].symbol in pm
  {
    Keep(h, HasPrice(pm))
  }

  /**
   * Every priced lot is kept, in order: there is one entry per priced lot, and the priced
   * lot at `i` lands after the priced lots before it.
   */
  lemma PricedKeepsOrder(h: seq<Lot>, pm: map<string, PriceData>)
    ensures |Priced(h, pm)| == Count(h, HasPrice(pm))
    ensures forall i :: 0 <= i < |h| && h[i].symbol in pm ==>
      Count(h[..i], HasPrice(pm)) < |Priced(h, pm)| && Priced(h, pm)[Count(h[..i], HasPrice(pm))] == h[i]
  {
    KeepIndex(h, HasPrice(pm));
  }

  /** Only priced lots count: every total over the lots equals the total over the priced ones. */
  lemma {:induction false} TotalPricedOnly(h: seq<Lot>, pm: map<string, PriceData>, m: Metric)
    ensures Total(h, pm, m) == Total(Priced(h, pm), pm, m)
  {
    if h != [] {
      var init, last := h[..|h| - 1], h[|h| - 1];
      TotalPricedOnly(init, pm, m);
      assert HasPrice(pm)(last) == (last.symbol in pm);
      if last.symbol in pm {
        var p := Priced(init, pm) + [last];
        assert Priced(h, pm) == p;
        assert p[..|p| - 1] == Priced(init, pm);
      } else {
        assert Priced(h, pm) == Priced(init, pm);
      }
    }
  }

  /** With no price for any lot, every total is 0. */
  lemma {:induction false} NothingPricedTotalsZero(h: seq<Lot>, pm: map<string, PriceData>, m: Metric)
    requires forall i :: 0 <= i < |h| ==> h[i].symbol !in pm
    ensures Total(h, pm, m) == 0.0
  {
    if h != [] {
      NothingPricedTotalsZero(h[..|h| - 1], pm, m);
    }
  }

  /** A percentage with the dashboard's guard: 0 unless the denominator is positive. */
  function Pct(num: real, den: real): (r: real)
    ensures den <= 0.0 ==> r == 0.0
    ensures den > 0.0 ==> r * den == num * 100.0
  {
    if den > 0.0 then num / den * 100.0 else 0.0
  }

  /** Every priced lot has a non-zero cost; otherwise `pct_change` divides by zero (routes.py:115). */
  predicate NonZeroBases(h: seq<Lot>, pm: map<string, PriceData>) {
    forall i :: 0 <= i < |h| && h[i].symbol in pm ==> h[i].priceBought != 0.0
  }

  /** One processed holding: the lot and its priced fields, all `None` when unpriced. */
  datatype Row = Row(lot: Lot, current: Option<real>, value: Option<real>, unrealised: Option<real>, pctChange: Option<real>)

  /** routes.py:97-125: the fields the dashboard writes into one holding. */
  function RowOf(lot: Lot, pm: map<string, PriceData>): (r: Row)
    requires lot.symbol in pm ==> lot.priceBought != 0.0
    ensures r.lot == lot
    ensures lot.symbol !in pm ==> r.current.None? && r.value.None? && r.unrealised.None? && r.pctChange.None?
    ensures lot.symbol in pm ==> r.current == Some(pm[lot.symbol].price) && r.value.Some? && r.unrealised.Some? && r.pctChange.Some?
    ensures lot.symbol in pm ==> r.unrealised.value == UnrealisedReturn(lot, r.current.value)
    ensures lot.symbol in pm ==> r.value.value == r.unrealised.value + lot.priceBought * lot.qty
    ensures lot.symbol in pm ==> r.pctChange.value * lot.priceBought == (r.current.value - lot.priceBought) * 100.0
  {
    if lot.symbol !in pm then Row(lot, None, None, None, None)
    else
      var c := pm[lot.symbol].price;
      Row(lot, Some(c), Some(c * lot.qty), Some(c * lot.qty - lot.priceBought * lot.qty),
          Some((c - lot.priceBought) / lot.priceBought * 100.0))
  }

  /** The holdings after the loop, in list order. */
  function Rows(h: seq<Lot>, pm: map<string, PriceData>): (r: seq<Row>)
    requires NonZeroBases(h, pm)
    ensures |r| == |h|
    ensures forall i :: 0 <= i < |h| ==> r[i] == RowOf(h[i], pm)
  {
    if h == [] then [] else Rows(h[..|h| - 1], pm) + [RowOf(h[|h| - 1], pm)]
  }

  /** routes.py:121-122: the chart shows the priced lots, by symbol and value. */
  function ChartLabels(h: seq<Lot>, pm: map<string, PriceData>): seq<string> {
    if h == [] then []
    else ChartLabels(h[..|h| - 1], pm) + (if h[|h| - 1].symbol in pm then [h[|h| - 1].symbol] else [])
  }

  function ChartValues(h: seq<Lot>, pm: map<string, PriceData>): seq<real> {
    if h == [] then []
    else ChartValues(h[..|h| - 1], pm) + (if h[|h| - 1].symbol in pm then [Contribution(h[|h| - 1], pm, Value)] else [])
  }

  // ----- sorting by value -----

  /** routes.py:147: the sort key, a missing value counting as 0. */
  function Key(r: Row): real {
    r.value.GetOr(0.0)
  }

  predicate SortedByValue(s: seq<Row>) {
    forall i, j :: 0 <= i < j < |s| ==> Key(s[i]) >= Key(s[j])
  }

  /** Every row of `s` is worth at most `k`. */
  predicate AtMost(s: seq<Row>, k: real) {
    forall i :: 0 <= i < |s| ==> Key(s[i]) <= k
  }

  /** Place `x` after every row worth at least as much, so that equal values keep their order. */
  function Insert(x: Row, s: seq<Row>): seq<Row> {
    if s == [] then [x]
    else if Key(s[0]) < Key(x) then [x] + s
    else [s[0]] + Insert(x, s[1..])
  }

  lemma {:induction false} InsertPerm(x: Row, s: seq<Row>)
    ensures multiset(Insert(x, s)) == multiset(s) + multiset{x}
  {
    if s != [] && Key(s[0]) >= Key(x) {
      InsertPerm(x, s[1..]);
      assert s == [s[0]] + s[1..];
    }
  }

  lemma {:induction false} InsertAtMost(x: Row, s: seq<Row>, k: real)
    requires AtMost(s, k) && Key(x) <= k
    ensures AtMost(Insert(x, s), k)
  {
    if s != [] && Key(s[0]) >= Key(x) {
      InsertAtMost(x, s[1..], k);
    }
  }

  /** A row worth at least every row of a sorted list can go in front of it. */
  lemma ConsSorted(a: Row, t: seq<Row>)
    requires SortedByValue(t) && AtMost(t, Key(a))
    ensures SortedByValue([a] + t)
  {
    var r := [a] + t;
    forall i, j | 0 <= i < j < |r| ensures Key(r[i]) >= Key(r[j]) {
      assert r[j] == t[j - 1];
      if i > 0 {
        assert r[i] == t[i - 1];
      }
    }
  }

  lemma {:induction false} InsertSorted(x: Row, s: seq<Row>)
    requires SortedByValue(s)
    ensures SortedByValue(Insert(x, s))
  {
    if s == [] {
    } else if Key(s[0]) < Key(x) {
      assert AtMost(s, Key(x)) by {
        forall i | 0 < i < |s| ensures Key(s[i]) <= Key(s[0]) {
        }
      }
      ConsSorted(x, s);
    } else {
      InsertSorted(x, s[1..]);
      assert AtMost(s[1..], Key(s[0])) by {
        forall i | 0 <= i < |s| - 1 ensures Key(s[1..][i]) <= Key(s[0]) {
          assert s[1..][i] == s[i + 1];
        }
      }
      InsertAtMost(x, s[1..], Key(s[0]));
      ConsSorted(s[0], Insert(x, s[1..]));
    }
  }

  /** routes.py:147: the holdings ordered by value, highest first. */
  function SortByValue(rows: seq<Row>): (r: seq<Row>)
    ensures SortedByValue(r)
    ensures multiset(r) == multiset(rows)
  {
    if rows == [] then []
    else
      var init, x := rows[..|rows| - 1], rows[|rows| - 1];
      var sorted := SortByValue(init);
      InsertSorted(x, sorted);
      InsertPerm(x, sorted);
      assert rows == init + [x];
      Insert(x, sorted)
  }

  /** The rows of `s` worth exactly `k`, in list order. */
  function WithKey(s: seq<Row>, k: real): seq<Row> {
    if s == [] then [] else (if Key(s[0]) == k then [s[0]] else []) + WithKey(s[1..], k)
  }

  lemma {:induction false} WithKeyAppend(a: seq<Row>, b: seq<Row>, k: real)
    ensures WithKey(a + b, k) == WithKey(a, k) + WithKey(b, k)
  {
    if a == [] {
      assert a + b == b;
    } else {
      var head := if Key(a[0]) == k then [a[0]] else [];
      assert (a + b)[0] == a[0] && (a + b)[1..] == a[1..] + b;
      WithKeyAppend(a[1..], b, k);
      calc {
        WithKey(a + b, k);
        head + WithKey(a[1..] + b, k);
        head + (WithKey(a[1..], k) + WithKey(b, k));
        (head + WithKey(a[1..], k)) + WithKey(b, k);
        WithKey(a, k) + WithKey(b, k);
      }
    }
  }

  lemma {:induction false} WithKeyNone(s: seq<Row>, k: real)
    requires AtMost(s, k) && forall i :: 0 <= i < |s| ==> Key(s[i]) != k
    ensures WithKey(s, k) == []
  {
    if s != [] {
      WithKeyNone(s[1..], k);
    }
  }

  /** Inserting into a sorted list puts `x` after every row of its value already there. */
  lemma {:induction false} InsertStable(x: Row, s: seq<Row>, k: real)
    requires SortedByValue(s)
    ensures WithKey(Insert(x, s), k) == WithKey(s, k) + (if Key(x) == k then [x] else [])
  {
    if s == [] {
    } else if Key(s[0]) < Key(x) {
      assert ([x] + s)[1..] == s;
      if Key(x) == k {
        WithKeyNone(s, k);
      }
    } else {
      InsertStable(x, s[1..], k);
      assert ([s[0]] + Insert(x, s[1..]))[1..] == Insert(x, s[1..]);
    }
  }

  /**
   * The sort is stable, as Python's `sorted` is: the rows of any one value come out in
   * the order they went in.
   */
  lemma {:induction false} SortStable(rows: seq<Row>, k: real)
    ensures WithKey(SortByValue(rows), k) == WithKey(rows, k)
  {
    if rows != [] {
      var init, x := rows[..|rows| - 1], rows[|rows| - 1];
      var sorted := SortByValue(init);
      var tail := if Key(x) == k then [x] else [];
      SortStable(init, k);
      InsertStable(x, sorted, k);
      WithKeyAppend(init, [x], k);
      assert WithKey([x], k) == tail by {
        assert [x][1..] == [];
      }
      calc {
        WithKey(SortByValue(rows), k);
        WithKey(Insert(x, sorted), k);
        WithKey(sorted, k) + tail;
        WithKey(init, k) + tail;
        WithKey(init, k) + WithKey([x], k);
        { assert rows == init + [x]; }
        WithKey(rows, k);
      }
    }
  }

  // ----- the dashboard -----

  /** The running totals of the holdings loop, routes.py:83-85. */
  datatype Sums = Sums(value: real, cost: real, unrealised: real, dayGain: real, prevValue: real)

  function SumsOf(h: seq<Lot>, pm: map<string, PriceData>): Sums {
    Sums(Total(h, pm, Value), Total(h, pm, Cost), Total(h, pm, Unrealised), Total(h, pm, DayGain), Total(h, pm, PrevValue))
  }

  /** The `totals` dictionary of routes.py:134-145. */
  datatype Totals = Totals(
    value: real, unrealised: real, pct: real, realized: real, growth: real,
    growthPct: real, dailyVal: real, dailyPct: real, winRate: real, totalTrades: nat)

  /**
   * routes.py:129-145: the totals from the loop's sums and the history. Lifetime growth is
   * the realised gains plus the unrealised total, over the open cost plus the proceeds of
   * every sell; each percentage is guarded against a denominator that is not positive.
   */
  function TotalsOf(s: Sums, hist: seq<Txn>): Totals {
    var growth := TotalRealized(hist) + s.unrealised;
    Totals(s.value, s.unrealised, Pct(s.value - s.cost, s.cost), TotalRealized(hist), growth,
           Pct(growth, s.cost + RealizedCostBasis(hist)), s.dayGain, Pct(s.dayGain, s.prevValue),
           WinRate(hist), Sells(hist))
  }

  /** What the holdings loop produces: its sums, the processed holdings and the chart series. */
  datatype Pass = Pass(sums: Sums, rows: seq<Row>, chartLabels: seq<string>, chartValues: seq<real>)

  datatype Report = Report(holdings: seq<Row>, totals: Totals, chartLabels: seq<string>, chartValues: seq<real>)

  /** The exceptions the dashboard can raise. */
  datatype DashboardError = GainMissing | ZeroPriceBought(symbol: string)

  /** The sums after adding one more lot. */
  function AddLot(s: Sums, lot: Lot, pm: map<string, PriceData>): Sums {
    Sums(s.value + Contribution(lot, pm, Value), s.cost + Contribution(lot, pm, Cost),
         s.unrealised + Contribution(lot, pm, Unrealised), s.dayGain + Contribution(lot, pm, DayGain),
         s.prevValue + Contribution(lot, pm, PrevValue))
  }

  /** Extending the lots by one extends every specified series by that lot's part. */
  lemma PrefixStep(h: seq<Lot>, pm: map<string, PriceData>, i: int)
    requires 0 <= i < |h|
    ensures SumsOf(h[..i + 1], pm) == AddLot(SumsOf(h[..i], pm), h[i], pm)
    ensures ChartLabels(h[..i + 1], pm) == ChartLabels(h[..i], pm) + (if h[i].symbol in pm then [h[i].symbol] else [])
    ensures ChartValues(h[..i + 1], pm) == ChartValues(h[..i], pm) + (if h[i].symbol in pm then [Contribution(h[i], pm, Value)] else [])
    ensures NonZeroBases(h[..i + 1], pm) ==> Rows(h[..i + 1], pm) == Rows(h[..i], pm) + [RowOf(h[i], pm)]
  {
    assert h[..i + 1][..i] == h[..i];
  }

  /**
   * routes.py:97-125: the loop body for one lot `s`, adding to the running sums and
   * series in `acc`; it raises where `pct_change` divides by a cost of 0.
   */
  method VisitLot(s: Lot, pm: map<string, PriceData>, acc: Pass) returns (r: Result<Pass, DashboardError>)
    ensures r.Failure? <==> s.symbol in pm && s.priceBought == 0.0
    ensures r.Success? ==> r.value == Pass(
      AddLot(acc.sums, s, pm), acc.rows + [RowOf(s, pm)],
      acc.chartLabels + (if s.symbol in pm then [s.symbol] else []),
      acc.chartValues + (if s.symbol in pm then [Contribution(s, pm, Value)] else []))
  {
    var tv, tc, tu, daily, prevVal := acc.sums.value, acc.sums.cost, acc.sums.unrealised, acc.sums.dayGain, acc.sums.prevValue;
    var labels, values := acc.chartLabels, acc.chartValues;
    if s.symbol in pm {
      var curr, prev := pm[s.symbol].price, pm[s.symbol].prev;
      var val := curr * s.qty;
      var costBasis := s.priceBought * s.qty;
      if Truthy(prev) {
        daily := daily + (curr - prev.value) * s.qty;
        prevVal := prevVal + prev.value * s.qty;
      }
      if s.priceBought == 0.0 {
        return Failure(ZeroPriceBought(s.symbol));
      }
      tv := tv + val;
      tc := tc + costBasis;
      tu := tu + (val - costBasis);
      labels := labels + [s.symbol];
      values := values + [val];
      assert Contribution(s, pm, Value) == val && Contribution(s, pm, Cost) == costBasis;
      assert Contribution(s, pm, Unrealised) == val - costBasis;
      assert Sums(tv, tc, tu, daily, prevVal) == AddLot(acc.sums, s, pm);
    } else {
      assert Sums(tv, tc, tu, daily, prevVal) == AddLot(acc.sums, s, pm);
    }
    r := Success(Pass(Sums(tv, tc, tu, daily, prevVal), acc.rows + [RowOf(s, pm)], labels, values));
  }

  /** What the holdings loop has produced after the lots `h`. */
  function PassOf(h: seq<Lot>, pm: map<string, PriceData>): Pass
    requires NonZeroBases(h, pm)
  {
    Pass(SumsOf(h, pm), Rows(h, pm), ChartLabels(h, pm), ChartValues(h, pm))
  }

  /**
   * routes.py:96-127: one pass over the lots accumulating the sums, the processed
   * holdings and the chart series; it stops at the first priced lot that cost 0.
   */
  method ProcessHoldings(h: seq<Lot>, pm: map<string, PriceData>) returns (r: Result<Pass, DashboardError>)
    ensures r.Failure? <==> !NonZeroBases(h, pm)
    ensures r.Success? ==> r.value == PassOf(h, pm)
  {
    var acc := Pass(Sums(0.0, 0.0, 0.0, 0.0, 0.0), [], [], []);
    for i := 0 to |h|
      invariant NonZeroBases(h[..i], pm)
      invariant acc == PassOf(h[..i], pm)
    {
      PrefixStep(h, pm, i);
      var step := VisitLot(h[i], pm, acc);
      if step.Failure? {
        return step;
      }
      acc := step.value;
    }
    assert h[..|h|] == h;
    r := Success(acc);
  }

  /**
   * routes.py:68-152 with the price map `pm` of the batch lookup as an input: the
   * dashboard fails exactly when a sell lacks its gain or a priced lot cost 0; otherwise
   * its totals are the specified sums and its holdings the rows sorted by value.
   */
  method Dashboard(h: seq<Lot>, hist: seq<Txn>, pm: map<string, PriceData>) returns (r: Result<Report, DashboardError>)
    ensures r.Failure? <==> !SellsHaveGains(hist) || !NonZeroBases(h, pm)
    ensures r.Success? ==>
      && r.value.totals == TotalsOf(SumsOf(h, pm), hist)
      && r.value.holdings == SortByValue(Rows(h, pm))
      && SortedByValue(r.value.holdings) && multiset(r.value.holdings) == multiset(Rows(h, pm))
      && r.value.chartLabels == ChartLabels(h, pm) && r.value.chartValues == ChartValues(h, pm)
  {
    if !SellsHaveGains(hist) {
      return Failure(GainMissing);
    }
    var pass := ProcessHoldings(h, pm);
    match pass {
      case Failure(e) => r := Failure(e);
      case Success(p) =>
        r := Success(Report(SortByValue(p.rows), TotalsOf(p.sums, hist), p.chartLabels, p.chartValues));
    }
  }

  /**
   * A buy of a new symbol at price 0 is accepted by the trade form, and once the symbol
   * has a price the dashboard can no longer be computed.
   */
  lemma ZeroPriceBuyBreaksDashboard(h: seq<Lot>, sym: string, q: real, pm: map<string, PriceData>)
    requires Position(h, sym).None? && sym in pm
    ensures CanMerge(h, sym, q) && !NonZeroBases(Buy(h, sym, q, 0.0), pm)
  {
    var r := Buy(h, sym, q, 0.0);
    assert r[|h|] == Lot(sym, q, 0.0);
  }
}
