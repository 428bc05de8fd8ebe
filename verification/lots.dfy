/**
 * Open lots and trade records of a portfolio, and the two pure transitions on the
 * lot list that routes.py's `trade` performs in place: a weighted-average buy and a
 * sell that books a realised gain.
 */
module Lots {
  import opened Wrappers

  /** One open position: `{symbol, qty, priceBought}`, `priceBought` being the average cost. */
  datatype Lot = Lot(symbol: string, qty: real, priceBought: real)

  datatype Kind = BUY | SELL

  /** One history record; `realizedGain` is `None` for a buy. */
  datatype Txn = Txn(date: string, kind: Kind, symbol: string, qty: real, price: real, realizedGain: Option<real>)

  /** A remaining quantity at or below this closes the position. */
  const EPSILON: real := 0.000001

  /** `OwnedStock.UnrealisedReturn`: paper profit of the lot at `currentPrice`. */
  function UnrealisedReturn(lot: Lot, currentPrice: real): (r: real)
    ensures r == currentPrice * lot.qty - lot.priceBought * lot.qty
    ensures lot.qty > 0.0 ==> (r > 0.0 <==> currentPrice > lot.priceBought)
  {
    (currentPrice - lot.priceBought) * lot.qty
  }

  /** routes.py:171: the index of the first lot in `sym`, or -1 when there is none. */
  function FindLot(h: seq<Lot>, sym: string): (idx: int)
    ensures -1 <= idx < |h|
    ensures idx == -1 <==> forall i :: 0 <= i < |h| ==> h[i].symbol != sym
    ensures 0 <= idx ==> h[idx].symbol == sym && forall j :: 0 <= j < idx ==> h[j].symbol != sym
  {
    if h == [] then -1
    else if h[0].symbol == sym then 0
    else
      var k := FindLot(h[1..], sym);
      if k == -1 then -1 else k + 1
  }

  /** The first lot carrying `sym` is the one `FindLot` returns. */
  lemma {:induction false} FindLotAt(h: seq<Lot>, sym: string, i: int)
    requires 0 <= i < |h| && h[i].symbol == sym
    requires forall j :: 0 <= j < i ==> h[j].symbol != sym
    ensures FindLot(h, sym) == i
    decreases i
  {
    if i > 0 {
      assert h[0].symbol != sym;
      FindLotAt(h[1..], sym, i - 1);
    }
  }

  /** The lot `trade` finds for `sym`, if any. */
  function Position(h: seq<Lot>, sym: string): Option<Lot> {
    var i := FindLot(h, sym);
    if i >= 0 then Some(h[i]) else None
  }

  /** The quantity of a position, zero when there is none. */
  function QtyOf(pos: Option<Lot>): real {
    match pos
    case Some(lot) => lot.qty
    case None => 0.0
  }

  /** Quantity times average cost of a position, zero when there is none. */
  function CostAt(pos: Option<Lot>): real {
    match pos
    case Some(lot) => lot.qty * lot.priceBought
    case None => 0.0
  }

  function Held(h: seq<Lot>, sym: string): real {
    QtyOf(Position(h, sym))
  }

  /** Quantity times average cost of the position in `sym`. */
  function CostOf(h: seq<Lot>, sym: string): real {
    CostAt(Position(h, sym))
  }

  predicate UniqueSymbols(h: seq<Lot>) {
    forall i, j :: 0 <= i < j < |h| ==> h[i].symbol != h[j].symbol
  }

  /** The lot-list invariant: one lot per symbol, positive quantities, non-negative costs. */
  predicate WellFormed(h: seq<Lot>) {
    && UniqueSymbols(h)
    && forall i :: 0 <= i < |h| ==> h[i].qty > 0.0 && h[i].priceBought >= 0.0
  }

  /** Each buy carries no gain and each sell carries one. */
  predicate HistoryWellFormed(hist: seq<Txn>) {
    forall i :: 0 <= i < |hist| ==> (hist[i].kind == SELL <==> hist[i].realizedGain.Some?)
  }

  /** routes.py:182-184: add `q` units bought at `p` to a lot, re-averaging its cost. */
  function Merge(lot: Lot, q: real, p: real): (r: Lot)
    requires lot.qty + q != 0.0
    ensures r.symbol == lot.symbol && r.qty == lot.qty + q
  {
    var newQty := lot.qty + q;
    Lot(lot.symbol, newQty, (lot.qty * lot.priceBought + q * p) / newQty)
  }

  /** Merging conserves total cost: the new quantity times the new average is the old cost plus `q * p`. */
  lemma MergeCost(lot: Lot, q: real, p: real)
    requires lot.qty + q != 0.0
    ensures var r := Merge(lot, q, p); r.qty * r.priceBought == lot.qty * lot.priceBought + q * p
    ensures (lot.qty + q) * Merge(lot, q, p).priceBought == lot.qty * lot.priceBought + q * p
  {
    var c := lot.qty * lot.priceBought + q * p;
    QuotientTimes(c, lot.qty + q);
  }

  lemma QuotientTimes(c: real, n: real)
    requires n != 0.0
    ensures (c / n) * n == c
  {
  }

  /** Merging a second fill into a fresh lot does not depend on which fill came first. */
  lemma MergeFresh(sym: string, q1: real, p1: real, q2: real, p2: real)
    requires q1 + q2 != 0.0
    ensures Merge(Lot(sym, q1, p1), q2, p2) == Merge(Lot(sym, q2, p2), q1, p1)
  {
    assert q1 + q2 == q2 + q1;
    assert q1 * p1 + q2 * p2 == q2 * p2 + q1 * p1;
  }

  /** Two merges into one lot give the same lot in either order. */
  lemma MergeCommutes(lot: Lot, q1: real, p1: real, q2: real, p2: real)
    requires lot.qty + q1 != 0.0 && lot.qty + q2 != 0.0 && lot.qty + q1 + q2 != 0.0
    ensures Merge(Merge(lot, q1, p1), q2, p2) == Merge(Merge(lot, q2, p2), q1, p1)
  {
    var m1, m2 := Merge(lot, q1, p1), Merge(lot, q2, p2);
    MergeCost(lot, q1, p1);
    MergeCost(lot, q2, p2);
    var c := lot.qty * lot.priceBought + q1 * p1 + q2 * p2;
    assert m1.qty * m1.priceBought + q2 * p2 == c;
    assert m2.qty * m2.priceBought + q1 * p1 == c;
  }

  /** The merged average cost lies between the old average and the new price. */
  lemma MergeBetween(lot: Lot, q: real, p: real)
    requires lot.qty > 0.0 && q > 0.0
    ensures var m := Merge(lot, q, p);
      && (lot.priceBought <= p ==> lot.priceBought <= m.priceBought <= p)
      && (p <= lot.priceBought ==> p <= m.priceBought <= lot.priceBought)
  {
    MergeCost(lot, q, p);
    Between(lot.qty, lot.priceBought, q, p, Merge(lot, q, p).priceBought);
  }

  /** A weighted mean of `c` (weight `a`) and `p` (weight `q`) lies between them. */
  lemma Between(a: real, c: real, q: real, p: real, x: real)
    requires a > 0.0 && q > 0.0 && (a + q) * x == a * c + q * p
    ensures c <= p ==> c <= x <= p
    ensures p <= c ==> p <= x <= c
  {
    assert (a + q) * x == a * x + q * x;
    if c <= p {
      assert q * c <= q * p && a * c <= a * p;
      CancelPositive(a, q, c, x);
      CancelPositive(a, q, x, p);
    } else {
      assert q * p <= q * c && a * p <= a * c;
      CancelPositive(a, q, p, x);
      CancelPositive(a, q, x, c);
    }
  }

  lemma CancelPositive(a: real, q: real, u: real, v: real)
    requires a > 0.0 && q > 0.0 && a * u + q * u <= a * v + q * v
    ensures u <= v
  {
    assert (a + q) * (v - u) == (a * v + q * v) - (a * u + q * u);
  }

  /** The symbols of the lots, in order, duplicates kept (routes.py:311). */
  function SymbolsOf(h: seq<Lot>): (r: seq<string>)
    ensures |r| == |h| && forall i :: 0 <= i < |h| ==> r[i] == h[i].symbol
  {
    if h == [] then [] else SymbolsOf(h[..|h| - 1]) + [h[|h| - 1].symbol]
  }

  /** The lots of `h` that satisfy `p`, in list order. */
  function Keep(h: seq<Lot>, p: Lot -> bool): (r: seq<Lot>)
    ensures |r| <= |h|
    ensures forall i :: 0 <= i < |r| ==> p(r[i])
  {
    if h == [] then [] else Keep(h[..|h| - 1], p) + (if p(h[|h| - 1]) then [h[|h| - 1]] else [])
  }

  /** How many lots of `h` satisfy `p`. */
  function Count(h: seq<Lot>, p: Lot -> bool): nat {
    if h == [] then 0 else Count(h[..|h| - 1], p) + (if p(h[|h| - 1]) then 1 else 0)
  }

  /**
   * `Keep` selects in order and drops nothing it should keep: it holds one entry per lot
   * satisfying `p`, and the lot at `i` lands at the number of such lots before `i`.
   */
  lemma {:induction false} KeepIndex(h: seq<Lot>, p: Lot -> bool)
    ensures |Keep(h, p)| == Count(h, p)
    ensures forall i :: 0 <= i < |h| && p(h[i]) ==>
      Count(h[..i], p) < |Keep(h, p)| && Keep(h, p)[Count(h[..i], p)] == h[i]
  {
    if h != [] {
      var init, last := h[..|h| - 1], h[|h| - 1];
      KeepIndex(init, p);
      forall i | 0 <= i < |h| && p(h[i])
        ensures Count(h[..i], p) < |Keep(h, p)| && Keep(h, p)[Count(h[..i], p)] == h[i]
      {
        if i < |init| {
          assert h[..i] == init[..i];
          assert init[i] == h[i];
        } else {
          assert h[..i] == init;
        }
      }
    }
  }

  /** A buy of `q` at `p` is defined unless it would divide by a zero total quantity. */
  predicate CanMerge(h: seq<Lot>, sym: string, q: real) {
    Position(h, sym).Some? ==> Position(h, sym).value.qty + q != 0.0
  }

  /** routes.py:180-186: merge into the lot of `sym`, or append a new lot. */
  function Buy(h: seq<Lot>, sym: string, q: real, p: real): (r: seq<Lot>)
    requires CanMerge(h, sym, q)
    ensures |r| == |h| + (if Position(h, sym).Some? then 0 else 1)
    ensures forall j :: 0 <= j < |h| && h[j].symbol != sym ==> r[j] == h[j]
  {
    var i := FindLot(h, sym);
    if i >= 0 then h[i := Merge(h[i], q, p)] else h + [Lot(sym, q, p)]
  }

  /** Lookups of other symbols see the same lots when `sym`'s lot is replaced or appended. */
  lemma FindLotOther(h: seq<Lot>, g: seq<Lot>, s: string)
    requires |h| <= |g|
    requires forall i :: 0 <= i < |h| ==> (h[i].symbol == s <==> g[i].symbol == s)
    requires forall i :: 0 <= i < |h| && h[i].symbol != s ==> g[i] == h[i] || g[i].symbol != s
    requires forall i :: |h| <= i < |g| ==> g[i].symbol != s
    requires forall i :: 0 <= i < |h| && h[i].symbol == s ==> g[i] == h[i]
    ensures Position(g, s) == Position(h, s)
  {
  }

  /** A buy adds `q` units and `q * p` of cost to the position in `sym`. */
  lemma BuyPosition(h: seq<Lot>, sym: string, q: real, p: real)
    requires CanMerge(h, sym, q)
    ensures Held(Buy(h, sym, q, p), sym) == Held(h, sym) + q
    ensures CostOf(Buy(h, sym, q, p), sym) == CostOf(h, sym) + q * p
  {
    var r := Buy(h, sym, q, p);
    var i := FindLot(h, sym);
    if i >= 0 {
      FindLotAt(r, sym, i);
      MergeCost(h[i], q, p);
    } else {
      FindLotAt(r, sym, |h|);
    }
  }

  /** A buy leaves the lot of every other symbol as it was. */
  lemma BuyKeepsOthers(h: seq<Lot>, sym: string, q: real, p: real, s: string)
    requires CanMerge(h, sym, q) && s != sym
    ensures Position(Buy(h, sym, q, p), s) == Position(h, s)
  {
    FindLotOther(h, Buy(h, sym, q, p), s);
  }

  /** A buy with a positive quantity and a non-negative price keeps the lot-list invariant. */
  lemma BuyKeepsWellFormed(h: seq<Lot>, sym: string, q: real, p: real)
    requires WellFormed(h) && q > 0.0 && p >= 0.0
    ensures CanMerge(h, sym, q) && WellFormed(Buy(h, sym, q, p))
  {
    var i := FindLot(h, sym);
    if i >= 0 {
      MergeBetween(h[i], q, p);
    }
  }

  /** A sell of `q` is accepted only when a lot of `sym` holds at least `q`. */
  predicate CanSell(h: seq<Lot>, sym: string, q: real) {
    Position(h, sym).Some? && Position(h, sym).value.qty >= q
  }

  /** The gain of selling `q` units at `p` that cost `cost` each. */
  function Gain(cost: real, q: real, p: real): real {
    (p - cost) * q
  }

  /** routes.py:192: the gain booked against the lot's average cost. */
  function SellGain(h: seq<Lot>, sym: string, q: real, p: real): real
    requires CanSell(h, sym, q)
  {
    Gain(Position(h, sym).value.priceBought, q, p)
  }

  /** routes.py:193-194: decrement the lot, dropping it once at most `EPSILON` remains. */
  function Sell(h: seq<Lot>, sym: string, q: real): (r: seq<Lot>)
    requires CanSell(h, sym, q)
    ensures |r| == |h| - (if Held(h, sym) - q <= EPSILON then 1 else 0)
    ensures forall j :: 0 <= j < FindLot(h, sym) ==> r[j] == h[j]
  {
    var i := FindLot(h, sym);
    var rest := h[i].qty - q;
    if rest <= EPSILON then h[..i] + h[i + 1..] else h[i := h[i].(qty := rest)]
  }

  /**
   * After a sell the lot of `sym` is gone exactly when at most `EPSILON` remains;
   * otherwise its quantity dropped by exactly `q` and its average cost is unchanged.
   * Every other symbol's lot is untouched.
   */
  lemma SellPosition(h: seq<Lot>, sym: string, q: real)
    requires UniqueSymbols(h) && CanSell(h, sym, q)
    ensures var lot, r := Position(h, sym).value, Sell(h, sym, q);
      && Position(r, sym) == (if lot.qty - q <= EPSILON then None else Some(lot.(qty := lot.qty - q)))
      && forall s :: s != sym ==> Position(r, s) == Position(h, s)
  {
    var i := FindLot(h, sym);
    var r := Sell(h, sym, q);
    if h[i].qty - q <= EPSILON {
      RemovedGone(h, i);
      forall s | s != sym ensures Position(r, s) == Position(h, s) {
        RemovedOther(h, i, s);
      }
    } else {
      FindLotAt(r, sym, i);
      forall s | s != sym ensures Position(r, s) == Position(h, s) {
        FindLotOther(h, r, s);
      }
    }
  }

  /** With one lot per symbol, dropping the lot at `i` leaves no lot of its symbol. */
  lemma RemovedGone(h: seq<Lot>, i: int)
    requires UniqueSymbols(h) && 0 <= i < |h|
    ensures Position(h[..i] + h[i + 1..], h[i].symbol).None?
  {
    var r := h[..i] + h[i + 1..];
    assert forall j :: 0 <= j < |r| ==> r[j] == (if j < i then h[j] else h[j + 1]);
  }

  /** Dropping the lot at `i` does not change which lot other symbols find. */
  lemma RemovedOther(h: seq<Lot>, i: int, s: string)
    requires 0 <= i < |h| && h[i].symbol != s
    ensures Position(h[..i] + h[i + 1..], s) == Position(h, s)
  {
    var r := h[..i] + h[i + 1..];
    var k := FindLot(h, s);
    if k == -1 {
      assert forall j :: 0 <= j < |r| ==> r[j] == (if j < i then h[j] else h[j + 1]);
    } else if k < i {
      assert r[k] == h[k];
      FindLotAt(r, s, k);
    } else {
      assert r[k - 1] == h[k];
      assert forall j :: 0 <= j < k - 1 ==> r[j] == (if j < i then h[j] else h[j + 1]);
      FindLotAt(r, s, k - 1);
    }
  }

  lemma SellKeepsWellFormed(h: seq<Lot>, sym: string, q: real)
    requires WellFormed(h) && CanSell(h, sym, q)
    ensures WellFormed(Sell(h, sym, q))
  {
    var i := FindLot(h, sym);
    var r := Sell(h, sym, q);
    if h[i].qty - q <= EPSILON {
      assert forall j :: 0 <= j < |r| ==> r[j] == (if j < i then h[j] else h[j + 1]);
    }
  }

  /** Selling the whole position closes it, and no later sell of `sym` is accepted. */
  lemma FullSellCloses(h: seq<Lot>, sym: string)
    requires UniqueSymbols(h) && Position(h, sym).Some?
    ensures CanSell(h, sym, Held(h, sym))
    ensures forall q :: !CanSell(Sell(h, sym, Held(h, sym)), sym, q)
  {
    SellPosition(h, sym, Held(h, sym));
  }

  // ----- sequences of trades in one symbol -----

  /** One execution: a quantity at a price. */
  datatype Fill = Fill(qty: real, price: real)

  predicate ValidFills(fs: seq<Fill>) {
    forall i :: 0 <= i < |fs| ==> fs[i].qty > 0.0 && fs[i].price >= 0.0
  }

  /** The sum of the quantities of the fills. */
  function TotalQty(fs: seq<Fill>): real {
    if fs == [] then 0.0 else fs[0].qty + TotalQty(fs[1..])
  }

  /** A non-empty run of valid fills has a positive total quantity. */
  lemma {:induction false} TotalQtyPositive(fs: seq<Fill>)
    requires ValidFills(fs) && fs != []
    ensures TotalQty(fs) > 0.0
  {
    if fs[1..] != [] {
      TotalQtyPositive(fs[1..]);
    }
  }

  /** The sum of quantity times price over the fills. */
  function TotalCost(fs: seq<Fill>): real {
    if fs == [] then 0.0 else fs[0].qty * fs[0].price + TotalCost(fs[1..])
  }

  /** The lots after buying every fill of `fs` in `sym`, in order. */
  function BuyAll(h: seq<Lot>, sym: string, fs: seq<Fill>): (r: seq<Lot>)
    requires WellFormed(h) && ValidFills(fs)
    ensures WellFormed(r)
    decreases |fs|
  {
    if fs == [] then h
    else
      BuyKeepsWellFormed(h, sym, fs[0].qty, fs[0].price);
      BuyAll(Buy(h, sym, fs[0].qty, fs[0].price), sym, fs[1..])
  }

  /** The position in `sym` after a buy of `q` at `p`: merged into the lot, or a new lot. */
  function BuyPos(pos: Option<Lot>, sym: string, q: real, p: real): Option<Lot>
    requires pos.Some? ==> pos.value.qty + q != 0.0
  {
    match pos
    case Some(lot) => Some(Merge(lot, q, p))
    case None => Some(Lot(sym, q, p))
  }

  /** A buy changes the position in `sym` as `BuyPos` says. */
  lemma BuyPositionIs(h: seq<Lot>, sym: string, q: real, p: real)
    requires CanMerge(h, sym, q)
    ensures Position(Buy(h, sym, q, p), sym) == BuyPos(Position(h, sym), sym, q, p)
  {
    var i := FindLot(h, sym);
    if i >= 0 {
      FindLotAt(Buy(h, sym, q, p), sym, i);
    } else {
      FindLotAt(Buy(h, sym, q, p), sym, |h|);
    }
  }

  /** A position with a positive quantity, if any. */
  predicate OpenOrNone(pos: Option<Lot>) {
    pos.Some? ==> pos.value.qty > 0.0
  }

  /** The position in `sym` after every fill of `fs` is bought, in order. */
  function BuyAllPos(pos: Option<Lot>, sym: string, fs: seq<Fill>): (r: Option<Lot>)
    requires OpenOrNone(pos) && ValidFills(fs)
    ensures OpenOrNone(r)
    decreases |fs|
  {
    if fs == [] then pos
    else BuyAllPos(BuyPos(pos, sym, fs[0].qty, fs[0].price), sym, fs[1..])
  }

  /** A run of buys changes the position in `sym` as `BuyAllPos` says. */
  lemma {:induction false} BuyAllPosition(h: seq<Lot>, sym: string, fs: seq<Fill>)
    requires WellFormed(h) && ValidFills(fs)
    ensures OpenOrNone(Position(h, sym))
    ensures Position(BuyAll(h, sym, fs), sym) == BuyAllPos(Position(h, sym), sym, fs)
    decreases |fs|
  {
    if fs != [] {
      var q, p, rest := fs[0].qty, fs[0].price, fs[1..];
      BuyKeepsWellFormed(h, sym, q, p);
      BuyPositionIs(h, sym, q, p);
      BuyAllPosition(Buy(h, sym, q, p), sym, rest);
    }
  }

  /** One buy adds `q` to the quantity and `q * p` to the cost of a position. */
  lemma BuyPosStep(pos: Option<Lot>, sym: string, q: real, p: real)
    requires OpenOrNone(pos) && q > 0.0
    ensures QtyOf(BuyPos(pos, sym, q, p)) == QtyOf(pos) + q
    ensures CostAt(BuyPos(pos, sym, q, p)) == CostAt(pos) + q * p
  {
    if pos.Some? {
      MergeCost(pos.value, q, p);
    }
  }

  /** Buying a run of fills into a position adds their total quantity. */
  lemma {:induction false} PosQty(pos: Option<Lot>, sym: string, fs: seq<Fill>)
    requires OpenOrNone(pos) && ValidFills(fs)
    ensures QtyOf(BuyAllPos(pos, sym, fs)) == QtyOf(pos) + TotalQty(fs)
    decreases |fs|
  {
    if fs != [] {
      BuyPosStep(pos, sym, fs[0].qty, fs[0].price);
      PosQty(BuyPos(pos, sym, fs[0].qty, fs[0].price), sym, fs[1..]);
    }
  }

  /** Buying a run of fills into a position adds their total cost. */
  lemma {:induction false} PosCost(pos: Option<Lot>, sym: string, fs: seq<Fill>)
    requires OpenOrNone(pos) && ValidFills(fs)
    ensures CostAt(BuyAllPos(pos, sym, fs)) == CostAt(pos) + TotalCost(fs)
    decreases |fs|
  {
    if fs != [] {
      BuyPosStep(pos, sym, fs[0].qty, fs[0].price);
      PosCost(BuyPos(pos, sym, fs[0].qty, fs[0].price), sym, fs[1..]);
    }
  }

  /** A run of buys adds its total quantity and its total cost to the position. */
  lemma BuyAllTotals(h: seq<Lot>, sym: string, fs: seq<Fill>)
    requires WellFormed(h) && ValidFills(fs)
    ensures Held(BuyAll(h, sym, fs), sym) == Held(h, sym) + TotalQty(fs)
    ensures CostOf(BuyAll(h, sym, fs), sym) == CostOf(h, sym) + TotalCost(fs)
  {
    BuyAllPosition(h, sym, fs);
    PosQty(Position(h, sym), sym, fs);
    PosCost(Position(h, sym), sym, fs);
  }

  /**
   * Starting from no position, the lot left by a run of buys has the total quantity
   * and the quantity-weighted mean of the buy prices as its average cost.
   */
  lemma WeightedAverage(h: seq<Lot>, sym: string, fs: seq<Fill>)
    requires WellFormed(h) && ValidFills(fs) && fs != [] && Position(h, sym).None?
    ensures TotalQty(fs) > 0.0
    ensures Position(BuyAll(h, sym, fs), sym) == Some(Lot(sym, TotalQty(fs), TotalCost(fs) / TotalQty(fs)))
  {
    TotalQtyPositive(fs);
    BuyAllTotals(h, sym, fs);
    AverageFromTotals(BuyAll(h, sym, fs), sym, TotalQty(fs), TotalCost(fs));
  }

  /** A position holding `n > 0` units at total cost `c` has average cost `c / n`. */
  lemma AverageFromTotals(h: seq<Lot>, sym: string, n: real, c: real)
    requires n > 0.0 && Held(h, sym) == n && CostOf(h, sym) == c
    ensures Position(h, sym) == Some(Lot(sym, n, c / n))
  {
    var lot := Position(h, sym).value;
    QuotientUnique(lot.priceBought, lot.qty, c);
  }

  /** `x` is the quotient `c / n` when `n * x == c`. */
  lemma QuotientUnique(x: real, n: real, c: real)
    requires n != 0.0 && n * x == c
    ensures x == c / n
  {
  }

  /** Two buys of the same symbol give the same lots in either order. */
  lemma BuyCommutes(h: seq<Lot>, sym: string, a: Fill, b: Fill)
    requires WellFormed(h) && ValidFills([a, b])
    ensures CanMerge(h, sym, a.qty) && CanMerge(h, sym, b.qty)
    ensures CanMerge(Buy(h, sym, a.qty, a.price), sym, b.qty)
    ensures CanMerge(Buy(h, sym, b.qty, b.price), sym, a.qty)
    ensures Buy(Buy(h, sym, a.qty, a.price), sym, b.qty, b.price)
         == Buy(Buy(h, sym, b.qty, b.price), sym, a.qty, a.price)
  {
    assert a == [a, b][0] && b == [a, b][1];
    BuyKeepsWellFormed(h, sym, a.qty, a.price);
    BuyKeepsWellFormed(h, sym, b.qty, b.price);
    BuyKeepsWellFormed(Buy(h, sym, a.qty, a.price), sym, b.qty, b.price);
    BuyKeepsWellFormed(Buy(h, sym, b.qty, b.price), sym, a.qty, a.price);
    var i := FindLot(h, sym);
    if i >= 0 {
      var ma, mb := Merge(h[i], a.qty, a.price), Merge(h[i], b.qty, b.price);
      FindLotAt(h[i := ma], sym, i);
      FindLotAt(h[i := mb], sym, i);
      MergeCommutes(h[i], a.qty, a.price, b.qty, b.price);
    } else {
      var la, lb := Lot(sym, a.qty, a.price), Lot(sym, b.qty, b.price);
      FindLotAt(h + [la], sym, |h|);
      FindLotAt(h + [lb], sym, |h|);
      MergeFresh(sym, a.qty, a.price, b.qty, b.price);
    }
  }

  /** Every sell of `fs` in turn is accepted. */
  predicate SellsFit(h: seq<Lot>, sym: string, fs: seq<Fill>)
    decreases |fs|
  {
    fs == [] || (CanSell(h, sym, fs[0].qty) && SellsFit(Sell(h, sym, fs[0].qty), sym, fs[1..]))
  }

  /** The gains booked by the sells of `fs`, in order. */
  function SellAllGain(h: seq<Lot>, sym: string, fs: seq<Fill>): real
    requires SellsFit(h, sym, fs)
    decreases |fs|
  {
    if fs == [] then 0.0
    else SellGain(h, sym, fs[0].qty, fs[0].price) + SellAllGain(Sell(h, sym, fs[0].qty), sym, fs[1..])
  }

  /** The gains of selling each fill of `fs` against a fixed average cost `c`. */
  function GainsAt(c: real, fs: seq<Fill>): real {
    if fs == [] then 0.0 else Gain(c, fs[0].qty, fs[0].price) + GainsAt(c, fs[1..])
  }

  /** Against a fixed cost, the gains are the proceeds minus the cost of the units sold. */
  lemma {:induction false} GainsAtTotal(c: real, fs: seq<Fill>)
    ensures GainsAt(c, fs) == TotalCost(fs) - c * TotalQty(fs)
  {
    if fs != [] {
      GainsAtTotal(c, fs[1..]);
      GainSplit(c, fs[0].qty, fs[0].price, TotalCost(fs[1..]), TotalQty(fs[1..]));
    }
  }

  lemma GainSplit(c: real, q: real, p: real, t: real, n: real)
    ensures Gain(c, q, p) + (t - c * n) == (q * p + t) - c * (q + n)
  {
    assert c * (q + n) == c * q + c * n;
  }

  /** Accepted sells never change the lot's average cost, so each books its gain against the same cost. */
  lemma {:induction false} SellAllGainAtCost(h: seq<Lot>, sym: string, fs: seq<Fill>)
    requires WellFormed(h) && fs != [] && SellsFit(h, sym, fs)
    ensures SellAllGain(h, sym, fs) == GainsAt(Position(h, sym).value.priceBought, fs)
    decreases |fs|
  {
    var r, rest, c := Sell(h, sym, fs[0].qty), fs[1..], Position(h, sym).value.priceBought;
    if rest != [] {
      SellKeepsCost(h, sym, fs);
      SellAllGainAtCost(r, sym, rest);
    }
    assert SellAllGain(r, sym, rest) == GainsAt(c, rest);
    assert SellAllGain(h, sym, fs) == Gain(c, fs[0].qty, fs[0].price) + SellAllGain(r, sym, rest);
  }

  /** After the first of several accepted sells, the rest still fit and the average cost is unchanged. */
  lemma SellKeepsCost(h: seq<Lot>, sym: string, fs: seq<Fill>)
    requires WellFormed(h) && |fs| > 1 && SellsFit(h, sym, fs)
    ensures var r := Sell(h, sym, fs[0].qty);
      && WellFormed(r) && SellsFit(r, sym, fs[1..])
      && Position(r, sym).Some? && Position(r, sym).value.priceBought == Position(h, sym).value.priceBought
  {
    SellPosition(h, sym, fs[0].qty);
    SellKeepsWellFormed(h, sym, fs[0].qty);
  }

  /**
   * Round trip: buying `buys` into an empty position and then closing it with `sells`
   * of the same total quantity books, in total, the sale proceeds minus the purchase cost.
   */
  lemma RoundTrip(h: seq<Lot>, sym: string, buys: seq<Fill>, sells: seq<Fill>)
    requires WellFormed(h) && Position(h, sym).None?
    requires ValidFills(buys) && sells != []
    requires SellsFit(BuyAll(h, sym, buys), sym, sells)
    requires TotalQty(sells) == TotalQty(buys)
    ensures SellAllGain(BuyAll(h, sym, buys), sym, sells) == TotalCost(sells) - TotalCost(buys)
  {
    BuyAllTotals(h, sym, buys);
    CloseOut(BuyAll(h, sym, buys), sym, sells, TotalQty(buys), TotalCost(buys));
  }

  /** Sells of exactly the `n` units held, at total cost `c`, book the proceeds minus `c`. */
  lemma CloseOut(g: seq<Lot>, sym: string, sells: seq<Fill>, n: real, c: real)
    requires WellFormed(g) && sells != [] && SellsFit(g, sym, sells)
    requires Held(g, sym) == n && CostOf(g, sym) == c && TotalQty(sells) == n
    ensures SellAllGain(g, sym, sells) == TotalCost(sells) - c
  {
    assert CanSell(g, sym, sells[0].qty);
    AverageTimesHeld(g, sym, n, c);
    SellAllGainAtCost(g, sym, sells);
    GainsAtClose(Position(g, sym).value.priceBought, sells, n, c);
  }

  /** Selling exactly `n` units held at average `avg`, of cost `avg * n`, gains the proceeds minus that cost. */
  lemma GainsAtClose(avg: real, fs: seq<Fill>, n: real, c: real)
    requires avg * n == c && TotalQty(fs) == n
    ensures GainsAt(avg, fs) == TotalCost(fs) - c
  {
    GainsAtTotal(avg, fs);
  }

  /** The average cost of an open position times its quantity is its cost. */
  lemma AverageTimesHeld(h: seq<Lot>, sym: string, n: real, c: real)
    requires Position(h, sym).Some? && Held(h, sym) == n && CostOf(h, sym) == c
    ensures Position(h, sym).value.priceBought * n == c
  {
  }
}
