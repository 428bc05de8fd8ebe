/**
 * The single-user holdings page of main.py (`manage_holdings`, main.py:166-270): the
 * older buy/sell form over one holdings file, with no price check and no history, and
 * the table of the lots at the quoted prices with its totals.
 */
module Legacy {
  import opened Wrappers
  import opened Symbols
  import opened Lots
  import opened Quotes
  import Ledger
  import Valuation

  /** The form's `priceBought`: missing or empty reads as 0, otherwise `float()` parses it or raises. */
  datatype PriceField = Missing | Parsed(value: real) | Unparsable

  /** How a buy/sell request ended. The message it builds is never shown: the page redirects. */
  datatype Outcome =
    | Ignored     // not logged in, or an action other than buy and sell
    | Crashed     // an exception escapes the route: nothing is saved
    | Bought
    | SoldAll     // main.py:210-212
    | SoldPart    // main.py:213-215
    | OwnTooFew   // main.py:208-209
    | NotOwned    // main.py:216-217

  /** A lot of any symbol but `sym`. */
  function OtherThan(sym: string): Lot -> bool {
    (lot: Lot) => lot.symbol != sym
  }

  /** main.py:211: the lots of every symbol but `sym`, in order. */
  function RemoveSymbol(h: seq<Lot>, sym: string): (r: seq<Lot>)
    ensures forall i :: 0 <= i < |r| ==> r[i].symbol != sym
    ensures |r| <= |h|
  {
    Keep(h, OtherThan(sym))
  }

  /**
   * Removing the lots of `sym` removes nothing else and keeps the order: there is one
   * entry per other lot, and the other lot at `i` lands after the other lots before it.
   */
  lemma RemoveSymbolKeeps(h: seq<Lot>, sym: string)
    ensures |RemoveSymbol(h, sym)| == Count(h, OtherThan(sym))
    ensures forall i :: 0 <= i < |h| && h[i].symbol != sym ==>
      Count(h[..i], OtherThan(sym)) < |RemoveSymbol(h, sym)|
      && RemoveSymbol(h, sym)[Count(h[..i], OtherThan(sym))] == h[i]
  {
    KeepIndex(h, OtherThan(sym));
  }

  /** A list without `sym` is left as it is. */
  lemma {:induction false} RemoveAbsent(h: seq<Lot>, sym: string)
    requires forall i :: 0 <= i < |h| ==> h[i].symbol != sym
    ensures RemoveSymbol(h, sym) == h
  {
    if h != [] {
      RemoveAbsent(h[..|h| - 1], sym);
    }
  }

  /** main.py:214: the first lot of `sym` gives up `q` units. */
  function Decrement(h: seq<Lot>, sym: string, q: real): (r: seq<Lot>)
    requires Position(h, sym).Some?
    ensures |r| == |h|
    ensures var i := FindLot(h, sym);
      && r[i] == h[i].(qty := h[i].qty - q)
      && forall j :: 0 <= j < |h| && j != i ==> r[j] == h[j]
  {
    var i := FindLot(h, sym);
    h[i := h[i].(qty := h[i].qty - q)]
  }

  class Tracker {
    var holdings: seq<Lot>

    constructor (h: seq<Lot>)
      ensures holdings == h
    {
      holdings := h;
    }

    /**
     * main.py:188-220. `symbol` is the form's field (`None` when missing), `qty` the
     * result of `float()` on the quantity (`None` when it raises); `authenticated` is
     * the login cookie. Nothing checks the sign of the quantity or the price.
     */
    method ManageTrade(authenticated: bool, action: Ledger.Action, symbol: Option<string>,
                       qty: Option<real>, price: PriceField) returns (outcome: Outcome)
      modifies this
      ensures !authenticated || action == Ledger.OtherAction ==> outcome == Ignored
      ensures authenticated && action != Ledger.OtherAction && (symbol.None? || qty.None? || price.Unparsable?) ==>
        outcome == Crashed
      ensures authenticated && action == Ledger.BuyAction && symbol.Some? && qty.Some? && !price.Unparsable? ==>
        var sym, q, p := Upper(symbol.value), qty.value, if price.Parsed? then price.value else 0.0;
        && (outcome == Crashed <==> !CanMerge(old(holdings), sym, q))
        && (outcome == Bought <==> CanMerge(old(holdings), sym, q))
        && (outcome == Bought ==> holdings == Buy(old(holdings), sym, q, p))
      ensures authenticated && action == Ledger.SellAction && symbol.Some? && qty.Some? && !price.Unparsable? ==>
        var sym, q := Upper(symbol.value), qty.value;
        && (outcome == NotOwned <==> Position(old(holdings), sym).None?)
        && (outcome == OwnTooFew <==> Position(old(holdings), sym).Some? && q > Held(old(holdings), sym))
        && (outcome == SoldAll <==> Position(old(holdings), sym).Some? && q == Held(old(holdings), sym))
        && (outcome == SoldPart <==> Position(old(holdings), sym).Some? && q < Held(old(holdings), sym))
        && (outcome == SoldAll ==> holdings == RemoveSymbol(old(holdings), sym))
        && (outcome == SoldPart ==> holdings == Decrement(old(holdings), sym, q))
      ensures outcome !in {Bought, SoldAll, SoldPart} ==> holdings == old(holdings)
    {
      if !authenticated || action == Ledger.OtherAction {
        return Ignored;
      }
      if symbol.None? || qty.None? || price.Unparsable? {
        return Crashed;
      }
      var sym := Upper(symbol.value);
      var q := qty.value;
      var p := if price.Parsed? then price.value else 0.0;
      var idx := FindLot(holdings, sym);
      if action == Ledger.BuyAction {
        if idx >= 0 {
          var newQty := holdings[idx].qty + q;
          if newQty == 0.0 {
            return Crashed;
          }
          var avg := (holdings[idx].qty * holdings[idx].priceBought + q * p) / newQty;
          assert Lot(sym, newQty, avg) == Merge(holdings[idx], q, p);
          holdings := holdings[idx := Lot(sym, newQty, avg)];
        } else {
          holdings := holdings + [Lot(sym, q, p)];
        }
        outcome := Bought;
      } else {
        if idx < 0 {
          outcome := NotOwned;
        } else if q > holdings[idx].qty {
          outcome := OwnTooFew;
        } else if q == holdings[idx].qty {
          holdings := RemoveSymbol(holdings, sym);
          outcome := SoldAll;
        } else {
          holdings := holdings[idx := holdings[idx].(qty := holdings[idx].qty - q)];
          outcome := SoldPart;
        }
      }
    }
  }

  // ----- comparison with the trade route -----

  /**
   * With one lot per symbol, selling the whole position leaves the same lots as the
   * trade route's sell: dropping every lot of the symbol drops just that one.
   */
  lemma FullSellAgrees(h: seq<Lot>, sym: string)
    requires UniqueSymbols(h) && Position(h, sym).Some?
    ensures CanSell(h, sym, Held(h, sym))
    ensures RemoveSymbol(h, sym) == Sell(h, sym, Held(h, sym))
  {
    var i := FindLot(h, sym);
    RemoveAround(h, sym, i);
  }

  lemma {:induction false} RemoveAround(h: seq<Lot>, sym: string, i: int)
    requires 0 <= i < |h| && h[i].symbol == sym
    requires forall j :: 0 <= j < |h| && j != i ==> h[j].symbol != sym
    ensures RemoveSymbol(h, sym) == h[..i] + h[i + 1..]
  {
    var init := h[..|h| - 1];
    if i == |h| - 1 {
      RemoveAbsent(init, sym);
    } else {
      RemoveAround(init, sym, i);
      assert init[..i] + init[i + 1..] + [h[|h| - 1]] == h[..i] + h[i + 1..];
    }
  }

  /** A sell that leaves more than `EPSILON` agrees with the trade route's sell. */
  lemma PartialSellAgrees(h: seq<Lot>, sym: string, q: real)
    requires Position(h, sym).Some? && Held(h, sym) - q > EPSILON
    ensures CanSell(h, sym, q) && Decrement(h, sym, q) == Sell(h, sym, q)
  {
  }

  /**
   * A sell that leaves a positive remainder of at most `EPSILON` differs: the trade route
   * drops the lot, this page keeps it with the remainder.
   */
  lemma DustSellDiffers(h: seq<Lot>, sym: string, q: real)
    requires Position(h, sym).Some? && 0.0 < Held(h, sym) - q <= EPSILON
    ensures CanSell(h, sym, q)
    ensures |Sell(h, sym, q)| == |h| - 1 && |Decrement(h, sym, q)| == |h|
    ensures Position(Decrement(h, sym, q), sym) == Some(Position(h, sym).value.(qty := Held(h, sym) - q))
  {
    var i := FindLot(h, sym);
    FindLotAt(Decrement(h, sym, q), sym, i);
  }

  // ----- the holdings table -----

  /**
   * main.py:222-236: the page's own price lookup, `regularMarketPrice` of the first chart
   * result, `None` on every failure. Unlike the other lookups a price of 0 counts.
   */
  function PagePrice(resp: Response): (r: Option<real>)
    ensures r.Some? ==> FirstResult(resp).Some? && FirstResult(resp).value.meta.Some?
    ensures r.Some? ==> r == FirstResult(resp).value.meta.value.regularMarketPrice
  {
    match FirstResult(resp)
    case None => None
    case Some(res) =>
      match res.meta
      case None => None
      case Some(m) => m.regularMarketPrice
  }

  /** The prices the page finds for the symbols of `h`, as a price map without previous closes. */
  function PageQuotes(h: seq<Lot>, reply: string -> Response): map<string, PriceData> {
    map s | s in SymbolsOf(h) && PagePrice(reply(s)).Some? :: PriceData(PagePrice(reply(s)).value, None)
  }

  /** One row of the table: 0 in each number column and no price when unpriced. */
  datatype PageRow = PageRow(lot: Lot, current: Option<real>, unrealised: real, value: real, pctChange: real)

  /** main.py:244-252: the row of one lot at its price, if any; the percentage divides by the lot's cost. */
  function PageRowOf(lot: Lot, current: Option<real>): PageRow
    requires current.Some? ==> lot.priceBought != 0.0
  {
    match current
    case None => PageRow(lot, None, 0.0, 0.0, 0.0)
    case Some(c) =>
      PageRow(lot, Some(c), (c - lot.priceBought) * lot.qty, c * lot.qty, (c - lot.priceBought) / lot.priceBought * 100.0)
  }

  /** The price of a lot's symbol in a price map. */
  function PriceIn(lot: Lot, pm: map<string, PriceData>): Option<real> {
    if lot.symbol in pm then Some(pm[lot.symbol].price) else None
  }

  /** The rows of the table, in list order. */
  function PageRows(h: seq<Lot>, pm: map<string, PriceData>): (r: seq<PageRow>)
    requires Valuation.NonZeroBases(h, pm)
    ensures |r| == |h| && forall i :: 0 <= i < |h| ==> r[i] == PageRowOf(h[i], PriceIn(h[i], pm))
  {
    if h == [] then [] else PageRows(h[..|h| - 1], pm) + [PageRowOf(h[|h| - 1], PriceIn(h[|h| - 1], pm))]
  }

  /** What the table loop has built: the rows and the three running totals. */
  datatype PageAcc = PageAcc(rows: seq<PageRow>, unrealised: real, value: real, cost: real)

  /** The table after the lots `h`: its totals are the dashboard's value, cost and unrealised totals. */
  function PageOf(h: seq<Lot>, pm: map<string, PriceData>): PageAcc
    requires Valuation.NonZeroBases(h, pm)
  {
    PageAcc(PageRows(h, pm), Valuation.Total(h, pm, Valuation.Unrealised), Valuation.Total(h, pm, Valuation.Value),
            Valuation.Total(h, pm, Valuation.Cost))
  }

  /** The three totals and the total percentage of main.py:238-270. */
  datatype PageTotals = PageTotals(unrealised: real, value: real, cost: real, pct: real)

  /** main.py:270: the total percentage, 0 unless the cost is positive. */
  function TotalsOfPage(acc: PageAcc): PageTotals {
    PageTotals(acc.unrealised, acc.value, acc.cost, Valuation.Pct(acc.value - acc.cost, acc.cost))
  }

  /** The table extended by one lot at its price, if any. */
  function Extend(acc: PageAcc, lot: Lot, current: Option<real>): PageAcc
    requires current.Some? ==> lot.priceBought != 0.0
  {
    match current
    case None => acc.(rows := acc.rows + [PageRowOf(lot, None)])
    case Some(c) => PageAcc(acc.rows + [PageRowOf(lot, current)], acc.unrealised + (c * lot.qty - lot.priceBought * lot.qty),
                            acc.value + c * lot.qty, acc.cost + lot.priceBought * lot.qty)
  }

  /**
   * main.py:244-256: the loop body for one lot at the price the page found for it;
   * a priced lot bought at 0 raises `ZeroDivisionError` at main.py:252.
   */
  method VisitLot(lot: Lot, current: Option<real>, acc: PageAcc) returns (r: Result<PageAcc, Valuation.DashboardError>)
    ensures r.Failure? <==> current.Some? && lot.priceBought == 0.0
    ensures r.Success? ==> r.value == Extend(acc, lot, current)
  {
    if current.None? {
      r := Success(acc.(rows := acc.rows + [PageRow(lot, None, 0.0, 0.0, 0.0)]));
      return;
    }
    var c := current.value;
    var unrealised := (c - lot.priceBought) * lot.qty;
    var value := c * lot.qty;
    assert unrealised == c * lot.qty - lot.priceBought * lot.qty;
    if lot.priceBought == 0.0 {
      return Failure(Valuation.ZeroPriceBought(lot.symbol));
    }
    var pct := (c - lot.priceBought) / lot.priceBought * 100.0;
    assert PageRow(lot, Some(c), unrealised, value, pct) == PageRowOf(lot, current);
    r := Success(PageAcc(acc.rows + [PageRow(lot, Some(c), unrealised, value, pct)], acc.unrealised + unrealised,
                         acc.value + value, acc.cost + lot.priceBought * lot.qty));
  }

  /** Extending the lots by one extends the table by that lot's row and part of each total. */
  lemma PageStep(h: seq<Lot>, pm: map<string, PriceData>, i: int)
    requires 0 <= i < |h| && Valuation.NonZeroBases(h[..i], pm)
    requires h[i].symbol in pm ==> h[i].priceBought != 0.0
    ensures Valuation.NonZeroBases(h[..i + 1], pm)
    ensures PageOf(h[..i + 1], pm) == Extend(PageOf(h[..i], pm), h[i], PriceIn(h[i], pm))
  {
    assert h[..i + 1][..i] == h[..i];
    assert forall j :: 0 <= j < i ==> h[..i][j] == h[..i + 1][j];
    Valuation.TotalStep(h, pm, Valuation.Unrealised, i);
    Valuation.TotalStep(h, pm, Valuation.Value, i);
    Valuation.TotalStep(h, pm, Valuation.Cost, i);
  }

  /**
   * main.py:243: the price the page finds for each lot. The page asks once per lot, so
   * request `i` is the one for lot `i`, and two lots of one symbol may get different replies.
   */
  function LotPrices(h: seq<Lot>, reply: nat -> Response): (r: seq<Option<real>>)
    ensures |r| == |h| && forall i :: 0 <= i < |h| ==> r[i] == PagePrice(reply(i))
  {
    seq(|h|, i requires 0 <= i => PagePrice(reply(i)))
  }

  /** No lot with a price was bought at 0. */
  predicate PricedBases(h: seq<Lot>, prices: seq<Option<real>>)
    requires |prices| == |h|
  {
    forall i :: 0 <= i < |h| && prices[i].Some? ==> h[i].priceBought != 0.0
  }

  /** The table after the lots `h`, lot `i` at the price `prices[i]`. */
  function PageAt(h: seq<Lot>, prices: seq<Option<real>>): PageAcc
    requires |prices| == |h| && PricedBases(h, prices)
  {
    if h == [] then PageAcc([], 0.0, 0.0, 0.0)
    else Extend(PageAt(h[..|h| - 1], prices[..|h| - 1]), h[|h| - 1], prices[|h| - 1])
  }

  /**
   * When every lot is priced at its symbol's entry in `pm`, the table is the one over `pm`:
   * the rows are `PageRows` and the totals are the dashboard's totals over `pm`.
   */
  lemma {:induction false} PageAtMap(h: seq<Lot>, pm: map<string, PriceData>, prices: seq<Option<real>>)
    requires |prices| == |h| && forall i :: 0 <= i < |h| ==> prices[i] == PriceIn(h[i], pm)
    ensures PricedBases(h, prices) <==> Valuation.NonZeroBases(h, pm)
    ensures Valuation.NonZeroBases(h, pm) ==> PageAt(h, prices) == PageOf(h, pm)
  {
    assert forall i :: 0 <= i < |h| ==> (prices[i].Some? <==> h[i].symbol in pm);
    if h != [] && Valuation.NonZeroBases(h, pm) {
      var n := |h| - 1;
      assert h[..n] == h[..n + 1][..n];
      PageAtMap(h[..n], pm, prices[..n]);
      PageStep(h, pm, n);
      assert h[..n + 1] == h;
    }
  }

  /**
   * With one reply per symbol, every lot of a symbol gets the same price and the table is the
   * one over the price map of those replies.
   */
  lemma PageUniform(h: seq<Lot>, reply: nat -> Response, replyOf: string -> Response)
    requires forall i :: 0 <= i < |h| ==> reply(i) == replyOf(h[i].symbol)
    ensures var prices, pm := LotPrices(h, reply), PageQuotes(h, replyOf);
      && (PricedBases(h, prices) <==> Valuation.NonZeroBases(h, pm))
      && (Valuation.NonZeroBases(h, pm) ==> PageAt(h, prices) == PageOf(h, pm))
  {
    var prices, pm := LotPrices(h, reply), PageQuotes(h, replyOf);
    assert forall i :: 0 <= i < |h| ==> h[i].symbol in SymbolsOf(h);
    PageAtMap(h, pm, prices);
  }

  /** Two lots of one symbol can be shown at different prices when their replies differ. */
  lemma LotsPricedApart(lot: Lot, p1: real, p2: real)
    requires lot.priceBought != 0.0 && p1 != p2
    ensures var page := PageAt([lot, lot], [Some(p1), Some(p2)]);
      |page.rows| == 2 && page.rows[0].current == Some(p1) && page.rows[1].current == Some(p2)
  {
    assert [lot, lot][..1] == [lot] && [Some(p1), Some(p2)][..1] == [Some(p1)];
    assert [lot][..0] == [] && [Some(p1)][..0] == [];
    var first := PageAt([lot], [Some(p1)]);
    assert first == Extend(PageAt([], []), lot, Some(p1));
    assert first.rows == [PageRowOf(lot, Some(p1))];
    assert PageAt([lot, lot], [Some(p1), Some(p2)]).rows == first.rows + [PageRowOf(lot, Some(p2))];
  }

  /**
   * main.py:238-270: the table and its totals, lot `i` priced by reply `i`. Unpriced lots
   * add nothing; a priced lot bought at 0 makes the page fail.
   */
  method HoldingsPage(h: seq<Lot>, reply: nat -> Response)
    returns (r: Result<(seq<PageRow>, PageTotals), Valuation.DashboardError>)
    ensures var prices := LotPrices(h, reply);
      && (r.Failure? <==> !PricedBases(h, prices))
      && (r.Success? ==> r.value == (PageAt(h, prices).rows, TotalsOfPage(PageAt(h, prices))))
  {
    ghost var prices := LotPrices(h, reply);
    var acc := PageAcc([], 0.0, 0.0, 0.0);
    for i := 0 to |h|
      invariant PricedBases(h[..i], prices[..i])
      invariant acc == PageAt(h[..i], prices[..i])
    {
      var current := PagePrice(reply(i));
      var step := VisitLot(h[i], current, acc);
      if step.Failure? {
        assert prices[i].Some? && h[i].priceBought == 0.0;
        return Failure(step.error);
      }
      assert h[..i + 1][..i] == h[..i] && prices[..i + 1][..i] == prices[..i];
      acc := step.value;
    }
    assert h[..|h|] == h && prices[..|h|] == prices;
    r := Success((acc.rows, TotalsOfPage(acc)));
  }
}
