/**
 * A user's portfolio as routes.py keeps it: the open lots and the append-only trade
 * history, updated in place by the `/trade` route and cleared by `/wipe_portfolio`.
 * Loading and saving the two JSON files is not modelled: the fields are their contents.
 */
module Ledger {
  import opened Wrappers
  import opened Symbols
  import opened Lots
  import Quotes

  /** The form's `action` field: `'buy'`, `'sell'`, or anything else. */
  datatype Action = BuyAction | SellAction | OtherAction

  /** How a trade request ended; only `Bought` and `Sold` change the portfolio. */
  datatype Outcome =
    | InvalidNumbers          // routes.py:161-167: unparsable, qty <= 0 or price < 0
    | VerificationFailed      // routes.py:174-178: new symbol and no quote
    | Bought
    | Sold(gain: real)
    | InsufficientQuantity    // routes.py:198-199
    | NoAction                // neither buy nor sell: the files are saved unchanged
    | DivisionByZero          // routes.py:183 when the merged quantity is zero

  /** routes.py:161-164: both numbers parsed, the quantity positive and the price not negative. */
  predicate ValidNumbers(qty: Option<real>, price: Option<real>) {
    qty.Some? && price.Some? && qty.value > 0.0 && price.value >= 0.0
  }

  class Portfolio {
    var holdings: seq<Lot>
    var history: seq<Txn>

    /** What every accepted trade keeps: one positive lot per symbol, gains only on sells. */
    ghost predicate Valid()
      reads this
    {
      WellFormed(holdings) && HistoryWellFormed(history)
    }

    constructor ()
      ensures holdings == [] && history == [] && Valid()
    {
      holdings := [];
      history := [];
    }

    /**
     * routes.py:154-203. `rawSymbol` is the form's symbol, normalised before use;
     * `qty` and `price` are the parsed numbers, `None` when `float()` raises; `reply`
     * is what the price check of a new symbol would receive; `date` is the time stamp.
     */
    method Trade(action: Action, rawSymbol: string, qty: Option<real>, price: Option<real>,
                 reply: Quotes.Response, date: string) returns (outcome: Outcome)
      modifies this
      ensures var sym := NormalizeSymbol(rawSymbol);
        && (outcome == InvalidNumbers <==> !ValidNumbers(qty, price))
        && (outcome == VerificationFailed <==>
              ValidNumbers(qty, price) && action == BuyAction && Position(old(holdings), sym).None?
              && Quotes.FetchStockPrice(sym, reply).data.None?)
        && (outcome == Bought ==>
              && ValidNumbers(qty, price) && action == BuyAction && CanMerge(old(holdings), sym, qty.value)
              && holdings == Buy(old(holdings), sym, qty.value, price.value)
              && history == old(history) + [Txn(date, BUY, sym, qty.value, price.value, None)])
        && (outcome.Sold? ==>
              && ValidNumbers(qty, price) && action == SellAction && CanSell(old(holdings), sym, qty.value)
              && outcome.gain == SellGain(old(holdings), sym, qty.value, price.value)
              && holdings == Sell(old(holdings), sym, qty.value)
              && history == old(history) + [Txn(date, SELL, sym, qty.value, price.value, Some(outcome.gain))])
        && (outcome == InsufficientQuantity <==>
              ValidNumbers(qty, price) && action == SellAction && !CanSell(old(holdings), sym, qty.value))
        && (outcome == NoAction <==> ValidNumbers(qty, price) && action == OtherAction)
        && (outcome == DivisionByZero <==>
              ValidNumbers(qty, price) && action == BuyAction && !CanMerge(old(holdings), sym, qty.value))
      ensures !outcome.Sold? && outcome != Bought ==> holdings == old(holdings) && history == old(history)
      ensures history[..|old(history)|] == old(history)
      ensures old(Valid()) ==> Valid() && outcome != DivisionByZero
    {
      outcome := Dispatch(action, NormalizeSymbol(rawSymbol), qty, price, reply, date);
    }

    /** routes.py:160-203: the trade once its symbol is normalised, as `sym`. */
    method Dispatch(action: Action, sym: string, qty: Option<real>, price: Option<real>,
                 reply: Quotes.Response, date: string) returns (outcome: Outcome)
      modifies this
      ensures
        && (outcome == InvalidNumbers <==> !ValidNumbers(qty, price))
        && (outcome == VerificationFailed <==>
              ValidNumbers(qty, price) && action == BuyAction && Position(old(holdings), sym).None?
              && Quotes.FetchStockPrice(sym, reply).data.None?)
        && (outcome == Bought ==>
              && ValidNumbers(qty, price) && action == BuyAction && CanMerge(old(holdings), sym, qty.value)
              && holdings == Buy(old(holdings), sym, qty.value, price.value)
              && history == old(history) + [Txn(date, BUY, sym, qty.value, price.value, None)])
        && (outcome.Sold? ==>
              && ValidNumbers(qty, price) && action == SellAction && CanSell(old(holdings), sym, qty.value)
              && outcome.gain == SellGain(old(holdings), sym, qty.value, price.value)
              && holdings == Sell(old(holdings), sym, qty.value)
              && history == old(history) + [Txn(date, SELL, sym, qty.value, price.value, Some(outcome.gain))])
        && (outcome == InsufficientQuantity <==>
              ValidNumbers(qty, price) && action == SellAction && !CanSell(old(holdings), sym, qty.value))
        && (outcome == NoAction <==> ValidNumbers(qty, price) && action == OtherAction)
        && (outcome == DivisionByZero <==>
              ValidNumbers(qty, price) && action == BuyAction && !CanMerge(old(holdings), sym, qty.value))
      ensures !outcome.Sold? && outcome != Bought ==> holdings == old(holdings) && history == old(history)
      ensures history[..|old(history)|] == old(history)
      ensures old(Valid()) ==> Valid() && outcome != DivisionByZero
    {
      if !ValidNumbers(qty, price) {
        assert history[..|history|] == history;
        return InvalidNumbers;
      }
      match action {
        case BuyAction => outcome := BuyShares(sym, qty.value, price.value, reply, date);
        case SellAction => outcome := SellShares(sym, qty.value, price.value, date);
        case OtherAction =>
          assert history[..|history|] == history;
          outcome := NoAction;
      }
    }

    /** routes.py:173-188: the buy branch of a trade with valid numbers. */
    method BuyShares(sym: string, q: real, p: real, reply: Quotes.Response, date: string) returns (outcome: Outcome)
      requires q > 0.0 && p >= 0.0
      modifies this
      ensures outcome == Bought || outcome == VerificationFailed || outcome == DivisionByZero
      ensures outcome == VerificationFailed <==>
        Position(old(holdings), sym).None? && Quotes.FetchStockPrice(sym, reply).data.None?
      ensures outcome == DivisionByZero <==> !CanMerge(old(holdings), sym, q)
      ensures outcome == Bought ==>
        && CanMerge(old(holdings), sym, q)
        && holdings == Buy(old(holdings), sym, q, p)
        && history == old(history) + [Txn(date, BUY, sym, q, p, None)]
      ensures outcome != Bought ==> holdings == old(holdings) && history == old(history)
      ensures history[..|old(history)|] == old(history)
      ensures old(Valid()) ==> Valid() && outcome != DivisionByZero
    {
      var idx := FindLot(holdings, sym);
      if idx == -1 && Quotes.FetchStockPrice(sym, reply).data.None? {
        return VerificationFailed;
      }
      if idx >= 0 {
        var lot := holdings[idx];
        var newQty := lot.qty + q;
        if newQty == 0.0 {
          return DivisionByZero;
        }
        var merged := Lot(sym, newQty, (lot.qty * lot.priceBought + q * p) / newQty);
        assert merged == Merge(lot, q, p);
        holdings := holdings[idx := merged];
      } else {
        holdings := holdings + [Lot(sym, q, p)];
      }
      history := history + [Txn(date, BUY, sym, q, p, None)];
      assert history[..|old(history)|] == old(history);
      outcome := Bought;
      if old(Valid()) {
        BuyKeepsWellFormed(old(holdings), sym, q, p);
      }
    }

    /** routes.py:190-199: the sell branch of a trade with valid numbers. */
    method SellShares(sym: string, q: real, p: real, date: string) returns (outcome: Outcome)
      requires q > 0.0 && p >= 0.0
      modifies this
      ensures outcome.Sold? || outcome == InsufficientQuantity
      ensures outcome.Sold? <==> CanSell(old(holdings), sym, q)
      ensures outcome.Sold? ==>
        && outcome.gain == SellGain(old(holdings), sym, q, p)
        && holdings == Sell(old(holdings), sym, q)
        && history == old(history) + [Txn(date, SELL, sym, q, p, Some(outcome.gain))]
      ensures !outcome.Sold? ==> holdings == old(holdings) && history == old(history)
      ensures history[..|old(history)|] == old(history)
      ensures old(Valid()) ==> Valid()
    {
      var idx := FindLot(holdings, sym);
      if idx >= 0 && holdings[idx].qty >= q {
        var gain := (p - holdings[idx].priceBought) * q;
        var rest := holdings[idx].qty - q;
        if rest <= EPSILON {
          holdings := holdings[..idx] + holdings[idx + 1..];
        } else {
          holdings := holdings[idx := holdings[idx].(qty := rest)];
        }
        history := history + [Txn(date, SELL, sym, q, p, Some(gain))];
        assert history[..|old(history)|] == old(history);
        outcome := Sold(gain);
        if old(Valid()) {
          SellKeepsWellFormed(old(holdings), sym, q);
        }
      } else {
        outcome := InsufficientQuantity;
      }
    }

    /** routes.py:238-248: both files are overwritten with empty lists. */
    method Wipe()
      modifies this
      ensures holdings == [] && history == [] && Valid()
    {
      holdings := [];
      history := [];
    }
  }
}
