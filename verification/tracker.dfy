/**
 * The notification run of the older scripts: `run_stock_tracker` of main.py:56-164,
 * which groups the saved lots, looks every symbol up with one retry and reports the
 * unrealised return, the value and the top daily mover; and its predecessor in
 * Main.py:10-94, which does the same for a hard-coded list of lots with one bulk download.
 */
module TrackerRun {
  import opened Wrappers
  import opened Lots
  import opened Quotes
  import opened Movers
  import opened Grouping

  // ----- main.py's quote parser -----

  /**
   * main.py:96-103: the previous close as in utils.py, with the first `open` of the
   * first series as a last resort. Looking at `quote[0]` of an empty list raises.
   */
  function TrackerPrev(m: Meta, quotes: Option<seq<Series>>): (r: Result<Option<real>, Raised>)
    ensures r.Failure? <==> !Truthy(Or(m.previousClose, m.chartPreviousClose)) && quotes == Some([])
  {
    var prev := Or(m.previousClose, m.chartPreviousClose);
    if Truthy(prev) || quotes.None? then Success(prev)
    else if quotes.value == [] then Failure(EmptyQuoteList)
    else
      var s := quotes.value[0];
      match CloseBefore(s)
      case Some(c) => Success(c)
      case None =>
        if s.open.Some? && s.open.value != [] && Truthy(s.open.value[0]) then Success(s.open.value[0])
        else Success(prev)
  }

  /**
   * main.py:82-110: the current price and the previous close, returned only when both
   * are truthy; every other path, raising ones included, gives `(None, None)`.
   */
  function TrackerQuote(resp: Response): (r: Option<(real, real)>)
    ensures r.Some? ==> r.value.0 != 0.0 && r.value.1 != 0.0
  {
    match FirstResult(resp)
    case None => None
    case Some(res) =>
      match res.meta
      case None => None
      case Some(m) =>
        match TrackerPrev(m, res.quotes)
        case Failure(_) => None
        case Success(prev) =>
          if Truthy(m.regularMarketPrice) && Truthy(prev) then Some((m.regularMarketPrice.value, prev.value)) else None
  }

  /**
   * The two parsers agree on the price: main.py's finds one only where utils.py's does,
   * and whenever utils.py's previous close is truthy main.py returns the same pair.
   */
  lemma TrackerAgrees(resp: Response)
    ensures TrackerQuote(resp).Some? ==>
      ExtractPrice(resp).Some? && ExtractPrice(resp).value.price == TrackerQuote(resp).value.0
    ensures ExtractPrice(resp).Some? && Truthy(ExtractPrice(resp).value.prev) ==>
      TrackerQuote(resp) == Some((ExtractPrice(resp).value.price, ExtractPrice(resp).value.prev.value))
  {
  }

  /** A reply whose only previous price is the day's first `open`. */
  const OPEN_ONLY: Response :=
    Reply(200, Chart(Some([ChartResult(Some(Meta(Some(10.0), None, None)), Some([Series(None, Some([Some(9.0)]))]))])))

  /** Only main.py falls back to `open[0]`: utils.py finds no previous close in the same reply. */
  lemma OpenFallbackDiffers()
    ensures TrackerQuote(OPEN_ONLY) == Some((10.0, 9.0))
    ensures ExtractPrice(OPEN_ONLY) == Some(PriceData(10.0, None))
  {
  }

  // ----- the retry loop -----

  /** main.py:113. */
  const MAX_RETRIES: nat := 2

  /** The first attempt from `k` on whose quote is not `None`; `reply(sym, k)` is what attempt `k` received. */
  function RetryFrom(sym: string, reply: (string, nat) -> Response, k: nat): Option<(real, real)>
    decreases MAX_RETRIES - k
  {
    if k >= MAX_RETRIES then None
    else
      var q := TrackerQuote(reply(sym, k));
      if q.Some? then q else RetryFrom(sym, reply, k + 1)
  }

  /**
   * main.py:113-123: at most `MAX_RETRIES` attempts, stopping at the first with a
   * price. The one-second pause before a retry is not modelled.
   */
  method FetchWithRetry(sym: string, reply: (string, nat) -> Response) returns (q: Option<(real, real)>, attempts: nat)
    ensures q == RetryFrom(sym, reply, 0)
    ensures 1 <= attempts <= MAX_RETRIES
    ensures forall k :: 0 <= k < attempts - 1 ==> TrackerQuote(reply(sym, k)).None?
    ensures q.Some? ==> q == TrackerQuote(reply(sym, attempts - 1))
    ensures q.None? ==> attempts == MAX_RETRIES && TrackerQuote(reply(sym, attempts - 1)).None?
  {
    q, attempts := None, 0;
    while attempts < MAX_RETRIES
      invariant 0 <= attempts <= MAX_RETRIES && q.None?
      invariant forall k :: 0 <= k < attempts ==> TrackerQuote(reply(sym, k)).None?
      invariant RetryFrom(sym, reply, 0) == RetryFrom(sym, reply, attempts)
      decreases MAX_RETRIES - attempts
    {
      var current := TrackerQuote(reply(sym, attempts));
      attempts := attempts + 1;
      if current.Some? {
        q := current;
        return;
      }
    }
  }

  /** The prices found for `ks`, in order. */
  function RetryPrices(ks: seq<string>, reply: (string, nat) -> Response): map<string, real> {
    if ks == [] then map[]
    else
      var m, s := RetryPrices(ks[..|ks| - 1], reply), ks[|ks| - 1];
      var q := RetryFrom(s, reply, 0);
      if q.Some? then m[s := q.value.0] else m
  }

  /** The daily changes found for `ks`: main.py:120-122. */
  function RetryChanges(ks: seq<string>, reply: (string, nat) -> Response): Moves {
    if ks == [] then []
    else
      var d, s := RetryChanges(ks[..|ks| - 1], reply), ks[|ks| - 1];
      var q := RetryFrom(s, reply, 0);
      if q.Some? && q.value.1 != 0.0 then Put(d, s, (q.value.0 - q.value.1) / q.value.1 * 100.0) else d
  }

  /**
   * A symbol has a daily change exactly when it has a price: the parser never returns a
   * price without a truthy previous close, so the guard of main.py:120 always passes.
   */
  lemma {:induction false} PricedHasChange(ks: seq<string>, reply: (string, nat) -> Response, s: string)
    ensures s in RetryPrices(ks, reply) <==> Get(RetryChanges(ks, reply), s).Some?
    ensures s in RetryPrices(ks, reply) ==> s in ks
  {
    if ks != [] {
      var init, t := ks[..|ks| - 1], ks[|ks| - 1];
      var m, d := RetryPrices(init, reply), RetryChanges(init, reply);
      PricedHasChange(init, reply, s);
      var q := RetryFrom(t, reply, 0);
      if q.Some? {
        RetryQuoteTruthy(t, reply, 0);
        var v := (q.value.0 - q.value.1) / q.value.1 * 100.0;
        assert RetryPrices(ks, reply) == m[t := q.value.0];
        assert RetryChanges(ks, reply) == Put(d, t, v);
        PutGet(d, t, v);
      } else {
        assert RetryPrices(ks, reply) == m && RetryChanges(ks, reply) == d;
      }
    }
  }

  lemma {:induction false} RetryQuoteTruthy(sym: string, reply: (string, nat) -> Response, k: nat)
    ensures RetryFrom(sym, reply, k).Some? ==> RetryFrom(sym, reply, k).value.1 != 0.0
    decreases MAX_RETRIES - k
  {
    if k < MAX_RETRIES && TrackerQuote(reply(sym, k)).None? {
      RetryQuoteTruthy(sym, reply, k + 1);
    }
  }

  /** main.py:112-123: look every grouped symbol up and record its price and daily change. */
  method PriceTable(ks: seq<string>, reply: (string, nat) -> Response) returns (prices: map<string, real>, changes: Moves)
    ensures prices == RetryPrices(ks, reply) && changes == RetryChanges(ks, reply)
  {
    prices, changes := map[], [];
    for i := 0 to |ks|
      invariant prices == RetryPrices(ks[..i], reply) && changes == RetryChanges(ks[..i], reply)
    {
      assert ks[..i + 1][..i] == ks[..i];
      var q, _ := FetchWithRetry(ks[i], reply);
      if q.Some? {
        var (current, prev) := q.value;
        prices := prices[ks[i] := current];
        if prev != 0.0 {
          changes := Put(changes, ks[i], (current - prev) / prev * 100.0);
        }
      }
    }
    assert ks[..|ks|] == ks;
  }

  // ----- the run -----

  /** What the run reports: no lots, no price for any symbol, or the totals and the top mover. */
  datatype Report =
    | NoHoldings
    | Unavailable(attempted: seq<string>)
    | Summary(unrealised: real, value: real, mover: Option<(string, real)>)

  /**
   * main.py:56-146. An empty holdings file gives the "no holdings" page; otherwise the
   * totals are summed over the lots of every priced symbol, and when no symbol has a
   * price the message lists the symbols tried. Sending the message is not modelled.
   */
  method RunStockTracker(h: seq<Lot>, reply: (string, nat) -> Response) returns (r: Report)
    ensures r == NoHoldings <==> h == []
    ensures h != [] ==>
      var ks := SymbolsInOrder(h);
      var prices := RetryPrices(ks, reply);
      && (r.Unavailable? <==> PricedKeys(ks, prices) == 0)
      && (r.Unavailable? ==> r.attempted == ks)
      && (r.Summary? ==>
            && r.unrealised == FlatSum(h, prices, UnrealisedM)
            && r.value == FlatSum(h, prices, ValueM)
            && r.mover == TopMover(RetryChanges(ks, reply)))
  {
    if h == [] {
      return NoHoldings;
    }
    var groups := Group(h);
    var uniqueSymbols := groups.keys;
    var symbolPrices, dailyChanges := PriceTable(uniqueSymbols, reply);
    var totalUnrealised, totalValue, stocksWithData := GroupTotals(groups, symbolPrices);
    GroupedIsFlat(h, symbolPrices, UnrealisedM);
    GroupedIsFlat(h, symbolPrices, ValueM);
    if stocksWithData == 0 {
      return Unavailable(uniqueSymbols);
    }
    r := Summary(totalUnrealised, totalValue, TopMover(dailyChanges));
  }

  /** The run reports no price exactly when no symbol got one. */
  lemma UnavailableIffNoPrice(h: seq<Lot>, reply: (string, nat) -> Response)
    ensures PricedKeys(SymbolsInOrder(h), RetryPrices(SymbolsInOrder(h), reply)) == 0 <==>
      RetryPrices(SymbolsInOrder(h), reply) == map[]
  {
    var ks := SymbolsInOrder(h);
    var prices := RetryPrices(ks, reply);
    PricedKeysZero(ks, prices);
    if prices != map[] {
      var s :| s in prices;
      PricedHasChange(ks, reply, s);
    }
  }

  // ----- Main.py -----

  /** Main.py:35-45: the hard-coded lots. */
  const MAIN_LOTS: seq<Lot> := [
    Lot("AAPL", 6.0, 120.5), Lot("ASML", 1.0, 702.0), Lot("AMD", 2.0, 138.14),
    Lot("NVDA", 4.012, 122.26), Lot("WMT", 4.038, 91.6493313522), Lot("AMD", 2.898, 145.281716869),
    Lot("GOOGL", 2.06, 178.470873786), Lot("AAPL", 1.064, 232.462406015), Lot("AMZN", 0.854, 165.339578454),
    Lot("MSFT", 0.24, 416.666666667), Lot("ASML", 0.144, 685.416666667)]

  /** `bars(s)`: the first row's open and close of `s` in the download, `None` when reading it raises. */
  type Bars = string -> Option<(real, real)>

  /** Main.py:54-62: each symbol with a row gets its close as its price. */
  function BarPrices(ks: seq<string>, bars: Bars): map<string, real> {
    if ks == [] then map[]
    else
      var m, s := BarPrices(ks[..|ks| - 1], bars), ks[|ks| - 1];
      if bars(s).Some? then m[s := bars(s).value.1] else m
  }

  /** Main.py:60: the change from the open, recorded only when the open is not 0. */
  function BarChanges(ks: seq<string>, bars: Bars): Moves {
    if ks == [] then []
    else
      var d, s := BarChanges(ks[..|ks| - 1], bars), ks[|ks| - 1];
      if bars(s).Some? && bars(s).value.0 != 0.0 then
        Put(d, s, (bars(s).value.1 - bars(s).value.0) / bars(s).value.0 * 100.0)
      else d
  }

  /** Main.py:54-62: the price is stored before the change is computed, so a zero open keeps the price. */
  method BarTable(ks: seq<string>, bars: Bars) returns (prices: map<string, real>, changes: Moves)
    ensures prices == BarPrices(ks, bars) && changes == BarChanges(ks, bars)
  {
    prices, changes := map[], [];
    for i := 0 to |ks|
      invariant prices == BarPrices(ks[..i], bars) && changes == BarChanges(ks[..i], bars)
    {
      assert ks[..i + 1][..i] == ks[..i];
      var row := bars(ks[i]);
      if row.None? {
        continue;
      }
      var (openPrice, closePrice) := row.value;
      prices := prices[ks[i] := closePrice];
      if openPrice == 0.0 {
        continue;
      }
      changes := Put(changes, ks[i], (closePrice - openPrice) / openPrice * 100.0);
    }
    assert ks[..|ks| ] == ks;
  }

  /**
   * Main.py:28-76: group the hard-coded lots, price them from the download and sum the
   * unrealised return over the priced symbols; the top mover has the largest change.
   */
  method RunMain(bars: Bars) returns (unrealised: real, mover: Option<(string, real)>)
    ensures var prices := BarPrices(SymbolsInOrder(MAIN_LOTS), bars);
      unrealised == FlatSum(MAIN_LOTS, prices, UnrealisedM)
    ensures mover == TopMover(BarChanges(SymbolsInOrder(MAIN_LOTS), bars))
  {
    var groups := Group(MAIN_LOTS);
    var symbolPrices, dailyChanges := BarTable(groups.keys, bars);
    var total, _, _ := GroupTotals(groups, symbolPrices);
    GroupedIsFlat(MAIN_LOTS, symbolPrices, UnrealisedM);
    unrealised := total;
    mover := TopMover(dailyChanges);
  }
}
