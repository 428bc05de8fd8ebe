/**
 * The quote and news lookups of utils.py. The HTTP reply for a symbol is an input:
 * an abstract record of the few JSON fields the code reads, each optional.
 * Which reply each request gets and the order in which the thread pool completes are
 * inputs too.
 */
module Quotes {
  import opened Wrappers

  /** Python truthiness of an optional JSON number: missing, `null` and `0` are false. */
  predicate Truthy(x: Option<real>) {
    x.Some? && x.value != 0.0
  }

  /** Python's `a or b` on optional numbers. */
  function Or(a: Option<real>, b: Option<real>): (r: Option<real>)
    ensures Truthy(r) <==> Truthy(a) || Truthy(b)
    ensures Truthy(a) ==> r == a
    ensures !Truthy(a) ==> r == b
  {
    if Truthy(a) then a else b
  }

  /**
   * One element of `indicators.quote`: the `close` and `open` series of the day,
   * `None` when the key is missing or `null`; an entry of a series may be `null` too.
   */
  datatype Series = Series(close: Option<seq<Option<real>>>, open: Option<seq<Option<real>>>)

  /** The `meta` object of a chart result; each field `None` when missing or `null`. */
  datatype Meta = Meta(regularMarketPrice: Option<real>, previousClose: Option<real>, chartPreviousClose: Option<real>)

  /**
   * One element of `chart.result`. `quotes` is `indicators.quote`, `None` when either
   * key is missing.
   */
  datatype ChartResult = ChartResult(meta: Option<Meta>, quotes: Option<seq<Series>>)

  /**
   * The decoded body of a chart reply: `Malformed` when decoding raises, otherwise
   * `chart.result`, which is `None` when either key is missing or the value is `null`.
   */
  datatype Payload = Malformed | Chart(result: Option<seq<ChartResult>>)

  /** What the request for one symbol produced: an exception, or a status and a body. */
  datatype Response = Unreachable | Reply(status: int, payload: Payload)

  /** `{'price': current, 'prev': prev}`. */
  datatype PriceData = PriceData(price: real, prev: Option<real>)

  /** The pair `fetch_stock_price` returns: the echoed symbol and the data, either possibly `None`. */
  datatype Fetched = Fetched(symbol: Option<string>, data: Option<PriceData>)

  /** Why an extraction raised; every such exception is caught and read as "no data". */
  datatype Raised = EmptyQuoteList

  /** The day-before close `close[-2]` of a series, when it has a truthy list of at least two entries. */
  function CloseBefore(s: Series): (r: Option<Option<real>>)
    ensures r.Some? <==> s.close.Some? && |s.close.value| >= 2
    ensures r.Some? ==> r.value == s.close.value[|s.close.value| - 2]
  {
    match s.close
    case Some(c) => if |c| >= 2 then Some(c[|c| - 2]) else None
    case None => None
  }

  /**
   * utils.py:21-25: the previous close is `previousClose`, else `chartPreviousClose`,
   * else the day-before close of the first quote series. Looking at `quote[0]` of an
   * empty list raises.
   */
  function UtilsPrev(m: Meta, quotes: Option<seq<Series>>): (r: Result<Option<real>, Raised>)
    ensures r.Failure? <==> !Truthy(Or(m.previousClose, m.chartPreviousClose)) && quotes == Some([])
  {
    var prev := Or(m.previousClose, m.chartPreviousClose);
    if Truthy(prev) || quotes.None? then Success(prev)
    else if quotes.value == [] then Failure(EmptyQuoteList)
    else match CloseBefore(quotes.value[0])
      case Some(c) => Success(c)
      case None => Success(prev)
  }

  /** The first element of `chart.result`, when the reply is a 200 with a non-empty result list. */
  function FirstResult(resp: Response): Option<ChartResult> {
    match resp
    case Unreachable => None
    case Reply(status, payload) =>
      if status != 200 || payload.Malformed? then None
      else match payload.result
        case Some(rs) => if rs == [] then None else Some(rs[0])
        case None => None
  }

  /** utils.py:15-27: the price data of a reply, or `None` on every path that returns none or raises. */
  function ExtractPrice(resp: Response): (r: Option<PriceData>)
    ensures r.Some? ==> r.value.price != 0.0
  {
    match FirstResult(resp)
    case None => None
    case Some(r) =>
      match r.meta
      case None => None
      case Some(m) =>
        match UtilsPrev(m, r.quotes)
        case Failure(_) => None
        case Success(prev) =>
          if Truthy(m.regularMarketPrice) then Some(PriceData(m.regularMarketPrice.value, prev)) else None
  }

  /** utils.py:6-30: `fetch_stock_price` for one symbol and the reply its request got. */
  function FetchStockPrice(sym: string, resp: Response): (r: Fetched)
    ensures sym == "" ==> r == Fetched(None, None)
    ensures sym != "" ==> r.symbol == Some(sym)
    ensures r.data.Some? ==> r.data.value.price != 0.0
  {
    if sym == "" then Fetched(None, None) else Fetched(Some(sym), ExtractPrice(resp))
  }

  /**
   * The data `fetch_stock_price` returns: present exactly when the reply is a 200 whose
   * first chart result has a `meta` with a truthy `regularMarketPrice`, and the
   * previous-close lookup did not raise; then the price is that field and `prev`
   * follows the fallback chain.
   */
  lemma ExtractPriceSpec(resp: Response)
    ensures ExtractPrice(resp).Some? <==>
      && resp.Reply? && resp.status == 200 && resp.payload.Chart?
      && resp.payload.result.Some? && resp.payload.result.value != []
      && resp.payload.result.value[0].meta.Some?
      && Truthy(resp.payload.result.value[0].meta.value.regularMarketPrice)
      && UtilsPrev(resp.payload.result.value[0].meta.value, resp.payload.result.value[0].quotes).Success?
    ensures ExtractPrice(resp).Some? ==>
      var r := resp.payload.result.value[0];
      ExtractPrice(resp).value == PriceData(r.meta.value.regularMarketPrice.value, UtilsPrev(r.meta.value, r.quotes).value)
  {
  }

  /**
   * The fallback order of the previous close: a truthy `previousClose` wins; else a
   * truthy `chartPreviousClose`; else `close[-2]` when the first series has two or
   * more closes; else whatever `chartPreviousClose` held (`None` or `0`).
   */
  lemma PrevFallback(m: Meta, s: Series, rest: seq<Series>)
    ensures Truthy(m.previousClose) ==> UtilsPrev(m, Some([s] + rest)) == Success(m.previousClose)
    ensures !Truthy(m.previousClose) && Truthy(m.chartPreviousClose) ==>
      UtilsPrev(m, Some([s] + rest)) == Success(m.chartPreviousClose)
    ensures !Truthy(m.previousClose) && !Truthy(m.chartPreviousClose) ==>
      UtilsPrev(m, Some([s] + rest)) == Success(
        if s.close.Some? && |s.close.value| >= 2 then s.close.value[|s.close.value| - 2] else m.chartPreviousClose)
  {
  }

  /** The smallest reply Yahoo could send for a quote: `meta` only, with the price and previous close. */
  function Encode(d: PriceData): Response {
    Reply(200, Chart(Some([ChartResult(Some(Meta(Some(d.price), d.prev, None)), None)])))
  }

  /**
   * Round trip: a reply built from a quote with a non-zero price and a truthy or absent
   * previous close yields that quote again, echoed with the symbol.
   */
  lemma FetchEncoded(sym: string, d: PriceData)
    requires sym != "" && d.price != 0.0 && (d.prev.None? || Truthy(d.prev))
    ensures FetchStockPrice(sym, Encode(d)) == Fetched(Some(sym), Some(d))
  {
  }

  // ----- fetch_batch_prices -----

  /** The map of the symbols whose lookup has data, when the reply depends on the symbol alone. */
  function BatchPrices(symbols: seq<string>, reply: string -> Response): (r: map<string, PriceData>)
    ensures forall s :: s in r ==> s in symbols && s != "" && r[s].price != 0.0
  {
    map s | s in symbols && FetchStockPrice(s, reply(s)).data.Some? :: FetchStockPrice(s, reply(s)).data.value
  }

  /** The request numbers `0 .. n - 1`, in order. */
  function Indices(n: nat): (r: seq<nat>)
    ensures |r| == n && forall i :: 0 <= i < n ==> r[i] == i
  {
    if n == 0 then [] else Indices(n - 1) + [n - 1]
  }

  /** Every request in `order` is one of the `n` submitted. */
  predicate InRange(order: seq<nat>, n: nat) {
    forall k :: 0 <= k < |order| ==> order[k] < n
  }

  /** Each of the `n` submitted requests completes exactly once, in the order `order`. */
  predicate IsCompletionOrder(order: seq<nat>, n: nat) {
    InRange(order, n) && multiset(order) == multiset(Indices(n))
  }

  /** Every submitted request is somewhere in a completion order. */
  lemma Completes(order: seq<nat>, n: nat, i: nat)
    requires IsCompletionOrder(order, n) && i < n
    ensures exists k :: 0 <= k < |order| && order[k] == i
  {
    assert Indices(n)[i] == i;
    assert i in multiset(order);
  }

  /**
   * utils.py:36-41: the map once the futures in `order` have completed. Request `i` asks
   * for `symbols[i]` and gets `reply(i)`; a completion with data writes the entry of the
   * symbol it echoes, overwriting what an earlier completion for that symbol wrote.
   */
  function Gathered(symbols: seq<string>, reply: nat -> Response, order: seq<nat>): map<string, PriceData>
    requires InRange(order, |symbols|)
  {
    if order == [] then map[]
    else
      var m, i := Gathered(symbols, reply, order[..|order| - 1]), order[|order| - 1];
      var f := FetchStockPrice(symbols[i], reply(i));
      if f.data.Some? then m[f.symbol.value := f.data.value] else m
  }

  /** A symbol has an entry exactly when some completed request for it has data. */
  lemma {:induction false} GatheredKeys(symbols: seq<string>, reply: nat -> Response, order: seq<nat>)
    requires InRange(order, |symbols|)
    ensures forall s :: s in Gathered(symbols, reply, order) <==>
      exists k :: 0 <= k < |order| && symbols[order[k]] == s && FetchStockPrice(s, reply(order[k])).data.Some?
  {
    if order != [] {
      var init := order[..|order| - 1];
      GatheredKeys(symbols, reply, init);
      forall s | exists k :: 0 <= k < |order| && symbols[order[k]] == s && FetchStockPrice(s, reply(order[k])).data.Some?
        ensures s in Gathered(symbols, reply, order)
      {
        var k :| 0 <= k < |order| && symbols[order[k]] == s && FetchStockPrice(s, reply(order[k])).data.Some?;
        if k < |init| {
          assert init[k] == order[k];
        }
      }
      forall s | s in Gathered(symbols, reply, init)
        ensures exists k :: 0 <= k < |order| && symbols[order[k]] == s && FetchStockPrice(s, reply(order[k])).data.Some?
      {
        var k :| 0 <= k < |init| && symbols[init[k]] == s && FetchStockPrice(s, reply(init[k])).data.Some?;
        assert order[k] == init[k];
      }
    }
  }

  /** The entry of a symbol is the data of the last completed request for it that has data. */
  lemma {:induction false} GatheredLast(symbols: seq<string>, reply: nat -> Response, order: seq<nat>, s: string)
    requires InRange(order, |symbols|) && s in Gathered(symbols, reply, order)
    ensures exists k :: (0 <= k < |order| && symbols[order[k]] == s
      && FetchStockPrice(s, reply(order[k])).data == Some(Gathered(symbols, reply, order)[s])
      && forall l :: k < l < |order| && symbols[order[l]] == s ==> FetchStockPrice(s, reply(order[l])).data.None?)
  {
    var init, i := order[..|order| - 1], order[|order| - 1];
    var m := Gathered(symbols, reply, init);
    var f := FetchStockPrice(symbols[i], reply(i));
    if f.data.Some? && s == symbols[i] {
      assert order[|order| - 1] == i;
    } else {
      GatheredLast(symbols, reply, init, s);
      var k :| 0 <= k < |init| && symbols[init[k]] == s
        && FetchStockPrice(s, reply(init[k])).data == Some(m[s])
        && forall l :: k < l < |init| && symbols[init[l]] == s ==> FetchStockPrice(s, reply(init[l])).data.None?;
      assert order[k] == init[k];
      forall l | k < l < |order| && symbols[order[l]] == s ensures FetchStockPrice(s, reply(order[l])).data.None? {
        if l < |init| {
          assert order[l] == init[l];
        }
      }
    }
  }

  /**
   * utils.py:32-44. One future is submitted per entry of `symbols`, so a repeated symbol
   * is looked up once per entry; request `i` gets `reply(i)`, and the futures finish in
   * the order `completed`. The map has an entry exactly for the symbols some request of
   * which has data.
   */
  method FetchBatchPrices(symbols: seq<string>, reply: nat -> Response, completed: seq<nat>)
    returns (priceMap: map<string, PriceData>)
    requires IsCompletionOrder(completed, |symbols|)
    ensures priceMap == Gathered(symbols, reply, completed)
    ensures forall s :: s in priceMap <==>
      exists i :: 0 <= i < |symbols| && symbols[i] == s && FetchStockPrice(s, reply(i)).data.Some?
  {
    if symbols == [] {
      assert completed == [] by {
        assert |multiset(completed)| == 0;
      }
      return map[];
    }
    priceMap := map[];
    for k := 0 to |completed|
      invariant priceMap == Gathered(symbols, reply, completed[..k])
    {
      assert completed[..k + 1][..k] == completed[..k];
      var i := completed[k];
      var f := FetchStockPrice(symbols[i], reply(i));
      if f.data.Some? {
        priceMap := priceMap[f.symbol.value := f.data.value];
      }
    }
    assert completed[..|completed|] == completed;
    GatheredKeys(symbols, reply, completed);
    forall s | exists i :: 0 <= i < |symbols| && symbols[i] == s && FetchStockPrice(s, reply(i)).data.Some?
      ensures s in priceMap
    {
      var i :| 0 <= i < |symbols| && symbols[i] == s && FetchStockPrice(s, reply(i)).data.Some?;
      Completes(completed, |symbols|, i);
    }
  }

  /**
   * When every request for one symbol gets that symbol's reply, the map is `BatchPrices`,
   * whatever the order in which the futures complete.
   */
  lemma GatheredUniform(symbols: seq<string>, reply: nat -> Response, replyOf: string -> Response, completed: seq<nat>)
    requires IsCompletionOrder(completed, |symbols|)
    requires forall i :: 0 <= i < |symbols| ==> reply(i) == replyOf(symbols[i])
    ensures Gathered(symbols, reply, completed) == BatchPrices(symbols, replyOf)
  {
    var g, b := Gathered(symbols, reply, completed), BatchPrices(symbols, replyOf);
    GatheredKeys(symbols, reply, completed);
    forall s ensures s in g <==> s in b {
      if s in b {
        var i :| 0 <= i < |symbols| && symbols[i] == s;
        Completes(completed, |symbols|, i);
      }
    }
    forall s | s in g ensures g[s] == b[s] {
      GatheredLast(symbols, reply, completed, s);
    }
  }

  /** Two requests for one symbol that both get data: the one that completes last decides the entry. */
  lemma LastCompletionWins(d1: PriceData, d2: PriceData)
    requires d1.price != 0.0 && (d1.prev.None? || Truthy(d1.prev))
    requires d2.price != 0.0 && (d2.prev.None? || Truthy(d2.prev))
    ensures var reply := (i: nat) => if i == 0 then Encode(d1) else Encode(d2);
      && Gathered(["A", "A"], reply, [0, 1]) == map["A" := d2]
      && Gathered(["A", "A"], reply, [1, 0]) == map["A" := d1]
  {
    FetchEncoded("A", d1);
    FetchEncoded("A", d2);
    var reply := (i: nat) => if i == 0 then Encode(d1) else Encode(d2);
    assert [0, 1][..1] == [0] && [1, 0][..1] == [1] && [0][..0] == [] && [1][..0] == [];
  }

  /** The replies of a lookup in which every request for one symbol gets that symbol's reply. */
  function PerSymbol(symbols: seq<string>, reply: string -> Response): nat -> Response {
    (i: nat) => if i < |symbols| then reply(symbols[i]) else Unreachable
  }

  // ----- fetch_stock_news_grouped -----

  /** One entry of the `news` list of a search reply; each field `None` when missing. */
  datatype RawNews = RawNews(title: Option<string>, link: Option<string>, publisher: Option<string>, publishTime: Option<int>)

  /**
   * One cleaned news item. `time` is the publication timestamp, `0` when missing;
   * turning it into a `%Y-%m-%d` date is not part of this model.
   */
  datatype NewsItem = NewsItem(title: Option<string>, link: Option<string>, publisher: Option<string>, time: int)

  /** What the search request for one symbol produced; `news` is `None` when the key is missing. */
  datatype NewsResponse = NewsUnreachable | NewsReply(status: int, news: Option<seq<RawNews>>)

  /** utils.py:59-65: the four fields the dashboard shows. */
  function CleanItem(n: RawNews): NewsItem {
    NewsItem(n.title, n.link, n.publisher, n.publishTime.GetOr(0))
  }

  /** utils.py:56-65: `clean_news`, built by appending one cleaned item per raw item. */
  method CleanNews(raw: seq<RawNews>) returns (items: seq<NewsItem>)
    ensures |items| == |raw|
    ensures forall i :: 0 <= i < |raw| ==> items[i] == CleanItem(raw[i])
  {
    items := [];
    for i := 0 to |raw|
      invariant |items| == i
      invariant forall j :: 0 <= j < i ==> items[j] == CleanItem(raw[j])
    {
      items := items + [CleanItem(raw[i])];
    }
  }

  /** The cleaned list a search reply yields: one item per raw entry, none when `news` is missing. */
  function CleanedNews(news: Option<seq<RawNews>>): seq<NewsItem> {
    match news
    case Some(raw) => seq(|raw|, i requires 0 <= i < |raw| => CleanItem(raw[i]))
    case None => []
  }

  /** utils.py:50-69: the news of one symbol, `None` unless the reply is a 200. */
  function SingleNews(resp: NewsResponse): Option<seq<NewsItem>> {
    match resp
    case NewsReply(status, news) => if status == 200 then Some(CleanedNews(news)) else None
    case NewsUnreachable => None
  }

  /** utils.py:50-69: `get_single_news`, which builds the cleaned list with `CleanNews`. */
  method GetSingleNews(sym: string, resp: NewsResponse) returns (r: (string, Option<seq<NewsItem>>))
    ensures r == (sym, SingleNews(resp))
  {
    match resp
    case NewsUnreachable => r := (sym, None);
    case NewsReply(status, news) =>
      if status != 200 {
        r := (sym, None);
      } else {
        var items := [];
        if news.Some? {
          items := CleanNews(news.value);
        }
        assert items == CleanedNews(news);
        r := (sym, Some(items));
      }
  }

  /** utils.py:46-79: the news map `fetch_stock_news_grouped` must produce for `symbols`. */
  function NewsMap(symbols: seq<string>, reply: string -> NewsResponse): map<string, seq<NewsItem>> {
    map s | s in symbols && SingleNews(reply(s)).Some? && SingleNews(reply(s)).value != [] :: SingleNews(reply(s)).value
  }

  /**
   * utils.py:46-79: the news map over every symbol whose search reply produced a
   * non-empty list. The futures complete in the order `completed`, any rearrangement of
   * `symbols`; the map does not depend on it.
   */
  method FetchNewsGrouped(symbols: seq<string>, reply: string -> NewsResponse, completed: seq<string>)
    returns (newsMap: map<string, seq<NewsItem>>)
    requires multiset(completed) == multiset(symbols)
    ensures newsMap == NewsMap(symbols, reply)
  {
    if symbols == [] {
      return map[];
    }
    newsMap := map[];
    var k := 0;
    while k < |completed|
      invariant 0 <= k <= |completed|
      invariant newsMap.Keys == set s | s in completed[..k] && SingleNews(reply(s)).Some? && SingleNews(reply(s)).value != []
      invariant forall s :: s in newsMap ==> newsMap[s] == SingleNews(reply(s)).value
    {
      var r := GetSingleNews(completed[k], reply(completed[k]));
      if r.1.Some? && r.1.value != [] {
        newsMap := newsMap[r.0 := r.1.value];
      }
      assert completed[..k + 1] == completed[..k] + [completed[k]];
      k := k + 1;
    }
    assert completed[..k] == completed;
    forall s ensures s in completed <==> s in symbols {
      assert s in completed <==> s in multiset(completed);
    }
  }

  /** A symbol's entry in the news map holds one cleaned item per raw item of its reply. */
  lemma NewsEntries(resp: NewsResponse)
    requires SingleNews(resp).Some? && SingleNews(resp).value != []
    ensures resp.NewsReply? && resp.status == 200 && resp.news.Some?
    ensures |SingleNews(resp).value| == |resp.news.value|
    ensures forall i :: 0 <= i < |resp.news.value| ==> SingleNews(resp).value[i] == CleanItem(resp.news.value[i])
  {
  }

  // ----- send_pushover -----

  /**
   * utils.py:81-91: whether a notification counts as sent. A falsy user key returns
   * `False` before any request; otherwise the result is whether the POST raised.
   */
  function SendPushover(userKey: Option<string>, postRaises: bool): (sent: bool)
    ensures userKey.None? || userKey.value == "" ==> !sent
    ensures userKey.Some? && userKey.value != "" ==> (sent <==> !postRaises)
  {
    match userKey
    case None => false
    case Some(k) => k != "" && !postRaises
  }
}
