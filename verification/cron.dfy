/**
 * The cron endpoint of routes.py:277-328: for every user due a notification at the
 * current time, the value, profit and top daily mover of their lots at the batch prices,
 * pushed to their Pushover key. The clock, the HTTP replies and the push outcome are inputs.
 */
module Cron {
  import opened Wrappers
  import opened Lots
  import opened Quotes
  import opened Movers
  import opened Schedule
  import Valuation

  /** routes.py:324: the daily change of a quote, in percent of the previous close. */
  function DailyPct(d: PriceData): real
    requires Truthy(d.prev)
  {
    (d.price - d.prev.value) / d.prev.value * 100.0
  }

  /** routes.py:315-324: `daily_moves` after the lots `h`, keyed by symbol, the last write winning. */
  function DailyMoves(h: seq<Lot>, pm: map<string, PriceData>): (r: Moves)
    ensures DistinctKeys(r)
  {
    if h == [] then []
    else
      var d, s := DailyMoves(h[..|h| - 1], pm), h[|h| - 1].symbol;
      if s in pm && Truthy(pm[s].prev) then
        PutKeys(d, s, DailyPct(pm[s]));
        Put(d, s, DailyPct(pm[s]))
      else d
  }

  /** The symbols of the lots of `h`. */
  predicate HasSymbol(h: seq<Lot>, s: string) {
    exists i :: 0 <= i < |h| && h[i].symbol == s
  }

  /**
   * Each symbol appears once in `daily_moves`, and it maps to its own daily change
   * exactly when some lot holds it and its quote has a truthy previous close.
   */
  lemma {:induction false} DailyMovesGet(h: seq<Lot>, pm: map<string, PriceData>, s: string)
    ensures DistinctKeys(DailyMoves(h, pm))
    ensures Get(DailyMoves(h, pm), s) ==
      if HasSymbol(h, s) && s in pm && Truthy(pm[s].prev) then Some(DailyPct(pm[s])) else None
  {
    if h != [] {
      var init, t := h[..|h| - 1], h[|h| - 1].symbol;
      DailyMovesGet(init, pm, s);
      assert HasSymbol(h, s) <==> HasSymbol(init, s) || t == s by {
        if HasSymbol(init, s) {
          var i :| 0 <= i < |init| && init[i].symbol == s;
          assert h[i].symbol == s;
        }
        if HasSymbol(h, s) && t != s {
          var i :| 0 <= i < |h| && h[i].symbol == s;
          assert init[i].symbol == s;
        }
      }
      if t in pm && Truthy(pm[t].prev) {
        PutKeys(DailyMoves(init, pm), t, DailyPct(pm[t]));
        PutGet(DailyMoves(init, pm), t, DailyPct(pm[t]));
      }
    }
  }

  /** What one notification reports: `Val`, `P/L` and `Top`. */
  datatype Summary = Summary(value: real, unrealised: real, mover: Option<(string, real)>)

  /** What one more lot adds to the value, the profit and `daily_moves`. */
  lemma SummaryStep(h: seq<Lot>, pm: map<string, PriceData>, i: int)
    requires 0 <= i < |h|
    ensures var lot := h[i];
      && Valuation.Total(h[..i + 1], pm, Valuation.Value) == Valuation.Total(h[..i], pm, Valuation.Value)
           + (if lot.symbol in pm then pm[lot.symbol].price * lot.qty else 0.0)
      && Valuation.Total(h[..i + 1], pm, Valuation.Unrealised) == Valuation.Total(h[..i], pm, Valuation.Unrealised)
           + (if lot.symbol in pm then (pm[lot.symbol].price - lot.priceBought) * lot.qty else 0.0)
      && DailyMoves(h[..i + 1], pm)
         == (if lot.symbol in pm && Truthy(pm[lot.symbol].prev) then Put(DailyMoves(h[..i], pm), lot.symbol, DailyPct(pm[lot.symbol]))
             else DailyMoves(h[..i], pm))
  {
    assert h[..i + 1][..i] == h[..i];
    Valuation.TotalStep(h, pm, Valuation.Value, i);
    Valuation.TotalStep(h, pm, Valuation.Unrealised, i);
  }

  /** routes.py:316-324: the loop body for one lot, adding to the value, the profit and `daily_moves`. */
  method Tally(lot: Lot, pm: map<string, PriceData>, tv: real, tu: real, moves: Moves)
    returns (tv': real, tu': real, moves': Moves)
    ensures tv' == tv + (if lot.symbol in pm then pm[lot.symbol].price * lot.qty else 0.0)
    ensures tu' == tu + (if lot.symbol in pm then (pm[lot.symbol].price - lot.priceBought) * lot.qty else 0.0)
    ensures moves' == if lot.symbol in pm && Truthy(pm[lot.symbol].prev)
      then Put(moves, lot.symbol, DailyPct(pm[lot.symbol])) else moves
  {
    tv', tu', moves' := tv, tu, moves;
    if lot.symbol in pm {
      var c, prev := pm[lot.symbol].price, pm[lot.symbol].prev;
      tv' := tv + c * lot.qty;
      tu' := tu + (c - lot.priceBought) * lot.qty;
      if Truthy(prev) {
        moves' := Put(moves, lot.symbol, (c - prev.value) / prev.value * 100.0);
      }
    }
  }

  /**
   * routes.py:314-326: the loop over one user's lots. Its value and profit are the
   * dashboard's value and unrealised totals over the same prices, and its mover has the
   * largest absolute daily change among the symbols that have one.
   */
  method Summarize(h: seq<Lot>, pm: map<string, PriceData>) returns (r: Summary)
    ensures r.value == Valuation.Total(h, pm, Valuation.Value)
    ensures r.unrealised == Valuation.Total(h, pm, Valuation.Unrealised)
    ensures r.mover == TopMover(DailyMoves(h, pm))
  {
    var tv, tu := 0.0, 0.0;
    var dailyMoves: Moves := [];
    for i := 0 to |h|
      invariant tv == Valuation.Total(h[..i], pm, Valuation.Value)
      invariant tu == Valuation.Total(h[..i], pm, Valuation.Unrealised)
      invariant dailyMoves == DailyMoves(h[..i], pm)
    {
      SummaryStep(h, pm, i);
      tv, tu, dailyMoves := Tally(h[i], pm, tv, tu, dailyMoves);
    }
    assert h[..|h|] == h;
    r := Summary(tv, tu, TopMover(dailyMoves));
  }

  /** A user record of users.json as the cron loop reads it. */
  datatype User = User(
    name: string,
    notifyFreq: Option<string>,   // `notify_freq`, missing reading as 'none'
    poUser: Option<string>,       // `po_user`
    holdings: seq<Lot>,           // the user's holdings file
    pushRaises: bool)             // whether the push request would raise

  /** Whether the user is due now and has lots to report on. */
  predicate Due(u: User, t: Clock) {
    ShouldSend(ParseFreq(u.notifyFreq), t) && u.holdings != []
  }

  /** The summary a due user is sent, at the prices of a batch lookup of their symbols. */
  function SummaryFor(u: User, reply: string -> Response): Summary {
    var pm := BatchPrices(SymbolsOf(u.holdings), reply);
    var moves := DailyMoves(u.holdings, pm);
    Summary(Valuation.Total(u.holdings, pm, Valuation.Value),
            Valuation.Total(u.holdings, pm, Valuation.Unrealised), TopMover(moves))
  }

  /** The users notified, in order, with what each is sent. */
  function Notices(users: seq<User>, t: Clock, reply: string -> Response): seq<(string, Summary)> {
    if users == [] then []
    else
      var u := users[|users| - 1];
      Notices(users[..|users| - 1], t, reply) + (if Due(u, t) then [(u.name, SummaryFor(u, reply))] else [])
  }

  /** How many pushes succeeded: `sent`. */
  function SentCount(users: seq<User>, t: Clock): nat {
    if users == [] then 0
    else
      var u := users[|users| - 1];
      SentCount(users[..|users| - 1], t) + (if Due(u, t) && SendPushover(u.poUser, u.pushRaises) then 1 else 0)
  }

  /** A user with no Pushover key is never counted, so the count is at most the notices. */
  lemma {:induction false} SentAtMostNotices(users: seq<User>, t: Clock, reply: string -> Response)
    ensures SentCount(users, t) <= |Notices(users, t, reply)|
    ensures (forall i :: 0 <= i < |users| ==> users[i].poUser.None?) ==> SentCount(users, t) == 0
  {
    if users != [] {
      SentAtMostNotices(users[..|users| - 1], t, reply);
    }
  }

  datatype CronOutcome = Unauthorized | Processed(sent: nat, notices: seq<(string, Summary)>)

  /**
   * routes.py:277-328: a request whose `secret` differs from the configured one is
   * refused (two missing values are equal); otherwise every due user is summarised and
   * pushed, and the successful pushes are counted.
   */
  method Trigger(secret: Option<string>, cronSecret: Option<string>, now: Clock,
                 users: seq<User>, reply: string -> Response) returns (r: CronOutcome)
    ensures r == Unauthorized <==> secret != cronSecret
    ensures r.Processed? ==> r.sent == SentCount(users, now) && r.notices == Notices(users, now, reply)
  {
    if secret != cronSecret {
      return Unauthorized;
    }
    var sent := 0;
    var notices: seq<(string, Summary)> := [];
    for i := 0 to |users|
      invariant sent == SentCount(users[..i], now)
      invariant notices == Notices(users[..i], now, reply)
    {
      assert users[..i + 1][..i] == users[..i];
      var u := users[i];
      var freq := ParseFreq(u.notifyFreq);
      if !ShouldSend(freq, now) || u.holdings == [] {
        continue;
      }
      var symbols := SymbolsOf(u.holdings);
      var priceMap := FetchBatchPrices(symbols, PerSymbol(symbols, reply), Indices(|symbols|));
      GatheredUniform(symbols, PerSymbol(symbols, reply), reply, Indices(|symbols|));
      var s := Summarize(u.holdings, priceMap);
      notices := notices + [(u.name, s)];
      if SendPushover(u.poUser, u.pushRaises) {
        sent := sent + 1;
      }
    }
    assert users[..|users|] == users;
    r := Processed(sent, notices);
  }
}
