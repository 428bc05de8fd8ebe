/**
 * The `AllStocks` dictionary of Main.py:28-32 (and its copy at main.py:61-65): lots
 * grouped by symbol, keys in order of first appearance, each list in insertion order;
 * and the totals summed group by group over the symbols that have a price
 * (Main.py:64-70, main.py:125-135).
 */
module Grouping {
  import opened Lots

  /** The symbols of `h` in order of first appearance. */
  function SymbolsInOrder(h: seq<Lot>): (r: seq<string>)
    ensures forall i, j :: 0 <= i < j < |r| ==> r[i] != r[j]
  {
    if h == [] then []
    else
      var ks := SymbolsInOrder(h[..|h| - 1]);
      if h[|h| - 1].symbol in ks then ks else ks + [h[|h| - 1].symbol]
  }

  /** Appending a lot does not move the first lot of a symbol already present. */
  lemma FindLotExtend(init: seq<Lot>, x: Lot, s: string)
    requires FindLot(init, s) >= 0
    ensures FindLot(init + [x], s) == FindLot(init, s)
  {
    FindLotAt(init + [x], s, FindLot(init, s));
  }

  /** A symbol is a key exactly when some lot carries it. */
  lemma {:induction false} KeysAreSymbols(h: seq<Lot>)
    ensures forall s :: s in SymbolsInOrder(h) <==> exists i :: 0 <= i < |h| && h[i].symbol == s
  {
    if h != [] {
      var init, x := h[..|h| - 1], h[|h| - 1];
      KeysAreSymbols(init);
      var ks, r := SymbolsInOrder(init), SymbolsInOrder(h);
      forall s ensures s in r <==> exists i :: 0 <= i < |h| && h[i].symbol == s {
        if exists i :: 0 <= i < |h| && h[i].symbol == s {
          var i :| 0 <= i < |h| && h[i].symbol == s;
          if i < |init| {
            assert init[i].symbol == s;
          }
        }
        if s in ks {
          var i :| 0 <= i < |init| && init[i].symbol == s;
          assert h[i].symbol == s;
        }
      }
    }
  }

  /** The keys are ordered by their first lots: a key comes before another when its first lot does. */
  lemma {:induction false} SymbolsInOrderSpec(h: seq<Lot>)
    ensures forall i, j :: 0 <= i < j < |SymbolsInOrder(h)| ==>
      FindLot(h, SymbolsInOrder(h)[i]) < FindLot(h, SymbolsInOrder(h)[j])
  {
    if h != [] {
      var init, x := h[..|h| - 1], h[|h| - 1];
      SymbolsInOrderSpec(init);
      KeysAreSymbols(init);
      var ks := SymbolsInOrder(init);
      assert h == init + [x];
      forall i | 0 <= i < |ks| ensures FindLot(h, ks[i]) == FindLot(init, ks[i]) < |init| {
        assert ks[i] in ks;
        var k :| 0 <= k < |init| && init[k].symbol == ks[i];
        FindLotExtend(init, x, ks[i]);
      }
      if x.symbol !in ks {
        FindLotAt(h, x.symbol, |init|);
      }
    }
  }

  /** The lots of `h` in symbol `s`, in order. */
  function LotsOf(h: seq<Lot>, s: string): seq<Lot> {
    if h == [] then []
    else LotsOf(h[..|h| - 1], s) + (if h[|h| - 1].symbol == s then [h[|h| - 1]] else [])
  }

  /** A symbol that is not a key has no lots. */
  lemma {:induction false} NotKeyNoLots(h: seq<Lot>, s: string)
    requires s !in SymbolsInOrder(h)
    ensures LotsOf(h, s) == []
  {
    if h != [] {
      NotKeyNoLots(h[..|h| - 1], s);
    }
  }

  /** The dictionary after adding every lot of `h`. */
  function Groups(h: seq<Lot>): map<string, seq<Lot>> {
    map s | s in SymbolsInOrder(h) :: LotsOf(h, s)
  }

  /** Adding one more lot appends it to its symbol's list, creating the list when it is new. */
  lemma GroupsLast(h: seq<Lot>)
    requires h != []
    ensures var g, x := Groups(h[..|h| - 1]), h[|h| - 1];
      && (x.symbol in g ==> Groups(h) == g[x.symbol := g[x.symbol] + [x]])
      && (x.symbol !in g ==> Groups(h) == g[x.symbol := [x]])
  {
    var init, x := h[..|h| - 1], h[|h| - 1];
    var g := Groups(init);
    if x.symbol in g {
      var r := g[x.symbol := g[x.symbol] + [x]];
      forall t ensures t in Groups(h) <==> t in r {
      }
      forall t | t in r ensures Groups(h)[t] == r[t] {
      }
    } else {
      NotKeyNoLots(init, x.symbol);
      var r := g[x.symbol := [x]];
      forall t ensures t in Groups(h) <==> t in r {
      }
      forall t | t in r ensures Groups(h)[t] == r[t] {
      }
    }
  }

  /** `AllStocks` as an object whose `AddStock` updates it in place. */
  class StockGroups {
    var keys: seq<string>
    var lists: map<string, seq<Lot>>

    ghost predicate Valid()
      reads this
    {
      && (forall i, j :: 0 <= i < j < |keys| ==> keys[i] != keys[j])
      && (forall s :: s in lists <==> s in keys)
    }

    constructor ()
      ensures Valid() && keys == [] && lists == map[]
    {
      keys := [];
      lists := map[];
    }

    /** Main.py:29-32: append the lot to its symbol's list, creating the list first if needed. */
    method AddStock(lot: Lot)
      requires Valid()
      modifies this
      ensures Valid()
      ensures keys == if lot.symbol in old(lists) then old(keys) else old(keys) + [lot.symbol]
      ensures lists == old(lists)[lot.symbol := (if lot.symbol in old(lists) then old(lists)[lot.symbol] else []) + [lot]]
    {
      if lot.symbol !in lists {
        lists := lists[lot.symbol := []];
        keys := keys + [lot.symbol];
      }
      lists := lists[lot.symbol := lists[lot.symbol] + [lot]];
    }
  }

  /** main.py:75-76: group every lot of `h` in turn. */
  method Group(h: seq<Lot>) returns (g: StockGroups)
    ensures fresh(g) && g.Valid()
    ensures g.keys == SymbolsInOrder(h) && g.lists == Groups(h)
  {
    g := new StockGroups();
    for i := 0 to |h|
      invariant g.Valid()
      invariant g.keys == SymbolsInOrder(h[..i]) && g.lists == Groups(h[..i])
    {
      GroupStep(h, i);
      g.AddStock(h[i]);
    }
    assert h[..|h|] == h;
  }

  /** The keys and lists after lot `i`, in the form `AddStock` states them. */
  lemma GroupStep(h: seq<Lot>, i: int)
    requires 0 <= i < |h|
    ensures var g, x := Groups(h[..i]), h[i];
      && (x.symbol in g <==> x.symbol in SymbolsInOrder(h[..i]))
      && SymbolsInOrder(h[..i + 1])
         == (if x.symbol in g then SymbolsInOrder(h[..i]) else SymbolsInOrder(h[..i]) + [x.symbol])
      && Groups(h[..i + 1]) == g[x.symbol := (if x.symbol in g then g[x.symbol] else []) + [x]]
  {
    assert h[..i + 1][..i] == h[..i];
    GroupsLast(h[..i + 1]);
  }

  // ----- totals over the priced groups -----

  /** What one lot adds: `UnrealisedReturn(price)` or `qty * price`. */
  datatype Measure = UnrealisedM | ValueM

  function LotTerm(lot: Lot, price: real, m: Measure): real {
    match m
    case UnrealisedM => UnrealisedReturn(lot, price)
    case ValueM => lot.qty * price
  }

  /** The measure summed over one symbol's list at its price. */
  function ListSum(lots: seq<Lot>, price: real, m: Measure): real {
    if lots == [] then 0.0 else ListSum(lots[..|lots| - 1], price, m) + LotTerm(lots[|lots| - 1], price, m)
  }

  /** The measure summed group by group, skipping keys without a price. */
  function GroupSum(keys: seq<string>, lists: map<string, seq<Lot>>, prices: map<string, real>, m: Measure): real {
    if keys == [] then 0.0
    else
      var k := keys[|keys| - 1];
      GroupSum(keys[..|keys| - 1], lists, prices, m)
        + (if k in prices && k in lists then ListSum(lists[k], prices[k], m) else 0.0)
  }

  /** The number of keys with a price: `stocks_with_data`. */
  function PricedKeys(keys: seq<string>, prices: map<string, real>): nat {
    if keys == [] then 0
    else PricedKeys(keys[..|keys| - 1], prices) + (if keys[|keys| - 1] in prices then 1 else 0)
  }

  /** No key is counted exactly when no key has a price. */
  lemma {:induction false} PricedKeysZero(keys: seq<string>, prices: map<string, real>)
    ensures PricedKeys(keys, prices) == 0 <==> forall i :: 0 <= i < |keys| ==> keys[i] !in prices
  {
    if keys != [] {
      var init := keys[..|keys| - 1];
      PricedKeysZero(init, prices);
      assert forall i :: 0 <= i < |init| ==> init[i] == keys[i];
    }
  }

  /** The measure summed lot by lot in list order over the lots with a price. */
  function FlatSum(h: seq<Lot>, prices: map<string, real>, m: Measure): real {
    if h == [] then 0.0
    else
      var x := h[|h| - 1];
      FlatSum(h[..|h| - 1], prices, m) + (if x.symbol in prices then LotTerm(x, prices[x.symbol], m) else 0.0)
  }

  /**
   * Main.py:64-70, main.py:125-135: the nested loops over the groups. Keys without a
   * price are skipped; every lot of every other key contributes.
   */
  method GroupTotals(g: StockGroups, prices: map<string, real>) returns (unrealised: real, value: real, withData: nat)
    requires g.Valid()
    ensures unrealised == GroupSum(g.keys, g.lists, prices, UnrealisedM)
    ensures value == GroupSum(g.keys, g.lists, prices, ValueM)
    ensures withData == PricedKeys(g.keys, prices)
  {
    unrealised, value, withData := 0.0, 0.0, 0;
    var keys := g.keys;
    for i := 0 to |keys|
      invariant unrealised == GroupSum(keys[..i], g.lists, prices, UnrealisedM)
      invariant value == GroupSum(keys[..i], g.lists, prices, ValueM)
      invariant withData == PricedKeys(keys[..i], prices)
    {
      var k := keys[i];
      assert keys[..i + 1][..i] == keys[..i];
      if k !in prices {
        continue;
      }
      var price := prices[k];
      withData := withData + 1;
      var stocks := g.lists[k];
      ghost var u0, v0 := unrealised, value;
      for j := 0 to |stocks|
        invariant unrealised == u0 + ListSum(stocks[..j], price, UnrealisedM)
        invariant value == v0 + ListSum(stocks[..j], price, ValueM)
      {
        assert stocks[..j + 1][..j] == stocks[..j];
        unrealised := unrealised + UnrealisedReturn(stocks[j], price);
        value := value + stocks[j].qty * price;
      }
      assert stocks[..|stocks|] == stocks;
    }
    assert keys[..|keys|] == keys;
  }

  /** Replacing the list of a symbol that is not among the keys leaves the grouped sum alone. */
  lemma {:induction false} GroupSumOther(keys: seq<string>, lists: map<string, seq<Lot>>, prices: map<string, real>,
                                         m: Measure, s: string, l: seq<Lot>)
    requires s !in keys
    ensures GroupSum(keys, lists[s := l], prices, m) == GroupSum(keys, lists, prices, m)
  {
    if keys != [] {
      GroupSumOther(keys[..|keys| - 1], lists, prices, m, s, l);
    }
  }

  /** Appending a lot to the list of a key adds that lot's part to the grouped sum when the key is priced. */
  lemma {:induction false} GroupSumAppend(keys: seq<string>, lists: map<string, seq<Lot>>, prices: map<string, real>,
                                          m: Measure, x: Lot)
    requires forall i, j :: 0 <= i < j < |keys| ==> keys[i] != keys[j]
    requires x.symbol in keys && x.symbol in lists
    ensures var s := x.symbol;
      GroupSum(keys, lists[s := lists[s] + [x]], prices, m)
        == GroupSum(keys, lists, prices, m) + (if s in prices then LotTerm(x, prices[s], m) else 0.0)
  {
    var s, init := x.symbol, keys[..|keys| - 1];
    var l := lists[s] + [x];
    assert l[..|l| - 1] == lists[s];
    if keys[|keys| - 1] == s {
      assert s !in init;
      GroupSumOther(init, lists, prices, m, s, l);
    } else {
      assert s in init;
      GroupSumAppend(init, lists, prices, m, x);
    }
  }

  /**
   * The grouped total equals the lot-by-lot total: summing group by group over the
   * priced symbols counts every lot of a priced symbol exactly once.
   */
  lemma {:induction false} GroupedIsFlat(h: seq<Lot>, prices: map<string, real>, m: Measure)
    ensures GroupSum(SymbolsInOrder(h), Groups(h), prices, m) == FlatSum(h, prices, m)
  {
    if h != [] {
      GroupedIsFlat(h[..|h| - 1], prices, m);
      GroupedStep(h, prices, m);
    }
  }

  /** One more lot adds its own part to the grouped sum, whichever way it is grouped. */
  lemma GroupedStep(h: seq<Lot>, prices: map<string, real>, m: Measure)
    requires h != []
    ensures var init, x := h[..|h| - 1], h[|h| - 1];
      GroupSum(SymbolsInOrder(h), Groups(h), prices, m)
        == GroupSum(SymbolsInOrder(init), Groups(init), prices, m)
           + (if x.symbol in prices then LotTerm(x, prices[x.symbol], m) else 0.0)
  {
    var init, x := h[..|h| - 1], h[|h| - 1];
    var ks, g := SymbolsInOrder(init), Groups(init);
    GroupsLast(h);
    if x.symbol in ks {
      assert x.symbol in g;
      assert SymbolsInOrder(h) == ks;
      assert Groups(h) == g[x.symbol := g[x.symbol] + [x]];
      GroupedOld(init, x, prices, m);
    } else {
      assert x.symbol !in g;
      assert SymbolsInOrder(h) == ks + [x.symbol];
      assert Groups(h) == g[x.symbol := [x]];
      GroupedNew(init, x, prices, m);
    }
  }

  /** The grouped sum after appending a lot of a symbol already grouped. */
  lemma GroupedOld(init: seq<Lot>, x: Lot, prices: map<string, real>, m: Measure)
    requires x.symbol in SymbolsInOrder(init)
    ensures var g := Groups(init);
      GroupSum(SymbolsInOrder(init), g[x.symbol := g[x.symbol] + [x]], prices, m)
        == GroupSum(SymbolsInOrder(init), g, prices, m) + (if x.symbol in prices then LotTerm(x, prices[x.symbol], m) else 0.0)
  {
    GroupSumAppend(SymbolsInOrder(init), Groups(init), prices, m, x);
  }

  /** The grouped sum after appending a lot of a new symbol, which becomes the last key. */
  lemma GroupedNew(init: seq<Lot>, x: Lot, prices: map<string, real>, m: Measure)
    requires x.symbol !in SymbolsInOrder(init)
    ensures var ks, g := SymbolsInOrder(init), Groups(init);
      GroupSum(ks + [x.symbol], g[x.symbol := [x]], prices, m)
        == GroupSum(ks, g, prices, m) + (if x.symbol in prices then LotTerm(x, prices[x.symbol], m) else 0.0)
  {
    var ks, g := SymbolsInOrder(init), Groups(init);
    var g' := g[x.symbol := [x]];
    assert (ks + [x.symbol])[..|ks|] == ks;
    assert [x][..0] == [];
    if x.symbol in prices {
      assert ListSum([x], prices[x.symbol], m) == LotTerm(x, prices[x.symbol], m);
    }
    assert GroupSum(ks + [x.symbol], g', prices, m)
      == GroupSum(ks, g', prices, m) + (if x.symbol in prices then ListSum([x], prices[x.symbol], m) else 0.0);
    GroupSumOther(ks, g, prices, m, x.symbol, [x]);
  }
}
