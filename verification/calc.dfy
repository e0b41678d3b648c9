/** The calculation phase of a portfolio node: `calc` rebuilds the holdings
    and `get_convert_symbols` lists the quotes the valuation will need
    (src/portfolio.py:123-209). */
module PortfolioCalc {
  import opened Wrappers
  import opened Spots
  import opened Holdings
  import opened OrderedMaps
  import opened Portfolios

  /** How one pair bucket moves the holding of `h`: its sold leg leaves, its
      bought leg arrives, and a pair whose legs share the symbol only counts as
      sold (the `elif` at portfolio.py:161). */
  function Contribution(h: string): Bucket -> real {
    (b: Bucket) => if b.legs.sellSpot.symbol == h then -b.legs.sellSpot.quantity
         else if b.legs.buySpot.symbol == h then b.legs.buySpot.quantity
         else 0.0
  }

  /** How many transactions one pair bucket credits to the holding of `h`;
      each leg with that symbol credits the bucket's whole list. */
  function PairCount(h: string): Bucket -> real {
    (b: Bucket) => (if b.legs.sellSpot.symbol == h then |b.transactions| as real else 0.0)
       + (if b.legs.buySpot.symbol == h then |b.transactions| as real else 0.0)
  }

  function SpotCount(h: string): SpotEntry -> real {
    (e: SpotEntry) => if e.spot.symbol == h then e.trxCount as real else 0.0
  }

  /** The net quantity all pair buckets of the node contribute to `h`. */
  function PairNet(p: Portfolio, h: string): real
    requires NodeValid(p)
  {
    Sum(p.pairs.keys, p.pairs.items, Contribution(h))
  }

  /** The single-asset bucket of `h`, if any. */
  function SpotNet(p: Portfolio, h: string): real {
    if h in p.spots.items then p.spots.items[h].spot.quantity else 0.0
  }

  /** Both leg symbols of the buckets under `keys`. */
  function LegSymbols(keys: seq<string>, pairs: map<string, Bucket>): set<string>
    requires Covers(keys, pairs)
  {
    if keys == [] then {}
    else
      var b := pairs[keys[|keys| - 1]];
      LegSymbols(keys[..|keys| - 1], pairs) + {b.legs.sellSpot.symbol, b.legs.buySpot.symbol}
  }

  lemma {:induction false} LegSymbolsCover(keys: seq<string>, pairs: map<string, Bucket>, k: string)
    requires Covers(keys, pairs) && k in keys
    ensures pairs[k].legs.sellSpot.symbol in LegSymbols(keys, pairs)
    ensures pairs[k].legs.buySpot.symbol in LegSymbols(keys, pairs)
  {
    var init := keys[..|keys| - 1];
    if keys[|keys| - 1] != k {
      assert k in init by {
        var i :| 0 <= i < |keys| && keys[i] == k;
        assert init[i] == k;
      }
      LegSymbolsCover(init, pairs, k);
    }
  }

  /** A holding as `Holding(symbol)` creates it: no quantity, quote, value or profit. */
  ghost predicate Fresh(h: Holding) {
    h.Quantity() == 0.0 && h.quote == 0.0 && h.value == Some(0.0) && h.profit == 0.0
  }

  /** Holdings under construction: well formed, keyed by symbol, all fresh. */
  ghost predicate Seeded(acc: OMap<Holding>) {
    && Valid(acc)
    && forall k :: k in acc.items ==> acc.items[k].Symbol() == k && Fresh(acc.items[k])
  }

  function Credited(acc: OMap<Holding>, h: string): real {
    if h in acc.items then acc.items[h].trxCount as real else 0.0
  }

  /** Get-or-create the holding of `s`, then credit it `n` transactions. */
  function Touch(acc: OMap<Holding>, s: string, n: nat): (r: OMap<Holding>)
    requires Seeded(acc)
    ensures Seeded(r)
    ensures r.items.Keys == acc.items.Keys + {s}
    ensures forall h :: Credited(r, h) == Credited(acc, h) + (if h == s then n as real else 0.0)
  {
    var h := if s in acc.items then acc.items[s] else ZeroHolding(s);
    Put(acc, s, AddTrxCount(h, n))
  }

  /** Touching both legs of a bucket credits each leg symbol the bucket's transactions. */
  lemma TouchLegs(acc: OMap<Holding>, b: Bucket, h: string)
    requires Seeded(acc)
    ensures var n := |b.transactions|;
      Credited(Touch(Touch(acc, b.legs.sellSpot.symbol, n), b.legs.buySpot.symbol, n), h)
        == Credited(acc, h) + PairCount(h)(b)
  {
  }

  /** The first loop of `calc` (portfolio.py:128-139), over the pair buckets in order. */
  function SeedFromPairs(keys: seq<string>, pairs: map<string, Bucket>): (r: OMap<Holding>)
    requires Covers(keys, pairs)
    ensures Seeded(r)
    ensures r.items.Keys == LegSymbols(keys, pairs)
    ensures forall h :: Credited(r, h) == Sum(keys, pairs, PairCount(h))
  {
    if keys == [] then Empty()
    else
      var init := keys[..|keys| - 1];
      var b := pairs[keys[|keys| - 1]];
      var n := |b.transactions|;
      var prev := SeedFromPairs(init, pairs);
      var r := Touch(Touch(prev, b.legs.sellSpot.symbol, n), b.legs.buySpot.symbol, n);
      forall h ensures Credited(r, h) == Sum(keys, pairs, PairCount(h)) {
        TouchLegs(prev, b, h);
      }
      r
  }

  /** The second loop of `calc` (portfolio.py:141-146), over the spot buckets in order. */
  function SeedFromSpots(keys: seq<string>, spots: map<string, SpotEntry>, acc: OMap<Holding>): (r: OMap<Holding>)
    requires Covers(keys, spots) && Seeded(acc)
    requires forall k :: k in spots ==> spots[k].spot.symbol == k
    ensures Seeded(r)
    ensures r.items.Keys == acc.items.Keys + set k | k in keys
    ensures forall h :: Credited(r, h) == Credited(acc, h) + Sum(keys, spots, SpotCount(h))
  {
    if keys == [] then acc
    else
      var e := spots[keys[|keys| - 1]];
      Touch(SeedFromSpots(keys[..|keys| - 1], spots, acc), e.spot.symbol, e.trxCount)
  }

  /** The third loop of `calc` (portfolio.py:158-166) applied to one holding:
      subtract matching sold legs, add matching bought legs, add the matching
      single-asset bucket. */
  function Settle(p: Portfolio, h: Holding): (r: Holding)
    requires NodeValid(p)
    ensures r == h.(spot := r.spot) && r.Symbol() == h.Symbol()
    ensures r.Quantity() == h.Quantity() + PairNet(p, h.Symbol()) + SpotNet(p, h.Symbol())
  {
    h.(spot := h.spot.(quantity := h.Quantity() + PairNet(p, h.Symbol()) + SpotNet(p, h.Symbol())))
  }

  /** The first two loops of `calc`: every holding created fresh and credited
      with its transaction count. */
  function Seed(p: Portfolio): (r: OMap<Holding>)
    requires NodeValid(p)
    ensures Seeded(r)
    ensures r.items.Keys == LegSymbols(p.pairs.keys, p.pairs.items) + p.spots.items.Keys
    ensures forall h ::
      Credited(r, h) == Sum(p.pairs.keys, p.pairs.items, PairCount(h)) + Sum(p.spots.keys, p.spots.items, SpotCount(h))
  {
    SeedFromSpots(p.spots.keys, p.spots.items, SeedFromPairs(p.pairs.keys, p.pairs.items))
  }

  /** The third loop of `calc` over all seeded holdings, keeping their order. */
  function SettleAll(p: Portfolio, seeded: OMap<Holding>): (r: OMap<Holding>)
    requires NodeValid(p) && Seeded(seeded)
    ensures Valid(r) && r.keys == seeded.keys && r.items.Keys == seeded.items.Keys
    ensures forall h :: h in r.items ==>
      var x := r.items[h];
      && x.Symbol() == h
      && x.Quantity() == PairNet(p, h) + SpotNet(p, h)
      && x.quote == 0.0 && x.value == Some(0.0) && x.profit == 0.0
      && x.trxCount as real == Credited(seeded, h)
  {
    OMap(seeded.keys, map h | h in seeded.items :: Settle(p, seeded.items[h]))
  }

  /** `calc(convert)`. The source calls `calc()` on every child without the
      required argument, so a node with children raises before changing
      anything. A childless node gets holdings rebuilt from scratch: one per
      leg symbol of its pairs and per single-asset symbol, fees excluded, each
      holding the net signed quantity. The reporting-currency holding is
      captured as `cost` before its quantity is accumulated. */
  function Calc(p: Portfolio, convert: string): (r: Result<Portfolio>)
    requires NodeValid(p)
    ensures r.Ok? <==> p.subs == []
    ensures r.Err? ==> r.error == MissingConvertArgument
    ensures r.Ok? ==> NodeValid(r.value)
    ensures r.Ok? ==> r.value == p.(holdings := r.value.holdings, cost := r.value.cost)
    ensures r.Ok? ==>
      r.value.holdings.items.Keys == LegSymbols(p.pairs.keys, p.pairs.items) + p.spots.items.Keys
    ensures r.Ok? ==> forall h :: h in r.value.holdings.items ==>
      var x := r.value.holdings.items[h];
      && x.Quantity() == PairNet(p, h) + SpotNet(p, h)
      && x.quote == 0.0 && x.value == Some(0.0) && x.profit == 0.0
      && x.trxCount as real ==
           Sum(p.pairs.keys, p.pairs.items, PairCount(h)) + Sum(p.spots.keys, p.spots.items, SpotCount(h))
    ensures r.Ok? ==>
      r.value.cost == if convert in r.value.holdings.items then Some(Spot(convert, 0.0)) else p.cost
  {
    if p.subs != [] then Err(MissingConvertArgument)
    else
      var seeded := Seed(p);
      var cost := if convert in seeded.items
                  then Some(NewSpot(convert, seeded.items[convert].Quantity() * -1.0))
                  else p.cost;
      Ok(p.(holdings := SettleAll(p, seeded), cost := cost))
  }

  /** `symbols[sym]` lists `val`. */
  predicate Listed(m: OMap<seq<string>>, sym: string, val: string) {
    sym in m.items && val in m.items[sym]
  }

  /** No list of the result holds a symbol twice. */
  ghost predicate NoDuplicates(m: OMap<seq<string>>) {
    forall k :: k in m.items ==> Distinct(m.items[k])
  }

  /** The nested `add(sym, val)` of `get_convert_symbols`: create the list if
      needed, append the value unless it is already there. */
  function AddListed(m: OMap<seq<string>>, sym: string, val: string): (r: OMap<seq<string>>)
    requires Valid(m) && NoDuplicates(m)
    ensures Valid(r) && NoDuplicates(r)
    ensures r.items.Keys == m.items.Keys + {sym}
    ensures forall x, y :: Listed(r, x, y) <==> Listed(m, x, y) || (x == sym && y == val)
  {
    var l := if sym in m.items then m.items[sym] else [];
    if val in l then m else Put(m, sym, l + [val])
  }

  /** The pair rule: a pair with a reporting-currency leg lists its other leg
      under the reporting currency; any other pair lists its bought symbol
      under its sold symbol. */
  predicate PairRule(b: Bucket, convert: string, x: string, y: string) {
    var s := b.legs.sellSpot.symbol;
    var t := b.legs.buySpot.symbol;
    if t == convert && s != convert then x == convert && y == s else x == s && y == t
  }

  /** One more pair key extends what the pair rule lists by that pair's entry. */
  lemma ListedStep(keys: seq<string>, init: seq<string>, pairs: map<string, Bucket>, convert: string,
                   acc: OMap<seq<string>>, r: OMap<seq<string>>)
    requires Covers(keys, pairs) && keys != [] && init == keys[..|keys| - 1]
    requires forall x, y :: Listed(acc, x, y) <==>
      exists i :: 0 <= i < |init| && PairRule(pairs[init[i]], convert, x, y)
    requires forall x, y :: Listed(r, x, y) <==> Listed(acc, x, y) || PairRule(pairs[keys[|keys| - 1]], convert, x, y)
    ensures forall x, y :: Listed(r, x, y) <==> exists i :: 0 <= i < |keys| && PairRule(pairs[keys[i]], convert, x, y)
  {
    forall x, y
      ensures Listed(r, x, y) <==> exists i :: 0 <= i < |keys| && PairRule(pairs[keys[i]], convert, x, y)
    {
      if Listed(acc, x, y) {
        var i :| 0 <= i < |init| && PairRule(pairs[init[i]], convert, x, y);
        assert keys[i] == init[i];
      }
      if exists i :: 0 <= i < |keys| && PairRule(pairs[keys[i]], convert, x, y) {
        var i :| 0 <= i < |keys| && PairRule(pairs[keys[i]], convert, x, y);
        if i < |init| {
          assert init[i] == keys[i];
        }
      }
    }
  }

  function ListPairs(keys: seq<string>, pairs: map<string, Bucket>, convert: string): (r: OMap<seq<string>>)
    requires Covers(keys, pairs)
    ensures Valid(r) && NoDuplicates(r)
    ensures forall x, y :: Listed(r, x, y) <==>
      exists i :: 0 <= i < |keys| && PairRule(pairs[keys[i]], convert, x, y)
  {
    if keys == [] then Empty()
    else
      var init := keys[..|keys| - 1];
      var acc := ListPairs(init, pairs, convert);
      var b := pairs[keys[|keys| - 1]];
      var s := b.legs.sellSpot.symbol;
      var t := b.legs.buySpot.symbol;
      var r := if s != convert && t != convert then AddListed(acc, s, t)
               else if s == convert then AddListed(acc, s, t)
               else AddListed(acc, t, s);
      assert forall x, y :: Listed(r, x, y) <==> Listed(acc, x, y) || PairRule(b, convert, x, y);
      ListedStep(keys, init, pairs, convert, acc, r);
      r
  }

  /** Lists every symbol in `syms` under the reporting currency, except the
      reporting currency itself when `skipConvert` holds. */
  function ListUnder(acc: OMap<seq<string>>, syms: seq<string>, convert: string, skipConvert: bool): (r: OMap<seq<string>>)
    requires Valid(acc) && NoDuplicates(acc)
    ensures Valid(r) && NoDuplicates(r)
    ensures forall x, y :: Listed(r, x, y) <==>
      Listed(acc, x, y) || (x == convert && y in syms && !(skipConvert && y == convert))
  {
    if syms == [] then acc
    else
      var init := syms[..|syms| - 1];
      var y := syms[|syms| - 1];
      var r0 := ListUnder(acc, init, convert, skipConvert);
      assert forall z :: z in syms <==> z in init || z == y by {
        assert syms == init + [y];
      }
      if skipConvert && y == convert then r0 else AddListed(r0, convert, y)
  }

  function SpotSymbols(keys: seq<string>, spots: map<string, SpotEntry>): (r: seq<string>)
    requires Covers(keys, spots)
    ensures |r| == |keys| && forall i :: 0 <= i < |keys| ==> r[i] == spots[keys[i]].spot.symbol
  {
    seq(|keys|, i requires 0 <= i < |keys| => spots[keys[i]].spot.symbol)
  }

  function HoldingSymbols(keys: seq<string>, hs: map<string, Holding>): (r: seq<string>)
    requires Covers(keys, hs)
    ensures |r| == |keys| && forall i :: 0 <= i < |keys| ==> r[i] == hs[keys[i]].Symbol()
  {
    seq(|keys|, i requires 0 <= i < |keys| => hs[keys[i]].Symbol())
  }

  function FeeSymbols(keys: seq<string>, fees: map<string, Spot>): (r: seq<string>)
    requires Covers(keys, fees)
    ensures |r| == |keys| && forall i :: 0 <= i < |keys| ==> r[i] == fees[keys[i]].symbol
  {
    seq(|keys|, i requires 0 <= i < |keys| => fees[keys[i]].symbol)
  }

  /** Every quote the valuation of the node may read, as `get_convert_symbols` would list it. */
  ghost predicate Wanted(p: Portfolio, convert: string, x: string, y: string) {
    || (exists k :: k in p.pairs.items && PairRule(p.pairs.items[k], convert, x, y))
    || (x == convert && y in p.spots.items)
    || (x == convert && y != convert && y in p.holdings.items)
    || (x == convert && y != convert && y in p.fees.items)
  }

  /** `get_convert_symbols(convert)`: pairs by the pair rule, then every spot
      symbol, then holding and fee symbols other than the reporting currency,
      all under the reporting currency; no list repeats a symbol. */
  function GetConvertSymbols(p: Portfolio, convert: string): (r: OMap<seq<string>>)
    requires NodeValid(p)
    ensures Valid(r) && NoDuplicates(r)
    ensures forall x, y :: Listed(r, x, y) <==> Wanted(p, convert, x, y)
  {
    var fromPairs := ListPairs(p.pairs.keys, p.pairs.items, convert);
    var fromSpots := ListUnder(fromPairs, SpotSymbols(p.spots.keys, p.spots.items), convert, false);
    var fromHoldings := ListUnder(fromSpots, HoldingSymbols(p.holdings.keys, p.holdings.items), convert, true);
    var r := ListUnder(fromHoldings, FeeSymbols(p.fees.keys, p.fees.items), convert, true);
    assert forall x, y :: Listed(r, x, y) <==> Wanted(p, convert, x, y) by {
      forall x, y
        ensures Listed(r, x, y) <==> Wanted(p, convert, x, y)
      {
        SymbolsOfKeys(p, y);
        PairRuleByKey(p, convert, x, y);
      }
    }
    r
  }

  /** Over the ordered keys or over the dictionary, the same pairs pass the pair rule. */
  lemma PairRuleByKey(p: Portfolio, convert: string, x: string, y: string)
    requires NodeValid(p)
    ensures (exists i :: 0 <= i < |p.pairs.keys| && PairRule(p.pairs.items[p.pairs.keys[i]], convert, x, y))
        <==> (exists k :: k in p.pairs.items && PairRule(p.pairs.items[k], convert, x, y))
  {
    if exists i :: 0 <= i < |p.pairs.keys| && PairRule(p.pairs.items[p.pairs.keys[i]], convert, x, y) {
      var i :| 0 <= i < |p.pairs.keys| && PairRule(p.pairs.items[p.pairs.keys[i]], convert, x, y);
      assert p.pairs.keys[i] in p.pairs.items;
    }
    if exists k :: k in p.pairs.items && PairRule(p.pairs.items[k], convert, x, y) {
      var k :| k in p.pairs.items && PairRule(p.pairs.items[k], convert, x, y);
      var i :| 0 <= i < |p.pairs.keys| && p.pairs.keys[i] == k;
    }
  }

  /** In a valid node a symbol is listed by a dictionary's values exactly when it is one of its keys. */
  lemma SymbolsOfKeys(p: Portfolio, y: string)
    requires NodeValid(p)
    ensures y in SpotSymbols(p.spots.keys, p.spots.items) <==> y in p.spots.items
    ensures y in HoldingSymbols(p.holdings.keys, p.holdings.items) <==> y in p.holdings.items
    ensures y in FeeSymbols(p.fees.keys, p.fees.items) <==> y in p.fees.items
  {
    var ss := SpotSymbols(p.spots.keys, p.spots.items);
    if y in p.spots.items {
      var i :| 0 <= i < |p.spots.keys| && p.spots.keys[i] == y;
      assert ss[i] == y;
    }
    var hs := HoldingSymbols(p.holdings.keys, p.holdings.items);
    if y in p.holdings.items {
      var i :| 0 <= i < |p.holdings.keys| && p.holdings.keys[i] == y;
      assert hs[i] == y;
    }
    var fs := FeeSymbols(p.fees.keys, p.fees.items);
    if y in p.fees.items {
      var i :| 0 <= i < |p.fees.keys| && p.fees.keys[i] == y;
      assert fs[i] == y;
    }
  }
}
