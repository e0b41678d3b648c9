/** The valuation phase of a portfolio node: `quotes` prices every
    transaction, every holding and every fee against a reporting currency
    (src/portfolio.py:211-301).

    Every `quotes.get` may raise. A raise stops the pass, and whatever was
    written before it stays written, so each step returns its result
    together with the error it raised, if any. */
module Valuation {
  import opened Wrappers
  import opened Spots
  import opened Holdings
  import opened Transactions
  import opened OrderedMaps
  import opened QuoteTables
  import opened Portfolios

  /** A value computed up to the first raise, and that raise. */
  datatype Outcome<T> = Outcome(value: T, raised: Option<Error>)

  /** The table can convert `sym` into the reporting currency `c`. */
  predicate Quoted(q: Quotes, c: string, sym: string) {
    Get(q, c, sym).Ok?
  }

  /** The price of one unit of `sym` in `c`, where the table has one. */
  function Price(q: Quotes, c: string, sym: string): (r: real)
    requires Quoted(q, c, sym)
    ensures Get(q, c, sym) == Ok(r)
  {
    Get(q, c, sym).value
  }

  /** What an amount of one symbol is worth in `c` at the table's price. */
  function Worth(q: Quotes, c: string, sp: Spot): real
    requires Quoted(q, c, sp.symbol)
  {
    Price(q, c, sp.symbol) * sp.quantity
  }

  /** The conditions under which valuing `t` raises nothing: a pair needs its
      bought leg quoted and, unless its sold leg is the reporting currency,
      a bought leg other than the reporting currency and a quoted sold leg;
      a single-asset transaction needs its symbol quoted and an `in` or `out`
      type. */
  predicate Valuable(t: Transaction, q: Quotes, c: string) {
    match t.kind
    case PairKind(_, _, legs) =>
      && Quoted(q, c, legs.buySpot.symbol)
      && (legs.sellSpot.symbol == c
          || (legs.buySpot.symbol != c && Quoted(q, c, legs.sellSpot.symbol)))
    case SpotKind(sp) =>
      Quoted(q, c, sp.symbol) && (t.ttype == IN || t.ttype == OUT)
  }

  /** One iteration of the transaction loop (portfolio.py:218-269). `m` holds
      what earlier passes wrote onto the transaction. */
  function ValueTrx(m: Marks, t: Transaction, q: Quotes, c: string): (v: Outcome<Marks>)
    ensures v.raised.None? <==> Valuable(t, q, c)
    ensures t.IsPair() && v.raised.None? ==>
      && v.value.cprice == Some(Price(q, c, t.kind.pair.buySpot.symbol))
      && v.value.value == Some(Worth(q, c, t.kind.pair.buySpot))
      && v.value.profit == Some(v.value.value.value - Worth(q, c, t.kind.pair.sellSpot))
      && v.value.price == m.price
    ensures t.IsPair() && t.kind.pair.buySpot.symbol == c && t.kind.pair.sellSpot.symbol != c ==>
      v == Outcome(m.(cprice := Some(1.0)), Some(NotImplemented))
    ensures !t.IsPair() && Quoted(q, c, t.kind.spot.symbol) ==>
      && v.value.price == Some(Price(q, c, t.kind.spot.symbol))
      && v.value.value == Some(Worth(q, c, t.kind.spot))
      && v.value.profit == Some(if t.ttype == OUT then -v.value.value.value else v.value.value.value)
      && v.value.cprice == m.cprice
      && (v.raised.Some? ==> v.raised.value == UnknownTransactionType(t.ttype))
    ensures !Quoted(q, c, if t.IsPair() then t.kind.pair.buySpot.symbol else t.kind.spot.symbol) ==>
      v.value == m && v.raised.Some?
  {
    match t.kind
    case PairKind(_, _, legs) =>
      var s := legs.sellSpot;
      var b := legs.buySpot;
      var cprice := Get(q, c, b.symbol);
      if cprice.Err? then Outcome(m, Some(cprice.error))
      else
        assert b == t.kind.pair.buySpot && s == t.kind.pair.sellSpot;
        assert cprice.value == Price(q, c, b.symbol);
        var m1 := m.(cprice := Some(cprice.value));
        if s.symbol == c then
          var cquote := Get(q, c, b.symbol).value;
          var value := cquote * b.quantity;
          assert value == Worth(q, c, t.kind.pair.buySpot);
          assert s.quantity == Worth(q, c, t.kind.pair.sellSpot) by {
            assert Price(q, c, s.symbol) == 1.0;
          }
          Outcome(m1.(value := Some(value), profit := Some(value - s.quantity)), None)
        else if b.symbol == c then
          Outcome(m1, Some(NotImplemented))
        else
          var squote := Get(q, c, s.symbol);
          if squote.Err? then Outcome(m1, Some(squote.error))
          else
            assert squote.value == Price(q, c, s.symbol);
            var svalue := squote.value * s.quantity;
            var bvalue := cprice.value * b.quantity;
            assert bvalue == Worth(q, c, t.kind.pair.buySpot);
            assert svalue == Worth(q, c, t.kind.pair.sellSpot);
            Outcome(m1.(value := Some(bvalue), profit := Some(bvalue - svalue)), None)
    case SpotKind(sp) =>
      var quote := Get(q, c, sp.symbol);
      if quote.Err? then Outcome(m, Some(quote.error))
      else
        assert sp == t.kind.spot && quote.value == Price(q, c, sp.symbol);
        var value := quote.value * sp.quantity;
        var m1 := m.(price := Some(quote.value), value := Some(value), profit := Some(value));
        assert value == Worth(q, c, t.kind.spot);
        if t.ttype == IN then Outcome(m1, None)
        else if t.ttype == OUT then Outcome(m1.(profit := Some(-value)), None)
        else Outcome(m1, Some(UnknownTransactionType(t.ttype)))
  }

  /** The marks a transaction carries before this pass: those of an earlier
      pass, or none. */
  function MarksAt(prev: seq<Marks>, i: nat): Marks {
    if i < |prev| then prev[i] else NoMarks
  }

  /** What valuing transaction `k` on its own writes onto it. */
  function Revalued(prev: seq<Marks>, ts: seq<Transaction>, q: Quotes, c: string, k: nat): Marks
    requires k < |ts|
  {
    ValueTrx(MarksAt(prev, k), ts[k], q, c).value
  }

  /** The first `j` transactions were valued without a raise. */
  ghost predicate ValuedPrefix(prev: seq<Marks>, ts: seq<Transaction>, q: Quotes, c: string, marks: seq<Marks>, j: nat)
    requires j <= |ts| && j <= |marks|
  {
    forall k :: 0 <= k < j ==> Valuable(ts[k], q, c) && marks[k] == Revalued(prev, ts, q, c, k)
  }

  /** Transaction `j` is the first that raises: those before it are valued,
      it carries what was written before its raise, and those after it keep
      their earlier marks. */
  ghost predicate FirstFailure(prev: seq<Marks>, ts: seq<Transaction>, q: Quotes, c: string, j: nat, r: Outcome<seq<Marks>>)
    requires j < |ts| && |r.value| == |ts|
  {
    && ValuedPrefix(prev, ts, q, c, r.value, j)
    && !Valuable(ts[j], q, c)
    && r.value[j] == Revalued(prev, ts, q, c, j)
    && r.raised == ValueTrx(MarksAt(prev, j), ts[j], q, c).raised
    && (forall k :: j < k < |ts| ==> r.value[k] == MarksAt(prev, k))
  }

  /** The transaction loop from index `i` on, `acc` holding the marks of the
      transactions before `i`. */
  function ValueFrom(prev: seq<Marks>, ts: seq<Transaction>, q: Quotes, c: string, i: nat, acc: seq<Marks>): (r: Outcome<seq<Marks>>)
    requires i <= |ts| && |acc| == i && ValuedPrefix(prev, ts, q, c, acc, i)
    ensures |r.value| == |ts|
    ensures r.raised.None? <==> forall k :: i <= k < |ts| ==> Valuable(ts[k], q, c)
    ensures r.raised.None? ==> ValuedPrefix(prev, ts, q, c, r.value, |ts|)
    ensures r.raised.Some? ==> exists j :: i <= j < |ts| && FirstFailure(prev, ts, q, c, j, r)
    decreases |ts| - i
  {
    if i == |ts| then Outcome(acc, None)
    else
      var v := ValueTrx(MarksAt(prev, i), ts[i], q, c);
      if v.raised.Some? then FailAt(prev, ts, q, c, i, acc)
      else
        ExtendPrefix(prev, ts, q, c, i, acc);
        ValueFrom(prev, ts, q, c, i + 1, acc + [v.value])
  }

  /** The loop's outcome when position `i` is the first to fail: the marks so
      far, the partial marks of the failing transaction, the rest untouched. */
  function FailAt(prev: seq<Marks>, ts: seq<Transaction>, q: Quotes, c: string, i: nat, acc: seq<Marks>): (r: Outcome<seq<Marks>>)
    requires i < |ts| && |acc| == i && ValuedPrefix(prev, ts, q, c, acc, i)
    requires ValueTrx(MarksAt(prev, i), ts[i], q, c).raised.Some?
    ensures |r.value| == |ts| && FirstFailure(prev, ts, q, c, i, r)
  {
    var v := ValueTrx(MarksAt(prev, i), ts[i], q, c);
    Outcome(acc + [v.value] + seq(|ts| - i - 1, k requires 0 <= k => MarksAt(prev, i + 1 + k)), v.raised)
  }

  /** A successfully valued transaction extends the valued prefix by one. */
  lemma ExtendPrefix(prev: seq<Marks>, ts: seq<Transaction>, q: Quotes, c: string, i: nat, acc: seq<Marks>)
    requires i < |ts| && |acc| == i && ValuedPrefix(prev, ts, q, c, acc, i)
    requires ValueTrx(MarksAt(prev, i), ts[i], q, c).raised.None?
    ensures ValuedPrefix(prev, ts, q, c, acc + [ValueTrx(MarksAt(prev, i), ts[i], q, c).value], i + 1)
  {
  }

  /** The whole transaction loop (portfolio.py:218-269): every transaction in
      order until the first raise. */
  function ValueAll(prev: seq<Marks>, ts: seq<Transaction>, q: Quotes, c: string): (r: Outcome<seq<Marks>>)
    ensures |r.value| == |ts|
    ensures r.raised.None? <==> forall k :: 0 <= k < |ts| ==> Valuable(ts[k], q, c)
    ensures r.raised.None? ==> forall k :: 0 <= k < |ts| ==> r.value[k] == Revalued(prev, ts, q, c, k)
    ensures r.raised.Some? ==> exists j :: 0 <= j < |ts| && FirstFailure(prev, ts, q, c, j, r)
  {
    ValueFrom(prev, ts, q, c, 0, [])
  }

  /** One iteration of the holdings loop: the reporting currency and
      unquoted symbols stay as they are, any other holding gets its quote and
      its value at that quote. */
  function Requoted(h: Holding, q: Quotes, c: string): Holding {
    if h.Symbol() == c || !Quoted(q, c, h.Symbol()) then h
    else h.(quote := Price(q, c, h.Symbol()), value := Some(Worth(q, c, h.spot)))
  }

  /** The holdings loop raised at key `j`: every earlier holding had a quote
      and was re-quoted, the holding at `j` is the first without one and its
      error is the one raised, and `j` and every later holding are as they
      were. */
  ghost predicate HoldingsFailAt(keys: seq<string>, items: map<string, Holding>, q: Quotes, c: string, j: nat,
                                 r: Outcome<map<string, Holding>>)
    requires Covers(keys, items) && j < |keys| && r.value.Keys == items.Keys
  {
    && (forall i :: 0 <= i < j ==> Quoted(q, c, items[keys[i]].Symbol()) && r.value[keys[i]] == Requoted(items[keys[i]], q, c))
    && !Quoted(q, c, items[keys[j]].Symbol())
    && r.raised == Some(Get(q, c, items[keys[j]].Symbol()).error)
    && (forall i :: j <= i < |keys| ==> r.value[keys[i]] == items[keys[i]])
  }

  /** A failure in the first keys is still the failure once one more key,
      not yet visited, follows. */
  lemma HoldingsFailExtend(init: seq<string>, k: string, items: map<string, Holding>, q: Quotes, c: string,
                           r: Outcome<map<string, Holding>>)
    requires Covers(init + [k], items) && r.value.Keys == items.Keys
    requires (exists j :: 0 <= j < |init| && HoldingsFailAt(init, items, q, c, j, r)) && r.value[k] == items[k]
    ensures exists j :: 0 <= j < |init| + 1 && HoldingsFailAt(init + [k], items, q, c, j, r)
  {
    var j :| 0 <= j < |init| && HoldingsFailAt(init, items, q, c, j, r);
    var keys := init + [k];
    assert forall i :: 0 <= i < |init| ==> keys[i] == init[i];
    assert HoldingsFailAt(keys, items, q, c, j, r);
  }

  /** The holdings loop (portfolio.py:280-287) over `keys` in order, until
      the first symbol without a quote. */
  function QuoteHoldings(keys: seq<string>, items: map<string, Holding>, q: Quotes, c: string): (r: Outcome<map<string, Holding>>)
    requires Covers(keys, items) && Distinct(keys)
    ensures r.value.Keys == items.Keys
    ensures r.raised.None? <==> forall k :: k in keys ==> items[k].Symbol() == c || Quoted(q, c, items[k].Symbol())
    ensures forall k :: k in items && k !in keys ==> r.value[k] == items[k]
    ensures forall k :: k in keys ==> r.value[k] == items[k] || r.value[k] == Requoted(items[k], q, c)
    ensures r.raised.None? ==> forall k :: k in keys ==> r.value[k] == Requoted(items[k], q, c)
    ensures r.raised.Some? ==> exists k :: k in keys && Get(q, c, items[k].Symbol()).Err? && r.raised == Some(Get(q, c, items[k].Symbol()).error)
    ensures r.raised.Some? ==> exists j :: 0 <= j < |keys| && HoldingsFailAt(keys, items, q, c, j, r)
  {
    if keys == [] then Outcome(items, None)
    else
      var init := keys[..|keys| - 1];
      var k := keys[|keys| - 1];
      assert forall x :: x in keys <==> x in init || x == k;
      assert k !in init by {
        forall i | 0 <= i < |init| ensures init[i] != k {
          assert keys[i] != keys[|keys| - 1];
        }
      }
      assert Distinct(init) by {
        forall i, j | 0 <= i < j < |init| ensures init[i] != init[j] {
          assert keys[i] != keys[j];
        }
      }
      assert keys == init + [k];
      var r := QuoteHoldings(init, items, q, c);
      if r.raised.Some? then
        HoldingsFailExtend(init, k, items, q, c, r);
        r
      else
        var h := r.value[k];
        if h.Symbol() == c then r
        else
          var g := Get(q, c, h.Symbol());
          if g.Err? then
            assert HoldingsFailAt(keys, items, q, c, |init|, Outcome(r.value, Some(g.error)));
            Outcome(r.value, Some(g.error))
          else
            assert h == items[k];
            Outcome(r.value[k := Requoted(h, q, c)], None)
  }

  /** What one fee adds to `fee_value`: its quantity converted at the table's
      price. A fee in the reporting currency converts at `1.0`, so this is the
      source's face-value special case too. */
  function FeeWorth(q: Quotes, c: string): Spot -> real {
    (f: Spot) => if Quoted(q, c, f.symbol) then Worth(q, c, f) else 0.0
  }

  /** The fee loop raised at key `j`: every earlier fee had a quote, the fee
      at `j` is the first without one and its error is the one raised, and
      the running total is `base` plus the earlier fees' worth. */
  ghost predicate FeesFailAt(keys: seq<string>, fees: map<string, Spot>, q: Quotes, c: string, j: nat, base: real, r: Outcome<real>)
    requires Covers(keys, fees) && j < |keys|
  {
    && (forall i :: 0 <= i < j ==> Quoted(q, c, fees[keys[i]].symbol))
    && !Quoted(q, c, fees[keys[j]].symbol)
    && r.raised == Some(Get(q, c, fees[keys[j]].symbol).error)
    && Covers(keys[..j], fees) && r.value == base + Sum(keys[..j], fees, FeeWorth(q, c))
  }

  /** A failure in the first keys is still the failure once one more key
      follows. */
  lemma FeesFailExtend(init: seq<string>, k: string, fees: map<string, Spot>, q: Quotes, c: string, r: Outcome<real>)
    requires Covers(init + [k], fees)
    requires exists j :: 0 <= j < |init| && FeesFailAt(init, fees, q, c, j, 0.0, r)
    ensures exists j :: 0 <= j < |init| + 1 && FeesFailAt(init + [k], fees, q, c, j, 0.0, r)
  {
    var j :| 0 <= j < |init| && FeesFailAt(init, fees, q, c, j, 0.0, r);
    var keys := init + [k];
    assert forall i :: 0 <= i < |init| ==> keys[i] == init[i];
    assert keys[..j] == init[..j];
    assert FeesFailAt(keys, fees, q, c, j, 0.0, r);
  }

  /** The fee loop (portfolio.py:294-301): the amount added to `fee_value`
      up to the first fee without a quote. */
  function FeeValue(keys: seq<string>, fees: map<string, Spot>, q: Quotes, c: string): (r: Outcome<real>)
    requires Covers(keys, fees)
    ensures r.raised.None? <==> forall k :: k in keys ==> fees[k].symbol == c || Quoted(q, c, fees[k].symbol)
    ensures r.raised.None? ==> r.value == Sum(keys, fees, FeeWorth(q, c))
    ensures r.raised.Some? ==> exists k :: k in keys && Get(q, c, fees[k].symbol).Err? && r.raised == Some(Get(q, c, fees[k].symbol).error)
    ensures r.raised.Some? ==> exists j :: 0 <= j < |keys| && FeesFailAt(keys, fees, q, c, j, 0.0, r)
  {
    if keys == [] then Outcome(0.0, None)
    else
      var init := keys[..|keys| - 1];
      assert keys == init + [keys[|keys| - 1]];
      assert forall x :: x in keys <==> x in init || x == keys[|keys| - 1];
      var r := FeeValue(init, fees, q, c);
      if r.raised.Some? then
        FeesFailExtend(init, keys[|keys| - 1], fees, q, c, r);
        r
      else
        var fee := fees[keys[|keys| - 1]];
        if fee.symbol == c then
          assert Price(q, c, c) == 1.0;
          Outcome(r.value + fee.quantity, None)
        else
          var quote := Get(q, c, fee.symbol);
          if quote.Err? then
            assert keys[..|init|] == init;
            assert FeesFailAt(keys, fees, q, c, |init|, 0.0, Outcome(r.value, Some(quote.error)));
            Outcome(r.value, Some(quote.error))
          else Outcome(r.value + quote.value * fee.quantity, None)
  }

  /** The total a successful fee loop adds to `fee_value`. */
  function FeeTotal(p: Portfolio, q: Quotes, c: string): real
    requires NodeValid(p)
  {
    Sum(p.fees.keys, p.fees.items, FeeWorth(q, c))
  }

  /** Every price the node's own part of `quotes` reads is available, and no
      transaction hits an unsupported case or an unknown type. */
  ghost predicate NodeQuotable(p: Portfolio, q: Quotes, c: string) {
    && (forall k :: 0 <= k < |p.transactions| ==> Valuable(p.transactions[k], q, c))
    && (forall h :: h in p.holdings.items ==>
          p.holdings.items[h].Symbol() == c || Quoted(q, c, p.holdings.items[h].Symbol()))
    && (forall f :: f in p.fees.items ==> p.fees.items[f].symbol == c || Quoted(q, c, p.fees.items[f].symbol))
  }

  /** `quotes` on one node after its children: transactions, then holdings,
      then fees, each stopping at the first raise. Pairs, spots, fees and the
      transaction list are only read. */
  function QuoteNode(p: Portfolio, q: Quotes, c: string): (s: Step)
    requires NodeValid(p)
    ensures NodeValid(s.state)
    ensures s.state == p.(marks := s.state.marks, holdings := s.state.holdings, feeValue := s.state.feeValue)
    ensures s.state.holdings.keys == p.holdings.keys
    ensures |s.state.marks| == |p.transactions|
    ensures s.raised.None? <==> NodeQuotable(p, q, c)
    ensures s.raised.None? ==>
      && (forall k :: 0 <= k < |p.transactions| ==> s.state.marks[k] == Revalued(p.marks, p.transactions, q, c, k))
      && (forall h :: h in p.holdings.items ==> s.state.holdings.items[h] == Requoted(p.holdings.items[h], q, c))
      && s.state.feeValue == p.feeValue + FeeTotal(p, q, c)
  {
    var ts := ValueAll(p.marks, p.transactions, q, c);
    if ts.raised.Some? then
      Step(p.(marks := ts.value), ts.raised)
    else
      var hs := QuoteHoldings(p.holdings.keys, p.holdings.items, q, c);
      var p1 := p.(marks := ts.value, holdings := OMap(p.holdings.keys, hs.value));
      assert NodeValid(p1) by {
        forall h | h in p1.holdings.items ensures p1.holdings.items[h].Symbol() == h {
          assert h in p.holdings.keys;
        }
      }
      if hs.raised.Some? then Step(p1, hs.raised)
      else
        var fs := FeeValue(p.fees.keys, p.fees.items, q, c);
        Step(p1.(feeValue := p.feeValue + fs.value), fs.raised)
  }

  /** `quotes` on a leaf raises at the first transaction that cannot be
      valued, with the earlier marks written and the holdings and fee value
      untouched; when every transaction can be valued, every mark is. */
  lemma QuoteNodeMarkError(p: Portfolio, q: Quotes, c: string)
    requires NodeValid(p)
    ensures (exists k :: 0 <= k < |p.transactions| && !Valuable(p.transactions[k], q, c)) ==>
      && QuoteNode(p, q, c).state.holdings == p.holdings && QuoteNode(p, q, c).state.feeValue == p.feeValue
      && exists j :: 0 <= j < |p.transactions| && FirstFailure(p.marks, p.transactions, q, c, j, Outcome(QuoteNode(p, q, c).state.marks, QuoteNode(p, q, c).raised))
    ensures (forall k :: 0 <= k < |p.transactions| ==> Valuable(p.transactions[k], q, c)) ==>
      forall k :: 0 <= k < |p.transactions| ==> QuoteNode(p, q, c).state.marks[k] == Revalued(p.marks, p.transactions, q, c, k)
  {
  }

  /** Past the transactions, `quotes` raises at the first holding, in
      insertion order, without a quote: the holdings before it are re-quoted,
      it and the later ones are untouched, every mark is written and the fee
      value is untouched. */
  lemma QuoteNodeHoldingError(p: Portfolio, q: Quotes, c: string)
    requires NodeValid(p)
    requires forall k :: 0 <= k < |p.transactions| ==> Valuable(p.transactions[k], q, c)
    requires exists h :: h in p.holdings.items && p.holdings.items[h].Symbol() != c && !Quoted(q, c, p.holdings.items[h].Symbol())
    ensures QuoteNode(p, q, c).state.feeValue == p.feeValue
    ensures forall k :: 0 <= k < |p.transactions| ==> QuoteNode(p, q, c).state.marks[k] == Revalued(p.marks, p.transactions, q, c, k)
    ensures exists h :: h in p.holdings.items && Get(q, c, p.holdings.items[h].Symbol()).Err?
                        && QuoteNode(p, q, c).raised == Some(Get(q, c, p.holdings.items[h].Symbol()).error)
    ensures exists j :: (0 <= j < |p.holdings.keys| &&
      HoldingsFailAt(p.holdings.keys, p.holdings.items, q, c, j, Outcome(QuoteNode(p, q, c).state.holdings.items, QuoteNode(p, q, c).raised)))
  {
  }

  /** Past the holdings, `quotes` raises at the first fee, in insertion
      order, without a quote: every holding is re-quoted, and `fee_value` has
      grown by the worth of the fees before it. */
  lemma QuoteNodeFeeError(p: Portfolio, q: Quotes, c: string)
    requires NodeValid(p)
    requires forall k :: 0 <= k < |p.transactions| ==> Valuable(p.transactions[k], q, c)
    requires forall h :: h in p.holdings.items ==> p.holdings.items[h].Symbol() == c || Quoted(q, c, p.holdings.items[h].Symbol())
    requires exists f :: f in p.fees.items && p.fees.items[f].symbol != c && !Quoted(q, c, p.fees.items[f].symbol)
    ensures forall h :: h in p.holdings.items ==> QuoteNode(p, q, c).state.holdings.items[h] == Requoted(p.holdings.items[h], q, c)
    ensures exists f :: f in p.fees.items && Get(q, c, p.fees.items[f].symbol).Err?
                        && QuoteNode(p, q, c).raised == Some(Get(q, c, p.fees.items[f].symbol).error)
    ensures exists j :: (0 <= j < |p.fees.keys| &&
      FeesFailAt(p.fees.keys, p.fees.items, q, c, j, p.feeValue, Outcome(QuoteNode(p, q, c).state.feeValue, QuoteNode(p, q, c).raised)))
  {
    var hs := QuoteHoldings(p.holdings.keys, p.holdings.items, q, c);
    var fs := FeeValue(p.fees.keys, p.fees.items, q, c);
    assert hs.raised.None?;
    assert fs.raised.Some?;
    var s := QuoteNode(p, q, c);
    assert s.state.feeValue == p.feeValue + fs.value && s.raised == fs.raised;
    var j :| 0 <= j < |p.fees.keys| && FeesFailAt(p.fees.keys, p.fees.items, q, c, j, 0.0, fs);
    assert FeesFailAt(p.fees.keys, p.fees.items, q, c, j, p.feeValue, Outcome(s.state.feeValue, s.raised));
  }

  /** `quotes(quotes, convert)`: every child first, in order, then the node
      itself; a raise anywhere stops the rest of the pass. */
  function QuoteTree(p: Portfolio, q: Quotes, c: string): (s: Step)
    requires TreeValid(p)
    ensures TreeValid(s.state)
    ensures |s.state.subs| == |p.subs|
    ensures s.state.transactions == p.transactions && s.state.name == p.name && s.state.level == p.level
    ensures s.raised.None? ==> NodeQuotable(p, q, c)
    decreases p, 1
  {
    var subs := QuoteSubs(p, q, c, 0);
    var p1 := p.(subs := subs.value);
    assert NodeValid(p1);
    if subs.raised.Some? then Step(p1, subs.raised)
    else
      assert p.subs == [] ==> p1 == p;
      var s := QuoteNode(p1, q, c);
      assert s.raised.None? ==> NodeQuotable(p, q, c);
      Step(s.state, s.raised)
  }

  /** On a leaf, `quotes` is the node's own part alone. */
  lemma QuoteTreeLeaf(p: Portfolio, q: Quotes, c: string)
    requires TreeValid(p) && p.subs == []
    ensures QuoteTree(p, q, c) == QuoteNode(p, q, c)
  {
    assert p.(subs := QuoteSubs(p, q, c, 0).value) == p;
  }

  /** The children loop of `quotes` from child `i` on. */
  function QuoteSubs(p: Portfolio, q: Quotes, c: string, i: nat): (r: Outcome<seq<Portfolio>>)
    requires TreeValid(p) && i <= |p.subs|
    ensures |r.value| == |p.subs|
    ensures forall j :: 0 <= j < |p.subs| ==> TreeValid(r.value[j])
    ensures forall j :: 0 <= j < i ==> r.value[j] == p.subs[j]
    ensures i == |p.subs| ==> r == Outcome(p.subs, None)
    decreases p, 0, |p.subs| - i
  {
    if i == |p.subs| then Outcome(p.subs, None)
    else
      var s := QuoteTree(p.subs[i], q, c);
      if s.raised.Some? then Outcome(p.subs[i := s.state], s.raised)
      else
        var r := QuoteSubs(p, q, c, i + 1);
        assert r.value[i] == p.subs[i];
        Outcome(r.value[i := s.state], r.raised)
  }

  /** Each child's own valuation, in order. */
  ghost function ChildSteps(p: Portfolio, q: Quotes, c: string): (r: seq<Step>)
    requires TreeValid(p)
    ensures |r| == |p.subs|
    ensures forall j :: 0 <= j < |p.subs| ==> r[j] == QuoteTree(p.subs[j], q, c)
  {
    seq(|p.subs|, j requires 0 <= j < |p.subs| => QuoteTree(p.subs[j], q, c))
  }

  /** The children loop over given per-child results: a reference for
      `QuoteSubs` that leaves the valuation of each child abstract. */
  function SubsLoop(subs: seq<Portfolio>, res: seq<Step>, i: nat): (r: Outcome<seq<Portfolio>>)
    requires |res| == |subs| && i <= |subs|
    ensures |r.value| == |subs|
    ensures forall j :: 0 <= j < i ==> r.value[j] == subs[j]
    decreases |subs| - i
  {
    if i == |subs| then Outcome(subs, None)
    else if res[i].raised.Some? then Outcome(subs[i := res[i].state], res[i].raised)
    else
      var r := SubsLoop(subs, res, i + 1);
      Outcome(r.value[i := res[i].state], r.raised)
  }

  /** `QuoteSubs` is the children loop over each child's own valuation. */
  lemma {:induction false} QuoteSubsIsLoop(p: Portfolio, q: Quotes, c: string, i: nat)
    requires TreeValid(p) && i <= |p.subs|
    ensures QuoteSubs(p, q, c, i) == SubsLoop(p.subs, ChildSteps(p, q, c), i)
    decreases |p.subs| - i
  {
    if i < |p.subs| {
      var res := ChildSteps(p, q, c);
      assert res[i] == QuoteTree(p.subs[i], q, c);
      if res[i].raised.None? {
        QuoteSubsIsLoop(p, q, c, i + 1);
      }
    }
  }

  /** The loop from child `i` on succeeds exactly when every one of those
      children's results does. */
  lemma {:induction false} LoopSucceeds(subs: seq<Portfolio>, res: seq<Step>, i: nat)
    requires |res| == |subs| && i <= |subs|
    ensures SubsLoop(subs, res, i).raised.None? <==> forall j :: i <= j < |subs| ==> res[j].raised.None?
    decreases |subs| - i
  {
    if i < |subs| && res[i].raised.None? {
      LoopSucceeds(subs, res, i + 1);
    }
  }

  /** Every child the loop reaches holds its own result. */
  lemma {:induction false} LoopReached(subs: seq<Portfolio>, res: seq<Step>, i: nat, j: nat)
    requires |res| == |subs| && i <= j < |subs|
    requires forall m :: i <= m < j ==> res[m].raised.None?
    ensures SubsLoop(subs, res, i).value[j] == res[j].state
    decreases |subs| - i
  {
    if i < j {
      LoopReached(subs, res, i + 1, j);
    }
  }

  /** On a raise the loop stopped at the first raising child: its error is
      the one raised and the children after it are untouched. */
  lemma {:induction false} LoopFirstRaise(subs: seq<Portfolio>, res: seq<Step>, i: nat)
    requires |res| == |subs| && i <= |subs| && SubsLoop(subs, res, i).raised.Some?
    ensures exists j :: (i <= j < |subs| && res[j].raised == SubsLoop(subs, res, i).raised
      && (forall m :: i <= m < j ==> res[m].raised.None?)
      && (forall m :: j < m < |subs| ==> SubsLoop(subs, res, i).value[m] == subs[m]))
    decreases |subs| - i
  {
    if res[i].raised.None? {
      LoopFirstRaise(subs, res, i + 1);
      var rest := SubsLoop(subs, res, i + 1);
      var j :| i + 1 <= j < |subs| && res[j].raised == rest.raised
               && (forall m :: i + 1 <= m < j ==> res[m].raised.None?)
               && (forall m :: j < m < |subs| ==> rest.value[m] == subs[m]);
      assert forall m :: i <= m < j ==> res[m].raised.None?;
    }
  }

  /** `quotes`' children loop succeeds exactly when every child's valuation
      does. */
  lemma QuoteSubsSucceeds(p: Portfolio, q: Quotes, c: string)
    requires TreeValid(p)
    ensures QuoteSubs(p, q, c, 0).raised.None? <==> forall j :: 0 <= j < |p.subs| ==> ChildSteps(p, q, c)[j].raised.None?
  {
    QuoteSubsIsLoop(p, q, c, 0);
    LoopSucceeds(p.subs, ChildSteps(p, q, c), 0);
  }

  /** Every child the loop reaches, in order, holds its own valuation's
      result. */
  lemma QuoteSubsReached(p: Portfolio, q: Quotes, c: string, j: nat)
    requires TreeValid(p) && j < |p.subs|
    requires forall m :: 0 <= m < j ==> ChildSteps(p, q, c)[m].raised.None?
    ensures QuoteSubs(p, q, c, 0).value[j] == ChildSteps(p, q, c)[j].state
  {
    QuoteSubsIsLoop(p, q, c, 0);
    LoopReached(p.subs, ChildSteps(p, q, c), 0, j);
  }

  /** On a raise the children loop stopped at the first raising child: its
      error is the one raised and the children after it are untouched. */
  lemma QuoteSubsFirstRaise(p: Portfolio, q: Quotes, c: string)
    requires TreeValid(p) && QuoteSubs(p, q, c, 0).raised.Some?
    ensures exists j :: (0 <= j < |p.subs| && ChildSteps(p, q, c)[j].raised == QuoteSubs(p, q, c, 0).raised
      && (forall m :: 0 <= m < j ==> ChildSteps(p, q, c)[m].raised.None?)
      && (forall m :: j < m < |p.subs| ==> QuoteSubs(p, q, c, 0).value[m] == p.subs[m]))
  {
    QuoteSubsIsLoop(p, q, c, 0);
    LoopFirstRaise(p.subs, ChildSteps(p, q, c), 0);
  }

  /** The children as each one's own valuation leaves it. */
  ghost function ValuedChildren(p: Portfolio, q: Quotes, c: string): (r: seq<Portfolio>)
    requires TreeValid(p)
    ensures |r| == |p.subs|
    ensures forall j :: 0 <= j < |p.subs| ==> r[j] == ChildSteps(p, q, c)[j].state
  {
    seq(|p.subs|, j requires 0 <= j < |p.subs| => ChildSteps(p, q, c)[j].state)
  }

  /** Children come first: once every child is valued without a raise, the
      node's own part runs over the valued children. */
  lemma QuoteTreeChildrenFirst(p: Portfolio, q: Quotes, c: string)
    requires TreeValid(p)
    requires forall j :: 0 <= j < |p.subs| ==> ChildSteps(p, q, c)[j].raised.None?
    ensures NodeValid(p.(subs := ValuedChildren(p, q, c)))
    ensures QuoteTree(p, q, c) == QuoteNode(p.(subs := ValuedChildren(p, q, c)), q, c)
  {
    var subs := QuoteSubs(p, q, c, 0);
    QuoteSubsSucceeds(p, q, c);
    forall j | 0 <= j < |p.subs| ensures subs.value[j] == ValuedChildren(p, q, c)[j] {
      QuoteSubsReached(p, q, c, j);
    }
    assert subs.value == ValuedChildren(p, q, c);
  }

  /** A child's raise stops `quotes` before the node's own part: the first
      raising child's error is raised and the node's own marks, holdings and
      fee value are untouched. */
  lemma QuoteTreeChildRaise(p: Portfolio, q: Quotes, c: string)
    requires TreeValid(p)
    requires exists j :: 0 <= j < |p.subs| && ChildSteps(p, q, c)[j].raised.Some?
    ensures QuoteTree(p, q, c).state == p.(subs := QuoteTree(p, q, c).state.subs)
    ensures exists j :: (0 <= j < |p.subs| && ChildSteps(p, q, c)[j].raised.Some?
      && QuoteTree(p, q, c).raised == ChildSteps(p, q, c)[j].raised
      && (forall m :: 0 <= m < j ==> ChildSteps(p, q, c)[m].raised.None?))
  {
    QuoteSubsSucceeds(p, q, c);
    QuoteSubsFirstRaise(p, q, c);
  }

  // ----------------------------------------------------------------- laws

  /** A pair is valued the same whatever its type: the pair branch never
      reads it. */
  lemma PairTypeIrrelevant(m: Marks, t: Transaction, q: Quotes, c: string, other: string)
    requires t.IsPair()
    ensures ValueTrx(m, t.(ttype := other), q, c) == ValueTrx(m, t, q, c)
  {
    var t2 := t.(ttype := other);
    assert t2.kind == t.kind;
    var legs := t.kind.pair;
    if Quoted(q, c, legs.buySpot.symbol) && legs.sellSpot.symbol != c && legs.buySpot.symbol != c
       && Quoted(q, c, legs.sellSpot.symbol) {
      assert ValueTrx(m, t2, q, c).value.profit == Some(Worth(q, c, legs.buySpot) - Worth(q, c, legs.sellSpot));
    }
  }

  /** What valuing a single-asset transfer writes, for either direction. */
  lemma SpotValued(m: Marks, t: Transaction, q: Quotes, c: string)
    requires !t.IsPair() && Quoted(q, c, t.kind.spot.symbol) && (t.ttype == IN || t.ttype == OUT)
    ensures ValueTrx(m, t, q, c).raised.None?
    ensures ValueTrx(m, t, q, c).value.value == Some(Worth(q, c, t.kind.spot))
    ensures ValueTrx(m, t, q, c).value.profit ==
      Some(if t.ttype == OUT then -Worth(q, c, t.kind.spot) else Worth(q, c, t.kind.spot))
  {
  }

  /** Moving an asset out books the opposite profit of moving it in, at the
      same value. */
  lemma SpotInOutOpposite(m: Marks, t: Transaction, q: Quotes, c: string)
    requires !t.IsPair() && t.ttype == IN && Quoted(q, c, t.kind.spot.symbol)
    ensures var vin := ValueTrx(m, t, q, c);
      var vout := ValueTrx(m, t.(ttype := OUT), q, c);
      && vin.raised.None? && vout.raised.None?
      && vout.value.value == vin.value.value
      && vout.value.profit.value == -vin.value.profit.value
  {
    var t2 := t.(ttype := OUT);
    assert t2.kind == t.kind;
    SpotValued(m, t, q, c);
    SpotValued(m, t2, q, c);
  }

  /** Valuing a transaction twice writes what valuing it once wrote, and
      raises the same: every attribute written depends only on the
      transaction and the table. */
  lemma ValueTrxIdempotent(m: Marks, t: Transaction, q: Quotes, c: string)
    ensures ValueTrx(ValueTrx(m, t, q, c).value, t, q, c) == ValueTrx(m, t, q, c)
  {
  }

  /** Requoting a holding twice is requoting it once. */
  lemma RequotedIdempotent(h: Holding, q: Quotes, c: string)
    ensures Requoted(Requoted(h, q, c), q, c) == Requoted(h, q, c)
  {
    var r := Requoted(h, q, c);
    assert r.Symbol() == h.Symbol() && r.Quantity() == h.Quantity();
  }

  /** What one successful `quotes` leaves behind can be quoted again. */
  lemma QuotedStaysQuotable(p: Portfolio, q: Quotes, c: string)
    requires NodeValid(p) && QuoteNode(p, q, c).raised.None?
    ensures NodeQuotable(QuoteNode(p, q, c).state, q, c)
  {
    var s1 := QuoteNode(p, q, c).state;
    forall h | h in s1.holdings.items
      ensures s1.holdings.items[h].Symbol() == c || Quoted(q, c, s1.holdings.items[h].Symbol())
    {
      assert s1.holdings.items[h] == Requoted(p.holdings.items[h], q, c);
    }
  }

  /** A second successful `quotes` writes onto each transaction what the
      first wrote. */
  lemma RevaluedStable(p: Portfolio, q: Quotes, c: string)
    requires NodeValid(p) && QuoteNode(p, q, c).raised.None?
    requires NodeQuotable(QuoteNode(p, q, c).state, q, c)
    ensures QuoteNode(QuoteNode(p, q, c).state, q, c).state.marks == QuoteNode(p, q, c).state.marks
  {
    var s1 := QuoteNode(p, q, c).state;
    var s2 := QuoteNode(s1, q, c);
    forall k | 0 <= k < |p.transactions| ensures s2.state.marks[k] == s1.marks[k] {
      ValueTrxIdempotent(MarksAt(p.marks, k), p.transactions[k], q, c);
    }
  }

  /** Requoting every holding of a requoted map changes nothing. */
  lemma RequotedMapStable(before: map<string, Holding>, once: map<string, Holding>,
                          twice: map<string, Holding>, q: Quotes, c: string)
    requires once.Keys == before.Keys && twice.Keys == once.Keys
    requires forall h :: h in before ==> once[h] == Requoted(before[h], q, c)
    requires forall h :: h in once ==> twice[h] == Requoted(once[h], q, c)
    ensures twice == once
  {
    forall h | h in before ensures twice[h] == once[h] {
      RequotedIdempotent(before[h], q, c);
    }
  }

  /** A second successful `quotes` leaves every holding as the first did. */
  lemma RequotedStable(p: Portfolio, q: Quotes, c: string)
    requires NodeValid(p) && QuoteNode(p, q, c).raised.None?
    requires NodeQuotable(QuoteNode(p, q, c).state, q, c)
    ensures QuoteNode(QuoteNode(p, q, c).state, q, c).state.holdings == QuoteNode(p, q, c).state.holdings
  {
    var s1 := QuoteNode(p, q, c).state;
    var s2 := QuoteNode(s1, q, c).state;
    assert s1.holdings.items.Keys == p.holdings.items.Keys;
    assert s2.holdings.items.Keys == s1.holdings.items.Keys;
    RequotedMapStable(p.holdings.items, s1.holdings.items, s2.holdings.items, q, c);
  }

  /** `fee_value` is never reset: a second successful `quotes` on a node
      leaves everything as the first left it, except that the fees are added
      to `fee_value` once more. */
  lemma QuoteTwice(p: Portfolio, q: Quotes, c: string)
    requires NodeValid(p) && QuoteNode(p, q, c).raised.None?
    ensures var s1 := QuoteNode(p, q, c).state;
      var s2 := QuoteNode(s1, q, c);
      && s2.raised.None?
      && s2.state == s1.(feeValue := s1.feeValue + FeeTotal(p, q, c))
  {
    var s1 := QuoteNode(p, q, c).state;
    QuotedStaysQuotable(p, q, c);
    RevaluedStable(p, q, c);
    RequotedStable(p, q, c);
    assert FeeTotal(s1, q, c) == FeeTotal(p, q, c);
  }
}
