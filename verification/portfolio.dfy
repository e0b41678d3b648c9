/** The portfolio tree node and its loading phase (src/portfolio.py:27-121).

    A node is an immutable value. The parent back-reference of the source is
    replaced by addressing a node through the path of child indices from the
    root: `add_transaction` on a node first runs on its parent, so on the path
    it reaches the root first and the addressed node last. */
module Portfolios {
  import opened Wrappers
  import opened Spots
  import Pairs
  import opened Holdings
  import opened Transactions
  import opened OrderedMaps

  /** A single-asset bucket; `trxCount` is the counter bumped by the assumed
      `Spot.add_trx_count`. */
  datatype SpotEntry = SpotEntry(spot: Spot, trxCount: nat)

  type Bucket = Pairs.Position<Transaction>

  /** The attributes `quotes` writes onto one transaction: `cprice` on a pair
      transaction, `price` on a single-asset one, and `value` and `profit` on
      its pair or spot. `None` is an attribute not written yet. */
  datatype Marks = Marks(cprice: Option<real>, price: Option<real>, value: Option<real>, profit: Option<real>)

  /** A transaction `quotes` has not reached yet. */
  const NoMarks: Marks := Marks(None, None, None, None)

  datatype Portfolio = Portfolio(
    name: string,
    level: nat,
    sellSymbols: set<string>,
    buySymbols: set<string>,
    fees: OMap<Spot>,
    feeValue: real,
    transactions: seq<Transaction>,
    transactionsC: nat,
    subs: seq<Portfolio>,
    pairs: OMap<Bucket>,
    spots: OMap<SpotEntry>,
    holdings: OMap<Holding>,
    cost: Option<Spot>,
    marks: seq<Marks>)

  /** The outcome of a mutating call: the state it leaves behind, and the
      exception it raised, if any. State changes made before a raise persist. */
  datatype Step = Step(state: Portfolio, raised: Option<Error>)

  /** Representation invariant of one node: every dictionary is well formed
      and keyed by its entries' own name or symbol, and the counter matches
      the list. */
  ghost predicate NodeValid(p: Portfolio) {
    && Valid(p.fees) && Valid(p.pairs) && Valid(p.spots) && Valid(p.holdings)
    && (forall k :: k in p.fees.items ==> p.fees.items[k].symbol == k)
    && (forall k :: k in p.pairs.items ==> p.pairs.items[k].legs.name == k)
    && (forall k :: k in p.spots.items ==> p.spots.items[k].spot.symbol == k)
    && (forall k :: k in p.holdings.items ==> p.holdings.items[k].Symbol() == k)
    && p.transactionsC == |p.transactions|
  }

  ghost predicate TreeValid(p: Portfolio) {
    && NodeValid(p)
    && forall i :: 0 <= i < |p.subs| ==> TreeValid(p.subs[i])
  }

  /** Children sit one level below their parent. */
  ghost predicate LevelsOk(p: Portfolio) {
    forall i :: 0 <= i < |p.subs| ==> p.subs[i].level == p.level + 1 && LevelsOk(p.subs[i])
  }

  /** `Portfolio(name, parent)`: level 0 for a root, one below the parent otherwise. */
  function New(name: string, parent: Option<Portfolio>): (p: Portfolio)
    ensures p.level == (if parent.Some? then parent.value.level + 1 else 0)
    ensures p.name == name && p.subs == [] && p.transactions == [] && p.transactionsC == 0
    ensures p.fees.items == map[] && p.pairs.items == map[] && p.spots.items == map[]
    ensures p.holdings.items == map[] && p.cost.None? && p.feeValue == 0.0
    ensures p.sellSymbols == {} && p.buySymbols == {}
    ensures TreeValid(p) && LevelsOk(p)
  {
    Portfolio(name, if parent.Some? then parent.value.level + 1 else 0, {}, {},
              Empty(), 0.0, [], 0, [], Empty(), Empty(), Empty(), None, [])
  }

  /** `add_portfolio`. */
  function AddPortfolio(p: Portfolio, sub: Portfolio): (r: Portfolio)
    ensures r.subs == p.subs + [sub]
    ensures r == p.(subs := r.subs)
  {
    p.(subs := p.subs + [sub])
  }

  /** A child created with `New(name, Some(p))` and attached to `p` keeps the
      levels consistent. */
  lemma AddChildKeepsLevels(p: Portfolio, name: string)
    requires LevelsOk(p)
    ensures LevelsOk(AddPortfolio(p, New(name, Some(p))))
  {
    var r := AddPortfolio(p, New(name, Some(p)));
    forall i | 0 <= i < |r.subs|
      ensures r.subs[i].level == r.level + 1 && LevelsOk(r.subs[i])
    {
      if i < |p.subs| {
        assert r.subs[i] == p.subs[i];
      }
    }
  }

  /** The accumulated fee in `sym`, zero when no fee in it was seen. */
  function FeeQuantity(p: Portfolio, sym: string): real {
    if sym in p.fees.items then p.fees.items[sym].quantity else 0.0
  }

  /** `add_fee`: get-or-insert the fee bucket of the symbol, then add the quantity. */
  function AddFee(p: Portfolio, fee: Spot): (r: Portfolio)
    requires NodeValid(p)
    ensures NodeValid(r)
    ensures fee.symbol in r.fees.items
    ensures r.fees.items[fee.symbol].quantity ==
      fee.quantity + (if fee.symbol in p.fees.items then p.fees.items[fee.symbol].quantity else 0.0)
    ensures forall k :: k != fee.symbol ==> (k in r.fees.items <==> k in p.fees.items)
    ensures forall k :: k != fee.symbol && k in p.fees.items ==> r.fees.items[k] == p.fees.items[k]
    ensures r == p.(fees := r.fees)
  {
    var pfee := if fee.symbol in p.fees.items then p.fees.items[fee.symbol] else ZeroSpot(fee.symbol);
    p.(fees := Put(p.fees, fee.symbol, Spots.AddSpot(pfee, fee)))
  }

  /** `add_pair`: get-or-insert the bucket named after the pair (zero legs of
      its symbols), then merge it by buy or sell. Any other type raises, after
      the bucket has been created. */
  function AddPair(p: Portfolio, tpair: Pairs.Legs, ttype: string): (s: Step)
    requires NodeValid(p)
    ensures NodeValid(s.state)
    ensures s.raised.None? <==> ttype == BUY || ttype == SELL
    ensures s.raised.Some? ==> s.raised.value == UnknownTransactionType(ttype)
    ensures s.state == p.(pairs := s.state.pairs)
    ensures tpair.name in s.state.pairs.items
    ensures forall k :: k != tpair.name ==> (k in s.state.pairs.items <==> k in p.pairs.items)
    ensures forall k :: k != tpair.name && k in p.pairs.items ==> s.state.pairs.items[k] == p.pairs.items[k]
    ensures var before := if tpair.name in p.pairs.items then p.pairs.items[tpair.name]
                       else Pairs.OpenPosition(tpair);
      s.state.pairs.items[tpair.name] ==
        if ttype == BUY then Pairs.AddBuy(before, tpair)
        else if ttype == SELL then Pairs.AddSell(before, tpair)
        else before
  {
    var bucket := if tpair.name in p.pairs.items then p.pairs.items[tpair.name]
                  else Pairs.OpenPosition(tpair);
    if ttype == BUY then
      Step(p.(pairs := Put(p.pairs, tpair.name, Pairs.AddBuy(bucket, tpair))), None)
    else if ttype == SELL then
      Step(p.(pairs := Put(p.pairs, tpair.name, Pairs.AddSell(bucket, tpair))), None)
    else
      Step(p.(pairs := Put(p.pairs, tpair.name, bucket)), Some(UnknownTransactionType(ttype)))
  }

  /** Whether the merge step accepts the transaction's type. */
  predicate TypeAccepted(t: Transaction) {
    if t.IsPair() then t.ttype == BUY || t.ttype == SELL else t.ttype == IN || t.ttype == OUT
  }

  /** The start of `add_transaction` at one node: append and count the
      transaction, then add its fee. */
  function Append(p: Portfolio, t: Transaction): (r: Portfolio)
    requires NodeValid(p)
    ensures NodeValid(r)
    ensures r == p.(transactions := p.transactions + [t], transactionsC := p.transactionsC + 1, fees := r.fees)
    ensures forall sym ::
      FeeQuantity(r, sym) == FeeQuantity(p, sym) + (if t.fee.Some? && t.fee.value.symbol == sym then t.fee.value.quantity else 0.0)
  {
    var p1 := p.(transactions := p.transactions + [t], transactionsC := p.transactionsC + 1);
    if t.fee.Some? then AddFee(p1, t.fee.value) else p1
  }

  /** The pair branch of `add_transaction`: merge into the pair bucket, then
      file the transaction under it and record both leg symbols. */
  function MergePair(p: Portfolio, t: Transaction): (s: Step)
    requires NodeValid(p) && t.IsPair()
    ensures NodeValid(s.state)
    ensures s.raised.None? <==> t.ttype == BUY || t.ttype == SELL
    ensures s.raised.Some? ==> s.raised.value == UnknownTransactionType(t.ttype)
    ensures s.state == p.(pairs := s.state.pairs, sellSymbols := s.state.sellSymbols, buySymbols := s.state.buySymbols)
    ensures forall k :: k in p.pairs.items ==> k in s.state.pairs.items
    ensures t.kind.pair.name in s.state.pairs.items
  {
    var legs := t.kind.pair;
    var s := AddPair(p, legs, t.ttype);
    if s.raised.Some? then s
    else
      var bucket := s.state.pairs.items[legs.name];
      Step(s.state.(pairs := Put(s.state.pairs, legs.name, Pairs.AddTransaction(bucket, t)),
                    sellSymbols := s.state.sellSymbols + {t.kind.sellSymbol},
                    buySymbols := s.state.buySymbols + {t.kind.buySymbol}), None)
  }

  /** The single-asset branch of `add_transaction`: get-or-insert the bucket,
      count the transaction, then add for `in` and subtract for `out`; any
      other type raises after the count. */
  function MergeSpot(p: Portfolio, sp: Spot, ttype: string): (s: Step)
    requires NodeValid(p)
    ensures NodeValid(s.state)
    ensures s.raised.None? <==> ttype == IN || ttype == OUT
    ensures s.raised.Some? ==> s.raised.value == UnknownTransactionType(ttype)
    ensures s.state == p.(spots := s.state.spots)
    ensures sp.symbol in s.state.spots.items
    ensures forall k :: k != sp.symbol ==> (k in s.state.spots.items <==> k in p.spots.items)
    ensures forall k :: k != sp.symbol && k in p.spots.items ==> s.state.spots.items[k] == p.spots.items[k]
    ensures var before := if sp.symbol in p.spots.items then p.spots.items[sp.symbol].spot else ZeroSpot(sp.symbol);
      s.state.spots.items[sp.symbol].spot ==
        if ttype == IN then Spots.AddSpot(before, sp)
        else if ttype == OUT then Spots.SubSpot(before, sp)
        else before
  {
    var e := if sp.symbol in p.spots.items then p.spots.items[sp.symbol]
             else SpotEntry(ZeroSpot(sp.symbol), 0);
    var counted := e.(trxCount := e.trxCount + 1);
    if ttype == IN then
      Step(p.(spots := Put(p.spots, sp.symbol, counted.(spot := Spots.AddSpot(counted.spot, sp)))), None)
    else if ttype == OUT then
      Step(p.(spots := Put(p.spots, sp.symbol, counted.(spot := Spots.SubSpot(counted.spot, sp)))), None)
    else
      Step(p.(spots := Put(p.spots, sp.symbol, counted)), Some(UnknownTransactionType(ttype)))
  }

  /** The body of `add_transaction` at one node, after the parent call:
      append and count, add the fee, then merge the pair or the spot. */
  function AddLocal(p: Portfolio, t: Transaction): (s: Step)
    requires NodeValid(p)
    ensures NodeValid(s.state)
    ensures s.raised.None? <==> TypeAccepted(t)
    ensures s.raised.Some? ==> s.raised.value == UnknownTransactionType(t.ttype)
    ensures s.state.transactions == p.transactions + [t]
    ensures s.state.transactionsC == p.transactionsC + 1
    ensures s.state.subs == p.subs && s.state.name == p.name && s.state.level == p.level
    ensures s.state.holdings == p.holdings && s.state.cost == p.cost
    ensures s.state.feeValue == p.feeValue && s.state.marks == p.marks
  {
    var p1 := Append(p, t);
    match t.kind
    case PairKind(_, _, _) => MergePair(p1, t)
    case SpotKind(sp) => MergeSpot(p1, sp, t.ttype)
  }

  /** The child indices lead to a node of the tree. */
  predicate ValidPath(p: Portfolio, path: seq<nat>)
    decreases |path|
  {
    path == [] || (path[0] < |p.subs| && ValidPath(p.subs[path[0]], path[1..]))
  }

  function NodeAt(p: Portfolio, path: seq<nat>): Portfolio
    requires ValidPath(p, path)
    decreases |path|
  {
    if path == [] then p else NodeAt(p.subs[path[0]], path[1..])
  }

  /** Every node from the root down to the addressed one is well formed. */
  ghost predicate PathValid(p: Portfolio, path: seq<nat>)
    decreases |path|
  {
    && NodeValid(p)
    && (path != [] ==> path[0] < |p.subs| && PathValid(p.subs[path[0]], path[1..]))
  }

  /** `add_transaction` on the node at `path`: the local step runs at the root
      first and then at every node down the path; a raise stops the descent. */
  function AddTransactionAt(root: Portfolio, path: seq<nat>, t: Transaction): (s: Step)
    requires PathValid(root, path)
    ensures s.raised.None? <==> TypeAccepted(t)
    ensures s.raised.Some? ==> s.state == AddLocal(root, t).state
    ensures |s.state.subs| == |root.subs|
    ensures s.state.transactions == root.transactions + [t]
    ensures s.state.transactionsC == root.transactionsC + 1
    decreases |path|
  {
    var s := AddLocal(root, t);
    if s.raised.Some? || path == [] then s
    else
      var i := path[0];
      var c := AddTransactionAt(s.state.subs[i], path[1..], t);
      Step(s.state.(subs := s.state.subs[i := c.state]), c.raised)
  }

  /** An accepted transaction on a non-empty path replaces the child on the
      path by the result of the descent. */
  lemma DescentStep(root: Portfolio, path: seq<nat>, t: Transaction)
    requires PathValid(root, path) && path != [] && TypeAccepted(t)
    ensures var r := AddTransactionAt(root, path, t).state;
      && |r.subs| == |root.subs|
      && r.subs[path[0]] == AddTransactionAt(root.subs[path[0]], path[1..], t).state
      && (forall j :: 0 <= j < |r.subs| && j != path[0] ==> r.subs[j] == root.subs[j])
      && r.transactions == root.transactions + [t]
      && r.transactionsC == root.transactionsC + 1
  {
    var i := path[0];
    var s := AddLocal(root, t);
    assert s.state.subs == root.subs;
    var c := AddTransactionAt(root.subs[i], path[1..], t);
    assert AddTransactionAt(root, path, t).state.subs == root.subs[i := c.state];
  }

  predicate IsPrefix(q: seq<nat>, path: seq<nat>) {
    |q| <= |path| && path[..|q|] == q
  }

  /** Roll-up: when the type is accepted, the root and every node down to the
      addressed one (every node whose address is a prefix of the path) append
      the transaction exactly once and count it once. */
  lemma {:induction false} RollUpOnPath(root: Portfolio, path: seq<nat>, t: Transaction, q: seq<nat>)
    requires PathValid(root, path) && IsPrefix(q, path) && TypeAccepted(t)
    ensures ValidPath(root, q)
    ensures var r := AddTransactionAt(root, path, t).state;
      && ValidPath(r, q)
      && NodeAt(r, q).transactions == NodeAt(root, q).transactions + [t]
      && NodeAt(r, q).transactionsC == NodeAt(root, q).transactionsC + 1
    decreases |q|
  {
    if q != [] {
      var i := path[0];
      assert q[0] == i && IsPrefix(q[1..], path[1..]);
      DescentStep(root, path, t);
      RollUpOnPath(root.subs[i], path[1..], t, q[1..]);
    }
  }

  /** Addresses starting with the same child are prefixes of one another
      exactly when their tails are. */
  lemma PrefixStep(q: seq<nat>, path: seq<nat>)
    requires q != [] && path != [] && q[0] == path[0]
    ensures IsPrefix(q, path) <==> IsPrefix(q[1..], path[1..])
  {
    if |q| <= |path| {
      if IsPrefix(q[1..], path[1..]) {
        forall k | 0 <= k < |q| ensures path[k] == q[k] {
          if k > 0 {
            assert path[1..][k - 1] == q[1..][k - 1];
          }
        }
      }
      if IsPrefix(q, path) {
        assert path[1..][..|q| - 1] == path[..|q|][1..];
      }
    }
  }

  /** Two nodes whose children agree at the first index of `q` agree on the node at `q`. */
  lemma SameChild(p: Portfolio, r: Portfolio, q: seq<nat>)
    requires q != [] && ValidPath(p, q)
    requires |r.subs| == |p.subs| && r.subs[q[0]] == p.subs[q[0]]
    ensures ValidPath(r, q) && NodeAt(r, q) == NodeAt(p, q)
  {
  }

  /** Roll-up touches nothing off the path: every node whose address is not a
      prefix of the path, siblings and descendants alike, is unchanged. */
  lemma {:induction false} RollUpOffPath(root: Portfolio, path: seq<nat>, t: Transaction, q: seq<nat>)
    requires PathValid(root, path) && ValidPath(root, q) && !IsPrefix(q, path)
    ensures var r := AddTransactionAt(root, path, t).state;
      ValidPath(r, q) && NodeAt(r, q) == NodeAt(root, q)
    decreases |path|
  {
    var r := AddTransactionAt(root, path, t).state;
    if !TypeAccepted(t) || path == [] {
      assert r == AddLocal(root, t).state;
      SameChild(root, r, q);
    } else {
      DescentStep(root, path, t);
      var i := path[0];
      if q[0] == i {
        PrefixStep(q, path);
        RollUpOffPath(root.subs[i], path[1..], t, q[1..]);
        SameChild(root.(subs := r.subs), r, q);
      } else {
        SameChild(root, r, q);
      }
    }
  }
}
