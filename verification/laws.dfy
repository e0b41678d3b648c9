/** Invariants the loading phase keeps and what they give the calculation
    and valuation phases (src/portfolio.py:60-301).

    The source states none of these as code; they are what its roll-up,
    `calc` and `quotes` are for: the fee buckets add up the fees seen, the
    holdings equal a direct replay of the transactions, and a valuation whose
    quotes were all fetched fails only on the case the source leaves
    unimplemented. */
module PortfolioLaws {
  import opened Wrappers
  import opened Spots
  import Pairs
  import opened Holdings
  import opened Transactions
  import opened OrderedMaps
  import opened QuoteTables
  import opened Portfolios
  import opened PortfolioCalc
  import opened Valuation

  // ---------------------------------------------------------------- fees

  /** The fees in `sym` carried by the transactions, added up directly. */
  function FeesPaid(ts: seq<Transaction>, sym: string): real {
    if ts == [] then 0.0
    else
      var t := ts[|ts| - 1];
      FeesPaid(ts[..|ts| - 1], sym) + (if t.fee.Some? && t.fee.value.symbol == sym then t.fee.value.quantity else 0.0)
  }

  /** Every fee bucket holds the sum of the fees of the node's transactions in its symbol. */
  ghost predicate FeesBalanced(p: Portfolio) {
    forall sym :: FeeQuantity(p, sym) == FeesPaid(p.transactions, sym)
  }

  /** `add_transaction` keeps the fee buckets balanced, even when it raises:
      the fee is added before the type is looked at. */
  lemma AddLocalKeepsFeesBalanced(p: Portfolio, t: Transaction)
    requires NodeValid(p) && FeesBalanced(p)
    ensures FeesBalanced(AddLocal(p, t).state)
  {
    var r := AddLocal(p, t).state;
    AddLocalFees(p, t);
    forall sym ensures FeeQuantity(r, sym) == FeesPaid(r.transactions, sym) {
      FeesPaidAppend(p.transactions, t, sym);
    }
  }

  /** The local step changes the fee totals only through the append. */
  lemma AddLocalFees(p: Portfolio, t: Transaction)
    requires NodeValid(p)
    ensures AddLocal(p, t).state.fees == Append(p, t).fees
  {
  }

  /** Paying one more transaction's fee adds it to its symbol's total. */
  lemma FeesPaidAppend(ts: seq<Transaction>, t: Transaction, sym: string)
    ensures FeesPaid(ts + [t], sym)
         == FeesPaid(ts, sym) + (if t.fee.Some? && t.fee.value.symbol == sym then t.fee.value.quantity else 0.0)
  {
    assert (ts + [t])[..|ts|] == ts;
  }

  // ------------------------------------------------------- positions

  /** The signed change one transaction makes to the position in `h`,
      replayed directly: a buy moves the sold leg out and the bought leg in,
      a sell the reverse, a transfer in or out moves its own symbol, and any
      other type moves nothing. */
  function Effect(t: Transaction, h: string): real {
    match t.kind
    case PairKind(_, _, legs) =>
      var delta := (if legs.buySpot.symbol == h then legs.buySpot.quantity else 0.0)
                 - (if legs.sellSpot.symbol == h then legs.sellSpot.quantity else 0.0);
      if t.ttype == BUY then delta else if t.ttype == SELL then -delta else 0.0
    case SpotKind(sp) =>
      if sp.symbol != h then 0.0
      else if t.ttype == IN then sp.quantity
      else if t.ttype == OUT then -sp.quantity
      else 0.0
  }

  /** The position in `h` after replaying the transactions from zero. */
  function Replay(ts: seq<Transaction>, h: string): real {
    if ts == [] then 0.0 else Replay(ts[..|ts| - 1], h) + Effect(ts[|ts| - 1], h)
  }

  lemma ReplayAppend(ts: seq<Transaction>, t: Transaction, h: string)
    ensures Replay(ts + [t], h) == Replay(ts, h) + Effect(t, h)
  {
    assert (ts + [t])[..|ts|] == ts;
  }

  /** A transaction the laws below are stated for: a well-formed pair whose
      two legs differ, or a single-asset movement. The loader also files a
      self-pair such as `X/X`, but `calc` counts only its sold leg
      (`SelfPairNotConserved`), so those are left out of the laws. */
  predicate Admissible(t: Transaction) {
    WellFormed(t) && (t.IsPair() ==> t.kind.sellSymbol != t.kind.buySymbol)
  }

  /** Every pair bucket is named after its pair string, whose split gives the
      bucket's two distinct leg symbols. */
  ghost predicate BucketsNamed(p: Portfolio) {
    forall k :: k in p.pairs.items ==>
      && NamedAfter(k, p.pairs.items[k].legs.sellSpot.symbol, p.pairs.items[k].legs.buySpot.symbol)
      && p.pairs.items[k].legs.sellSpot.symbol != p.pairs.items[k].legs.buySpot.symbol
  }

  /** Every pair bucket is named after its pair string; a self-pair bucket
      such as `X/X` is allowed. */
  ghost predicate BucketsLabelled(p: Portfolio) {
    forall k :: k in p.pairs.items ==>
      NamedAfter(k, p.pairs.items[k].legs.sellSpot.symbol, p.pairs.items[k].legs.buySpot.symbol)
  }

  /** The pair and single-asset buckets net out to the direct replay of the
      node's transactions, symbol by symbol. */
  ghost predicate Conserved(p: Portfolio)
    requires NodeValid(p)
  {
    forall h :: PairNet(p, h) + SpotNet(p, h) == Replay(p.transactions, h)
  }

  /** The loading invariant of one node. */
  ghost predicate Sound(p: Portfolio) {
    NodeValid(p) && BucketsNamed(p) && FeesBalanced(p) && Conserved(p)
  }

  /** How one merge changes a bucket's contribution to `h`. */
  lemma ContributionStep(before: Bucket, legs: Pairs.Legs, t: Transaction, h: string)
    requires t.kind.PairKind? && t.kind.pair == legs
    requires before.legs.sellSpot.symbol == legs.sellSpot.symbol
    requires before.legs.buySpot.symbol == legs.buySpot.symbol
    requires legs.sellSpot.symbol != legs.buySpot.symbol
    ensures var after := if t.ttype == BUY then Pairs.AddBuy(before, legs)
                         else if t.ttype == SELL then Pairs.AddSell(before, legs)
                         else before;
      Contribution(h)(after) == Contribution(h)(before) + Effect(t, h)
  {
  }

  /** Why `Admissible` excludes self-pairs: buying one `X` for two `X` files a
      bucket whose `X` contribution is -2, since `calc`'s `elif` never reaches
      the bought leg, while the replay of the buy moves `X` by -1. */
  lemma SelfPairNotConserved(x: string)
    requires '/' !in x
    ensures var legs := Pairs.Legs(x + "/" + x, Spot(x, 2.0), Spot(x, 1.0));
      var t := Transaction(legs.name, None, BUY, 2.0, 1.0, None, None, None, PairKind(x, x, legs));
      var before: Bucket := Pairs.OpenPosition(legs);
      var after := Pairs.AddBuy(before, legs);
      && WellFormed(t) && !Admissible(t)
      && Contribution(x)(after) == -2.0 && Effect(t, x) == -1.0
      && Contribution(x)(after) != Contribution(x)(before) + Effect(t, x)
  {
    var legs := Pairs.Legs(x + "/" + x, Spot(x, 2.0), Spot(x, 1.0));
    var before: Bucket := Pairs.OpenPosition(legs);
    var after := Pairs.AddBuy(before, legs);
    assert after.legs.sellSpot == Spot(x, 2.0);
    assert Contribution(x)(before) == 0.0;
  }

  /** A bucket's contribution depends on its legs alone. */
  lemma SameLegs(a: Bucket, b: Bucket, h: string)
    requires a.legs == b.legs
    ensures Contribution(h)(a) == Contribution(h)(b)
  {
  }

  /** The bucket a pair transaction merges into: the existing one of its
      name, or a fresh one with zero legs of its symbols. */
  function BucketBefore(p: Portfolio, legs: Pairs.Legs): Bucket {
    if legs.name in p.pairs.items then p.pairs.items[legs.name] else Pairs.OpenPosition(legs)
  }

  /** The bucket after the merge, before the transaction is filed under it. */
  function Merged(before: Bucket, legs: Pairs.Legs, ttype: string): Bucket {
    if ttype == BUY then Pairs.AddBuy(before, legs)
    else if ttype == SELL then Pairs.AddSell(before, legs)
    else before
  }

  /** The pair branch leaves exactly one bucket changed, with its legs merged. */
  lemma MergePairBucket(p: Portfolio, t: Transaction)
    requires NodeValid(p) && t.IsPair()
    ensures var legs := t.kind.pair;
      var after := Merged(BucketBefore(p, legs), legs, t.ttype);
      var s1 := AddPair(p, legs, t.ttype);
      && s1.state.pairs == Put(p.pairs, legs.name, after)
      && (s1.raised.Some? ==> MergePair(p, t).state.pairs == s1.state.pairs)
      && (s1.raised.None? ==> MergePair(p, t).state.pairs == Put(s1.state.pairs, legs.name, Pairs.AddTransaction(after, t)))
  {
  }

  /** The pair branch of `add_transaction` keeps the buckets named. */
  lemma MergePairNamed(p: Portfolio, t: Transaction)
    requires NodeValid(p) && BucketsNamed(p) && t.IsPair() && Admissible(t)
    ensures BucketsNamed(MergePair(p, t).state)
  {
    MergePairBucket(p, t);
    BucketSymbols(p, t);
  }

  /** The bucket a pair transaction merges into carries the transaction's leg symbols. */
  lemma BucketSymbols(p: Portfolio, t: Transaction)
    requires NodeValid(p) && BucketsNamed(p) && t.IsPair() && Admissible(t)
    ensures BucketBefore(p, t.kind.pair).legs.sellSpot.symbol == t.kind.pair.sellSpot.symbol
    ensures BucketBefore(p, t.kind.pair).legs.buySpot.symbol == t.kind.pair.buySpot.symbol
  {
    var legs := t.kind.pair;
    if legs.name in p.pairs.items {
      var b := p.pairs.items[legs.name];
      NamedAfterUnique(legs.name, b.legs.sellSpot.symbol, b.legs.buySpot.symbol, legs.sellSpot.symbol, legs.buySpot.symbol);
    }
  }

  /** The pair branch of `add_transaction` moves the pair position in `h` by
      the transaction's effect. */
  lemma MergePairMoves(p: Portfolio, t: Transaction, h: string)
    requires NodeValid(p) && BucketsNamed(p) && t.IsPair() && Admissible(t)
    ensures PairNet(MergePair(p, t).state, h) == PairNet(p, h) + Effect(t, h)
  {
    var legs := t.kind.pair;
    var before := BucketBefore(p, legs);
    var after := Merged(before, legs, t.ttype);
    var s1 := AddPair(p, legs, t.ttype);
    MergePairBucket(p, t);
    BucketSymbols(p, t);
    ContributionStep(before, legs, t, h);
    SumPut(p.pairs, legs.name, after, Contribution(h));
    if legs.name !in p.pairs.items {
      assert Contribution(h)(before) == 0.0;
    }
    if s1.raised.None? {
      FiledKeepsNet(s1.state, legs.name, after, t, h);
    }
  }

  /** Filing the transaction under its merged bucket leaves the pair net as it is. */
  lemma FiledKeepsNet(s: Portfolio, name: string, after: Bucket, t: Transaction, h: string)
    requires NodeValid(s) && name in s.pairs.items && s.pairs.items[name] == after
    ensures Sum(Put(s.pairs, name, Pairs.AddTransaction(after, t)).keys,
                Put(s.pairs, name, Pairs.AddTransaction(after, t)).items, Contribution(h))
         == PairNet(s, h)
  {
    var filed := Pairs.AddTransaction(after, t);
    SumPut(s.pairs, name, filed, Contribution(h));
    SameLegs(filed, after, h);
  }

  /** The single-asset branch of `add_transaction` moves the single-asset
      position of its symbol by the transaction's effect. */
  lemma MergeSpotMoves(p: Portfolio, t: Transaction)
    requires NodeValid(p) && t.kind.SpotKind?
    ensures forall h :: SpotNet(MergeSpot(p, t.kind.spot, t.ttype).state, h) == SpotNet(p, h) + Effect(t, h)
  {
  }

  /** `add_transaction` at one node keeps its loading invariant, raise or not. */
  lemma AddLocalKeepsSound(p: Portfolio, t: Transaction)
    requires Sound(p) && Admissible(t)
    ensures Sound(AddLocal(p, t).state)
  {
    AddLocalKeepsFeesBalanced(p, t);
    if t.IsPair() {
      PairStepNamed(p, t);
      PairStepConserves(p, t);
    } else {
      SpotStepConserves(p, t);
    }
  }

  /** Appending keeps the net quantities and adds the transaction's effect to the replay. */
  lemma AppendStep(p: Portfolio, t: Transaction)
    requires NodeValid(p)
    ensures forall h :: PairNet(Append(p, t), h) == PairNet(p, h) && SpotNet(Append(p, t), h) == SpotNet(p, h)
    ensures forall h :: Replay(Append(p, t).transactions, h) == Replay(p.transactions, h) + Effect(t, h)
  {
    forall h ensures Replay(Append(p, t).transactions, h) == Replay(p.transactions, h) + Effect(t, h) {
      ReplayAppend(p.transactions, t, h);
    }
  }

  /** A pair transaction keeps the buckets named after their legs. */
  lemma PairStepNamed(p: Portfolio, t: Transaction)
    requires NodeValid(p) && BucketsNamed(p) && Admissible(t) && t.IsPair()
    ensures BucketsNamed(AddLocal(p, t).state)
  {
    var p1 := Append(p, t);
    assert AddLocal(p, t).state == MergePair(p1, t).state;
    MergePairNamed(p1, t);
  }

  /** A pair transaction keeps the net quantities equal to the replay. */
  lemma PairStepConserves(p: Portfolio, t: Transaction)
    requires NodeValid(p) && BucketsNamed(p) && Conserved(p) && Admissible(t) && t.IsPair()
    ensures Conserved(AddLocal(p, t).state)
  {
    forall h ensures PairNet(AddLocal(p, t).state, h) + SpotNet(AddLocal(p, t).state, h)
                     == Replay(AddLocal(p, t).state.transactions, h) {
      PairStepAt(p, t, h);
    }
  }

  /** One symbol's share of `PairStepConserves`. */
  lemma PairStepAt(p: Portfolio, t: Transaction, h: string)
    requires NodeValid(p) && BucketsNamed(p) && Admissible(t) && t.IsPair()
    requires PairNet(p, h) + SpotNet(p, h) == Replay(p.transactions, h)
    ensures var r := AddLocal(p, t).state;
      PairNet(r, h) + SpotNet(r, h) == Replay(r.transactions, h)
  {
    var p1 := Append(p, t);
    var r := AddLocal(p, t).state;
    assert r == MergePair(p1, t).state;
    assert p1.pairs == p.pairs && p1.spots == p.spots;
    assert r.spots == p1.spots;
    MergePairMoves(p1, t, h);
    ReplayAppend(p.transactions, t, h);
  }

  /** A transfer keeps the buckets and the net quantities equal to the replay. */
  lemma SpotStepConserves(p: Portfolio, t: Transaction)
    requires Sound(p) && Admissible(t) && !t.IsPair()
    ensures BucketsNamed(AddLocal(p, t).state) && Conserved(AddLocal(p, t).state)
  {
    var p1 := Append(p, t);
    var r := AddLocal(p, t).state;
    assert r == MergeSpot(p1, t.kind.spot, t.ttype).state;
    AppendStep(p, t);
    MergeSpotMoves(p1, t);
  }

  /** Every node of the tree keeps its loading invariant. */
  ghost predicate TreeSound(p: Portfolio) {
    Sound(p) && forall i :: 0 <= i < |p.subs| ==> TreeSound(p.subs[i])
  }

  lemma {:induction false} TreeSoundValid(p: Portfolio)
    requires TreeSound(p)
    ensures TreeValid(p)
    decreases p
  {
    forall i | 0 <= i < |p.subs| ensures TreeValid(p.subs[i]) {
      TreeSoundValid(p.subs[i]);
    }
  }

  /** `add_transaction` on any node keeps every node of the tree sound, raise
      or not: the nodes it reaches each take one sound local step, the others
      are untouched. */
  lemma {:induction false} AddTransactionAtKeepsSound(root: Portfolio, path: seq<nat>, t: Transaction)
    requires PathValid(root, path) && TreeSound(root) && Admissible(t)
    ensures TreeSound(AddTransactionAt(root, path, t).state)
    decreases |path|
  {
    var s := AddLocal(root, t);
    AddLocalKeepsSound(root, t);
    assert s.state.subs == root.subs;
    if s.raised.None? && path != [] {
      var i := path[0];
      var c := AddTransactionAt(root.subs[i], path[1..], t);
      AddTransactionAtKeepsSound(root.subs[i], path[1..], t);
      var subs := s.state.subs[i := c.state];
      assert AddTransactionAt(root, path, t).state == s.state.(subs := subs);
      SoundIgnoresSubs(s.state, subs);
    }
  }

  /** The loading invariant of a node says nothing about its children. */
  lemma SoundIgnoresSubs(p: Portfolio, subs: seq<Portfolio>)
    requires Sound(p)
    ensures Sound(p.(subs := subs))
  {
    var r := p.(subs := subs);
    assert r.pairs == p.pairs && r.spots == p.spots && r.transactions == p.transactions;
    forall sym ensures FeeQuantity(r, sym) == FeeQuantity(p, sym) {
    }
    forall h ensures PairNet(r, h) == PairNet(p, h) {
    }
  }

  /** The loading invariant holds of a new node, which starts the induction
      the preservation lemmas continue. */
  lemma NewSound(name: string, parent: Option<Portfolio>)
    ensures TreeSound(New(name, parent)) && Settled(New(name, parent))
  {
    var p := New(name, parent);
    forall h ensures PairNet(p, h) + SpotNet(p, h) == Replay(p.transactions, h) {
      assert p.pairs.keys == [];
    }
  }

  /** Attaching a sound child to a sound tree keeps the tree sound. */
  lemma AddPortfolioKeepsTreeSound(p: Portfolio, sub: Portfolio)
    requires TreeSound(p) && TreeSound(sub)
    ensures TreeSound(AddPortfolio(p, sub))
  {
    var r := AddPortfolio(p, sub);
    SoundIgnoresSubs(p, r.subs);
    forall i | 0 <= i < |r.subs| ensures TreeSound(r.subs[i]) {
      if i < |p.subs| {
        assert r.subs[i] == p.subs[i];
      }
    }
  }

  // ------------------------------------------------------------ settled

  /** A transaction the node booked: a known type, the loader's shape, and
      its bucket present. Self-pairs included. */
  predicate Booked(p: Portfolio, t: Transaction) {
    && TypeAccepted(t) && WellFormed(t)
    && match t.kind
       case PairKind(_, _, legs) => legs.name in p.pairs.items
       case SpotKind(sp) => sp.symbol in p.spots.items
  }

  /** Every transaction of the node was booked. */
  ghost predicate Recorded(p: Portfolio) {
    forall k :: 0 <= k < |p.transactions| ==> Booked(p, p.transactions[k])
  }

  /** A booked transaction the laws are stated for. */
  predicate Filed(p: Portfolio, t: Transaction) {
    Booked(p, t) && Admissible(t)
  }

  /** Every transaction of the node was accepted. */
  ghost predicate Settled(p: Portfolio) {
    forall k :: 0 <= k < |p.transactions| ==> Filed(p, p.transactions[k])
  }

  /** Accepting a transaction keeps the node settled: buckets are never
      removed, and the new transaction's bucket is created. */
  lemma AddLocalKeepsSettled(p: Portfolio, t: Transaction)
    requires NodeValid(p) && Settled(p) && TypeAccepted(t) && Admissible(t)
    ensures Settled(AddLocal(p, t).state)
  {
    var p1 := Append(p, t);
    var r := AddLocal(p, t).state;
    forall u | Filed(p, u) ensures Filed(r, u) {
      if u.IsPair() {
        assert u.kind.pair.name in p1.pairs.items;
      } else {
        assert u.kind.spot.symbol in p1.spots.items;
      }
    }
    assert r.transactions == p.transactions + [t];
  }

  // -------------------------------------------------------- conservation

  /** A symbol on no leg of the buckets gets nothing from them. */
  lemma {:induction false} OffLegsZero(keys: seq<string>, pairs: map<string, Bucket>, h: string)
    requires Covers(keys, pairs) && h !in LegSymbols(keys, pairs)
    ensures Sum(keys, pairs, Contribution(h)) == 0.0
  {
    if keys != [] {
      OffLegsZero(keys[..|keys| - 1], pairs, h);
    }
  }

  /** Conservation: on a sound childless node, `calc` makes every holding the
      direct replay of the node's transactions in its symbol, and every
      symbol without a holding replays to zero. */
  lemma CalcReplays(p: Portfolio, c: string, h: string)
    requires Sound(p) && p.subs == []
    ensures Calc(p, c).Ok?
    ensures var hs := Calc(p, c).value.holdings.items;
      && (h in hs ==> hs[h].Quantity() == Replay(p.transactions, h))
      && (h !in hs ==> Replay(p.transactions, h) == 0.0)
  {
    if h in Calc(p, c).value.holdings.items {
      HeldReplays(p, c, h);
    } else {
      UnheldReplaysZero(p, c, h);
    }
  }

  /** A held symbol's quantity after `calc` is the replay of the transactions. */
  lemma HeldReplays(p: Portfolio, c: string, h: string)
    requires Sound(p) && p.subs == [] && h in Calc(p, c).value.holdings.items
    ensures Calc(p, c).value.holdings.items[h].Quantity() == Replay(p.transactions, h)
  {
    assert Calc(p, c).value.holdings.items[h].Quantity() == PairNet(p, h) + SpotNet(p, h);
  }

  /** A symbol `calc` does not hold replays to zero. */
  lemma UnheldReplaysZero(p: Portfolio, c: string, h: string)
    requires Sound(p) && p.subs == [] && h !in Calc(p, c).value.holdings.items
    ensures Replay(p.transactions, h) == 0.0
  {
    assert h !in LegSymbols(p.pairs.keys, p.pairs.items) && h !in p.spots.items;
    OffLegsZero(p.pairs.keys, p.pairs.items, h);
  }

  // ------------------------------------------------------------ valuation

  /** The case `quotes` leaves unimplemented: a pair that buys the reporting
      currency with something else. */
  predicate Unimplemented(t: Transaction, c: string) {
    t.IsPair() && t.kind.pair.buySpot.symbol == c && t.kind.pair.sellSpot.symbol != c
  }

  /** A booked transaction whose symbols all have quotes is valued without
      a raise exactly when it is not the unimplemented case. */
  lemma BookedValuable(p: Portfolio, t: Transaction, q: Quotes, c: string)
    requires NodeValid(p) && BucketsLabelled(p) && Booked(p, t)
    requires forall y :: y in LegSymbols(p.pairs.keys, p.pairs.items) ==> Quoted(q, c, y)
    requires forall y :: y in p.spots.items ==> Quoted(q, c, y)
    ensures Valuable(t, q, c) <==> !Unimplemented(t, c)
  {
    if t.IsPair() {
      var legs := t.kind.pair;
      var b := p.pairs.items[legs.name];
      NamedAfterUnique(legs.name, b.legs.sellSpot.symbol, b.legs.buySpot.symbol, legs.sellSpot.symbol, legs.buySpot.symbol);
      assert legs.name in p.pairs.keys;
      LegSymbolsCover(p.pairs.keys, p.pairs.items, legs.name);
    }
  }

  /** Every quote the node's valuation reads is one `get_convert_symbols`
      lists, or the identity. */
  lemma ListedQuotes(r: Portfolio, q: Quotes, c: string)
    requires NodeValid(r)
    requires forall x, y :: Listed(GetConvertSymbols(r, c), x, y) ==> Get(q, x, y).Ok?
    ensures forall y :: y in r.holdings.items ==> Quoted(q, c, y)
    ensures forall y :: y in r.spots.items ==> Quoted(q, c, y)
    ensures forall y :: y in r.fees.items ==> Quoted(q, c, y)
  {
    forall y | y in r.holdings.items || y in r.spots.items || y in r.fees.items ensures Quoted(q, c, y) {
      if y != c {
        assert Wanted(r, c, c, y);
        assert Listed(GetConvertSymbols(r, c), c, y);
      }
    }
  }

  /** With every listed quote fetched, a node whose transactions were all
      booked is quotable exactly when no transaction is the unimplemented
      case. */
  lemma QuotableIff(r: Portfolio, q: Quotes, c: string)
    requires NodeValid(r) && BucketsLabelled(r) && Recorded(r)
    requires LegSymbols(r.pairs.keys, r.pairs.items) <= r.holdings.items.Keys
    requires forall x, y :: Listed(GetConvertSymbols(r, c), x, y) ==> Get(q, x, y).Ok?
    ensures forall k :: 0 <= k < |r.transactions| ==>
      (Valuable(r.transactions[k], q, c) <==> !Unimplemented(r.transactions[k], c))
    ensures NodeQuotable(r, q, c) <==> !exists k :: 0 <= k < |r.transactions| && Unimplemented(r.transactions[k], c)
  {
    ListedQuotes(r, q, c);
    forall k | 0 <= k < |r.transactions|
      ensures Valuable(r.transactions[k], q, c) <==> !Unimplemented(r.transactions[k], c)
    {
      BookedValuable(r, r.transactions[k], q, c);
    }
  }

  /** The valuation of such a node raises only the unimplemented error. */
  lemma QuoteNodeFailsOnlyUnimplemented(r: Portfolio, q: Quotes, c: string)
    requires NodeValid(r) && BucketsLabelled(r) && Recorded(r)
    requires LegSymbols(r.pairs.keys, r.pairs.items) <= r.holdings.items.Keys
    requires forall x, y :: Listed(GetConvertSymbols(r, c), x, y) ==> Get(q, x, y).Ok?
    ensures var s := QuoteNode(r, q, c);
      && (s.raised.Some? <==> exists k :: 0 <= k < |r.transactions| && Unimplemented(r.transactions[k], c))
      && (s.raised.Some? ==> s.raised == Some(NotImplemented))
  {
    QuotableIff(r, q, c);
    var s := QuoteNode(r, q, c);
    if s.raised.Some? {
      QuoteNodeMarkError(r, q, c);
      var j :| 0 <= j < |r.transactions| && FirstFailure(r.marks, r.transactions, q, c, j, Outcome(s.state.marks, s.raised));
      assert Unimplemented(r.transactions[j], c);
    }
  }

  /** Once `calc` has run on a childless node whose transactions were all
      booked into labelled buckets, and every quote
      `get_convert_symbols` asks for has been fetched, `quotes` raises exactly
      when some pair buys the reporting currency with another symbol, and then
      only with the unimplemented error. */
  lemma QuotesFailOnlyUnimplemented(p: Portfolio, q: Quotes, c: string)
    requires NodeValid(p) && BucketsLabelled(p) && Recorded(p) && p.subs == []
    requires Calc(p, c).Ok?
    requires forall x, y :: Listed(GetConvertSymbols(Calc(p, c).value, c), x, y) ==> Get(q, x, y).Ok?
    ensures var s := QuoteTree(Calc(p, c).value, q, c);
      && (s.raised.Some? <==> exists k :: 0 <= k < |p.transactions| && Unimplemented(p.transactions[k], c))
      && (s.raised.Some? ==> s.raised == Some(NotImplemented))
  {
    var r := Calc(p, c).value;
    assert r == p.(holdings := r.holdings, cost := r.cost);
    assert LegSymbols(r.pairs.keys, r.pairs.items) <= r.holdings.items.Keys;
    assert Recorded(r) by {
      forall k | 0 <= k < |r.transactions| ensures Booked(r, r.transactions[k]) {
        assert Booked(p, p.transactions[k]);
      }
    }
    QuoteNodeFailsOnlyUnimplemented(r, q, c);
    assert TreeValid(r);
    QuoteTreeLeaf(r, q, c);
  }
}
