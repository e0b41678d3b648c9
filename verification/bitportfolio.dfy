/** The aggregation of the older `bitportfolio` prototype
    (src/bitportfolio.py:46-203): a fold over a directory tree of JSON trade
    files into per-pair totals, a normalisation pass, and a valuation at one
    quote per bought symbol.

    Listing directories and reading files are left out: the tree arrives as
    a value whose entries are in the order the directory listing gives. */
module Prototype {
  import opened Wrappers
  import opened OrderedMaps
  import Transactions

  /** One trade of a file. `cost` and `value` are the keys the fold and the
      valuation add; a trade read from a file has neither yet. */
  datatype Trx = Trx(date: string, ttype: string, price: real, quantity: real, fee: real,
                     location: Option<string>, cost: Option<real>, value: Option<real>)

  /** The totals of one pair. */
  datatype PairAgg = PairAgg(sellSymbol: string, buySymbol: string, quantity: real, fees: real,
                             value: real, locations: seq<string>, transactions: seq<Trx>,
                             quote: Option<real>)

  /** The result of one directory. */
  datatype Collection = Collection(symbols: seq<string>, sellSymbols: seq<string>, buySymbols: seq<string>,
                                   fees: real, value: real, locations: seq<string>, pairs: OMap<PairAgg>)

  /** A directory entry: a subdirectory, a JSON file with its pair string and
      trades, or any other file. */
  datatype Node = Dir(entries: seq<Node>) | JsonFile(pair: string, trades: seq<Trx>) | OtherFile

  // --------------------------------------------------------------- totals

  /** How a trade moves its pair's quantity: a buy adds, a sell subtracts,
      any other type leaves it. */
  function Signed(t: Trx): real {
    if t.ttype == "buy" then t.quantity else if t.ttype == "sell" then -t.quantity else 0.0
  }

  /** Buys minus sells over the trades. */
  function Net(ts: seq<Trx>): real {
    if ts == [] then 0.0 else Net(ts[..|ts| - 1]) + Signed(ts[|ts| - 1])
  }

  /** The fees of the trades, whatever their type. */
  function FeeSum(ts: seq<Trx>): real {
    if ts == [] then 0.0 else FeeSum(ts[..|ts| - 1]) + ts[|ts| - 1].fee
  }

  lemma {:induction false} TotalsAppend(a: seq<Trx>, b: seq<Trx>)
    ensures Net(a + b) == Net(a) + Net(b)
    ensures FeeSum(a + b) == FeeSum(a) + FeeSum(b)
    decreases |b|
  {
    if b == [] {
      assert a + b == a;
    } else {
      var init := b[..|b| - 1];
      assert (a + b)[..|a + b| - 1] == a + init;
      TotalsAppend(a, init);
    }
  }

  /** `price * quantity`. */
  function Cost(price: real, quantity: real): real {
    price * quantity
  }

  /** A trade carries the cost the fold computed for it. */
  predicate Costed(t: Trx) {
    t.cost == Some(Cost(t.price, t.quantity))
  }

  /** A pair's totals agree with its trades. */
  ghost predicate AggBalanced(a: PairAgg) {
    && a.quantity == Net(a.transactions)
    && a.fees == FeeSum(a.transactions)
    && forall i :: 0 <= i < |a.transactions| ==> Costed(a.transactions[i])
  }

  function AggFees(a: PairAgg): real { a.fees }

  /** The quantity held in pair `k`, zero when there is no entry for it. */
  function QuantityOf(c: Collection, k: string): real {
    if k in c.pairs.items then c.pairs.items[k].quantity else 0.0
  }

  /** The invariants the fold keeps: every pair's quantity is its buys minus
      its sells and its fees are its trades' fees, and the collection's fees
      are the sum of its pairs' fees. */
  ghost predicate Balanced(c: Collection) {
    PairsBalanced(c.pairs, c.fees)
  }

  ghost predicate PairsBalanced(m: OMap<PairAgg>, fees: real) {
    && Valid(m)
    && (forall k :: k in m.items ==> AggBalanced(m.items[k]))
    && fees == Sum(m.keys, m.items, AggFees)
  }

  function EmptyCollection(): (c: Collection)
    ensures Balanced(c) && c.pairs.items == map[]
  {
    Collection([], [], [], 0.0, 0.0, [], Empty())
  }

  /** A balanced entry stored under `pid`, the collection's fees moved by
      the entry's change: the collection stays balanced. */
  function Store(c: Collection, pid: string, a: PairAgg): (r: Collection)
    requires Balanced(c) && AggBalanced(a)
    ensures Balanced(r)
    ensures r == c.(fees := r.fees, pairs := Put(c.pairs, pid, a))
    ensures r.fees == c.fees - (if pid in c.pairs.items then c.pairs.items[pid].fees else 0.0) + a.fees
  {
    var m := Put(c.pairs, pid, a);
    forall k | k in m.items ensures AggBalanced(m.items[k]) {
      if k != pid {
        assert m.items[k] == c.pairs.items[k];
      }
    }
    SumPut(c.pairs, pid, a, AggFees);
    c.(fees := c.fees - (if pid in c.pairs.items then c.pairs.items[pid].fees else 0.0) + a.fees, pairs := m)
  }

  /** A pair entry as the fold creates it: zero totals, no locations, no trades. */
  function OpenAgg(sell: string, buy: string): (a: PairAgg)
    ensures AggBalanced(a)
  {
    PairAgg(sell, buy, 0.0, 0.0, 0.0, [], [], None)
  }

  function LocationOf(t: Trx): seq<string> {
    if t.location.Some? then [t.location.value] else []
  }

  /** One trade of a file on its pair (bitportfolio.py:118-133): cost it,
      file it, move the quantity by its type, add its fee, note its location. */
  function FileTrade(a: PairAgg, t: Trx): (r: PairAgg)
    ensures r.quantity == a.quantity + Signed(t) && r.fees == a.fees + t.fee
    ensures r.transactions == a.transactions + [t.(cost := Some(Cost(t.price, t.quantity)))]
    ensures r.locations == a.locations + LocationOf(t)
    ensures r.sellSymbol == a.sellSymbol && r.buySymbol == a.buySymbol && r.value == a.value && r.quote == a.quote
    ensures AggBalanced(a) ==> AggBalanced(r)
  {
    var costed := t.(cost := Some(Cost(t.price, t.quantity)));
    var r := a.(quantity := a.quantity + Signed(t), fees := a.fees + t.fee,
                transactions := a.transactions + [costed], locations := a.locations + LocationOf(t));
    assert r.transactions[..|r.transactions| - 1] == a.transactions;
    r
  }

  /** One trade filed on the collection: the pair entry and the
      collection's fees and locations move. */
  function FileInto(c: Collection, pair: string, t: Trx): (r: Collection)
    requires Balanced(c) && pair in c.pairs.items
    ensures Balanced(r) && r.pairs.items.Keys == c.pairs.items.Keys && r.pairs.keys == c.pairs.keys
    ensures r.fees == c.fees + t.fee
    ensures r.pairs.items[pair] == FileTrade(c.pairs.items[pair], t)
    ensures forall k :: k in c.pairs.items && k != pair ==> r.pairs.items[k] == c.pairs.items[k]
    ensures r == c.(fees := r.fees, pairs := r.pairs, locations := r.locations)
  {
    Store(c, pair, FileTrade(c.pairs.items[pair], t)).(locations := c.locations + LocationOf(t))
  }

  /** The loop over a file's trades, the pair entry already present. */
  function FileTrades(c: Collection, pair: string, ts: seq<Trx>): (r: Collection)
    requires Balanced(c) && pair in c.pairs.items
    ensures Balanced(r) && r.pairs.items.Keys == c.pairs.items.Keys && r.pairs.keys == c.pairs.keys
    ensures r.fees == c.fees + FeeSum(ts)
    ensures r.pairs.items[pair].quantity == c.pairs.items[pair].quantity + Net(ts)
    ensures forall k :: k in c.pairs.items && k != pair ==> r.pairs.items[k] == c.pairs.items[k]
    ensures r == c.(fees := r.fees, pairs := r.pairs, locations := r.locations)
    decreases |ts|
  {
    if ts == [] then c
    else FileInto(FileTrades(c, pair, ts[..|ts| - 1]), pair, ts[|ts| - 1])
  }

  /** The pair entry of `pair`, created with zero totals if missing. */
  function Opened(c: Collection, pair: string, sell: string, buy: string): (r: Collection)
    requires Balanced(c)
    ensures Balanced(r) && pair in r.pairs.items
    ensures r == c.(pairs := r.pairs)
    ensures pair in c.pairs.items ==> r == c
    ensures pair !in c.pairs.items ==> r.pairs.items == c.pairs.items[pair := OpenAgg(sell, buy)]
  {
    if pair in c.pairs.items then c
    else
      Store(c, pair, OpenAgg(sell, buy))
  }

  /** One JSON file (bitportfolio.py:94-133): split the pair string, create
      the pair entry if missing, list both symbols, then file every trade.
      A pair string without exactly one separator raises. */
  function AddFile(c: Collection, pair: string, ts: seq<Trx>): (r: Result<Collection>)
    requires Balanced(c)
    ensures r.Ok? <==> Transactions.SplitPair(pair).Ok?
    ensures r.Err? ==> r.error == BadPairString(pair)
    ensures r.Ok? ==> Balanced(r.value) && pair in r.value.pairs.items
    ensures r.Ok? ==> r.value.fees == c.fees + FeeSum(ts)
    ensures r.Ok? ==>
      r.value.pairs.items[pair].quantity == (if pair in c.pairs.items then c.pairs.items[pair].quantity else 0.0) + Net(ts)
    ensures r.Ok? ==> r.value.pairs.items.Keys == c.pairs.items.Keys + {pair}
    ensures r.Ok? ==> forall k :: k in c.pairs.items && k != pair ==> r.value.pairs.items[k] == c.pairs.items[k]
    ensures r.Ok? ==> var s := Transactions.SplitPair(pair).value;
      && r.value.symbols == c.symbols + [s.0, s.1]
      && r.value.sellSymbols == c.sellSymbols + [s.0]
      && r.value.buySymbols == c.buySymbols + [s.1]
  {
    var s :- Transactions.SplitPair(pair);
    var c1 := Opened(c, pair, s.0, s.1);
    var c2 := c1.(symbols := c1.symbols + [s.0, s.1], sellSymbols := c1.sellSymbols + [s.0],
                  buySymbols := c1.buySymbols + [s.1]);
    Ok(FileTrades(c2, pair, ts))
  }

  /** A subdirectory's pair totals added onto an entry. */
  function Combined(before: PairAgg, p: PairAgg): (r: PairAgg)
    requires AggBalanced(before) && AggBalanced(p)
    ensures AggBalanced(r)
    ensures r.fees == before.fees + p.fees && r.quantity == before.quantity + p.quantity
    ensures r.transactions == before.transactions + p.transactions
    ensures r.locations == before.locations + p.locations
    ensures r.sellSymbol == before.sellSymbol && r.buySymbol == before.buySymbol
  {
    TotalsAppend(before.transactions, p.transactions);
    before.(transactions := before.transactions + p.transactions,
            quantity := before.quantity + p.quantity,
            fees := before.fees + p.fees,
            locations := before.locations + p.locations)
  }

  /** The entry of `pid`, or a fresh one with the given symbols. */
  function EntryOr(c: Collection, pid: string, sell: string, buy: string): (a: PairAgg)
    requires Balanced(c)
    ensures AggBalanced(a)
    ensures pid in c.pairs.items ==> a == c.pairs.items[pid]
    ensures pid !in c.pairs.items ==> a == OpenAgg(sell, buy)
  {
    if pid in c.pairs.items then c.pairs.items[pid] else OpenAgg(sell, buy)
  }

  /** One pair of a subdirectory's result merged into the collection
      (bitportfolio.py:66-84): create the entry if missing, with the
      subdirectory's symbols, then add fees, locations, trades and quantity. */
  function MergePairAgg(c: Collection, pid: string, p: PairAgg): (r: Collection)
    requires Balanced(c) && AggBalanced(p)
    ensures Balanced(r) && pid in r.pairs.items
    ensures r.fees == c.fees + p.fees
    ensures r.pairs.items[pid] == Combined(EntryOr(c, pid, p.sellSymbol, p.buySymbol), p)
    ensures r.pairs.items.Keys == c.pairs.items.Keys + {pid}
    ensures forall k :: k in c.pairs.items && k != pid ==> r.pairs.items[k] == c.pairs.items[k]
    ensures r == c.(fees := r.fees, pairs := r.pairs, locations := r.locations)
  {
    var after := Combined(EntryOr(c, pid, p.sellSymbol, p.buySymbol), p);
    Store(c, pid, after).(locations := c.locations + p.locations)
  }

  /** The pairs of a subdirectory's result, merged in key order. */
  function MergePairs(c: Collection, keys: seq<string>, items: map<string, PairAgg>): (r: Collection)
    requires Balanced(c) && Covers(keys, items) && Distinct(keys)
    requires forall k :: k in items ==> AggBalanced(items[k])
    ensures Balanced(r)
    ensures r.fees == c.fees + Sum(keys, items, AggFees)
    ensures r.symbols == c.symbols && r.sellSymbols == c.sellSymbols && r.buySymbols == c.buySymbols
    ensures r.value == c.value
    decreases |keys|
  {
    if keys == [] then c
    else
      var init := keys[..|keys| - 1];
      var last := keys[|keys| - 1];
      var prev := MergePairs(c, init, items);
      MergePairAgg(prev, last, items[last])
  }

  /** Merging pairs in key order unites the keys and adds each merged pair's
      quantity to the one already there. */
  lemma {:induction false} MergePairsAdds(c: Collection, keys: seq<string>, items: map<string, PairAgg>, k: string)
    requires Balanced(c) && Covers(keys, items) && Distinct(keys)
    requires forall k :: k in items ==> AggBalanced(items[k])
    ensures k in MergePairs(c, keys, items).pairs.items <==> k in c.pairs.items || k in keys
    ensures QuantityOf(MergePairs(c, keys, items), k) == QuantityOf(c, k) + (if k in keys then items[k].quantity else 0.0)
    decreases |keys|
  {
    if keys != [] {
      var init := keys[..|keys| - 1];
      var last := keys[|keys| - 1];
      assert k in keys <==> k in init || k == last;
      assert last !in init;
      MergePairsAdds(c, init, items, k);
    }
  }

  /** The collection with a subdirectory's symbol lists and value added,
      before its pairs are merged. */
  function Widened(c: Collection, data: Collection): (r: Collection)
    ensures r.pairs == c.pairs && r.fees == c.fees
  {
    c.(symbols := c.symbols + data.symbols, sellSymbols := c.sellSymbols + data.sellSymbols,
       buySymbols := c.buySymbols + data.buySymbols, value := c.value + data.value)
  }

  /** A subdirectory's result merged into the collection (bitportfolio.py:59-84). */
  function MergeSub(c: Collection, data: Collection): (r: Collection)
    requires Balanced(c) && Balanced(data)
    ensures Balanced(r)
    ensures r.fees == c.fees + data.fees
    ensures r.symbols == c.symbols + data.symbols
    ensures r.sellSymbols == c.sellSymbols + data.sellSymbols
    ensures r.buySymbols == c.buySymbols + data.buySymbols
  {
    MergePairs(Widened(c, data), data.pairs.keys, data.pairs.items)
  }

  /** Merging a subdirectory's result unites the pair keys. */
  lemma MergeSubKeys(c: Collection, data: Collection)
    requires Balanced(c) && Balanced(data)
    ensures MergeSub(c, data).pairs.items.Keys == c.pairs.items.Keys + data.pairs.items.Keys
  {
    var c1 := Widened(c, data);
    var r := MergePairs(c1, data.pairs.keys, data.pairs.items);
    forall k | true
      ensures k in r.pairs.items <==> k in c.pairs.items || k in data.pairs.items
    {
      MergePairsAdds(c1, data.pairs.keys, data.pairs.items, k);
      assert k in data.pairs.keys <==> k in data.pairs.items;
    }
  }

  /** Merging a subdirectory's result adds the quantities pair by pair. */
  lemma MergeSubQuantity(c: Collection, data: Collection, k: string)
    requires Balanced(c) && Balanced(data)
    ensures QuantityOf(MergeSub(c, data), k) == QuantityOf(c, k) + QuantityOf(data, k)
  {
    var c1 := Widened(c, data);
    MergePairsAdds(c1, data.pairs.keys, data.pairs.items, k);
    assert k in data.pairs.keys <==> k in data.pairs.items;
  }

  // ------------------------------------------------------- the files read

  /** One JSON file as read: its pair string and its trades. */
  datatype JsonData = JsonData(pair: string, trades: seq<Trx>)

  /** The JSON files under a node, in the order `_traverse` reads them: a
      directory's entries in listing order, each subdirectory's files where
      the subdirectory stands. This is the reference the traversal is
      measured against. */
  function Files(n: Node): seq<JsonData>
    decreases n, 1
  {
    match n
    case Dir(_) => EntryFiles(n, 0)
    case JsonFile(pair, ts) => [JsonData(pair, ts)]
    case OtherFile => []
  }

  function EntryFiles(d: Node, i: nat): seq<JsonData>
    requires d.Dir? && i <= |d.entries|
    decreases d, 0, |d.entries| - i
  {
    if i == |d.entries| then []
    else
      assert d.entries[i] < d;
      Files(d.entries[i]) + EntryFiles(d, i + 1)
  }

  predicate SplitOk(f: JsonData) {
    Transactions.SplitPair(f.pair).Ok?
  }

  /** Every file's pair string has exactly one separator. */
  predicate AllSplit(fs: seq<JsonData>) {
    fs == [] || (SplitOk(fs[0]) && AllSplit(fs[1..]))
  }

  /** The first pair string that does not split. */
  function FirstBadPair(fs: seq<JsonData>): string
    requires !AllSplit(fs)
  {
    if !SplitOk(fs[0]) then fs[0].pair else FirstBadPair(fs[1..])
  }

  /** The fees of every trade of the files. */
  function FilesFees(fs: seq<JsonData>): real {
    if fs == [] then 0.0 else FeeSum(fs[0].trades) + FilesFees(fs[1..])
  }

  /** Buys minus sells of the trades of the files of pair `k`. */
  function FilesNet(fs: seq<JsonData>, k: string): real {
    if fs == [] then 0.0 else (if fs[0].pair == k then Net(fs[0].trades) else 0.0) + FilesNet(fs[1..], k)
  }

  /** The pair strings of the files. */
  function FilesPairs(fs: seq<JsonData>): set<string> {
    if fs == [] then {} else {fs[0].pair} + FilesPairs(fs[1..])
  }

  lemma {:induction false} SplitAppend(a: seq<JsonData>, b: seq<JsonData>)
    ensures AllSplit(a + b) <==> AllSplit(a) && AllSplit(b)
    decreases |a|
  {
    if a == [] {
      assert a + b == b;
    } else {
      assert (a + b)[0] == a[0] && (a + b)[1..] == a[1..] + b;
      SplitAppend(a[1..], b);
    }
  }

  lemma {:induction false} FirstBadAppend(a: seq<JsonData>, b: seq<JsonData>)
    requires !AllSplit(a + b)
    ensures !AllSplit(a) || !AllSplit(b)
    ensures FirstBadPair(a + b) == if !AllSplit(a) then FirstBadPair(a) else FirstBadPair(b)
    decreases |a|
  {
    SplitAppend(a, b);
    if a == [] {
      assert a + b == b;
    } else {
      assert (a + b)[0] == a[0] && (a + b)[1..] == a[1..] + b;
      if SplitOk(a[0]) {
        FirstBadAppend(a[1..], b);
      }
    }
  }

  lemma {:induction false} FeesAppend(a: seq<JsonData>, b: seq<JsonData>)
    ensures FilesFees(a + b) == FilesFees(a) + FilesFees(b)
    decreases |a|
  {
    if a == [] {
      assert a + b == b;
    } else {
      assert (a + b)[0] == a[0] && (a + b)[1..] == a[1..] + b;
      FeesAppend(a[1..], b);
    }
  }

  lemma {:induction false} NetAppend(a: seq<JsonData>, b: seq<JsonData>, k: string)
    ensures FilesNet(a + b, k) == FilesNet(a, k) + FilesNet(b, k)
    decreases |a|
  {
    if a == [] {
      assert a + b == b;
    } else {
      assert (a + b)[0] == a[0] && (a + b)[1..] == a[1..] + b;
      NetAppend(a[1..], b, k);
    }
  }

  lemma {:induction false} PairsAppend(a: seq<JsonData>, b: seq<JsonData>)
    ensures FilesPairs(a + b) == FilesPairs(a) + FilesPairs(b)
    decreases |a|
  {
    if a == [] {
      assert a + b == b;
    } else {
      assert (a + b)[0] == a[0] && (a + b)[1..] == a[1..] + b;
      PairsAppend(a[1..], b);
    }
  }

  /** What folding the files `fs` into `acc` gives: their fees added,
      their pair strings added as keys, and each pair's quantity moved by
      the net of its files' trades. */
  ghost predicate Collects(acc: Collection, fs: seq<JsonData>, r: Collection)
    requires AllSplit(fs)
  {
    && r.fees == acc.fees + FilesFees(fs)
    && r.pairs.items.Keys == acc.pairs.items.Keys + FilesPairs(fs)
    && forall k :: QuantityOf(r, k) == QuantityOf(acc, k) + FilesNet(fs, k)
  }

  /** Two folds in a row are the fold over the files one after the other. */
  lemma CollectsCompose(acc: Collection, a: seq<JsonData>, mid: Collection, b: seq<JsonData>, r: Collection)
    requires AllSplit(a) && AllSplit(b) && Collects(acc, a, mid) && Collects(mid, b, r)
    ensures AllSplit(a + b) && Collects(acc, a + b, r)
  {
    SplitAppend(a, b);
    FeesAppend(a, b);
    PairsAppend(a, b);
    forall k ensures QuantityOf(r, k) == QuantityOf(acc, k) + FilesNet(a + b, k) {
      NetAppend(a, b, k);
    }
  }

  /** `_traverse` on a directory: every entry in listing order; a
      subdirectory is traversed and merged, a JSON file is read in, any
      other file is skipped. It succeeds exactly when every JSON file's pair
      string splits, raises on the first that does not, and otherwise
      collects every file's fees, pair and net quantity. */
  function Traverse(d: Node): (r: Result<Collection>)
    requires d.Dir?
    ensures r.Ok? <==> AllSplit(Files(d))
    ensures r.Err? ==> r.error == BadPairString(FirstBadPair(Files(d)))
    ensures r.Ok? ==> Balanced(r.value) && Collects(EmptyCollection(), Files(d), r.value)
    decreases d, 1
  {
    TraverseEntries(d, 0, EmptyCollection())
  }

  function TraverseEntries(d: Node, i: nat, acc: Collection): (r: Result<Collection>)
    requires d.Dir? && i <= |d.entries| && Balanced(acc)
    ensures r.Ok? <==> AllSplit(EntryFiles(d, i))
    ensures r.Err? ==> r.error == BadPairString(FirstBadPair(EntryFiles(d, i)))
    ensures r.Ok? ==> Balanced(r.value) && Collects(acc, EntryFiles(d, i), r.value)
    decreases d, 0, |d.entries| - i
  {
    if i == |d.entries| then
      assert FilesPairs([]) == {};
      Ok(acc)
    else
      var e := d.entries[i];
      assert e < d;
      var rest := EntryFiles(d, i + 1);
      assert EntryFiles(d, i) == Files(e) + rest;
      SplitAppend(Files(e), rest);
      match e
      case Dir(_) =>
        var sub := Traverse(e);
        if sub.Err? then
          FirstBadAppend(Files(e), rest);
          Err(sub.error)
        else
          var next := MergeSub(acc, sub.value);
          DirCollects(acc, Files(e), sub.value);
          var r := TraverseEntries(d, i + 1, next);
          EntryStep(acc, Files(e), next, rest, r);
          r
      case JsonFile(pair, ts) =>
        var next := AddFile(acc, pair, ts);
        if next.Err? then
          assert Files(e)[0] == JsonData(pair, ts) && !SplitOk(Files(e)[0]);
          FirstBadAppend(Files(e), rest);
          Err(next.error)
        else
          AddFileAdded(acc, pair, ts);
          FileCollects(acc, pair, ts, next.value);
          var r := TraverseEntries(d, i + 1, next.value);
          EntryStep(acc, Files(e), next.value, rest, r);
          r
      case OtherFile =>
        assert Files(e) + rest == rest;
        TraverseEntries(d, i + 1, acc)
  }

  /** One entry's files, then the rest of the directory's: the outcome of
      the rest carries over to both together. */
  lemma EntryStep(acc: Collection, a: seq<JsonData>, mid: Collection, b: seq<JsonData>, r: Result<Collection>)
    requires AllSplit(a) && Collects(acc, a, mid)
    requires r.Ok? <==> AllSplit(b)
    requires r.Err? ==> r.error == BadPairString(FirstBadPair(b))
    requires r.Ok? ==> Collects(mid, b, r.value)
    ensures r.Ok? <==> AllSplit(a + b)
    ensures r.Err? ==> r.error == BadPairString(FirstBadPair(a + b))
    ensures r.Ok? ==> Collects(acc, a + b, r.value)
  {
    SplitAppend(a, b);
    if r.Ok? {
      CollectsCompose(acc, a, mid, b, r.value);
    } else {
      FirstBadAppend(a, b);
    }
  }

  /** A subdirectory's result, merged, is the fold over its files. */
  lemma DirCollects(acc: Collection, fs: seq<JsonData>, data: Collection)
    requires Balanced(acc) && Balanced(data)
    requires AllSplit(fs) && Collects(EmptyCollection(), fs, data)
    ensures Collects(acc, fs, MergeSub(acc, data))
  {
    DirKeys(acc, fs, data);
    forall k ensures QuantityOf(MergeSub(acc, data), k) == QuantityOf(acc, k) + FilesNet(fs, k) {
      DirQuantity(acc, fs, data, k);
    }
  }

  lemma DirKeys(acc: Collection, fs: seq<JsonData>, data: Collection)
    requires Balanced(acc) && Balanced(data)
    requires data.pairs.items.Keys == FilesPairs(fs)
    ensures MergeSub(acc, data).pairs.items.Keys == acc.pairs.items.Keys + FilesPairs(fs)
  {
    MergeSubKeys(acc, data);
  }

  lemma DirQuantity(acc: Collection, fs: seq<JsonData>, data: Collection, k: string)
    requires Balanced(acc) && Balanced(data)
    requires QuantityOf(data, k) == FilesNet(fs, k)
    ensures QuantityOf(MergeSub(acc, data), k) == QuantityOf(acc, k) + FilesNet(fs, k)
  {
    MergeSubQuantity(acc, data, k);
  }

  /** What `AddFile` promises about the totals it moves. */
  ghost predicate FileAdded(acc: Collection, pair: string, ts: seq<Trx>, r: Collection) {
    && Transactions.SplitPair(pair).Ok?
    && r.fees == acc.fees + FeeSum(ts)
    && r.pairs.items.Keys == acc.pairs.items.Keys + {pair}
    && r.pairs.items[pair].quantity == QuantityOf(acc, pair) + Net(ts)
    && forall k :: k in acc.pairs.items && k != pair ==> r.pairs.items[k] == acc.pairs.items[k]
  }

  lemma AddFileAdded(acc: Collection, pair: string, ts: seq<Trx>)
    requires Balanced(acc) && AddFile(acc, pair, ts).Ok?
    ensures FileAdded(acc, pair, ts, AddFile(acc, pair, ts).value)
  {
    AddFileKeys(acc, pair, ts);
    AddFileOthers(acc, pair, ts);
  }

  lemma AddFileKeys(acc: Collection, pair: string, ts: seq<Trx>)
    requires Balanced(acc) && AddFile(acc, pair, ts).Ok?
    ensures AddFile(acc, pair, ts).value.pairs.items.Keys == acc.pairs.items.Keys + {pair}
  {
  }

  lemma AddFileOthers(acc: Collection, pair: string, ts: seq<Trx>)
    requires Balanced(acc) && AddFile(acc, pair, ts).Ok?
    ensures forall k :: k in acc.pairs.items && k != pair ==> AddFile(acc, pair, ts).value.pairs.items[k] == acc.pairs.items[k]
  {
  }

  /** A JSON file read in is the fold over that one file. */
  lemma FileCollects(acc: Collection, pair: string, ts: seq<Trx>, r: Collection)
    requires FileAdded(acc, pair, ts, r)
    ensures AllSplit([JsonData(pair, ts)]) && Collects(acc, [JsonData(pair, ts)], r)
  {
    var fs := [JsonData(pair, ts)];
    assert fs[0] == JsonData(pair, ts) && fs[1..] == [];
    assert FilesFees(fs) == FeeSum(ts) by {
      assert FilesFees(fs[1..]) == 0.0;
    }
    assert FilesPairs(fs) == {pair} by {
      assert FilesPairs(fs[1..]) == {};
    }
    forall k ensures QuantityOf(r, k) == QuantityOf(acc, k) + FilesNet(fs, k) {
      FileQuantity(acc, pair, ts, r, k);
    }
  }

  /** One pair's share of `FileCollects`. */
  lemma FileQuantity(acc: Collection, pair: string, ts: seq<Trx>, r: Collection, k: string)
    requires FileAdded(acc, pair, ts, r)
    ensures QuantityOf(r, k) == QuantityOf(acc, k) + FilesNet([JsonData(pair, ts)], k)
  {
    var fs := [JsonData(pair, ts)];
    assert fs[0] == JsonData(pair, ts) && fs[1..] == [];
    assert FilesNet(fs, k) == if k == pair then Net(ts) else 0.0;
  }

  // ------------------------------------------------------------- prepare

  /** `list(set(s))`: every element once. Python leaves the order of a set
      open; the model keeps first occurrences in order. */
  function Dedup(s: seq<string>): (r: seq<string>)
    ensures Distinct(r)
    ensures forall x :: x in r <==> x in s
  {
    if s == [] then []
    else
      var init := s[..|s| - 1];
      var x := s[|s| - 1];
      var r0 := Dedup(init);
      assert forall y :: y in s <==> y in init || y == x by {
        assert s == init + [x];
      }
      if x in r0 then r0 else r0 + [x]
  }

  /** Python's `<=` on strings: code point by code point, a proper prefix first. */
  predicate DateLe(a: string, b: string) {
    a == [] || (b != [] && (a[0] < b[0] || (a[0] == b[0] && DateLe(a[1..], b[1..]))))
  }

  lemma {:induction false} DateLeTotal(a: string, b: string)
    ensures DateLe(a, b) || DateLe(b, a)
  {
    if a != [] && b != [] && a[0] == b[0] {
      DateLeTotal(a[1..], b[1..]);
    }
  }

  lemma {:induction false} DateLeTrans(a: string, b: string, c: string)
    requires DateLe(a, b) && DateLe(b, c)
    ensures DateLe(a, c)
  {
    if a != [] && b != [] && c != [] && a[0] == b[0] && b[0] == c[0] {
      DateLeTrans(a[1..], b[1..], c[1..]);
    }
  }

  ghost predicate SortedByDate(ts: seq<Trx>) {
    forall i, j :: 0 <= i < j < |ts| ==> DateLe(ts[i].date, ts[j].date)
  }

  lemma AppendSorted(s: seq<Trx>, t: Trx)
    requires SortedByDate(s)
    requires s == [] || DateLe(s[|s| - 1].date, t.date)
    ensures SortedByDate(s + [t])
  {
    var r := s + [t];
    forall i, j | 0 <= i < j < |r| ensures DateLe(r[i].date, r[j].date) {
      if j == |s| && i < |s| - 1 {
        DateLeTrans(s[i].date, s[|s| - 1].date, t.date);
      }
    }
  }

  /** The trade that stays last is dated no earlier than anything placed before it. */
  lemma AppendAfterInsert(init: seq<Trx>, last: Trx, t: Trx, r0: seq<Trx>)
    requires SortedByDate(init + [last]) && SortedByDate(r0)
    requires multiset(r0) == multiset(init) + multiset{t}
    requires DateLe(t.date, last.date)
    ensures SortedByDate(r0 + [last])
  {
    var s := init + [last];
    var r := r0 + [last];
    forall i, j | 0 <= i < j < |r| ensures DateLe(r[i].date, r[j].date) {
      if j == |r0| {
        assert r[i] in multiset(r0);
        if r[i] != t {
          assert r[i] in multiset(init);
          var k :| 0 <= k < |init| && init[k] == r[i];
          assert s[k] == r[i] && s[|s| - 1] == last;
        }
      }
    }
  }

  /** Places `t` after every trade of `s` dated no later than it, so equal
      dates keep their order. */
  function Insert(s: seq<Trx>, t: Trx): (r: seq<Trx>)
    requires SortedByDate(s)
    ensures SortedByDate(r)
    ensures multiset(r) == multiset(s) + multiset{t}
    ensures Net(r) == Net(s) + Signed(t) && FeeSum(r) == FeeSum(s) + t.fee
  {
    if s == [] || DateLe(s[|s| - 1].date, t.date) then
      var r := s + [t];
      assert r[..|r| - 1] == s;
      AppendSorted(s, t);
      r
    else
      var last := s[|s| - 1];
      var init := s[..|s| - 1];
      assert s == init + [last];
      var r0 := Insert(init, t);
      var r := r0 + [last];
      assert r[..|r| - 1] == r0;
      DateLeTotal(last.date, t.date);
      AppendAfterInsert(init, last, t, r0);
      r
  }

  /** `sorted(ts, key=date)`: ascending by date, stable, a permutation of
      the trades with the same totals. */
  function SortByDate(ts: seq<Trx>): (r: seq<Trx>)
    ensures SortedByDate(r)
    ensures multiset(r) == multiset(ts)
    ensures Net(r) == Net(ts) && FeeSum(r) == FeeSum(ts)
  {
    if ts == [] then []
    else
      assert ts == ts[..|ts| - 1] + [ts[|ts| - 1]];
      Insert(SortByDate(ts[..|ts| - 1]), ts[|ts| - 1])
  }

  /** One pair after `_prepare`: its locations once each, its trades by date. */
  function PrepareAgg(a: PairAgg): (r: PairAgg)
    ensures r == a.(locations := r.locations, transactions := r.transactions)
    ensures Distinct(r.locations) && forall x :: x in r.locations <==> x in a.locations
    ensures SortedByDate(r.transactions) && multiset(r.transactions) == multiset(a.transactions)
    ensures AggBalanced(a) ==> AggBalanced(r)
  {
    var r := a.(locations := Dedup(a.locations), transactions := SortByDate(a.transactions));
    assert AggBalanced(a) ==> AggBalanced(r) by {
      if AggBalanced(a) {
        forall i | 0 <= i < |r.transactions| ensures Costed(r.transactions[i]) {
          assert r.transactions[i] in multiset(a.transactions);
          var k :| 0 <= k < |a.transactions| && a.transactions[k] == r.transactions[i];
        }
      }
    }
    r
  }

  /** `_prepare` (bitportfolio.py:138-170): the four symbol and location
      lists hold each element once, and every pair is prepared. */
  function Prepare(c: Collection): (r: Collection)
    requires Valid(c.pairs)
    ensures Valid(r.pairs) && r.pairs.keys == c.pairs.keys && r.pairs.items.Keys == c.pairs.items.Keys
    ensures forall k :: k in c.pairs.items ==> r.pairs.items[k] == PrepareAgg(c.pairs.items[k])
    ensures Distinct(r.symbols) && forall x :: x in r.symbols <==> x in c.symbols
    ensures Distinct(r.sellSymbols) && forall x :: x in r.sellSymbols <==> x in c.sellSymbols
    ensures Distinct(r.buySymbols) && forall x :: x in r.buySymbols <==> x in c.buySymbols
    ensures Distinct(r.locations) && forall x :: x in r.locations <==> x in c.locations
    ensures r.fees == c.fees && r.value == c.value
  {
    Collection(Dedup(c.symbols), Dedup(c.sellSymbols), Dedup(c.buySymbols), c.fees, c.value,
               Dedup(c.locations),
               OMap(c.pairs.keys, map k | k in c.pairs.items :: PrepareAgg(c.pairs.items[k])))
  }

  /** Preparing keeps the fold's invariants: sorting moves trades but not
      totals, and no pair's fees change. */
  lemma PrepareKeepsBalanced(c: Collection)
    requires Balanced(c)
    ensures Balanced(Prepare(c))
  {
    var r := Prepare(c);
    SumSame(c.pairs.keys, c.pairs.items, r.pairs.items, AggFees);
  }

  // ---------------------------------------------------------------- value

  /** A trade valued at `quote` per unit. */
  function Priced(t: Trx, quote: real): Trx {
    t.(value := Some(Cost(quote, t.quantity)))
  }

  /** Every trade valued at `quote` per unit. */
  function PriceTrades(ts: seq<Trx>, quote: real): (r: seq<Trx>)
    ensures |r| == |ts|
    ensures forall i :: 0 <= i < |ts| ==> r[i] == Priced(ts[i], quote)
  {
    if ts == [] then []
    else PriceTrades(ts[..|ts| - 1], quote) + [Priced(ts[|ts| - 1], quote)]
  }

  /** One pair of `_calc_value` (bitportfolio.py:190-201): the quote, the
      pair's value at it, and every trade's value at it. */
  function PriceAgg(a: PairAgg, quote: real): (r: PairAgg)
    ensures r == a.(quote := r.quote, value := r.value, transactions := r.transactions)
    ensures r.quote == Some(quote) && r.value == Cost(quote, a.quantity)
    ensures |r.transactions| == |a.transactions|
    ensures forall i :: 0 <= i < |a.transactions| ==>
      r.transactions[i] == a.transactions[i].(value := Some(Cost(quote, a.transactions[i].quantity)))
  {
    a.(quote := Some(quote), value := Cost(quote, a.quantity), transactions := PriceTrades(a.transactions, quote))
  }

  /** Pricing raised at key `j`: every earlier pair's bought symbol had a
      quote, and the pair at `j` is the first whose bought symbol has none. */
  ghost predicate PairsFailAt(keys: seq<string>, items: map<string, PairAgg>, quotes: map<string, real>, j: nat,
                              r: Result<map<string, PairAgg>>)
    requires Covers(keys, items) && j < |keys|
  {
    && (forall i :: 0 <= i < j ==> items[keys[i]].buySymbol in quotes)
    && items[keys[j]].buySymbol !in quotes
    && r == Err(MissingQuote(items[keys[j]].buySymbol))
  }

  /** A failure in the first keys is still the failure once one more key
      follows. */
  lemma PairsFailExtend(init: seq<string>, k: string, items: map<string, PairAgg>, quotes: map<string, real>,
                        r: Result<map<string, PairAgg>>)
    requires Covers(init + [k], items)
    requires exists j :: 0 <= j < |init| && PairsFailAt(init, items, quotes, j, r)
    ensures exists j :: 0 <= j < |init| + 1 && PairsFailAt(init + [k], items, quotes, j, r)
  {
    var j :| 0 <= j < |init| && PairsFailAt(init, items, quotes, j, r);
    var keys := init + [k];
    assert forall i :: 0 <= i < |init| ==> keys[i] == init[i];
    assert PairsFailAt(keys, items, quotes, j, r);
  }

  /** The pairs under `keys` valued in key order; the first pair whose bought
      symbol has no quote raises. */
  function PricePairs(keys: seq<string>, items: map<string, PairAgg>, quotes: map<string, real>): (r: Result<map<string, PairAgg>>)
    requires Covers(keys, items)
    ensures r.Ok? <==> forall k :: k in keys ==> items[k].buySymbol in quotes
    ensures r.Err? ==> exists k :: k in keys && items[k].buySymbol !in quotes
                                  && r.error == MissingQuote(items[k].buySymbol)
    ensures r.Err? ==> exists j :: 0 <= j < |keys| && PairsFailAt(keys, items, quotes, j, r)
    ensures r.Ok? ==> r.value.Keys == items.Keys
    ensures r.Ok? ==> forall k :: k in keys ==> r.value[k] == PriceAgg(items[k], quotes[items[k].buySymbol])
    ensures r.Ok? ==> forall k :: k in items && k !in keys ==> r.value[k] == items[k]
    decreases |keys|
  {
    if keys == [] then Ok(items)
    else
      var init := keys[..|keys| - 1];
      var k := keys[|keys| - 1];
      assert forall x :: x in keys <==> x in init || x == k;
      assert keys == init + [k];
      var pr := PricePairs(init, items, quotes);
      if pr.Err? then
        PairsFailExtend(init, k, items, quotes, pr);
        Err(pr.error)
      else
        var a := items[k];
        if a.buySymbol !in quotes then
          assert PairsFailAt(keys, items, quotes, |init|, Err(MissingQuote(a.buySymbol)));
          Err(MissingQuote(a.buySymbol))
        else Ok(pr.value[k := PriceAgg(a, quotes[a.buySymbol])])
  }

  /** `_calc_value`: the quote of every pair's bought symbol, as the provider
      data gives it in the reporting currency, values the pair and its trades. */
  function CalcValue(c: Collection, quotes: map<string, real>): (r: Result<Collection>)
    requires Valid(c.pairs)
    ensures r.Ok? <==> forall k :: k in c.pairs.items ==> c.pairs.items[k].buySymbol in quotes
    ensures r.Ok? ==> r.value == c.(pairs := r.value.pairs) && r.value.pairs.keys == c.pairs.keys
    ensures r.Ok? ==> r.value.pairs.items.Keys == c.pairs.items.Keys
    ensures r.Ok? ==> forall k :: k in c.pairs.items ==>
      r.value.pairs.items[k] == PriceAgg(c.pairs.items[k], quotes[c.pairs.items[k].buySymbol])
  {
    var items :- PricePairs(c.pairs.keys, c.pairs.items, quotes);
    Ok(c.(pairs := OMap(c.pairs.keys, items)))
  }

  /** The worth one trade adds to the position: a buy counts, a sell
      counts against, other types not at all. */
  function SignedWorth(t: Trx): real {
    var v := if t.value.Some? then t.value.value else 0.0;
    if t.ttype == "buy" then v else if t.ttype == "sell" then -v else 0.0
  }

  function SignedValue(ts: seq<Trx>): real {
    if ts == [] then 0.0 else SignedValue(ts[..|ts| - 1]) + SignedWorth(ts[|ts| - 1])
  }

  lemma PricedWorth(t: Trx, quote: real)
    ensures SignedWorth(Priced(t, quote)) == Cost(quote, Signed(t))
  {
  }

  lemma Distribute(q: real, x: real, y: real)
    ensures Cost(q, x + y) == Cost(q, x) + Cost(q, y)
  {
  }

  lemma {:induction false} PriceTradesNet(ts: seq<Trx>, quote: real)
    ensures SignedValue(PriceTrades(ts, quote)) == Cost(quote, Net(ts))
    decreases |ts|
  {
    if ts != [] {
      var init := ts[..|ts| - 1];
      var last := ts[|ts| - 1];
      assert PriceTrades(ts, quote) == PriceTrades(init, quote) + [Priced(last, quote)];
      SignedValueSnoc(PriceTrades(init, quote), Priced(last, quote));
      PriceTradesNet(init, quote);
      PricedWorth(last, quote);
      Distribute(quote, Net(init), Signed(last));
    }
  }

  /** One more trade at the end adds its signed value. */
  lemma SignedValueSnoc(s: seq<Trx>, t: Trx)
    ensures SignedValue(s + [t]) == SignedValue(s) + SignedWorth(t)
  {
    assert (s + [t])[..|s|] == s;
  }

  /** Valuation is linear: on a balanced pair, the pair's value is the buys'
      values minus the sells' values. */
  lemma PairValueIsSignedSum(a: PairAgg, quote: real)
    requires AggBalanced(a)
    ensures PriceAgg(a, quote).value == SignedValue(PriceAgg(a, quote).transactions)
  {
    PriceTradesNet(a.transactions, quote);
  }
}
