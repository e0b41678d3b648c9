/** One raw trade record turned into a transaction (src/transaction.py).

    The Python constructor copies every key of the record onto the object;
    the model reads an explicit record with optional fields instead. */
module Transactions {
  import opened Wrappers
  import opened Spots
  import opened Pairs
  import Text

  const BUY: string := "buy"
  const SELL: string := "sell"
  const IN: string := "in"
  const OUT: string := "out"

  /** An element of the raw fee list, which the source expects to be `[quantity, symbol]`. */
  datatype FeeItem = Number(n: real) | Label(s: string)

  /** The record fields the constructor reads; `None` is an absent key. */
  datatype Record = Record(
    ttype: Option<string>,
    date: Option<string>,
    price: Option<real>,
    quantity: Option<real>,
    fee: Option<seq<FeeItem>>,
    location: Option<string>,
    note: Option<string>)

  /** `is_pair`: a two-asset trade with its synthetic pair, or a single-asset movement. */
  datatype Kind =
    | PairKind(sellSymbol: string, buySymbol: string, pair: Legs)
    | SpotKind(spot: Spot)

  datatype Transaction = Transaction(
    pairS: string,
    date: Option<string>,
    ttype: string,
    price: real,
    quantity: real,
    fee: Option<Spot>,
    location: Option<string>,
    note: Option<string>,
    kind: Kind)
  {
    predicate IsPair() { kind.PairKind? }
  }

  /** `sell, buy = pair.split('/')`: exactly one separator, text before and after it. */
  function SplitPair(s: string): (r: Result<(string, string)>)
    ensures r.Ok? <==> Text.Count(s, '/') == 1
    ensures r.Ok? ==> s == r.value.0 + "/" + r.value.1
    ensures r.Ok? ==> '/' !in r.value.0 && '/' !in r.value.1
    ensures r.Err? ==> r.error == BadPairString(s)
  {
    var parts := Text.Split(s, '/');
    if |parts| == 2 then
      assert Text.Join(parts, '/') == parts[0] + "/" + Text.Join(parts[1..], '/');
      Ok((parts[0], parts[1]))
    else Err(BadPairString(s))
  }

  /** Joining the two symbols with '/' and splitting again gives them back. */
  lemma SplitPairJoin(sell: string, buy: string)
    requires '/' !in sell && '/' !in buy
    ensures SplitPair(sell + "/" + buy) == Ok((sell, buy))
  {
    Text.SplitJoin([sell, buy], '/');
    assert Text.Join([sell, buy], '/') == sell + "/" + buy by {
      assert [sell, buy][1..] == [buy];
    }
  }

  /** A fee parses when it is absent, or is not a two-element list, or is a
      two-element list `[number, text]`. */
  predicate FeeParses(fee: Option<seq<FeeItem>>) {
    fee.None? || |fee.value| != 2 || (fee.value[0].Number? && fee.value[1].Label?)
  }

  /** `[q, sym]` becomes `Spot(sym, q)`; a list of any other length is dropped. */
  function ParseFee(fee: Option<seq<FeeItem>>): (r: Result<Option<Spot>>)
    ensures r.Ok? <==> FeeParses(fee)
    ensures r.Ok? ==> (r.value.Some? <==> fee.Some? && |fee.value| == 2)
    ensures r.Ok? && r.value.Some? ==>
      r.value.value == Spot(fee.value[1].s, fee.value[0].n)
  {
    match fee
    case None => Ok(None)
    case Some(items) =>
      if |items| != 2 then Ok(None)
      else if items[0].Number? && items[1].Label? then Ok(Some(NewSpot(items[1].s, items[0].n)))
      else Err(BadFee)
  }

  function GetOr<T>(o: Option<T>, default: T): (r: T)
    ensures o.None? ==> r == default
    ensures o.Some? ==> r == o.value
  {
    match o
    case None => default
    case Some(v) => v
  }

  /** `name` is the pair string of the two symbols, neither of which holds the separator. */
  predicate NamedAfter(name: string, sell: string, buy: string) {
    name == sell + "/" + buy && '/' !in sell && '/' !in buy
  }

  /** A pair string names one pair of symbols only. */
  lemma NamedAfterUnique(name: string, s1: string, b1: string, s2: string, b2: string)
    requires NamedAfter(name, s1, b1) && NamedAfter(name, s2, b2)
    ensures s1 == s2 && b1 == b2
  {
    SplitPairJoin(s1, b1);
    SplitPairJoin(s2, b2);
  }

  /** The shape every constructed pair transaction has: its synthetic pair is
      named after the pair string, whose split gives the two leg symbols. */
  predicate WellFormed(t: Transaction) {
    match t.kind
    case PairKind(sell, buy, legs) =>
      && legs.name == t.pairS
      && NamedAfter(t.pairS, sell, buy)
      && legs.sellSpot.symbol == sell
      && legs.buySpot.symbol == buy
    case SpotKind(_) => true
  }

  /** `Transaction(pair, d)`: splits the pair string, applies the defaults and
      the record, requires a type, parses the fee, and builds the synthetic
      pair from unsigned magnitudes whatever the type. */
  function FromRecord(pairS: string, d: Record): (r: Result<Transaction>)
    ensures r.Ok? <==> Text.Count(pairS, '/') == 1 && d.ttype.Some? && FeeParses(d.fee)
    ensures Text.Count(pairS, '/') != 1 ==> r == Err(BadPairString(pairS))
    ensures Text.Count(pairS, '/') == 1 && d.ttype.None? ==> r == Err(MissingType)
    ensures r.Ok? ==> WellFormed(r.value) && r.value.IsPair()
    ensures r.Ok? ==> var t := r.value;
      && t.pairS == pairS
      && pairS == t.kind.sellSymbol + "/" + t.kind.buySymbol
      && t.ttype == d.ttype.value
      && t.price == GetOr(d.price, 0.0)
      && t.quantity == GetOr(d.quantity, 0.0)
      && t.date == d.date && t.location == d.location && t.note == d.note
      && t.fee == ParseFee(d.fee).value
      && t.kind.pair.sellSpot.quantity == t.price * t.quantity
      && t.kind.pair.buySpot.quantity == t.quantity
  {
    var symbols :- SplitPair(pairS);
    if d.ttype.None? then Err(MissingType)
    else
      var fee :- ParseFee(d.fee);
      var price := GetOr(d.price, 0.0);
      var quantity := GetOr(d.quantity, 0.0);
      var legs := Legs(pairS, NewSpot(symbols.0, price * quantity), NewSpot(symbols.1, quantity));
      Ok(Transaction(pairS, d.date, d.ttype.value, price, quantity, fee, d.location, d.note,
                     PairKind(symbols.0, symbols.1, legs)))
  }

  /** The type never signs the magnitudes: records that differ only in their
      type give the same synthetic pair. */
  lemma TypeDoesNotSign(pairS: string, d: Record, other: string)
    requires FromRecord(pairS, d).Ok?
    ensures FromRecord(pairS, d.(ttype := Some(other))).Ok?
    ensures FromRecord(pairS, d.(ttype := Some(other))).value.kind == FromRecord(pairS, d).value.kind
  {
  }

  /** With only a type in the record, every other field keeps its default. */
  lemma Defaults(pairS: string, ttype: string)
    requires Text.Count(pairS, '/') == 1
    ensures var r := FromRecord(pairS, Record(Some(ttype), None, None, None, None, None, None));
      && r.Ok?
      && r.value.price == 0.0 && r.value.quantity == 0.0
      && r.value.date.None? && r.value.fee.None? && r.value.location.None? && r.value.note.None?
  {
  }
}
