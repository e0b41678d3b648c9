/** The two-level price table (src/quotes.py): reporting currency, then
    symbol, then price. Each table starts empty. */
module QuoteTables {
  import opened Wrappers

  datatype Quotes = Quotes(symbols: map<string, map<string, real>>)

  function Empty(): (q: Quotes)
    ensures q.symbols == map[]
  {
    Quotes(map[])
  }

  /** The table stores a price for `symbol` in the `convert` bucket. */
  predicate Stored(q: Quotes, convert: string, symbol: string) {
    convert in q.symbols && symbol in q.symbols[convert]
  }

  /** `add(convert, symbol, val)`: creates the bucket if needed and overwrites
      the price; every other entry is kept. */
  function Add(q: Quotes, convert: string, symbol: string, val: real): (r: Quotes)
    ensures Stored(r, convert, symbol) && r.symbols[convert][symbol] == val
    ensures r.symbols.Keys == q.symbols.Keys + {convert}
    ensures forall c, s :: (c != convert || s != symbol) ==>
      (Stored(r, c, s) <==> Stored(q, c, s)) &&
      (Stored(q, c, s) ==> r.symbols[c][s] == q.symbols[c][s])
  {
    var bucket := if convert in q.symbols then q.symbols[convert] else map[];
    Quotes(q.symbols[convert := bucket[symbol := val]])
  }

  /** `get(convert, symbol)`: `1.0` for the same symbol, the stored price
      otherwise, and an error (never a default) when it is missing. */
  function Get(q: Quotes, convert: string, symbol: string): (r: Result<real>)
    ensures r.Ok? <==> convert == symbol || Stored(q, convert, symbol)
    ensures convert == symbol ==> r == Ok(1.0)
    ensures convert != symbol && Stored(q, convert, symbol) ==> r == Ok(q.symbols[convert][symbol])
    ensures convert != symbol && convert !in q.symbols ==> r == Err(ConvertNotFound(convert))
    ensures convert != symbol && convert in q.symbols && symbol !in q.symbols[convert] ==>
      r == Err(SymbolNotFound(convert, symbol))
  {
    if convert == symbol then Ok(1.0)
    else if convert !in q.symbols then Err(ConvertNotFound(convert))
    else if symbol !in q.symbols[convert] then Err(SymbolNotFound(convert, symbol))
    else Ok(q.symbols[convert][symbol])
  }

  /** Identity: any symbol converts to itself at `1.0`, even in an empty table. */
  lemma GetIdentity(q: Quotes, c: string)
    ensures Get(q, c, c) == Ok(1.0)
    ensures Get(Empty(), c, c) == Ok(1.0)
  {
  }

  /** A stored price is read back. */
  lemma GetAfterAdd(q: Quotes, c: string, s: string, v: real)
    requires c != s
    ensures Get(Add(q, c, s, v), c, s) == Ok(v)
  {
  }

  /** Last write wins. */
  lemma AddOverwrites(q: Quotes, c: string, s: string, v1: real, v2: real)
    ensures Add(Add(q, c, s, v1), c, s, v2) == Add(q, c, s, v2)
  {
    var bucket := if c in q.symbols then q.symbols[c] else map[];
    assert bucket[s := v1][s := v2] == bucket[s := v2];
  }

  /** Adding one price changes no other lookup: the same lookups succeed, with
      the same prices. */
  lemma AddFrame(q: Quotes, c: string, s: string, v: real, c': string, s': string)
    requires c' != c || s' != s
    ensures Get(Add(q, c, s, v), c', s').Ok? <==> Get(q, c', s').Ok?
    ensures Get(q, c', s').Ok? ==> Get(Add(q, c, s, v), c', s') == Get(q, c', s')
  {
  }

  /** The identity shortcut shadows storage: a stored `(c, c)` price is never read. */
  lemma IdentityShadowsStorage(q: Quotes, c: string, v: real)
    ensures Get(Add(q, c, c, v), c, c) == Ok(1.0)
  {
  }

  /** A lookup on an empty table fails unless it is the identity. */
  lemma MissingQuoteFails(c: string, s: string)
    requires c != s
    ensures Get(Empty(), c, s) == Err(ConvertNotFound(c))
    ensures Get(Add(Empty(), c, c, 1.0), c, s) == Err(SymbolNotFound(c, s))
  {
  }
}
