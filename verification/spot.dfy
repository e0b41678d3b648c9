/** `Spot`: a signed quantity of one symbol (src/spot.py).

    The Python class is mutable; each mutator becomes a function that returns
    the updated value. */
module Spots {

  datatype Spot = Spot(symbol: string, quantity: real)

  /** `Spot(s, q)`; the source's default quantity is `0.0`, see `ZeroSpot`. */
  function NewSpot(s: string, q: real): (r: Spot)
    ensures r.symbol == s && r.quantity == q
  {
    Spot(s, q)
  }

  /** `Spot(s)` with the default quantity. */
  function ZeroSpot(s: string): (r: Spot)
    ensures r.symbol == s && r.quantity == 0.0
  {
    NewSpot(s, 0.0)
  }

  function AddQ(sp: Spot, q: real): (r: Spot)
    ensures r.symbol == sp.symbol
    ensures r.quantity - sp.quantity == q
  {
    sp.(quantity := sp.quantity + q)
  }

  function SubQ(sp: Spot, q: real): (r: Spot)
    ensures r.symbol == sp.symbol
    ensures sp.quantity - r.quantity == q
  {
    sp.(quantity := sp.quantity - q)
  }

  /** Merges the other spot's quantity only: its symbol is never compared. */
  function AddSpot(sp: Spot, other: Spot): (r: Spot)
    ensures r.symbol == sp.symbol
    ensures r == AddQ(sp, other.quantity)
  {
    sp.(quantity := sp.quantity + other.quantity)
  }

  /** Subtracts the other spot's quantity; the result is never clamped at zero. */
  function SubSpot(sp: Spot, other: Spot): (r: Spot)
    ensures r.symbol == sp.symbol
    ensures r == SubQ(sp, other.quantity)
    ensures r.quantity < 0.0 <==> sp.quantity < other.quantity
  {
    sp.(quantity := sp.quantity - other.quantity)
  }

  /** Price times quantity when the symbol is quoted, else `0.0`. */
  function CalcValue(sp: Spot, quotes: map<string, real>): (v: real)
    ensures sp.symbol !in quotes ==> v == 0.0
    ensures sp.symbol in quotes && sp.quantity == 1.0 ==> v == quotes[sp.symbol]
    ensures sp.quantity == 0.0 ==> v == 0.0
  {
    if sp.symbol !in quotes then 0.0 else quotes[sp.symbol] * sp.quantity
  }

  /** `add_spot(x)` followed by `sub_spot(x)` restores the spot, and the other
      way round; the merged spot's symbol plays no part. */
  lemma MergeRoundTrip(sp: Spot, x: Spot)
    ensures SubSpot(AddSpot(sp, x), x) == sp
    ensures AddSpot(SubSpot(sp, x), x) == sp
  {
  }

  /** Merges commute, so the order in which transactions reach a bucket does
      not change its quantity. */
  lemma MergeCommutes(sp: Spot, x: Spot, y: Spot)
    ensures AddSpot(AddSpot(sp, x), y) == AddSpot(AddSpot(sp, y), x)
    ensures SubSpot(AddSpot(sp, x), y) == AddSpot(SubSpot(sp, y), x)
  {
  }

  /** Valuation is linear in the quantity: the value of a merged spot is the
      sum of the values, priced under the receiving spot's symbol. */
  lemma CalcValueAdditive(sp: Spot, x: Spot, quotes: map<string, real>)
    ensures CalcValue(AddSpot(sp, x), quotes)
         == CalcValue(sp, quotes) + CalcValue(Spot(sp.symbol, x.quantity), quotes)
  {
  }

  /** Valuation is homogeneous in the quantity: `k` times the quantity is
      worth `k` times as much. With the unit case of `CalcValue` this fixes
      the value of every quantity. */
  lemma CalcValueScales(s: string, k: real, q: real, quotes: map<string, real>)
    ensures CalcValue(Spot(s, k * q), quotes) == k * CalcValue(Spot(s, q), quotes)
  {
  }

  /** A quoted spot is worth its quote times its quantity, derived from the
      unit case and the scaling law. */
  lemma CalcValueQuoted(s: string, q: real, quotes: map<string, real>)
    requires s in quotes
    ensures CalcValue(Spot(s, q), quotes) == quotes[s] * q
  {
    CalcValueScales(s, q, 1.0, quotes);
    assert CalcValue(Spot(s, 1.0), quotes) == quotes[s];
  }
}
