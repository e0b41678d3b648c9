/** Trade pairs (src/pair.py and the pair shape src/portfolio.py consumes).

    The `Pair` class as written carries a price, a price list, a quantity, a
    cost label and a list of spots. The portfolio code also reads a pair name,
    a sold leg and a bought leg, and calls `add_buy`, `add_sell` and
    `add_transaction`, none of which pair.py defines. Those are modelled here
    under explicitly stated assumptions: `Legs` is the name plus the two legs,
    and `Position` is a portfolio's bucket for one pair name. */
module Pairs {
  import opened Spots

  /** The sentinel `cost_s` holds until a cost is computed. */
  const NOTSET: string := "NOTSET"

  datatype Pair = Pair(price: real, prices: seq<real>, quantity: real, costS: string, spots: seq<Spot>)

  /** `Pair()`. */
  function NewPair(): (r: Pair)
    ensures r.price == 0.0 && r.quantity == 0.0
    ensures r.prices == [] && r.spots == []
    ensures r.costS == NOTSET
  {
    Pair(0.0, [], 0.0, NOTSET, [])
  }

  /** `add_spot`: appends one spot at the end; nothing else changes. */
  function AddSpot(p: Pair, s: Spot): (r: Pair)
    ensures |r.spots| == |p.spots| + 1
    ensures r.spots[..|p.spots|] == p.spots && r.spots[|p.spots|] == s
    ensures r.price == p.price && r.prices == p.prices
    ensures r.quantity == p.quantity && r.costS == p.costS
  {
    p.(spots := p.spots + [s])
  }

  /** `calc_cost`: its computation is commented out, so no field changes. */
  function CalcCost(p: Pair): (r: Pair)
    ensures r.costS == p.costS && r.price == p.price && r.quantity == p.quantity
    ensures r.prices == p.prices && r.spots == p.spots
  {
    p
  }

  /** The pair name ("SELL/BUY") with its sold and bought legs. */
  datatype Legs = Legs(name: string, sellSpot: Spot, buySpot: Spot)

  /** A portfolio's accumulated position in one pair, with the transactions
      merged into it. The element type is left open so that this module does
      not depend on the transaction model. */
  datatype Position<T> = Position(legs: Legs, transactions: seq<T>)

  /** A fresh bucket: zero-quantity legs with the given pair's name and symbols
      (portfolio.py:99-101). */
  function OpenPosition<T>(tpair: Legs): (r: Position<T>)
    ensures r.legs.name == tpair.name
    ensures r.legs.sellSpot == ZeroSpot(tpair.sellSpot.symbol)
    ensures r.legs.buySpot == ZeroSpot(tpair.buySpot.symbol)
    ensures r.transactions == []
  {
    Position(Legs(tpair.name, ZeroSpot(tpair.sellSpot.symbol), ZeroSpot(tpair.buySpot.symbol)), [])
  }

  /** Assumed `add_buy`: both legs grow by the source pair's legs. */
  function AddBuy<T>(p: Position<T>, src: Legs): (r: Position<T>)
    ensures r.legs.name == p.legs.name && r.transactions == p.transactions
    ensures r.legs.sellSpot == Spots.AddSpot(p.legs.sellSpot, src.sellSpot)
    ensures r.legs.buySpot == Spots.AddSpot(p.legs.buySpot, src.buySpot)
  {
    p.(legs := p.legs.(sellSpot := Spots.AddSpot(p.legs.sellSpot, src.sellSpot),
                       buySpot := Spots.AddSpot(p.legs.buySpot, src.buySpot)))
  }

  /** Assumed `add_sell`: both legs shrink by the source pair's legs. */
  function AddSell<T>(p: Position<T>, src: Legs): (r: Position<T>)
    ensures r.legs.name == p.legs.name && r.transactions == p.transactions
    ensures r.legs.sellSpot == Spots.SubSpot(p.legs.sellSpot, src.sellSpot)
    ensures r.legs.buySpot == Spots.SubSpot(p.legs.buySpot, src.buySpot)
  {
    p.(legs := p.legs.(sellSpot := Spots.SubSpot(p.legs.sellSpot, src.sellSpot),
                       buySpot := Spots.SubSpot(p.legs.buySpot, src.buySpot)))
  }

  /** Assumed `add_transaction`: appends to the bucket's transaction list. */
  function AddTransaction<T>(p: Position<T>, t: T): (r: Position<T>)
    ensures r.legs == p.legs
    ensures r.transactions == p.transactions + [t]
  {
    p.(transactions := p.transactions + [t])
  }

  /** A buy followed by the sell of the same pair amounts restores both legs. */
  lemma BuySellSymmetry<T>(p: Position<T>, src: Legs)
    ensures AddSell(AddBuy(p, src), src) == p
    ensures AddBuy(AddSell(p, src), src) == p
  {
  }
}
