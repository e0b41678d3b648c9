/** `Holding`: a Spot subclass with a quote, a value and a profit
    (src/holding.py). `trxCount` stands for the counter portfolio.py reads
    through the assumed `add_trx_count`; holding.py does not define it. */
module Holdings {
  import opened Wrappers
  import opened Spots

  datatype Holding = Holding(spot: Spot, quote: real, value: Option<real>, profit: real, trxCount: nat) {
    function Symbol(): string { spot.symbol }
    function Quantity(): real { spot.quantity }
  }

  /** `Holding(s, q)`: the inherited spot plus zero quote, value and profit. */
  function NewHolding(s: string, q: real): (h: Holding)
    ensures h.Symbol() == s && h.Quantity() == q
    ensures h.quote == 0.0 && h.value == Some(0.0) && h.profit == 0.0
    ensures h.trxCount == 0
  {
    Holding(NewSpot(s, q), 0.0, Some(0.0), 0.0, 0)
  }

  /** `Holding(s)` with the default quantity. */
  function ZeroHolding(s: string): (h: Holding)
    ensures h == NewHolding(s, 0.0)
  {
    NewHolding(s, 0.0)
  }

  /** Inherited `add_spot`: only the quantity moves. */
  function AddSpot(h: Holding, x: Spot): (r: Holding)
    ensures r.spot == Spots.AddSpot(h.spot, x)
    ensures r.quote == h.quote && r.value == h.value && r.profit == h.profit
    ensures r.trxCount == h.trxCount
  {
    h.(spot := Spots.AddSpot(h.spot, x))
  }

  /** Inherited `sub_spot`: only the quantity moves, and merging the same spot
      back restores the holding, quote, value and profit included. */
  function SubSpot(h: Holding, x: Spot): (r: Holding)
    ensures r.Symbol() == h.Symbol() && r.Quantity() == h.Quantity() - x.quantity
    ensures AddSpot(r, x) == h
  {
    h.(spot := Spots.SubSpot(h.spot, x))
  }

  /** Assumed `add_trx_count(n)`: the counter grows by `n`. */
  function AddTrxCount(h: Holding, n: nat): (r: Holding)
    ensures r.trxCount == h.trxCount + n
    ensures r.spot == h.spot && r.quote == h.quote && r.value == h.value && r.profit == h.profit
  {
    h.(trxCount := h.trxCount + n)
  }
}
