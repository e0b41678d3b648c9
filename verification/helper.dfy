/** The sort keys the reports order by (src/helper.py). */
module SortKeys {
  import opened Wrappers
  import opened Holdings
  import opened Transactions
  import Valuation
  import QuoteTables

  /** `sort_holdings(item)`: the value of the holding in `item.1`, with an
      unset value sorting as zero. The symbol key in `item.0` is never read. */
  function SortHoldings(item: (string, Holding)): (r: real)
    ensures item.1.value.Some? ==> r == item.1.value.value
    ensures item.1.value.None? ==> r == 0.0
  {
    match item.1.value
    case None => 0.0
    case Some(v) => v
  }

  /** `sort_transactions(t)`: the date, as recorded. */
  function SortTransactions(t: Transaction): (r: Option<string>)
    ensures r == t.date
  {
    t.date
  }

  /** The key of a holding depends on the holding alone, not on the key it is filed under. */
  lemma SortHoldingsIgnoresKey(k1: string, k2: string, h: Holding)
    ensures SortHoldings((k1, h)) == SortHoldings((k2, h))
  {
  }

  /** A fresh holding has a value, so it sorts by that value: zero. */
  lemma FreshHoldingSortsAtZero(k: string, s: string, q: real)
    ensures SortHoldings((k, NewHolding(s, q))) == 0.0
  {
  }

  /** After valuation a quoted holding other than the reporting currency
      sorts by its worth at the quoted price. */
  lemma RequotedSortsByWorth(k: string, h: Holding, q: QuoteTables.Quotes, c: string)
    requires h.Symbol() != c && Valuation.Quoted(q, c, h.Symbol())
    ensures SortHoldings((k, Valuation.Requoted(h, q, c))) == Valuation.Worth(q, c, h.spot)
  {
  }

  /** A transaction built from a record sorts by the record's date. */
  lemma SortsByRecordDate(pairS: string, d: Record)
    requires FromRecord(pairS, d).Ok?
    ensures SortTransactions(FromRecord(pairS, d).value) == d.date
  {
  }
}
