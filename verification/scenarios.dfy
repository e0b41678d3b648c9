/** Worked examples of the valuation rules on concrete amounts and quotes
    (src/transaction.py:28-52, src/portfolio.py:224-269).

    A pair string reads "SOLD/BOUGHT": the text before the separator is the
    symbol given up, the text after it the symbol received. The examples
    hold for any symbols; the comments read them with EUR as the reporting
    currency, BTC and ETH as the other two. */
module Scenarios {
  import opened Wrappers
  import opened Spots
  import Pairs
  import opened Transactions
  import opened QuoteTables
  import opened Portfolios
  import opened Valuation

  /** A record with a type, a price and a quantity and nothing else. */
  function Trade(ttype: string, price: real, quantity: real): Record {
    Record(Some(ttype), None, Some(price), Some(quantity), None, None, None)
  }

  /** The buy of `quantity` units of `bought` at `price` units of `sold` apiece. */
  function Bought(sold: string, bought: string, price: real, quantity: real): Transaction {
    Transaction(sold + "/" + bought, None, BUY, price, quantity, None, None, None,
                PairKind(sold, bought, Pairs.Legs(sold + "/" + bought, Spot(sold, price * quantity), Spot(bought, quantity))))
  }

  /** A single-asset movement of `quantity` units of `symbol`. */
  function Transfer(symbol: string, ttype: string, quantity: real): Transaction {
    Transaction(symbol, None, ttype, 0.0, quantity, None, None, None, SpotKind(Spot(symbol, quantity)))
  }

  /** A buy record on "SOLD/BOUGHT" gives up `price * quantity` of the sold
      symbol for `quantity` of the bought one. */
  lemma ParseBuy(sold: string, bought: string, price: real, quantity: real)
    requires '/' !in sold && '/' !in bought
    ensures FromRecord(sold + "/" + bought, Trade(BUY, price, quantity)) == Ok(Bought(sold, bought, price, quantity))
  {
    SplitPairJoin(sold, bought);
    var t := FromRecord(sold + "/" + bought, Trade(BUY, price, quantity)).value;
    assert t.price == price && t.quantity == quantity;
    assert t.kind.pair.sellSpot.quantity == price * quantity;
    NamedAfterUnique(sold + "/" + bought, sold, bought, t.kind.sellSymbol, t.kind.buySymbol);
    assert t.kind.pair.sellSpot == Spot(sold, price * quantity);
    assert t.kind.pair.buySpot == Spot(bought, quantity);
    assert t.fee == None;
    var b := Bought(sold, bought, price, quantity);
    assert t.pairS == b.pairS;
    assert t.date == b.date && t.ttype == b.ttype && t.location == b.location && t.note == b.note;
    assert t.kind.pair == b.kind.pair;
    assert t.kind == b.kind;
  }

  /** Buying 0.1 BTC for 20000 EUR apiece, "EUR/BTC", with BTC later quoted at
      25000 EUR: the bought leg is worth 2500 EUR, 500 EUR more than was spent. */
  lemma BuyWithReportingCurrency(eur: string, btc: string)
    requires '/' !in eur && '/' !in btc && eur != btc
    ensures FromRecord(eur + "/" + btc, Trade(BUY, 20000.0, 0.1)).Ok?
    ensures var t := FromRecord(eur + "/" + btc, Trade(BUY, 20000.0, 0.1)).value;
      ValueTrx(NoMarks, t, Add(Empty(), eur, btc, 25000.0), eur)
        == Outcome(Marks(Some(25000.0), None, Some(2500.0), Some(500.0)), None)
  {
    ParseBuy(eur, btc, 20000.0, 0.1);
    var q := Add(Empty(), eur, btc, 25000.0);
    assert Price(q, eur, btc) == 25000.0;
    assert Worth(q, eur, Spot(btc, 0.1)) == 2500.0;
    assert Worth(q, eur, Spot(eur, 20000.0 * 0.1)) == 2000.0;
  }

  /** The same record on "BTC/EUR" gives up BTC and receives EUR: the
      received leg is the reporting currency, the case `quotes` leaves
      unimplemented, so only the conversion price 1.0 is written. */
  lemma BuyReportingCurrency(eur: string, btc: string)
    requires '/' !in eur && '/' !in btc && eur != btc
    ensures FromRecord(btc + "/" + eur, Trade(BUY, 20000.0, 0.1)).Ok?
    ensures var t := FromRecord(btc + "/" + eur, Trade(BUY, 20000.0, 0.1)).value;
      ValueTrx(NoMarks, t, Add(Empty(), eur, btc, 25000.0), eur)
        == Outcome(Marks(Some(1.0), None, None, None), Some(NotImplemented))
  {
    ParseBuy(btc, eur, 20000.0, 0.1);
  }

  /** Spending 0.1 BTC on 2 ETH, "BTC/ETH", with BTC at 25000 EUR and ETH at
      1800 EUR: the ETH are worth 3600 EUR, the BTC given up 2500 EUR, a
      profit of 1100 EUR. */
  lemma CrossPair(eur: string, btc: string, eth: string)
    requires '/' !in btc && '/' !in eth && eur != btc && eur != eth && btc != eth
    ensures FromRecord(btc + "/" + eth, Trade(BUY, 0.05, 2.0)).Ok?
    ensures var t := FromRecord(btc + "/" + eth, Trade(BUY, 0.05, 2.0)).value;
      var q := Add(Add(Empty(), eur, btc, 25000.0), eur, eth, 1800.0);
      ValueTrx(NoMarks, t, q, eur) == Outcome(Marks(Some(1800.0), None, Some(3600.0), Some(1100.0)), None)
  {
    ParseBuy(btc, eth, 0.05, 2.0);
    var q := Add(Add(Empty(), eur, btc, 25000.0), eur, eth, 1800.0);
    assert Price(q, eur, btc) == 25000.0;
    assert Price(q, eur, eth) == 1800.0;
    assert Worth(q, eur, Spot(eth, 2.0)) == 3600.0;
    assert Worth(q, eur, Spot(btc, 0.05 * 2.0)) == 2500.0;
  }

  /** Moving 2 ETH in at 1800 EUR books their whole worth, 3600 EUR, as
      profit; moving 1 ETH out at the same quote books -1800 EUR. */
  lemma TransferInAndOut(eur: string, eth: string)
    requires eur != eth
    ensures var q := Add(Empty(), eur, eth, 1800.0);
      && ValueTrx(NoMarks, Transfer(eth, IN, 2.0), q, eur)
           == Outcome(Marks(None, Some(1800.0), Some(3600.0), Some(3600.0)), None)
      && ValueTrx(NoMarks, Transfer(eth, OUT, 1.0), q, eur)
           == Outcome(Marks(None, Some(1800.0), Some(1800.0), Some(-1800.0)), None)
  {
    var q := Add(Empty(), eur, eth, 1800.0);
    assert Price(q, eur, eth) == 1800.0;
  }
}
