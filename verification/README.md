# bittrackr portfolio engine in Dafny

This project models the portfolio engine of bittrackr, a small crypto-asset tracker, as pure Dafny
functions, and proves properties about it. The engine has these parts:

- **Spots.** A `Spot` is a signed quantity of one symbol.
- **Transactions.** A `Transaction` is read from a YAML trade record under a `SELL/BUY` pair
  string. It has a sold leg (price × quantity of the sold symbol) and a bought leg (the quantity
  of the bought symbol).
- **Portfolios.** A tree of `Portfolio` nodes files every transaction into the node it belongs
  to and into each ancestor.
- **Calc.** `calc` rebuilds a node's holdings from its pair buckets and transfer spots.
- **Convert symbols.** `get_convert_symbols` lists the quotes the node needs.
- **Quotes.** `quotes` values transactions, holdings and fees in one reporting ("convert")
  currency, using a `Quotes` table.
- **The `add` tool.** It appends one trade to a YAML document.
- **The `bitportfolio` prototype.** It folds a directory of JSON trade files into per-pair
  totals, normalises them and values them at one quote per bought symbol.

Python objects become immutable datatypes:

- Insertion-ordered dicts become `OrderedMaps.OMap` (a key sequence plus a map).
- A method that mutates and may raise becomes a function returning the new state together with
  the error raised (`Portfolios.Step`, `Valuation.Outcome`). The partial mutations that the
  raising node made before the raise stay visible in that node's returned state.
- Floats are modelled as `real`.
- I/O, the clock, argument parsing and the quote provider become parameters:
  - a directory is a `Prototype.Node` value;
  - a loaded YAML file is an `Option<AddTool.Document>`;
  - Python's `float()` on a string is a `parse` function argument.

Module layout:

| Module | Contents |
|---|---|
| `Wrappers` | `Option`, `Result`, and the error values the source raises |
| `OrderedMaps` | insertion-ordered dicts and sums over them |
| `Text` | `str.split` and `str.strip` |
| `Spots` | `Spot` |
| `Pairs` | `Pair` and pair buckets |
| `Holdings` | `Holding` |
| `QuoteTables` | `Quotes` |
| `Transactions` | `Transaction` |
| `Portfolios` | the node and tree operations |
| `PortfolioCalc` | `calc` and `get_convert_symbols` |
| `Valuation` | `quotes` |
| `PortfolioLaws` | cross-operation theorems |
| `Scenarios` | worked examples |
| `SortKeys` | `helper.py` |
| `AddTool` | `add.py` |
| `Prototype` | `bitportfolio.py` |

The main theorems:

- **Holdings equal a replay.** After any sequence of admissible transactions,
  `calc` gives each holding the quantity that a direct replay of the transactions yields
  (`PortfolioLaws.CalcReplays`).
- **Roll-up.** `add_transaction` keeps that invariant at every node of a tree
  (`PortfolioLaws.AddTransactionAtKeepsSound`). The transaction reaches the target node and each
  of its ancestors exactly once, and no other node changes (`Portfolios.RollUpOnPath`,
  `Portfolios.RollUpOffPath`).
- **When valuation fails.** Take a childless node whose transactions all have a known type,
  the loader's shape and their bucket, with every bucket named after its pair. Run `calc` on
  it, and answer every request that `get_convert_symbols` lists. Then `quotes` fails exactly
  when some pair transaction buys the convert currency with something else, and it raises
  `NotImplementedError` (`PortfolioLaws.QuotesFailOnlyUnimplemented`). Self-pairs are allowed.
  A transfer of unknown type is not: it raises `ValueError` instead.
- **Valuing is stable.** Valuing twice changes nothing but the accumulated fee value
  (`Valuation.QuoteTwice`).
- **`add` is idempotent in shape.** Running `add` twice leaves the document's shape as after one
  run (`AddTool.RunTwiceKeepsShape`).
- **Prototype invariants.** The traversal keeps the pair totals in step with the filed trades
  (`Prototype.Traverse`, `Prototype.PairValueIsSignedSum`).

### Behaviour worth knowing

- **Pair strings read `SOLD/BOUGHT`.** The loader splits the pair string into the sold symbol
  and then the bought symbol (src/transaction.py:28). So `EUR/BTC` buys BTC with EUR
  (`Scenarios.BuyWithReportingCurrency`). A `BTC/EUR` buy valued in EUR buys the convert
  currency with another symbol, which is the not-implemented case
  (`Scenarios.BuyReportingCurrency`).
- **Profit when the convert currency is sold.** The profit is the bought value minus the sold
  quantity, for buys and for sells alike (src/portfolio.py:230-233). In the cross-pair case it is
  always bought value minus sold value (src/portfolio.py:240-253).
- **Order types raise.** Transaction types other than `buy`/`sell` (for pairs) or `in`/`out`
  (for transfers) raise `ValueError` in `add_pair` and `add_transaction`. The transaction has
  already been appended to the node and its fee counted by then.
- **Calc with children fails.** `calc` on a node with children fails, because it calls
  `sub_portfolio.calc()` without the convert argument (src/portfolio.py:124-125).
- **The cost is always zero.** `calc` takes the node's `cost` before the holding is settled, so
  its quantity is always zero (src/portfolio.py:154-156).

### Assumptions where the source is inconsistent

The source's `Pair` class does not match what `portfolio.py` and `transaction.py` call on it:

- `Pair(name)`, `add_buy`, `add_sell` and `add_transaction` do not exist in it;
- `Spot.add_trx_count` does not exist either;
- `Transaction` never sets `is_pair` or `spot`.

The model gives them the behaviour their callers rely on:

- `add_buy` adds both legs;
- `add_sell` subtracts both legs;
- the trade counters count;
- a transaction built by the constructor is a pair transaction;
- a transfer (`SpotKind`) carries one spot.

## Model

| member | source | states |
|---|---|---|
| Spots.NewSpot | src/spot.py:6-8 | a new spot has exactly the given symbol and quantity |
| Spots.ZeroSpot | src/spot.py:6-8 | the default quantity is zero |
| Spots.AddQ | src/spot.py:13-14 | the quantity grows by exactly `q`; the symbol is kept |
| Spots.SubQ | src/spot.py:16-17 | the quantity shrinks by exactly `q`; the symbol is kept |
| Spots.AddSpot | src/spot.py:19-20 | only the other spot's quantity is merged; its symbol is never compared |
| Spots.SubSpot | src/spot.py:22-23 | only the quantity is subtracted; the result is negative exactly when the other quantity exceeds this one (no clamping) |
| Spots.CalcValue | src/spot.py:25-28 | an unquoted symbol is worth 0.0, one unit is worth its quote, and a zero quantity is worth 0.0 |
| Spots.MergeRoundTrip | src/spot.py:19-23 | `add_spot(x)` then `sub_spot(x)` restores the spot, and so does the reverse order |
| Spots.MergeCommutes | src/spot.py:19-23 | merges commute, so the order in which transactions reach a bucket does not matter |
| Spots.CalcValueScales | src/spot.py:25-28 | scaling the quantity scales the value by the same factor |
| Spots.CalcValueQuoted | src/spot.py:25-28 | a quoted symbol is worth its quote times its quantity |
| Spots.CalcValueAdditive | src/spot.py:19-28 | the value of a merged spot is the sum of the parts' values |
| Pairs.NewPair | src/pair.py:14-19 | a new pair has zero price and quantity, no prices or spots, and the `NOTSET` cost string |
| Pairs.AddSpot | src/pair.py:21-22 | the spot is appended at the end; nothing else changes |
| Pairs.CalcCost | src/pair.py:24-27 | the cost computation is commented out, so no field changes |
| Pairs.OpenPosition | src/portfolio.py:98-103 | a new bucket has the pair's name, zero-quantity legs of its two symbols, and no transactions |
| Pairs.AddBuy | src/portfolio.py:105-106 | both legs of the bucket grow by the transaction's legs; name and transactions are kept |
| Pairs.AddSell | src/portfolio.py:107-108 | both legs of the bucket shrink by the transaction's legs; name and transactions are kept |
| Pairs.AddTransaction | src/portfolio.py:72-73 | the transaction is appended to the bucket; the legs are kept |
| Pairs.BuySellSymmetry | src/portfolio.py:105-108 | a buy followed by a sell of the same amounts restores the bucket, and so does the reverse |
| Holdings.NewHolding | src/holding.py:9-14 | a holding starts with the given symbol and quantity, and zero quote, value and profit |
| Holdings.ZeroHolding | src/holding.py:9-14 | the default holding is the zero-quantity holding |
| Holdings.AddSpot | src/spot.py:19-20 | the inherited merge moves only the quantity |
| Holdings.SubSpot | src/spot.py:22-23 | the inherited subtraction lowers only the quantity, and the inherited merge of the same spot restores the whole holding |
| Holdings.AddTrxCount | src/portfolio.py:135 | the trade counter grows by `n`; nothing else changes |
| QuoteTables.Empty | src/quotes.py:7-8 | the default table is empty |
| QuoteTables.Add | src/quotes.py:10-17 | after `add`, the pair holds the new value, the convert key is present, and every other stored pair keeps its value |
| QuoteTables.Get | src/quotes.py:19-29 | succeeds exactly when the symbols are equal (1.0) or the pair is stored (its value); otherwise it fails with the convert-not-found or the symbol-not-found error, in that order |
| QuoteTables.GetIdentity | src/quotes.py:20-21 | a symbol converts to itself at 1.0, even in an empty table |
| QuoteTables.GetAfterAdd | src/quotes.py:10-29 | `get` returns what `add` stored, for distinct symbols |
| QuoteTables.AddOverwrites | src/quotes.py:14-17 | a second `add` of the same pair replaces the first |
| QuoteTables.AddFrame | src/quotes.py:10-29 | `add` does not change whether `get` succeeds on any other pair, nor the value it returns |
| QuoteTables.IdentityShadowsStorage | src/quotes.py:20-21 | a stored self-quote is never read; the identity answer wins |
| QuoteTables.MissingQuoteFails | src/quotes.py:23-27 | a missing convert key and a missing symbol give their distinct errors |
| Text.Split | src/transaction.py:28 | `str.split` gives one more part than there are separators; no part contains one, and joining gives the input back |
| Text.SplitJoin | src/transaction.py:28 | splitting a join of separator-free parts gives the parts back |
| Text.Strip | src/add.py:149-155 | `str.strip` removes exactly the leading and trailing whitespace, using Python's `str.isspace` set |
| Text.StripPadded | src/add.py:149-155 | any whitespace padding around a text that starts and ends with a non-space is removed, and nothing else |
| Transactions.SplitPair | src/transaction.py:28-30 | the pair string splits into (sold, bought) exactly when it has one `/`, the two parts joined by `/` give the string back, and otherwise it raises |
| Transactions.SplitPairJoin | src/transaction.py:28-30 | `SELL/BUY` built from slash-free symbols splits back into the same two symbols |
| Transactions.ParseFee | src/transaction.py:38-42 | a two-element fee becomes the spot (symbol = second, quantity = first); any other length gives no fee |
| Transactions.GetOr | src/transaction.py:20-33 | a record field overrides the constructor default, and a missing field keeps it |
| Transactions.NamedAfterUnique | src/transaction.py:28-30 | a pair name determines its two symbols |
| Transactions.FromRecord | src/transaction.py:18-52 | succeeds exactly for a one-slash pair string with a `type` and a parsable fee; fields come from the record or the defaults; the sold leg is price × quantity of the sold symbol and the bought leg is the quantity of the bought symbol |
| Transactions.TypeDoesNotSign | src/transaction.py:45-52 | the legs do not depend on the type: a sell carries the same positive legs as a buy |
| Transactions.Defaults | src/transaction.py:20-26 | a record with only a type gets zero price and quantity and no date, fee, location or note |
| Portfolios.New | src/portfolio.py:27-45 | a new node is empty, at level 0 without a parent or one below its parent, and well-formed |
| Portfolios.AddPortfolio | src/portfolio.py:57-58 | the child is appended and nothing else changes |
| Portfolios.AddChildKeepsLevels | src/portfolio.py:29-30 | adding a child created with this node as parent keeps every level one below its parent's |
| Portfolios.AddFee | src/portfolio.py:114-121 | the fee's symbol total grows by the fee's quantity (from zero if new); the other fee totals and every other field are unchanged |
| Portfolios.AddPair | src/portfolio.py:93-112 | the bucket of the pair's name is opened if missing, then `buy` adds and `sell` subtracts the legs; other types raise after the bucket is opened; other buckets and fields are unchanged |
| Portfolios.Append | src/portfolio.py:64-68 | the transaction is appended, the counter grows by one, and only the fee's symbol total moves, by its quantity |
| Portfolios.MergePair | src/portfolio.py:71-76 | a pair transaction merges into its bucket and raises exactly for types other than buy and sell; earlier buckets remain |
| Portfolios.MergeSpot | src/portfolio.py:77-91 | a transfer's spot is added for `in` and subtracted for `out`; other types raise after the entry is created; other entries are unchanged |
| Portfolios.AddLocal | src/portfolio.py:64-91 | the local step appends the transaction and raises exactly when its type is not accepted; holdings, cost, marks and children are untouched |
| Portfolios.AddTransactionAt | src/portfolio.py:60-91 | `add_transaction` on a node deep in the tree raises exactly when the type is not accepted, appends at the root, and on a raise stops after the root's local step |
| Portfolios.DescentStep | src/portfolio.py:60-65 | a successful step changes only the child on the path, which receives the same operation one level down |
| Portfolios.RollUpOnPath | src/portfolio.py:60-65 | every ancestor of the target, and the target itself, gains the transaction exactly once |
| Portfolios.PrefixStep | src/portfolio.py:60-62 | one level down, a node is on the path exactly when it was one level up |
| Portfolios.SameChild | src/portfolio.py:57-58 | a node reached through an unchanged child is unchanged |
| Portfolios.RollUpOffPath | src/portfolio.py:60-62 | nodes that are not ancestors of the target are left exactly as they were |
| PortfolioCalc.LegSymbolsCover | src/portfolio.py:128-139 | both legs of every bucket are among the symbols `calc` seeds |
| PortfolioCalc.Touch | src/portfolio.py:133-139 | a holding is created fresh if missing, and its counter grows by `n` |
| PortfolioCalc.TouchLegs | src/portfolio.py:131-139 | touching both legs credits each symbol with its share of the bucket's trade count |
| PortfolioCalc.SeedFromPairs | src/portfolio.py:127-139 | the seeded holdings are exactly the legs' symbols, all fresh, each counting the trades of the buckets that touch it |
| PortfolioCalc.SeedFromSpots | src/portfolio.py:141-146 | transfer spots add their symbols and their trade counts to the seeded holdings |
| PortfolioCalc.Seed | src/portfolio.py:127-146 | the holdings' keys are the leg symbols plus the spot symbols; each counter is the sum of the pair and spot counts |
| PortfolioCalc.Settle | src/portfolio.py:151-166 | settling a holding changes only its quantity, which becomes the old quantity plus the pair legs' net (sold subtracted, bought added) plus its spot |
| PortfolioCalc.SettleAll | src/portfolio.py:151-166 | each holding's quantity becomes the net of the pair legs (sold subtracted, bought added) plus its spot |
| PortfolioCalc.Calc | src/portfolio.py:123-166 | fails exactly when the node has children; otherwise only the holdings and the cost change, every holding gets its net quantity and trade count, and the cost is a zero spot of the convert symbol when that symbol is held |
| PortfolioCalc.AddListed | src/portfolio.py:171-175 | a value is added under a symbol at most once; the lists never hold duplicates |
| PortfolioCalc.ListedStep | src/portfolio.py:178-188 | one more bucket adds exactly its request to the ones already listed |
| PortfolioCalc.ListPairs | src/portfolio.py:178-188 | the pair requests are exactly those of some bucket: (convert, sold) when the bought symbol is the convert currency and the sold one is not, otherwise (sold, bought) |
| PortfolioCalc.ListUnder | src/portfolio.py:191-207 | the listed symbols go under the convert currency, skipping the convert currency itself when asked |
| PortfolioCalc.SpotSymbols | src/portfolio.py:191-193 | the spot symbols in insertion order |
| PortfolioCalc.HoldingSymbols | src/portfolio.py:196-200 | the holding symbols in insertion order |
| PortfolioCalc.FeeSymbols | src/portfolio.py:203-207 | the fee symbols in insertion order |
| PortfolioCalc.GetConvertSymbols | src/portfolio.py:168-209 | a (symbol, value) request is listed exactly when a bucket, a spot, a non-convert holding or a non-convert fee asks for it, without duplicates |
| PortfolioCalc.PairRuleByKey | src/portfolio.py:178 | walking the buckets in order requests the same pairs as any bucket does |
| PortfolioCalc.SymbolsOfKeys | src/portfolio.py:191-207 | a symbol is among the listed spot, holding and fee symbols exactly when it is a key of that dict |
| Valuation.Price | src/quotes.py:19-29 | the price used is the one `get` returns |
| Valuation.ValueTrx | src/portfolio.py:218-269 | a transaction is valued exactly when its quotes exist and it does not buy the convert currency with another symbol (which sets `cprice` 1.0 and raises); otherwise gives the price, value and profit of each branch; transfers of other types raise after being valued |
| Valuation.ValueFrom | src/portfolio.py:218-269 | the loop from position `i` values every later transaction, or stops at the first one that fails |
| Valuation.ValueAll | src/portfolio.py:218-269 | the marks of every transaction are its valuation when all are valuable; otherwise the first failure is raised with the earlier marks written |
| Valuation.QuoteHoldings | src/portfolio.py:280-287 | each non-convert holding gets its quote and value; otherwise the error `get` gives is raised for the first holding in key order without a quote, the holdings before it are re-quoted, and it and every later one are untouched |
| Valuation.FeeValue | src/portfolio.py:294-302 | the fee value is the sum of the fee totals priced in the convert currency (at 1.0 for the currency itself); otherwise the error `get` gives is raised for the first fee in key order without a quote, and the value so far is the priced sum of the fees before it |
| Valuation.QuoteNode | src/portfolio.py:211-302 | `quotes` on a leaf succeeds exactly when all transactions, holdings and fees can be valued; only marks, holdings and the fee value change; on success every mark, holding and the fee value take their new values |
| Valuation.QuoteNodeMarkError | src/portfolio.py:218-269 | a leaf raises at its first transaction that cannot be valued; the earlier marks are written and the holdings and fee value are untouched |
| Valuation.QuoteNodeHoldingError | src/portfolio.py:280-287 | past the transactions, every mark is written, the first holding in key order without a quote raises the error `get` gives for it, the holdings before it are re-quoted, it and later ones are untouched, and so is the fee value |
| Valuation.QuoteNodeFeeError | src/portfolio.py:294-302 | past the holdings, every holding has been re-quoted, the first fee in key order without a quote raises the error `get` gives for it, and the fee value has grown by the priced sum of the fees before it |
| Valuation.QuoteTree | src/portfolio.py:211-216 | names, levels, transactions and the number of children are kept; a successful tree valuation implies that the root's own part can be valued |
| Valuation.QuoteTreeLeaf | src/portfolio.py:211-216 | on a childless node, `quotes` is the node's own part alone |
| Valuation.QuoteTreeChildrenFirst | src/portfolio.py:211-216 | when no child raises, the node's own part runs over the children as their own valuations left them |
| Valuation.QuoteTreeChildRaise | src/portfolio.py:215-216 | when a child raises, the first raising child's error is raised and the node's own marks, holdings and fee value are untouched |
| Valuation.QuoteSubs | src/portfolio.py:215-216 | the loop from child `i` keeps the number of children, leaves the children before `i` as they were, and keeps every child valid |
| Valuation.QuoteSubsIsLoop | src/portfolio.py:215-216 | the children loop applies each child's own valuation in order, stopping at a raise |
| Valuation.QuoteSubsSucceeds | src/portfolio.py:215-216 | the children loop succeeds exactly when every child's valuation does |
| Valuation.QuoteSubsReached | src/portfolio.py:215-216 | a child whose earlier siblings did not raise holds its own valuation's result |
| Valuation.QuoteSubsFirstRaise | src/portfolio.py:215-216 | on a raise, the error is that of the first raising child, and the children after it are untouched |
| Valuation.PairTypeIrrelevant | src/portfolio.py:220-253 | a pair transaction is valued the same whatever its type |
| Valuation.SpotValued | src/portfolio.py:255-267 | an `in` transfer's profit is its value, and an `out` transfer's profit is the negated value |
| Valuation.SpotInOutOpposite | src/portfolio.py:264-267 | `in` and `out` of the same spot have equal values and opposite profits |
| Valuation.ValueTrxIdempotent | src/portfolio.py:218-269 | valuing a transaction twice gives the same marks and error as once |
| Valuation.RequotedIdempotent | src/portfolio.py:280-287 | re-quoting a holding twice gives the same holding as once |
| Valuation.QuotedStaysQuotable | src/portfolio.py:211-302 | a node that could be valued can be valued again |
| Valuation.RevaluedStable | src/portfolio.py:218-269 | a second valuation writes the same transaction marks |
| Valuation.RequotedMapStable | src/portfolio.py:280-287 | re-quoting already quoted holdings changes none of them |
| Valuation.RequotedStable | src/portfolio.py:280-287 | a second valuation leaves the holdings as the first left them |
| Valuation.QuoteTwice | src/portfolio.py:211-302 | calling `quotes` again succeeds and changes only the fee value, which accumulates the fee total a second time |
| PortfolioLaws.AddLocalKeepsFeesBalanced | src/portfolio.py:64-68 | each fee total stays equal to the fees paid by the node's transactions |
| PortfolioLaws.ReplayAppend | src/portfolio.py:64 | replaying one more transaction adds its effect |
| PortfolioLaws.SelfPairNotConserved | src/portfolio.py:158-162 | for a self-pair `X/X`, `calc` nets only the sold leg, so a buy moves the holding by minus the sold amount rather than by the transaction's effect |
| PortfolioLaws.NewSound | src/portfolio.py:27-45 | a new node is sound and settled |
| PortfolioLaws.AddPortfolioKeepsTreeSound | src/portfolio.py:57-58 | appending a sound child to a sound tree keeps the tree sound |
| PortfolioLaws.ContributionStep | src/portfolio.py:105-108 | a bucket's contribution to a symbol moves by exactly the transaction's effect |
| PortfolioLaws.SameLegs | src/portfolio.py:158-162 | a bucket's contribution depends only on its legs |
| PortfolioLaws.MergePairBucket | src/portfolio.py:71-73 | the bucket after a pair transaction is the merged legs, followed by the appended transaction when no error was raised |
| PortfolioLaws.MergePairNamed | src/portfolio.py:96-103 | every bucket stays keyed by its `SELL/BUY` name with distinct legs |
| PortfolioLaws.BucketSymbols | src/portfolio.py:96-101 | an existing bucket of the same name has the transaction's two symbols |
| PortfolioLaws.MergePairMoves | src/portfolio.py:71-76 | the net pair quantity of each symbol moves by the transaction's effect |
| PortfolioLaws.MergeSpotMoves | src/portfolio.py:77-91 | the spot of each symbol moves by the transfer's effect |
| PortfolioLaws.AddLocalKeepsSound | src/portfolio.py:60-91 | the local step keeps the node sound: buckets well named, fee totals balanced, and net quantities equal to the replay of the transactions |
| PortfolioLaws.TreeSoundValid | src/portfolio.py:27-45 | a sound tree is well-formed |
| PortfolioLaws.AddTransactionAtKeepsSound | src/portfolio.py:60-91 | `add_transaction` keeps every node of the tree sound |
| PortfolioLaws.SoundIgnoresSubs | src/portfolio.py:57-58 | adding children does not affect a node's soundness |
| PortfolioLaws.AddLocalKeepsSettled | src/portfolio.py:64-91 | every accepted transaction stays filed in a bucket or spot |
| PortfolioLaws.OffLegsZero | src/portfolio.py:158-162 | a symbol that is no bucket's leg gets nothing from the buckets |
| PortfolioLaws.CalcReplays | src/portfolio.py:123-166 | on a sound leaf, `calc` succeeds and each holding's quantity equals the replay of the transactions; a symbol without a holding replays to zero |
| PortfolioLaws.BookedValuable | src/portfolio.py:218-269 | when all leg and spot symbols are quoted, a transaction of known type filed in its bucket is valuable exactly when it does not buy the convert currency with another symbol |
| PortfolioLaws.ListedQuotes | src/portfolio.py:191-207 | answering every listed request quotes every holding, spot and fee symbol |
| PortfolioLaws.QuotableIff | src/portfolio.py:168-302 | for a node whose transactions all have a known type and a bucket, with every listed request answered, each transaction, and so the node, can be valued exactly when it does not buy the convert currency with another symbol |
| PortfolioLaws.QuoteNodeFailsOnlyUnimplemented | src/portfolio.py:211-302 | for a node whose transactions all have a known type and a bucket, with every listed request answered, the node's own part raises exactly in the not-implemented case, and raises that error |
| PortfolioLaws.QuotesFailOnlyUnimplemented | src/portfolio.py:123-302 | on a childless node whose transactions all have a known type and a bucket, after `calc` and with every listed request answered, `quotes` fails exactly when some transaction buys the convert currency with another symbol, and then with `NotImplementedError` |
| Scenarios.ParseBuy | src/transaction.py:18-52 | a buy record under `SOLD/BOUGHT` becomes a transaction selling price × quantity and buying the quantity |
| Scenarios.BuyWithReportingCurrency | src/portfolio.py:228-233 | buying 0.1 BTC at 20000 under `EUR/BTC` with BTC quoted at 25000 is valued at 2500, with profit 500 |
| Scenarios.BuyReportingCurrency | src/portfolio.py:228-239 | the same record under `BTC/EUR` raises `NotImplementedError` after setting `cprice` to 1.0 |
| Scenarios.CrossPair | src/portfolio.py:240-253 | buying 2 ETH at 0.05 BTC is valued at 3600 EUR, with profit 1100 |
| Scenarios.TransferInAndOut | src/portfolio.py:255-267 | a 2 ETH `in` is worth 3600 with profit 3600, and a 1 ETH `out` is worth 1800 with profit -1800 |
| SortKeys.SortHoldings | src/helper.py:5-9 | the sort key is the holding's value, or 0.0 when there is none |
| SortKeys.SortTransactions | src/helper.py:11-12 | the sort key is the transaction's date |
| SortKeys.SortHoldingsIgnoresKey | src/helper.py:5-9 | the dict key plays no part in the order |
| SortKeys.FreshHoldingSortsAtZero | src/helper.py:5-9 | an unquoted holding sorts at 0.0 |
| SortKeys.RequotedSortsByWorth | src/helper.py:5-9 | a quoted holding sorts by its worth in the convert currency |
| SortKeys.SortsByRecordDate | src/helper.py:11-12 | transactions sort by the date of their record |
| AddTool.ToFloat | src/add.py:41-44 | `float()` fails on a missing number, passes numbers through, and parses strings |
| AddTool.NewApp | src/add.py:36-47 | the app is built exactly when quantity, price and a truthy target convert; the target is kept only when truthy |
| AddTool.Keys | src/add.py:62-71 | the keys of a record entry, in order |
| AddTool.NewTrx | src/add.py:62-71 | the new record has date, type, price, then target when non-zero, then quantity, holding the app's values |
| AddTool.Initial | src/add.py:56-60 | a missing file starts as a document with no sources that is not ignored |
| AddTool.EnsureSource | src/add.py:73-82 | the source is appended only when absent, and afterwards it is present |
| AddTool.EnsurePair | src/add.py:84-98 | when the pair is absent, every matching source gets an empty pair appended; afterwards the pair exists |
| AddTool.FileSource | src/add.py:100-104 | within a matching source, every matching pair gets the record appended |
| AddTool.AppendTrx | src/add.py:100-104 | every source is filed and the number of sources is unchanged |
| AddTool.Run | src/add.py:49-104 | `run` keeps the `ignore` flag and adds a source exactly when none matches |
| AddTool.RunRecords | src/add.py:56-104 | after `run`, the record is the last transaction of a matching pair under a matching source |
| AddTool.RunLeavesOthers | src/add.py:73-104 | sources and pairs that do not match are left exactly as they were |
| AddTool.AppendKeepsShape | src/add.py:100-104 | appending a record does not change which sources and pairs exist |
| AddTool.RunTwiceKeepsShape | src/add.py:73-104 | a second run of the same trade adds no source and no pair |
| AddTool.ChooseType | src/add.py:132-138 | the type is `sell` exactly when only `--sell` is given; otherwise it is `buy` |
| AddTool.ParseArg | src/add.py:140-146 | the comma argument is accepted exactly with 6 or 7 fields, and the target is absent exactly with 6 |
| AddTool.ParseArgJoin | src/add.py:140-157 | joining 6 or 7 comma-free fields parses back to those fields, with the text fields stripped |
| AddTool.MainApp | src/add.py:132-169 | with a parsable comma argument, the app is built exactly when its quantity, price and non-empty target parse, and its date, symbol, source, type, quantity, price and target are the argument's; otherwise the options and flags decide |
| AddTool.ArgOverridesOptions | src/add.py:140-157 | with a comma argument, the options and the `--buy`/`--sell` flags do not affect the result |
| AddTool.ZeroTargetDropped | src/add.py:43-44 | a target of "0" is kept by the app but not written to the record |
| Prototype.TotalsAppend | src/bitportfolio.py:113-129 | the net quantity and the fee sum of concatenated trades are the sums of the parts |
| Prototype.EmptyCollection | src/bitportfolio.py:48-56 | the empty collection has no pairs and is balanced |
| Prototype.Store | src/bitportfolio.py:97-129 | storing a balanced pair keeps the collection balanced, and the fee total moves by the new pair's fees minus the replaced entry's |
| Prototype.OpenAgg | src/bitportfolio.py:97-106 | a new pair entry is balanced |
| Prototype.FileTrade | src/bitportfolio.py:118-133 | a trade adds its signed quantity and fee, is appended with its cost, and adds its location when present |
| Prototype.FileInto | src/bitportfolio.py:113-134 | filing a trade changes only its pair, the fee total and the locations, and keeps the collection balanced |
| Prototype.FileTrades | src/bitportfolio.py:113-134 | a file's trades move the pair's quantity by their net and the fee total by their fees; other pairs are unchanged |
| Prototype.Opened | src/bitportfolio.py:97-106 | the pair entry is created only when absent |
| Prototype.AddFile | src/bitportfolio.py:94-134 | a JSON file is folded in exactly when its pair string has one `/`; its symbols are appended; the pair's quantity grows by the net of its trades and the fees by their fees; other pairs keep their totals |
| Prototype.Combined | src/bitportfolio.py:78-84 | merging a child's pair concatenates trades and locations and adds quantities and fees |
| Prototype.EntryOr | src/bitportfolio.py:67-76 | the existing entry, or a new one with the child's symbols |
| Prototype.MergePairAgg | src/bitportfolio.py:66-84 | merging one child pair adds its fees to the total and leaves the other pairs alone |
| Prototype.MergePairs | src/bitportfolio.py:66-84 | merging all child pairs adds their fee sum and keeps the symbol lists and the value |
| Prototype.MergePairsAdds | src/bitportfolio.py:66-84 | merging child pairs in key order unites the pair keys and adds each child pair's quantity to the existing one |
| Prototype.MergeSub | src/bitportfolio.py:58-84 | merging a subdirectory appends its symbol lists and adds its fees, keeping the totals balanced |
| Prototype.MergeSubKeys | src/bitportfolio.py:66-84 | merging a subdirectory's result unites the pair keys |
| Prototype.MergeSubQuantity | src/bitportfolio.py:66-84 | merging a subdirectory's result adds its quantity to each pair's |
| Prototype.Traverse | src/bitportfolio.py:46-136 | `_traverse` succeeds exactly when every JSON file's pair string has one `/`, and otherwise raises for the first file that does not; on success the fee total is the fees of all files, the pair keys are the files' pair strings, each pair's quantity is the net of its files' trades, and every pair is balanced |
| Prototype.TraverseEntries | src/bitportfolio.py:57-134 | the directory loop from entry `i` on succeeds exactly when every later JSON file's pair string splits, raises for the first that does not, and otherwise adds those files' fees, pair keys and per-pair net to the collection it started from |
| Prototype.Dedup | src/bitportfolio.py:141-144 | `list(set(...))` holds each element once and the same elements as the input |
| Prototype.DateLeTotal | src/bitportfolio.py:167 | any two dates are comparable |
| Prototype.DateLeTrans | src/bitportfolio.py:167 | the date order is transitive |
| Prototype.AppendSorted | src/bitportfolio.py:167 | a trade no earlier than the last one extends a sorted list |
| Prototype.AppendAfterInsert | src/bitportfolio.py:167 | re-appending the latest trade after an insertion keeps the list sorted |
| Prototype.Insert | src/bitportfolio.py:167 | inserting keeps the order, adds exactly the trade, and adds its quantity and fee to the totals |
| Prototype.SortByDate | src/bitportfolio.py:167 | the result is sorted by date, a permutation of the input, and has the same net and fee totals |
| Prototype.PrepareAgg | src/bitportfolio.py:161-168 | per pair, only the locations (deduplicated) and the trades (sorted by date, same trades) change, and a balanced pair stays balanced |
| Prototype.Prepare | src/bitportfolio.py:138-170 | all four symbol and location lists are deduplicated with the same elements, every pair is prepared, and the totals are unchanged |
| Prototype.PrepareKeepsBalanced | src/bitportfolio.py:138-170 | normalisation keeps the collection balanced |
| Prototype.PriceTrades | src/bitportfolio.py:196-201 | each trade gets the value quote × quantity, in the same order |
| Prototype.PriceAgg | src/bitportfolio.py:190-201 | a pair gets the quote, the value quote × quantity, and each trade, in order, the value quote × its quantity; nothing else changes |
| Prototype.PricePairs | src/bitportfolio.py:189-201 | every pair is priced at its bought symbol's quote; otherwise the missing quote is reported for the first pair in key order whose bought symbol has none |
| Prototype.CalcValue | src/bitportfolio.py:186-203 | succeeds exactly when every pair's bought symbol is quoted, and then only the pairs change, each priced at its quote |
| Prototype.PricedWorth | src/bitportfolio.py:198 | a priced trade's signed value is the quote times its signed quantity |
| Prototype.Distribute | src/bitportfolio.py:193 | pricing distributes over a sum of quantities |
| Prototype.PriceTradesNet | src/bitportfolio.py:193-199 | the signed values of the priced trades sum to the quote times their net quantity |
| Prototype.PairValueIsSignedSum | src/bitportfolio.py:193-199 | for a balanced pair, the pair's value equals the signed sum of its trades' values |

## Left out

- **I/O.** File and directory access, YAML and JSON parsing and dumping, `argparse`, printing,
  logging and the `SIGINT` handler are not modelled. Inputs arrive as values and results are
  returned.
- **`App.shutdown`, `to_json` and `__repr__`** are not modelled. They only print or serialise.
- **Float arithmetic.** Floats are modelled as exact reals, so rounding is not modelled.
- **The quote provider.** `_get_quotes`, the provider call and the provider's response layout
  are not modelled. The prototype receives one price per bought symbol, as a map.
- **Malformed documents and records.** `KeyError` and `TypeError` from them are not modelled.
  Every trade of a JSON file is assumed to have `price`, `quantity`, `fee`, `type` and `date`;
  YAML sources and pairs are assumed to have their keys.
- **Arbitrary extra record keys.** A trade record's arbitrary extra keys, which `setattr` copies
  onto the transaction, are not modelled. Only the documented fields are.
- **The `symbols` set of `Portfolio`.** It is never written after construction, so it is left out.
- Transactions.ParseFee: a two-element fee whose elements have the wrong types is rejected
  with an error. Python would build a spot holding a string quantity and fail later.
- Prototype.Dedup: keeps the first occurrence of each element, whereas Python's `list(set(...))`
  has an unspecified order. The contract states only what Python guarantees: no duplicates,
  and the same elements.
- Prototype.SortByDate: does not state that trades with equal dates keep their relative order,
  although Python's `sorted` is stable. Only sortedness and permutation are proved.
- Valuation.QuoteSubs: its own contract gives only the shape of the loop's result. The
  in-order valuation of the children is proved about it separately, from child 0, in
  `QuoteSubsSucceeds`, `QuoteSubsReached` and `QuoteSubsFirstRaise`.
- PortfolioLaws.BookedValuable: asks that the transaction has a known type. `add_transaction`
  keeps a transfer of unknown type in the list before it raises `ValueError`
  (src/portfolio.py:64, 90-91). Valuing that transfer raises `ValueError` again
  (src/portfolio.py:268-269), not the not-implemented error, so the law cannot cover it.
- PortfolioLaws.QuotableIff: likewise asks that every transaction has a known type, because
  of such a transfer.
- PortfolioLaws.QuoteNodeFailsOnlyUnimplemented: likewise asks that every transaction has a
  known type. A transfer of unknown type makes the node raise `ValueError`.
- PortfolioLaws.QuotesFailOnlyUnimplemented: likewise asks that every transaction has a known
  type. It is also stated for childless nodes only. For a node with children it combines with
  `Valuation.QuoteTreeChildrenFirst` and `Valuation.QuoteTreeChildRaise`.
- Portfolios.AddTransactionAt: the parent link is modelled as a path of child indices from the
  root. So `add_transaction` called on a child is modelled as the walk from the root to that
  child, doing the local step at each node on the way.
- PortfolioLaws.ContributionStep: holds only for `Admissible` transactions, whose sold and
  bought symbols differ. A self-pair `X/X` is loaded and filed by the code, but `calc` counts
  only its sold leg (`PortfolioLaws.SelfPairNotConserved`), so the bucket does not move by the
  transaction's effect.
- PortfolioLaws.MergePairMoves: likewise holds only for admissible transactions; self-pairs
  break the net-quantity step for the reason above.
- PortfolioLaws.AddLocalKeepsSound: soundness is preserved only for admissible transactions;
  after a self-pair the node's net quantities no longer equal the replay.
- PortfolioLaws.AddTransactionAtKeepsSound: the tree-wide form of the above, with the same
  exclusion of self-pairs.
- PortfolioLaws.CalcReplays: holds on sound nodes, which hold no self-pair. With a self-pair
  `calc` credits only the sold leg, and the holding differs from the replay.
- Valuation.QuoteTree: Python files the same `Transaction` object at a node and at every
  ancestor, so the marks that `quotes` writes on a child's transactions are also seen through
  its ancestors. The model keeps each node's copy separate, so marks written while valuing a
  child do not appear in the ancestors' transaction lists until those are valued themselves.
- Portfolios.AddLocal: the transaction is filed by value, not shared by reference. A later
  mutation of one node's copy does not reach the copies at its ancestors, unlike in Python.
- QuoteTables.Empty: `Quotes()` in Python shares one mutable default dict between every table
  built without an argument, so an `add` on one is seen by the others. The model gives each
  table its own empty map.
