/** The document update of the `add` tool (src/add.py): one trade given on
    the command line is appended to a YAML document of sources, each with
    pairs, each with transactions.

    Reading and writing the file are left out: the document arrives as
    `Some(doc)` when the file exists and `None` when it does not, and the
    updated document is the result. Turning text into a number (`float`) is
    the parameter `parse`. */
module AddTool {
  import opened Wrappers
  import Text

  /** A YAML scalar: `null`, text, or a number. */
  datatype Scalar = Null | Str(s: string) | Num(n: real)

  /** One transaction mapping, its keys in insertion order. */
  type Entry = seq<(string, Scalar)>

  datatype PairDoc = PairDoc(pair: Option<string>, transactions: seq<Entry>)
  datatype SourceDoc = SourceDoc(source: Option<string>, pairs: seq<PairDoc>)
  datatype Document = Document(ignore: bool, sources: seq<SourceDoc>)

  /** A number as the command line hands it over: absent, text cut from the
      comma argument, or already typed by the option parser. */
  datatype NumArg = Missing | Text(s: string) | Number(n: real)

  /** The settings of one run, as `App.__init__` stores them. */
  datatype App = App(date: Option<string>, ttype: string, symbol: Option<string>,
                     quantity: real, price: real, source: Option<string>, target: Option<real>)

  /** Python truthiness of the target argument. */
  predicate Truthy(a: NumArg) {
    match a
    case Missing => false
    case Text(s) => s != ""
    case Number(n) => n != 0.0
  }

  /** `float(a)`. */
  function ToFloat(a: NumArg, parse: string -> Option<real>): (r: Result<real>)
    ensures a.Missing? ==> r == Err(MissingNumber)
    ensures a.Number? ==> r == Ok(a.n)
    ensures a.Text? ==> (r.Ok? <==> parse(a.s).Some?)
    ensures a.Text? && r.Ok? ==> r.value == parse(a.s).value
  {
    match a
    case Missing => Err(MissingNumber)
    case Number(n) => Ok(n)
    case Text(s) => if parse(s).Some? then Ok(parse(s).value) else Err(NotANumber(s))
  }

  /** `App.__init__` (add.py:36-47): quantity and price become numbers, in
      that order; a falsy target becomes `None`, any other is converted. */
  function NewApp(date: Option<string>, ttype: string, symbol: Option<string>, quantity: NumArg,
                  price: NumArg, source: Option<string>, target: NumArg,
                  parse: string -> Option<real>): (r: Result<App>)
    ensures r.Ok? <==> ToFloat(quantity, parse).Ok? && ToFloat(price, parse).Ok?
                       && (Truthy(target) ==> ToFloat(target, parse).Ok?)
    ensures ToFloat(quantity, parse).Err? ==> r == Err(ToFloat(quantity, parse).error)
    ensures r.Ok? ==> && r.value.quantity == ToFloat(quantity, parse).value
                      && r.value.price == ToFloat(price, parse).value
                      && r.value.date == date && r.value.ttype == ttype
                      && r.value.symbol == symbol && r.value.source == source
    ensures r.Ok? ==> (r.value.target.None? <==> !Truthy(target))
    ensures r.Ok? && Truthy(target) ==> r.value.target == Some(ToFloat(target, parse).value)
  {
    var q :- ToFloat(quantity, parse);
    var p :- ToFloat(price, parse);
    if Truthy(target) then
      var t :- ToFloat(target, parse);
      Ok(App(date, ttype, symbol, q, p, source, Some(t)))
    else
      Ok(App(date, ttype, symbol, q, p, source, None))
  }

  function OptStr(o: Option<string>): Scalar {
    if o.Some? then Str(o.value) else Null
  }

  /** The names of an entry's keys, in order. */
  function Keys(e: Entry): (r: seq<string>)
    ensures |r| == |e| && forall i :: 0 <= i < |e| ==> r[i] == e[i].0
  {
    seq(|e|, i requires 0 <= i < |e| => e[i].0)
  }

  /** The value under `k`, where the entry has that key. */
  function Lookup(e: Entry, k: string): Option<Scalar> {
    if e == [] then None
    else if e[0].0 == k then Some(e[0].1)
    else Lookup(e[1..], k)
  }

  /** The new transaction (add.py:62-71): date, type and price, then the
      target only when it is truthy, then the quantity. */
  function NewTrx(app: App): (r: Entry)
    ensures Keys(r) == ["date", "type", "price"]
                       + (if app.target.Some? && app.target.value != 0.0 then ["target"] else [])
                       + ["quantity"]
    ensures Lookup(r, "date") == Some(OptStr(app.date))
    ensures Lookup(r, "type") == Some(Str(app.ttype))
    ensures Lookup(r, "price") == Some(Num(app.price))
    ensures Lookup(r, "quantity") == Some(Num(app.quantity))
    ensures app.target.Some? && app.target.value != 0.0 ==> Lookup(r, "target") == Some(Num(app.target.value))
  {
    var head := [("date", OptStr(app.date)), ("type", Str(app.ttype)), ("price", Num(app.price))];
    var tail := [("quantity", Num(app.quantity))];
    var r := if app.target.Some? && app.target.value != 0.0
             then head + [("target", Num(app.target.value))] + tail
             else head + tail;
    LookupAt(r, 0, "date");
    LookupAt(r, 1, "type");
    LookupAt(r, 2, "price");
    LookupAt(r, |r| - 1, "quantity");
    if |r| == 5 then LookupAt(r, 3, "target"); r else r
  }

  /** A key first met at position `n` yields the value stored there. */
  lemma LookupAt(e: Entry, n: nat, k: string)
    requires n < |e| && e[n].0 == k && forall i :: 0 <= i < n ==> e[i].0 != k
    ensures Lookup(e, k) == Some(e[n].1)
  {
    LookupSkip(e, n, k);
  }

  /** Keys before position `n` other than `k` are passed over by the lookup. */
  lemma {:induction false} LookupSkip(e: Entry, n: nat, k: string)
    requires n <= |e| && forall i :: 0 <= i < n ==> e[i].0 != k
    ensures Lookup(e, k) == Lookup(e[n..], k)
  {
    if n > 0 {
      LookupSkip(e[1..], n - 1, k);
      assert e[1..][n - 1..] == e[n..];
    }
  }

  /** The document a missing file starts from (add.py:56-60). */
  function Initial(): (d: Document)
    ensures !d.ignore && d.sources == []
  {
    Document(false, [])
  }

  predicate HasSource(d: Document, name: Option<string>) {
    exists i :: 0 <= i < |d.sources| && d.sources[i].source == name
  }

  predicate HasPair(d: Document, name: Option<string>, sym: Option<string>) {
    exists i, j :: 0 <= i < |d.sources| && d.sources[i].source == name
                   && 0 <= j < |d.sources[i].pairs| && d.sources[i].pairs[j].pair == sym
  }

  /** The first loop (add.py:73-82): a source of that name is added at the
      end unless one exists. */
  function EnsureSource(d: Document, name: Option<string>): (r: Document)
    ensures r.ignore == d.ignore
    ensures HasSource(d, name) ==> r == d
    ensures !HasSource(d, name) ==> r.sources == d.sources + [SourceDoc(name, [])]
    ensures HasSource(r, name)
  {
    if HasSource(d, name) then d
    else
      var r := d.(sources := d.sources + [SourceDoc(name, [])]);
      assert r.sources[|d.sources|].source == name;
      r
  }

  /** The second loop (add.py:84-98): unless some source of that name has
      the pair, every source of that name gets an empty pair at its end. */
  function EnsurePair(d: Document, name: Option<string>, sym: Option<string>): (r: Document)
    ensures r.ignore == d.ignore && |r.sources| == |d.sources|
    ensures HasPair(d, name, sym) ==> r == d
    ensures !HasPair(d, name, sym) ==> forall i :: 0 <= i < |d.sources| ==>
      r.sources[i] == if d.sources[i].source == name
                      then d.sources[i].(pairs := d.sources[i].pairs + [PairDoc(sym, [])])
                      else d.sources[i]
    ensures HasSource(d, name) ==> HasPair(r, name, sym)
  {
    if HasPair(d, name, sym) then d
    else
      var r := d.(sources := seq(|d.sources|, i requires 0 <= i < |d.sources| =>
        if d.sources[i].source == name
        then d.sources[i].(pairs := d.sources[i].pairs + [PairDoc(sym, [])])
        else d.sources[i]));
      assert HasSource(d, name) ==> HasPair(r, name, sym) by {
        if HasSource(d, name) {
          var i :| 0 <= i < |d.sources| && d.sources[i].source == name;
          assert r.sources[i].pairs[|d.sources[i].pairs|].pair == sym;
        }
      }
      r
  }

  /** One pair after the third loop. */
  function FilePair(p: PairDoc, sym: Option<string>, e: Entry): PairDoc {
    if p.pair == sym then p.(transactions := p.transactions + [e]) else p
  }

  /** One source after the third loop. */
  function FileSource(s: SourceDoc, name: Option<string>, sym: Option<string>, e: Entry): (r: SourceDoc)
    ensures r.source == s.source && |r.pairs| == |s.pairs|
    ensures forall j :: 0 <= j < |s.pairs| ==>
      r.pairs[j] == if s.source == name then FilePair(s.pairs[j], sym, e) else s.pairs[j]
  {
    if s.source == name
    then s.(pairs := seq(|s.pairs|, j requires 0 <= j < |s.pairs| => FilePair(s.pairs[j], sym, e)))
    else s
  }

  /** The third loop (add.py:100-104): the entry is appended to every pair of
      that symbol in every source of that name; nothing else changes. */
  function AppendTrx(d: Document, name: Option<string>, sym: Option<string>, e: Entry): (r: Document)
    ensures r.ignore == d.ignore && |r.sources| == |d.sources|
    ensures forall i :: 0 <= i < |d.sources| ==> r.sources[i] == FileSource(d.sources[i], name, sym, e)
  {
    d.(sources := seq(|d.sources|, i requires 0 <= i < |d.sources| => FileSource(d.sources[i], name, sym, e)))
  }

  /** `App.run` without the file access: start from the loaded document or
      the initial one, make sure the source and the pair exist, then file
      the new transaction. */
  function Run(loaded: Option<Document>, app: App): (r: Document)
    ensures var d := if loaded.Some? then loaded.value else Initial();
      && r.ignore == d.ignore
      && |r.sources| == |d.sources| + (if HasSource(d, app.source) then 0 else 1)
  {
    var d := if loaded.Some? then loaded.value else Initial();
    AppendTrx(EnsurePair(EnsureSource(d, app.source), app.source, app.symbol), app.source, app.symbol, NewTrx(app))
  }

  /** The entry was appended, as the last transaction, to at least one pair
      of the symbol under a source of the name. */
  ghost predicate Recorded(d: Document, name: Option<string>, sym: Option<string>, e: Entry) {
    exists i, j :: && 0 <= i < |d.sources| && d.sources[i].source == name
                   && 0 <= j < |d.sources[i].pairs| && d.sources[i].pairs[j].pair == sym
                   && |d.sources[i].pairs[j].transactions| > 0
                   && d.sources[i].pairs[j].transactions[|d.sources[i].pairs[j].transactions| - 1] == e
  }

  /** A run always records the transaction. */
  lemma RunRecords(loaded: Option<Document>, app: App)
    ensures Recorded(Run(loaded, app), app.source, app.symbol, NewTrx(app))
  {
    var d := if loaded.Some? then loaded.value else Initial();
    var d1 := EnsureSource(d, app.source);
    var d2 := EnsurePair(d1, app.source, app.symbol);
    var r := Run(loaded, app);
    var i, j :| 0 <= i < |d2.sources| && d2.sources[i].source == app.source
                && 0 <= j < |d2.sources[i].pairs| && d2.sources[i].pairs[j].pair == app.symbol;
    assert r.sources[i].pairs[j] == FilePair(d2.sources[i].pairs[j], app.symbol, NewTrx(app));
  }

  /** Sources of another name come through a run unchanged, and so do the
      pairs of another symbol. */
  lemma RunLeavesOthers(loaded: Option<Document>, app: App, i: nat, j: nat)
    requires var d := if loaded.Some? then loaded.value else Initial(); i < |d.sources|
    ensures var d := if loaded.Some? then loaded.value else Initial();
      var r := Run(loaded, app);
      && i < |r.sources|
      && (d.sources[i].source != app.source ==> r.sources[i] == d.sources[i])
      && (j < |d.sources[i].pairs| && d.sources[i].pairs[j].pair != app.symbol ==>
            j < |r.sources[i].pairs| && r.sources[i].pairs[j] == d.sources[i].pairs[j])
  {
  }

  /** The names of the sources and of their pairs, without the transactions. */
  function Shape(d: Document): seq<(Option<string>, seq<Option<string>>)> {
    seq(|d.sources|, i requires 0 <= i < |d.sources| =>
      (d.sources[i].source, seq(|d.sources[i].pairs|, j requires 0 <= j < |d.sources[i].pairs| => d.sources[i].pairs[j].pair)))
  }

  /** Filing transactions never changes the shape. */
  lemma AppendKeepsShape(d: Document, name: Option<string>, sym: Option<string>, e: Entry)
    ensures Shape(AppendTrx(d, name, sym, e)) == Shape(d)
  {
    var r := AppendTrx(d, name, sym, e);
    forall i | 0 <= i < |d.sources| ensures Shape(r)[i] == Shape(d)[i] {
      var s := d.sources[i];
      assert r.sources[i] == FileSource(s, name, sym, e);
      assert Shape(r)[i].1 == Shape(d)[i].1 by {
        forall j | 0 <= j < |s.pairs| ensures r.sources[i].pairs[j].pair == s.pairs[j].pair {
        }
      }
    }
  }

  /** Repeating a run on its own output files the trade again but adds no
      source and no pair: the find-or-create steps are idempotent. */
  lemma RunTwiceKeepsShape(loaded: Option<Document>, app: App)
    ensures Shape(Run(Some(Run(loaded, app)), app)) == Shape(Run(loaded, app))
  {
    var r := Run(loaded, app);
    RunRecords(loaded, app);
    assert HasSource(r, app.source);
    assert HasPair(r, app.source, app.symbol);
    AppendKeepsShape(r, app.source, app.symbol, NewTrx(app));
  }

  // ---------------------------------------------------------- command line

  /** The type chosen by the flags (add.py:132-138): `--buy` wins, then
      `--sell`, and neither means buy. An unset flag reads as false. */
  function ChooseType(buy: bool, sell: bool): (r: string)
    ensures r == "sell" <==> !buy && sell
    ensures r == "buy" <==> !(!buy && sell)
  {
    if buy then "buy" else if sell then "sell" else "buy"
  }

  /** The fields of the comma argument: the stripped texts and the raw
      number texts, with no target when there were only six fields. */
  datatype Fields = Fields(source: string, symbol: string, date: string, ttype: string,
                           quantity: string, price: string, target: Option<string>)

  /** `arg.split(',')`, padded with `None` at six fields and unpacked into
      seven names (add.py:140-146); any other count fails to unpack. */
  function ParseArg(arg: string): (r: Result<Fields>)
    ensures r.Ok? <==> |Text.Split(arg, ',')| in {6, 7}
    ensures r.Err? ==> r.error == BadArgumentCount(|Text.Split(arg, ',')|)
    ensures r.Ok? ==> (r.value.target.None? <==> |Text.Split(arg, ',')| == 6)
  {
    var items := Text.Split(arg, ',');
    if |items| == 6 || |items| == 7 then
      Ok(Fields(Text.Strip(items[0]), Text.Strip(items[1]), Text.Strip(items[2]), Text.Strip(items[3]),
                items[4], items[5], if |items| == 7 then Some(items[6]) else None))
    else Err(BadArgumentCount(|items|))
  }

  /** Six comma-free fields, joined with commas, parse back to themselves
      (stripped where the source strips). */
  lemma ParseArgJoin(f: seq<string>)
    requires |f| == 6 || |f| == 7
    requires forall i :: 0 <= i < |f| ==> ',' !in f[i]
    ensures ParseArg(Text.Join(f, ',')).Ok?
    ensures var r := ParseArg(Text.Join(f, ',')).value;
      && r.source == Text.Strip(f[0]) && r.symbol == Text.Strip(f[1])
      && r.date == Text.Strip(f[2]) && r.ttype == Text.Strip(f[3])
      && r.quantity == f[4] && r.price == f[5]
      && r.target == (if |f| == 7 then Some(f[6]) else None)
  {
    Text.SplitJoin(f, ',');
  }

  /** The parsed command line. Unset options are `None`; `arg` is the comma argument. */
  datatype Command = Command(buy: bool, sell: bool, date: Option<string>, symbol: Option<string>,
                             quantity: Option<real>, price: Option<real>, src: Option<string>,
                             target: Option<real>, arg: Option<string>)

  function OptNum(o: Option<real>): NumArg {
    if o.Some? then Number(o.value) else Missing
  }

  /** The positional argument counts only when it is a non-empty string. */
  predicate HasArg(cmd: Command) {
    cmd.arg.Some? && cmd.arg.value != ""
  }

  /** `main` after option parsing (add.py:132-169): with a comma argument its
      seven fields make the app, the type among them and the flags ignored;
      otherwise the options do, the type chosen by the flags. */
  function MainApp(cmd: Command, parse: string -> Option<real>): (r: Result<App>)
    ensures HasArg(cmd) && ParseArg(cmd.arg.value).Err? ==> r == Err(ParseArg(cmd.arg.value).error)
    ensures HasArg(cmd) && ParseArg(cmd.arg.value).Ok? ==>
      var f := ParseArg(cmd.arg.value).value;
      && (r.Ok? <==> && parse(f.quantity).Some? && parse(f.price).Some?
                     && (f.target.Some? && f.target.value != "" ==> parse(f.target.value).Some?))
      && (r.Ok? ==> && r.value.date == Some(f.date) && r.value.symbol == Some(f.symbol)
                    && r.value.source == Some(f.source) && r.value.ttype == f.ttype
                    && r.value.quantity == parse(f.quantity).value && r.value.price == parse(f.price).value
                    && r.value.target == (if f.target.Some? && f.target.value != ""
                                          then Some(parse(f.target.value).value) else None))
    ensures !HasArg(cmd) && r.Ok? ==> r.value.ttype == ChooseType(cmd.buy, cmd.sell)
    ensures !HasArg(cmd) ==> r == NewApp(cmd.date, ChooseType(cmd.buy, cmd.sell), cmd.symbol,
                                           OptNum(cmd.quantity), OptNum(cmd.price), cmd.src,
                                           OptNum(cmd.target), parse)
  {
    var ttype := ChooseType(cmd.buy, cmd.sell);
    if HasArg(cmd) then
      var f :- ParseArg(cmd.arg.value);
      NewApp(Some(f.date), f.ttype, Some(f.symbol), Text(f.quantity), Text(f.price), Some(f.source),
             if f.target.Some? then Text(f.target.value) else Missing, parse)
    else
      NewApp(cmd.date, ttype, cmd.symbol, OptNum(cmd.quantity), OptNum(cmd.price), cmd.src,
             OptNum(cmd.target), parse)
  }

  /** With a comma argument, the options and the type flags play no part:
      changing any of them leaves the app, or the error, as it was. */
  lemma ArgOverridesOptions(cmd: Command, parse: string -> Option<real>, b: bool, s: bool,
                            d: Option<string>, y: Option<string>, n: Option<real>, m: Option<real>,
                            o: Option<string>, g: Option<real>)
    requires HasArg(cmd)
    ensures MainApp(cmd, parse)
         == MainApp(cmd.(buy := b, sell := s, date := d, symbol := y, quantity := n, price := m,
                         src := o, target := g), parse)
  {
  }

  /** A target of "0" on the comma line is truthy text, so the app keeps it
      as 0.0; the run then finds 0.0 falsy and writes no target key. */
  lemma ZeroTargetDropped(parse: string -> Option<real>, q: string, p: string)
    requires parse("0") == Some(0.0) && parse(q).Some? && parse(p).Some?
    ensures var r := NewApp(None, "buy", None, Text(q), Text(p), None, Text("0"), parse);
      && r.Ok? && r.value.target == Some(0.0)
      && "target" !in Keys(NewTrx(r.value))
  {
  }
}
