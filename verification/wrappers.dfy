/** Failure-carrying datatypes shared by every module of the model.

    The Python source signals failures by raising; the model returns a
    `Result` whose `Err` arm names the exception the source would raise. */
module Wrappers {

  datatype Option<+T> = None | Some(value: T)

  /** The exceptions the modelled code can raise. */
  datatype Error =
    | UnknownTransactionType(ttype: string)   // ValueError in portfolio.py
    | ConvertNotFound(convert: string)        // ValueError in quotes.py
    | SymbolNotFound(convert: string, symbol: string)
    | NotImplemented                          // buy leg equals the reporting currency
    | MissingType                             // record without a `type` field
    | BadPairString(pair: string)             // `split('/')` did not give two parts
    | BadFee                                  // a two-element fee that is not [number, text]
    | MissingConvertArgument                  // `sub_portfolio.calc()` without `convert`
    | BadArgumentCount(count: nat)            // comma argument that does not unpack
    | MissingQuote(symbol: string)            // provider data without the symbol
    | NotANumber(text: string)                // `float(text)` on text that is no number
    | MissingNumber                           // `float(None)`

  datatype Result<+T> = Ok(value: T) | Err(error: Error) {

    predicate IsFailure() {
      Err?
    }

    function PropagateFailure<U>(): Result<U>
      requires Err?
    {
      Err(error)
    }

    function Extract(): T
      requires Ok?
    {
      value
    }
  }
}
