/** Values shared by every part of the model: optional cells, cells that may
    hold a float NaN, and the named failures of the ledger checks.

    The program raises a bare exception whenever a check fails and stops the
    whole run; the model returns an `Err` naming which check failed. */
module Outcomes {

  datatype Option<+T> = None | Some(value: T)

  /** A numeric cell of the ledger: a missing CSV value is read as NaN. */
  datatype Num = NaN | Fin(value: real)

  /** Every reason a run can stop. */
  datatype Error =
    | BadTimestamp           // seconds of the timestamp are not ":00"
    | UnknownCode            // transaction code outside the vocabulary
    | UnknownSubcode         // subcode not allowed for its code
    | BadDescription         // description does not match the subcode
    | BadBuySell | BadOpenClose | BadCallPut
    | AccountChanged         // account reference differs from the first row's
    | MissingRate            // walking back reached a day absent from the rate table
    | ZeroRate               // division by an exchange rate of zero
    | FractionalQuantity     // quantity is not a whole number
    | NegativePrice
    | FeeOnMoneyMovement     // a non-transfer money movement carries a fee
    | NonNegativeFee         // a fee row that does not take money out
    | NonNegativeWithdrawal  // a withdrawal row that does not take money out
    | UnknownSymbol          // neither an ETF nor a known stock, and no override
    | BadStrike              // option row whose strike is NaN
    | NoPosition             // expiration/assignment/exercise of an asset with no open lots
    | AmountMismatch         // trade amount not close to -quantity * price
    | AmountNotZero          // expiration/assignment/exercise that moves cash
    | ZeroQuantity           // division by a zero quantity
    | NoToken                // symbol without a first whitespace-separated token

  datatype Result<+T> = Ok(value: T) | Err(error: Error) {
    predicate IsFailure() { Err? }

    function PropagateFailure<U>(): Result<U>
      requires Err?
    {
      Err(error)
    }

    function Extract(): T
      requires Ok?
    {
      value
    }
  }

  /** The result of a check that returns nothing when it passes. */
  datatype Outcome = Pass | Fail(error: Error)

  /** Python's `str()` of an optional text cell: a missing value prints as "nan". */
  function Str(cell: Option<string>): string
  {
    match cell
    case None => "nan"
    case Some(s) => s
  }

  function Abs(x: int): nat
  {
    if x < 0 then -x else x
  }

  function RealAbs(x: real): real
  {
    if x < 0.0 then -x else x
  }

  function Min(a: int, b: int): int
  {
    if a <= b then a else b
  }
}
