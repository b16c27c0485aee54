/** Values shared by every part of the projection engine: the errors the
    engine raises, a failure-compatible result type, and the metric values
    that fill an account's result dictionary. */
module Common {

  /** The exceptions the engine raises, by cause.
      - InvalidFilingStatus: a filing status outside the four known keys.
      - InvalidRate: a non-positive rate of return given to contribution sizing.
      - RateOrdering: a return rate that does not exceed inflation.
      - ZeroDivision: a float division by zero that the code does not guard. */
  datatype Error = InvalidFilingStatus | InvalidRate | RateOrdering | ZeroDivision

  /** Either a value or the error that was raised instead. */
  datatype Result<+T> = Ok(value: T) | Err(error: Error) {
    predicate IsFailure() {
      Err?
    }

    function PropagateFailure<U>(): Result<U>
      requires Err?
    {
      Err(error)
    }

    function Extract(): T
      requires Ok?
    {
      value
    }
  }

  /** One entry of an account's result dictionary: a dollar amount or a
      status string such as "Yes" / "No". */
  datatype Metric = Amount(value: real) | Label(text: string)

  /** An account's result dictionary, from metric name to value. */
  type AccountResult = map<string, Metric>

  /** The analysis of all accounts, in the insertion order of the source's
      dictionary: (account type, its result). */
  type Accounts = seq<(string, AccountResult)>

  function Min(a: real, b: real): (m: real)
    ensures m <= a && m <= b
    ensures m == a || m == b
  {
    if a <= b then a else b
  }

  function Max(a: real, b: real): (m: real)
    ensures m >= a && m >= b
    ensures m == a || m == b
  {
    if a >= b then a else b
  }
}
