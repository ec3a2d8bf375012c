/** The exceptions the engine raises, as values.  Each operation that can throw
    returns a `Result` or an `Outcome` instead of unwinding. */
module Errors {

  /** Why an order was refused by a position book (InvalidOrderException). */
  datatype OrderProblem =
    | NoOpenPosition        // closing a side that holds no lots
    | ExitTypeNotSupported  // closing with an exit other than "all"
    | WrongSide             // an action that belongs to the other book

  /** Which argument of a `Send` overload was out of range. */
  datatype RangeArgument = PriceArg | StopPriceArg | LimitPriceArg | NumLotsArg

  datatype Error =
    | InvalidOrder(problem: OrderProblem)
    | ArgumentOutOfRange(argument: RangeArgument)
    | ArgumentNull
    | Argument
    | InvalidOperation
    | NotImplemented
    | IndexOutOfRange

  datatype Option<+T> = None | Some(value: T)

  /** A value, or the exception that was raised instead. */
  datatype Result<+T> = Ok(value: T) | Err(error: Error)

  /** Completion of an operation that returns nothing. */
  datatype Outcome = Pass | Fail(error: Error)
}
