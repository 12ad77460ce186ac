/**
  * The errors a token can raise, and the message each one carries.
  */
module Errors {
  import opened Numerals

  datatype Error =
      /** An operator found fewer operands on the stack than it takes. */
    | InsufficientParameter(operator: string, position: nat)
      /** A token that is neither a number, an operator nor a command. */
    | InvalidInput(token: string)
      /** An operator whose operands are outside its domain: a zero divisor
          or a negative square root. */
    | UndefinedResult(operator: string, position: nat)

  /** The text of an error, as the exception message shows it. */
  function Message(e: Error): string {
    match e
    case InsufficientParameter(op, p) =>
      "operator " + op + " (position: " + NatToString(p) + "): insufficient parameters"
    case InvalidInput(token) =>
      token + " is not a number or an operator"
    case UndefinedResult(op, p) =>
      "operator " + op + " (position: " + NatToString(p) + "): undefined result"
  }
}
