/**
 * Small value types shared by every module: optional values and the outcome
 * of an awaited call (resolved with a value, or rejected with a thrown error).
 */
module Wrappers {

  datatype Option<T> = None | Some(value: T)
  {
    function GetOr(default: T): T
    {
      if Some? then value else default
    }
  }

  /** A thrown JavaScript value: `err?.message` is `None` when it has no message. */
  datatype Thrown = Thrown(message: Option<string>)

  /** The settled state of an awaited promise. */
  datatype Outcome<T> = Ok(value: T) | Fail(error: Thrown)

  /** A rejection carrying an `Error` whose message is `msg`. */
  function Reject<T>(msg: string): Outcome<T>
  {
    Fail(Thrown(Some(msg)))
  }
}
