/** Option and Result, and the kinds of exception the integration raises or catches. */
module Wrappers {

  datatype Option<+T> = None | Some(value: T) {
    function GetOr(default: T): T {
      if Some? then value else default
    }
  }

  /** The exceptions the integration lets escape or catches, by Python class.
      Their message texts are not modelled. */
  datatype Error =
    | IntegrationError(reason: Reason)
    | ValueError
    | TypeError
    | AttributeError
    | OverflowError  // date arithmetic past 9999-12-31
    | FetchError  // the HTTP request itself failed (transport, timeout)
    | NameError  // a name the module uses but never binds

  /** Why an `IntegrationError` was raised. */
  datatype Reason =
    | EmptyDomain       // `api_url` without a configured domain
    | InvalidArguments  // `get_station` given both lat and lng
    | EmptyResponse     // an update or search received an empty body
    | MalformedReply    // `get_station` could not parse the reply as JSON
    | NoStation         // `get_station` reply without a station record

  datatype Result<+T> = Ok(value: T) | Err(error: Error) {
    predicate IsFailure() {
      Err?
    }

    function PropagateFailure<U>(): Result<U>
      requires Err?
    {
      Err(error)
    }

    function Extract(): T
      requires Ok?
    {
      value
    }
  }

  /** The outcome of a step that returns nothing of interest. */
  datatype Outcome = Pass | Fail(error: Error) {
    predicate IsFailure() {
      Fail?
    }

    function PropagateFailure(): Outcome
      requires Fail?
    {
      this
    }
  }
}
