/** Small shared datatypes: optional values and the outcome of one remote call. */
module Common {

  /** A value that may be absent. Which JavaScript value an absence stands
      for is said where it is used: an absent action source is `null`, an
      absent watchdog reply is an empty body, an absent status code is a
      response that never arrived. */
  datatype Option<+T> = None | Some(value: T)

  /** How one call through the shared HTTP transport settled: with a payload,
      or with a failure. A failure carries the server's status code when the
      server answered (`Err(Some(404))`) and nothing when no response arrived
      at all (`Err(None)`, a network-level failure). */
  datatype Outcome<+T> = Ok(value: T) | Err(status: Option<int>)
  {
    /** The call failed without any response from the server. */
    predicate IsNetworkLoss() {
      Err? && status.None?
    }

    /** The call failed, but the server answered with a status code. */
    predicate IsRejection() {
      Err? && status.Some?
    }
  }
}
