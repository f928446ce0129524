/** Failure-carrying results shared by every module. */
module Wrappers {
  datatype Option<+T> = None | Some(value: T)

  /** The exceptions the modelled code can raise. */
  datatype Error =
    | ValueError                // cost model or indicator given an illegal argument
    | AssertionError            // an internal `assert` of the source
    | IntegrityError            // a CHECK constraint of the state store
    | UnknownInstrument
    | UnknownOrder
    | UnknownIndicatorKind
    | KeyError                  // an indicator name that was not declared
    | InvalidOrderTransition
    | KillSwitchNotTripped
    | StrategyError             // the strategy runner raised
    | BacktestError
    | BrokerError               // transport failure talking to the live broker

  datatype Result<+T> = Ok(value: T) | Err(error: Error)
}
