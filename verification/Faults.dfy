/** The exceptions the client raises or meets, and how a step reports them. */
module Faults {

  datatype Fault =
    | TypeMismatch            // nlohmann type_error: the JSON value has another type
    | OutOfRange              // std::out_of_range
    | Undefined               // an operation whose C++ behaviour is undefined
    | PromiseAlreadySatisfied // std::future_error
    | FutureAlreadyRetrieved  // std::future_error
    | ThreadStillJoinable     // assigning to, or destroying, a joinable std::thread
    | JoinFault               // std::system_error: the thread is the caller's own or was joined
    | TimeoutFault
    | AbortFault(reason: string)
    | ProtocolFault
    | NetworkFault
    | NoTransport
    | NoSession
    | LogicFault              // std::logic_error
    | StandardFault           // a std::exception of no type of the client's own
    | ParseFault              // json::parse_error
    | OperationFault          // whatever a registered operation throws

  /** NoTransportError and TimeoutError derive from NetworkError. */
  predicate IsNetworkFault(f: Fault) {
    f.NetworkFault? || f.NoTransport? || f.TimeoutFault?
  }

  datatype Result<+T> = Ok(value: T) | Err(fault: Fault) {
    predicate IsFailure() {
      Err?
    }

    function PropagateFailure<U>(): Result<U>
      requires Err?
    {
      Err(fault)
    }

    function Extract(): T
      requires Ok?
    {
      value
    }
  }

  datatype Option<+T> = None | Some(value: T)

  /** How one atomic step ends: normally, with an exception that leaves the
      partial effects of the step behind, or with the process terminated. */
  datatype Outcome = Done | Threw(fault: Fault) | Terminated(fault: Fault)
}
