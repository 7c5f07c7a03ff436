/** Failure-carrying results. Every fatal diagnostic of the backend (an
    `errorMismatch` followed by `exit(-1)`, an internal error, an uncaught
    `std::out_of_range`) becomes an `Err` or a `Fail` that a top-level driver
    would turn into the diagnostic and the process exit. */
module Outcomes {

  /** The kinds of fault the backend stops on. */
  datatype Error =
    | TypeMismatch                       // errorMismatch(yylineno); exit(-1)
    | InvalidRegisterType(type_: string) // createRegister met a real type it cannot materialize
    | StringOutOfRange                   // std::string::replace past the end of an empty literal

  datatype Option<T> = None | Some(value: T)

  datatype Result<T> = Ok(value: T) | Err(error: Error)

  /** The outcome of a check that returns nothing on success. */
  datatype Outcome = Pass | Fail(error: Error)
}
