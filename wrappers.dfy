/** Option, Result and Outcome for the Java code's nulls and exceptions. */
module Wrappers {

  /** A Java reference that may be null. */
  datatype Option<+T> = None | Some(value: T)

  /** The kinds of exception the modelled code throws. */
  datatype Erro =
    | IllegalArgument    // IllegalArgumentException: a missing or out-of-range argument
    | NullPointer        // NullPointerException, Objects.requireNonNull
    | NotFound           // an order, product, line or payment that does not exist
    | InvalidState       // a guard on the status of an order or a payment
    | InsufficientStock  // not enough stock for the requested quantity
    | EmptyOrder         // a payment for an order without lines
    | NotInitiated       // a confirmation for an order without a payment
    | NoSuchElement      // Optional.orElseThrow() on an empty Optional
    | IndexOutOfBounds   // List.subList with an index outside the list
    | ConstraintViolation // an INSERT rejected by a NOT NULL or UNIQUE column

  /** A value, or the exception that aborted the operation. */
  datatype Result<+T> = Ok(value: T) | Err(erro: Erro)

  /** Completion of a void operation, or the exception that aborted it. */
  datatype Outcome = Pass | Fail(erro: Erro)

  function GetOr<T>(o: Option<T>, default: T): T
  {
    match o
    case Some(v) => v
    case None => default
  }
}
