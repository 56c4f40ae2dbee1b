/** Values shared by every service model: optional values, the errors a call
    can end in, and the abstract clock and calendar values the services store. */
module Common {

  /** Python's `None` versus a present value. */
  datatype Option<+T> = None | Some(value: T) {
    /** The value if present, otherwise `default`. */
    function GetOr(default: T): T {
      match this
      case Some(v) => v
      case None => default
    }
  }

  /** Why a call raised instead of returning. */
  datatype Error =
    | UniqueViolation(column: string)      // INSERT/UPDATE hit a UNIQUE column already in use
    | ForeignKeyViolation(column: string)  // INSERT referenced a row that does not exist
    | EmptySetClause                       // `UPDATE t SET  WHERE id = %s;` is not valid SQL
    | NameError(name: string)              // Python name lookup failed
    | NotFound(message: string)            // raised explicitly by the service
    | ValueError                           // `float(...)` could not parse its argument
    | TypeError(operation: string)         // an operator met operand types it does not support
    | ValidationError(schema: string)      // a pydantic model rejected a field value

  /** Either the value a call returned or the exception it raised. */
  datatype Result<+T> = Success(value: T) | Failure(error: Error)

  /** A `datetime.datetime` read from the clock; its value is never inspected. */
  datatype Timestamp = Timestamp(ticks: int)

  /** A `datetime.date` supplied by a caller. */
  datatype Date = Date(days: int)
}
