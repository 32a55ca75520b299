/** Vocabulary shared by every part of the CRM backend model: optional values,
    the outcome of a request handler, instants, the library predicates the
    route validators call, and the steps a route runs. */
module Common {

  datatype Option<T> = None | Some(value: T)

  /** An instant in milliseconds since the Unix epoch, as a JavaScript Date holds it. */
  type Instant = int

  /** One day in milliseconds. */
  const DayMs: int := 24 * 60 * 60 * 1000

  /** How a handler refuses a request: the validator's list of error messages
      (always sent with status 400), or a status code with the message the
      controller sends. */
  datatype Failure =
    | Invalid(errors: seq<string>)
    | Refused(status: int, message: string)
  {
    function Status(): int {
      if Invalid? then 400 else status
    }
  }

  /** What a handler answers: a value (status 200, or 201 for a create) or a failure. */
  datatype Result<T> = Ok(value: T) | Err(failure: Failure)

  /** Foreign code the validators and the ORM rely on: express-validator's
      isEmail, isMobilePhone('any') and isISO8601, and the reading of a date
      string as an instant. The model takes them as parameters. */
  datatype Library = Library(
    isEmail: string -> bool,
    isMobilePhone: string -> bool,
    isIso8601: string -> bool,
    toInstant: string -> Instant)

  /** The middleware a route runs, in order, ending with its controller. */
  datatype Step = Authenticate | Validate | Handle

  /** express-validator's notEmpty(): a missing field is read as the empty string. */
  predicate NotEmpty(field: Option<string>) {
    field.Some? && field.value != ""
  }

  /** A query-string filter applies only when it is present and truthy
      (the empty string is falsy in JavaScript). */
  predicate Given(q: Option<string>) {
    q.Some? && q.value != ""
  }

  /** The page and the page size a list handler uses when the query string
      does not carry them. */
  const DefaultPage: int := 1
  const DefaultLimit: int := 10

  /** A query-string number, or the default the handler destructures it with. */
  function OrDefault(given: Option<int>, default: int): int {
    if given.Some? then given.value else default
  }

  /** The page and limit a list handler reads are positive when they are given. */
  predicate PagingGiven(page: Option<int>, limit: Option<int>) {
    (page.Some? ==> page.value >= 1) && (limit.Some? ==> limit.value > 0)
  }

  /** The messages a validator chain sends for the checks that failed, in chain order. */
  function Messages<C>(failed: seq<C>, message: C -> string): (errors: seq<string>)
    ensures |errors| == |failed|
    ensures forall i :: 0 <= i < |failed| ==> errors[i] == message(failed[i])
  {
    if failed == [] then [] else [message(failed[0])] + Messages(failed[1..], message)
  }
}
