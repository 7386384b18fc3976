/** Values shared by every service: optional values, what a caught JavaScript
    error carries, the HTTP status codes, the millisecond constants of
    src/constants.ts and the draw that stands for one call of Math.random(). */
module Common {

  datatype Option<+T> = None | Some(value: T)

  /** A value, or the error the JavaScript code would have thrown instead. */
  datatype Result<+T> = Ok(value: T) | Err(error: Thrown)

  /** What the services read from a caught error `e`: `e.message`, the
      `e.status` of a Nest HttpException, and the `e.code` property that
      database errors carry. */
  datatype Thrown = Thrown(message: string, status: Option<int>, code: Option<string>)

  /** The `code` field of a service response: a number, a string copied from
      an error's `code`, or `undefined`. */
  datatype Code = Status(n: int) | ErrorCode(s: string) | Undefined

  /** A Nest HttpException (BadRequestException, NotFoundException, ...). */
  function HttpException(status: int, message: string): Thrown
  {
    Thrown(message, Some(status), None)
  }

  /** A plain `new Error(message)` or a TypeError raised by the engine. */
  function PlainError(message: string): Thrown
  {
    Thrown(message, None, None)
  }

  /** The message Node's engine gives the TypeError raised by reading
      property `prop` of null. */
  function ReadOfNull(prop: string): string
  {
    "Cannot read properties of null (reading '" + prop + "')"
  }

  /** Same, for reading property `prop` of undefined. */
  function ReadOfUndefined(prop: string): string
  {
    "Cannot read properties of undefined (reading '" + prop + "')"
  }

  // HTTP status codes used by the services (Nest's HttpStatus).
  const OK: int := 200
  const CREATED: int := 201
  const BAD_REQUEST: int := 400
  const UNAUTHORIZED: int := 401
  const NOT_FOUND: int := 404
  const INTERNAL_SERVER_ERROR: int := 500

  // src/constants.ts, in milliseconds.
  const TWENTY_FOUR_HOURS: nat := 86400000
  const ONE_HOURS: nat := 3600000
  const FIVE_TEEN_MINUTES: nat := 900000
  const FIVE_SECONDS: nat := 5000

  /** One result of Math.random(): a number in [0, 1). */
  type Random = u: real | 0.0 <= u < 1.0 witness 0.0

  /** u * c, written as c additions of u: unfolding it keeps the solver in
      linear arithmetic. TimesIsProduct shows that it is the product. */
  function Times(u: real, c: nat): real
  {
    if c == 0 then 0.0 else Times(u, c - 1) + u
  }

  lemma {:induction false} TimesIsProduct(u: real, c: nat)
    ensures Times(u, c) == u * (c as real)
  {
    if c > 0 {
      TimesIsProduct(u, c - 1);
    }
  }

  lemma {:induction false} TimesBounds(u: Random, c: nat)
    ensures 0.0 <= Times(u, c)
    ensures c > 0 ==> Times(u, c) < c as real
  {
    if c > 0 {
      TimesBounds(u, c - 1);
    }
  }

  /** Math.floor(u * c) for a draw u: an integer in [0, c), or 0 when c is 0. */
  function FloorTimes(u: Random, c: nat): (k: nat)
    ensures c > 0 ==> k < c
    ensures c == 0 ==> k == 0
  {
    TimesBounds(u, c);
    Times(u, c).Floor
  }

  /** FloorTimes is the floor of the product. */
  lemma FloorTimesIsFloor(u: Random, c: nat)
    ensures FloorTimes(u, c) == (u * (c as real)).Floor
  {
    TimesIsProduct(u, c);
  }

  function Min(a: int, b: int): int { if a <= b then a else b }

  function Max(a: int, b: int): int { if a >= b then a else b }
}
