/** Go error values as the number service uses them: the two sentinels of the
    service package, the failures a storage call reports, and `fmt.Errorf`
    with a single `%w` verb, which wraps one error in a message. */
module Errors {

  datatype Option<+T> = None | Some(value: T)

  datatype Result<+T, +E> = Success(value: T) | Failure(error: E)

  /** The service package's sentinels `ErrInvalidInput` and `ErrNotFound`. */
  datatype Sentinel = ErrInvalidInput | ErrNotFound

  /** What one storage round trip can fail with. */
  datatype DbError =
    | RecordNotFound                          // gorm.ErrRecordNotFound, from First on no row
    | UniqueViolation(constraint: string)     // a unique index or primary key refused the row
    | ForeignKeyViolation(constraint: string) // a REFERENCES constraint refused the row
    | Unavailable(cause: string)              // the round trip itself failed (connection, deadline)

  /** An error chain: a sentinel, a storage error, or
      `fmt.Errorf(prefix + "%w" + suffix, inner)`. */
  datatype Error =
    | Base(sentinel: Sentinel)
    | Storage(cause: DbError)
    | Wrapped(prefix: string, inner: Error, suffix: string)

  function SentinelText(s: Sentinel): string
  {
    match s
    case ErrInvalidInput => "invalid input"
    case ErrNotFound => "not found"
  }

  function DbText(d: DbError): string
  {
    match d
    case RecordNotFound => "record not found"
    case UniqueViolation(c) => "duplicate key value violates unique constraint \"" + c + "\""
    case ForeignKeyViolation(c) => "insert or update violates foreign key constraint \"" + c + "\""
    case Unavailable(cause) => cause
  }

  /** `err.Error()`: a wrapped error's message embeds its inner message. */
  function Text(e: Error): string
  {
    match e
    case Base(s) => SentinelText(s)
    case Storage(d) => DbText(d)
    case Wrapped(prefix, inner, suffix) => prefix + Text(inner) + suffix
  }

  /** The innermost error of a chain: where the walk of `errors.Is` down the
      `%w` links ends. */
  function Root(e: Error): (r: Error)
    ensures !r.Wrapped?
  {
    match e
    case Wrapped(_, inner, _) => Root(inner)
    case _ => e
  }

  /** `errors.Is(e, s)`: some error on the `%w` chain of `e` is the sentinel
      `s`. Wrapping never changes the answer: only the root decides. */
  predicate Is(e: Error, s: Sentinel): (r: bool)
    ensures r <==> Root(e) == Base(s)
  {
    match e
    case Base(t) => t == s
    case Storage(_) => false
    case Wrapped(_, inner, _) => Is(inner, s)
  }
}
