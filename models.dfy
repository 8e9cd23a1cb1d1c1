/**
  The values the handlers receive from the snippet store. The store itself (a database
  behind `Latest`, `Get` and `Insert`) is not modelled: each handler receives the store's
  answer as a parameter.
*/
module Models {

  /** A stored snippet; the handlers only pass it on to the templates. Times are abstract instants. */
  datatype Snippet = Snippet(id: int, title: string, content: string, created: int, expires: int)

  /** A Go `error` value as the handlers see it. */
  datatype Error =
    | ErrNoRecord                              // models.ErrNoRecord: no matching record
    | Failure(message: string)                 // any other error, e.g. from the database driver
    | Wrapped(message: string, inner: Error)   // an error wrapping another (fmt.Errorf with %w)

  /** The innermost error of a wrapping chain. */
  function Cause(e: Error): (r: Error)
    ensures !r.Wrapped?
  {
    if e.Wrapped? then Cause(e.inner) else e
  }

  /** `errors.Is(e, models.ErrNoRecord)`: some error along the unwrap chain is ErrNoRecord. */
  predicate IsNoRecord(e: Error)
  {
    match e
    case ErrNoRecord => true
    case Failure(_) => false
    case Wrapped(_, inner) => IsNoRecord(inner)
  }

  /** Wrapping never hides ErrNoRecord and never invents it: only the root cause decides. */
  lemma {:induction false} IsNoRecordCause(e: Error)
    ensures IsNoRecord(e) <==> Cause(e) == ErrNoRecord
  {
    if e.Wrapped? {
      IsNoRecordCause(e.inner);
    }
  }
}
