/** Values shared by every part of the model: Go's `error`, `byte`, optional and
    fallible results, and the error wrapping done by `fmt.Errorf` with `%w`. */
module Base {

  /** A Go byte. */
  type byte = x: int | 0 <= x < 256

  datatype Option<+T> = None | Some(value: T)

  /** A Go error value. `Finished` is the one value the readiness worker creates
      with `errors.New("finished")`; every other error is either an error reported
      by the browser (or another collaborator) or a wrapping made by `fmt.Errorf`. */
  datatype Error =
    | Error(msg: string)
    | Finished
    | Wrapped(msg: string, inner: Error)
  {
    /** What `err.Error()` returns. */
    function Text(): string {
      match this
      case Error(m) => m
      case Finished => "finished"
      case Wrapped(m, _) => m
    }
  }

  /** A value or the error that replaced it, as in Go's `(T, error)` pairs. */
  datatype Result<+T> = Ok(value: T) | Err(error: Error)

  /** `fmt.Errorf(prefix + "%w" + infix + "%s", inner, arg)`: the text of the inner
      error is spliced in and the inner error is kept for unwrapping. */
  function Errorf(prefix: string, inner: Error, infix: string, arg: string): (e: Error)
    ensures e.Wrapped? && e.inner == inner
    ensures e.Text() == prefix + inner.Text() + infix + arg
  {
    Wrapped(prefix + inner.Text() + infix + arg, inner)
  }
}
