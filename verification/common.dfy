/** Values shared by every part of the model: optional values, the Python
    exceptions the modelled code raises, and results that carry them. */
module Common {

  datatype Option<+T> = None | Some(value: T)
  {
    function GetOr(default: T): T
    {
      match this
      case Some(v) => v
      case None => default
    }
  }

  /** The Python exception classes the modelled code can raise, with the
      detail that tells two raises of one class apart. */
  datatype Error =
    | ValueError(message: string)
    | KeyError(key: string)
    | IndexError
    | TypeError(message: string)
    | AttributeError(name: string)
    | NotImplementedError(message: string)

  /** A computation that either returns a value or raises. */
  datatype Result<+T> = Ok(value: T) | Err(error: Error)

  /** What a Python generator produced before it stopped: the items it
      yielded and, when it stopped by raising, the exception. */
  datatype Yielded<+T> = Yielded(items: seq<T>, failure: Option<Error>)
  {
    /** The items `xs` yielded in front of this run of the generator. */
    function After(xs: seq<T>): Yielded<T>
    {
      Yielded(xs + items, failure)
    }
  }

  lemma AfterAfter<T>(y: Yielded<T>, xs: seq<T>, x: T)
    ensures y.After([x]).After(xs) == y.After(xs + [x])
  {
    assert xs + ([x] + y.items) == (xs + [x]) + y.items;
  }

  /** A scalar as it is stored in a configuration attribute or a JSON document. */
  datatype Value = VNone | VBool(b: bool) | VInt(i: int) | VReal(r: real) | VStr(s: string)
}
