/** Option and Result values, and the Python exception kinds that the pipeline
    raises or lets through. A Python `raise` becomes an `Err` value. */
module Outcomes {

  datatype Option<+T> = None | Some(value: T)

  /** A byte, and a Python `bytes` value. */
  newtype Byte = b: int | 0 <= b < 256
  type Bytes = seq<Byte>

  /** The exception classes that the modelled code raises, re-raises or
      wraps. `IOError` stands for Python's `OSError` (of which `IOError` is an
      alias); `FileNotFoundError` is kept apart because the source raises it
      explicitly. `JsonDecodeError` is `json.JSONDecodeError`, `ExpatError`
      is `xml.parsers.expat.ExpatError`. */
  datatype Error =
    | ValueError(msg: string)
    | IOError(msg: string)
    | FileNotFoundError(msg: string)
    | KeyError(msg: string)
    | IndexError(msg: string)
    | TypeError(msg: string)
    | AttributeError(msg: string)
    | JsonDecodeError(msg: string)
    | ExpatError(msg: string)

  datatype Result<+T> = Ok(value: T) | Err(error: Error) {
    predicate IsFailure() { Err? }

    function PropagateFailure<U>(): Result<U>
      requires Err?
    {
      Err(error)
    }

    function Extract(): T
      requires Ok?
    {
      value
    }
  }

  /** Python truthiness of an `Optional[str]`: neither `None` nor `""`. */
  predicate Truthy(o: Option<string>)
  {
    o.Some? && o.value != ""
  }

  /** Python truthiness of an `Optional[int]`: neither `None` nor `0`. */
  predicate TruthyInt(o: Option<int>)
  {
    o.Some? && o.value != 0
  }

  /** `x or default` for an `Optional[str]`. */
  function StrOr(o: Option<string>, default: string): (r: string)
    ensures Truthy(o) ==> r == o.value
    ensures !Truthy(o) ==> r == default
  {
    if Truthy(o) then o.value else default
  }

  /** `x or default` for an `Optional[int]`. */
  function IntOr(o: Option<int>, default: int): (r: int)
    ensures TruthyInt(o) ==> r == o.value
    ensures !TruthyInt(o) ==> r == default
  {
    if TruthyInt(o) then o.value else default
  }
}
