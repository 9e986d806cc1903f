/** Option and Result: the absent value and the raised exception of the crawler. */
module Wrappers {

  datatype Option<+T> = None | Some(value: T)

  /** The exceptions of the crawler that the model keeps. */
  datatype Error =
    | KeyError(key: string)  // a dict lookup on a missing key
    | EmptyReduce            // functools.reduce over an empty iterable without an initial value
    | TypeError              // an operation applied to a value of the wrong kind
    | ValueError             // dict() given an element that is not a key-value pair

  datatype Result<+T> = Ok(value: T) | Err(error: Error)

  /** `filter(bool, [x])` on one optional value: the value when present, nothing otherwise. */
  function OptionToSeq<T>(o: Option<T>): (s: seq<T>)
    ensures |s| <= 1
    ensures o.Some? <==> |s| == 1
    ensures o.Some? ==> s[0] == o.value
  {
    match o
    case None => []
    case Some(v) => [v]
  }
}
