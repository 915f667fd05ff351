/** Small failure-carrying datatypes shared by the rest of the model. */
module Basics {

  /** A value that may be absent (the source's falsy "nothing selected" / "no QR data"). */
  datatype Option<+T> = None | Some(value: T)

  /** Either a value or an error: the shape of the submit validator's answer. */
  datatype Result<+R, +E> = Success(value: R) | Failure(error: E)

  /** The zero- or one-element sequence holding an optional value. */
  function ToSeq<T>(o: Option<T>): (r: seq<T>)
    ensures |r| <= 1
    ensures o.None? <==> r == []
    ensures o.Some? ==> r == [o.value]
  {
    match o
    case None => []
    case Some(v) => [v]
  }
}
