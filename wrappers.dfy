/** Optional values and the error outcomes of the reporting backend. */
module Wrappers {
  datatype Option<+T> = None | Some(value: T)

  /** What a call can end in instead of a value: an HTTP error raised by a
      route or validator, or a Python exception that escapes a helper. */
  datatype Failure =
    | Http(status: int, detail: string)
    | ValueError
    | OverflowError
    | AttributeError
    | TypeError

  datatype Result<+T> = Ok(value: T) | Err(failure: Failure)

  /** A fixed "400 Bad Request" with the given detail. */
  function BadRequest(detail: string): (f: Failure)
    ensures f.Http? && f.status == 400 && f.detail == detail
  {
    Http(400, detail)
  }

  /** The values of f in order when every one is present, else None. */
  function MapSome<T, U>(f: T -> Option<U>, xs: seq<T>): (r: Option<seq<U>>)
    ensures r.Some? <==> forall k :: 0 <= k < |xs| ==> f(xs[k]).Some?
    ensures r.Some? ==> |r.value| == |xs| && forall k :: 0 <= k < |xs| ==> r.value[k] == f(xs[k]).value
  {
    if |xs| == 0 then Some([])
    else match (f(xs[0]), MapSome(f, xs[1..]))
      case (Some(v), Some(vs)) => Some([v] + vs)
      case _ => None
  }

  /** A list comprehension whose element expression may raise: the values
      of f in order, or the failure of the first element that raises. */
  function MapAll<T, U>(f: T -> Result<U>, xs: seq<T>): (r: Result<seq<U>>)
    ensures r.Ok? <==> forall k :: 0 <= k < |xs| ==> f(xs[k]).Ok?
    ensures r.Ok? ==> |r.value| == |xs| && forall k :: 0 <= k < |xs| ==> r.value[k] == f(xs[k]).value
    ensures r.Err? ==> exists k :: 0 <= k < |xs| && f(xs[k]).Err? && r.failure == f(xs[k]).failure &&
                                   forall j :: 0 <= j < k ==> f(xs[j]).Ok?
  {
    if |xs| == 0 then Ok([])
    else
      var n := |xs| - 1;
      match (MapAll(f, xs[..n]), f(xs[n]))
      case (Ok(init), Ok(last)) => Ok(init + [last])
      case (Err(e), _) => Err(e)
      case (Ok(_), Err(e)) => Err(e)
  }
}
