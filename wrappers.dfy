/** Optional values and the outcome of one remote request. */
module Wrappers {

  /** A value that may be absent (a missing field, `null` or `undefined`). */
  datatype Option<+T> = None | Some(value: T) {

    /** The value, or `default` when it is absent. */
    function GetOr(default: T): (r: T)
      ensures Some? ==> r == value
      ensures None? ==> r == default
    {
      match this
      case Some(v) => v
      case None => default
    }
  }

  /** How a request ended: the promise rejected (`Failed`), or it resolved
      with a response body, which may be `null`/`undefined` (`Returned(None)`). */
  datatype Fetched<+T> = Failed | Returned(body: Option<T>) {

    /** `request.catch(() => fallback)` followed by `data || fallback`: the body
        when the request resolved with one, and the fallback otherwise. */
    function OrElse(fallback: T): (r: T)
      ensures Returned? && body.Some? ==> r == body.value
      ensures Failed? || body.None? ==> r == fallback
    {
      if Returned? && body.Some? then body.value else fallback
    }
  }

  /** `data && data.length > 0`: the request resolved with a non-empty list. */
  predicate HasRows<T>(outcome: Fetched<seq<T>>)
  {
    outcome.Returned? && outcome.body.Some? && |outcome.body.value| > 0
  }
}
