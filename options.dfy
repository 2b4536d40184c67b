/** Failure-carrying wrappers used throughout the model. */
module Options {

  /** Python's `Optional[T]`: `None` or a value. */
  datatype Option<+T> = None | Some(value: T) {
    function GetOr(default: T): T {
      match this
      case Some(v) => v
      case None => default
    }
  }

  /** A call that either returns a value or raises an exception of type `E`. */
  datatype Result<+T, +E> = Ok(value: T) | Err(error: E)

  /** A dictionary key that may be absent (distinct from a present key holding `None`). */
  datatype Field<+T> = Absent | Present(value: T)

  /**
   * Python's `seq[i]` for a list: a negative index counts from the end,
   * and an index outside `[-|s|, |s|)` raises `IndexError` (here `None`).
   */
  function PyIndex<T>(s: seq<T>, i: int): (r: Option<T>)
    ensures 0 <= i < |s| ==> r == Some(s[i])
    ensures -|s| <= i < 0 ==> r == Some(s[|s| + i])
    ensures r.None? <==> (i >= |s| || i < -|s|)
  {
    if 0 <= i < |s| then Some(s[i])
    else if -|s| <= i < 0 then Some(s[|s| + i])
    else None
  }
}
