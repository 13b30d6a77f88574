/** Small shared datatypes. */
module Common {

  /** A value that may be absent (JavaScript's undefined/null, Python's None). */
  datatype Option<+T> = None | Some(value: T) {
    function GetOr(default: T): T {
      match this
      case Some(v) => v
      case None => default
    }
  }

  /** The `n` first elements of `s`, or all of it (JavaScript's `slice(0, n)`, Python's `[:n]`). */
  function Take<T>(s: seq<T>, n: nat): (r: seq<T>)
    ensures |r| == if |s| < n then |s| else n
    ensures r <= s
  {
    if |s| <= n then s else s[..n]
  }
}
