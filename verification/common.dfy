/** Shared value types: bytes, results, and the outcome of a Rust call that may return
    an error or panic. */
module Common {

  newtype byte = x: int | 0 <= x < 256

  /** A `Vec<u8>` */
  type Bytes = seq<byte>

  datatype Option<+T> = None | Some(value: T) {
    /** `Option::unwrap_or(default)` */
    function GetOr(default: T): T {
      match this
      case Some(v) => v
      case None => default
    }
  }

  /** A Rust `Result<T, E>`. */
  datatype Result<+T, +E> = Ok(value: T) | Err(error: E)

  /** Why a call aborted the thread instead of returning. */
  datatype Panic =
    | ExpectFailed(message: string)    // `Option::expect(message)` on `None`
    | UnwrapFailed(detail: string)     // `Result::unwrap()` on `Err(detail)`
    | IndexOutOfBounds(index: nat, length: nat)

  /** What a fallible Rust call ends with: a value, a returned error, or a panic. */
  datatype Outcome<+T, +E> = Done(value: T) | Failed(error: E) | Panicked(panic: Panic)

  function Last<T>(s: seq<T>): T
    requires s != []
  {
    s[|s| - 1]
  }

  /** `xs.into_iter().map(f).collect::<Result<Vec<_>, _>>()`: every element is converted in
      order and the first error stops the collection. */
  function Traverse<A, B, E>(f: A -> Result<B, E>, xs: seq<A>): (r: Result<seq<B>, E>)
    ensures r.Ok? <==> forall i :: 0 <= i < |xs| ==> f(xs[i]).Ok?
    ensures r.Ok? ==> |r.value| == |xs| && forall i :: 0 <= i < |xs| ==> f(xs[i]) == Ok(r.value[i])
    ensures r.Err? ==>
      exists i :: 0 <= i < |xs| && f(xs[i]) == Err(r.error) && forall j :: 0 <= j < i ==> f(xs[j]).Ok?
    decreases |xs|
  {
    if xs == [] then Ok([])
    else
      var init := xs[..|xs| - 1];
      assert forall i :: 0 <= i < |init| ==> init[i] == xs[i];
      match Traverse(f, init)
      case Err(e) => Err(e)
      case Ok(ys) =>
        match f(xs[|xs| - 1])
        case Err(e) => Err(e)
        case Ok(y) => Ok(ys + [y])
  }
}
