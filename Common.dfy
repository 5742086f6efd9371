/** Shared vocabulary of the model: optional values, error-carrying results and
    the abstract score type used for distances and similarities. */
module Common {

  datatype Option<+T> = None | Some(value: T) {
    function GetOr(default: T): T {
      match this
      case Some(v) => v
      case None => default
    }
  }

  datatype Result<+T, +E> = Ok(value: T) | Err(error: E)

  /** Distances and similarities are floating point in the program. The model
      keeps them abstract: an ordered type on which nothing but comparison and
      equality is used. */
  type Score = int

  /** A chat message: a role ("system", "user", "assistant" or any other
      text) and its content. */
  datatype Message = Message(role: string, content: string)

  function Min(a: int, b: int): int {
    if a <= b then a else b
  }

  /** No element occurs twice. */
  predicate Distinct<T(==)>(xs: seq<T>) {
    forall k, l :: 0 <= k < l < |xs| ==> xs[k] != xs[l]
  }

  /** Python's `xs[:n]` for n >= 0. */
  function Take<T>(xs: seq<T>, n: nat): (r: seq<T>)
    ensures |r| == Min(n, |xs|)
    ensures r == xs[..|r|]
  {
    if n <= |xs| then xs[..n] else xs
  }

  /** Python's `xs[-n:]` for n > 0: the last (at most) n elements. */
  function Last<T>(xs: seq<T>, n: nat): (r: seq<T>)
    ensures |r| == Min(n, |xs|)
    ensures r == xs[|xs| - |r|..]
  {
    if n <= |xs| then xs[|xs| - n..] else xs
  }
}
