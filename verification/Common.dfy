/** Types and list facts shared by every module. */
module Common {

  type byte = x: int | 0 <= x < 256

  datatype Option<+T> = None | Some(value: T)

  datatype Result<+T, +E> = Ok(value: T) | Err(error: E)
  {
    predicate IsFailure() {
      Err?
    }

    function PropagateFailure<U>(): Result<U, E>
      requires IsFailure()
    {
      Err(error)
    }

    function Extract(): T
      requires !IsFailure()
    {
      value
    }
  }

  const NEWLINE: byte := 10

  function Max(a: nat, b: nat): nat { if a < b then b else a }

  function Min(a: nat, b: nat): nat { if a < b then a else b }

  /** Rust's order on `Option<u64>`: `None` is below every `Some`. */
  function MaxOption(a: Option<nat>, b: Option<nat>): Option<nat> {
    match (a, b)
    case (None, _) => b
    case (_, None) => a
    case (Some(x), Some(y)) => Some(Max(x, y))
  }

  function Last<T>(s: seq<T>): T
    requires s != []
  {
    s[|s| - 1]
  }

  function Front<T>(s: seq<T>): seq<T>
    requires s != []
  {
    s[..|s| - 1]
  }

  /** A stretch read so far, and the element after it. */
  lemma SliceSnoc<T>(head: seq<T>, s: seq<T>, i: nat, j: nat)
    requires i <= j < |s|
    ensures head + s[i..j + 1] == (head + s[i..j]) + [s[j]]
  {
  }

  lemma Assoc<T>(a: seq<T>, b: seq<T>, c: seq<T>)
    ensures (a + b) + c == a + (b + c)
  {
  }

  lemma SlicePlus<T>(s: seq<T>, i: nat, j: nat, k: nat)
    requires i <= j <= k <= |s|
    ensures s[i..j] + s[j..k] == s[i..k]
  {
  }

  lemma SliceSlice<T>(s: seq<T>, i: nat, j: nat, a: nat, b: nat, from: nat, to: nat)
    requires i <= j <= |s| && a <= b <= j - i && from == i + a && to == i + b
    ensures s[i..j][a..b] == s[from..to]
  {
    forall k | 0 <= k < b - a
      ensures s[i..j][a..b][k] == s[from..to][k]
    {
      assert s[i..j][a + k] == s[from + k];
    }
  }

  function Flatten<T>(ss: seq<seq<T>>): seq<T> {
    if ss == [] then [] else Flatten(Front(ss)) + Last(ss)
  }

  function Map<A, B>(f: A -> B, s: seq<A>): (r: seq<B>)
    ensures |r| == |s|
    ensures forall i :: 0 <= i < |s| ==> r[i] == f(s[i])
  {
    if s == [] then [] else Map(f, Front(s)) + [f(Last(s))]
  }
}
