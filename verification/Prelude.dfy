// Shared by every module: the optional value, and the clock arithmetic that
// all of the runner's state machines use.

module Prelude {

  datatype Option<+T> = None | Some(value: T)

  /** Milliseconds from `since` to `now`, zero when the clock reads earlier. */
  function Elapsed(since: nat, now: nat): nat {
    if now > since then now - since else 0
  }

  function Max(a: int, b: int): int {
    if a >= b then a else b
  }

  function Min(a: int, b: int): int {
    if a <= b then a else b
  }

  lemma Associative<T>(a: seq<T>, b: seq<T>, c: seq<T>)
    ensures (a + b) + c == a + (b + c)
  {
  }

  lemma EmptyIsNeutral<T>(a: seq<T>)
    ensures [] + a == a && a + [] == a
  {
  }
}
