/** Limits and small result types shared by every component of the maintenance controller. */
module Contracts {

  const DAY := 86400
  const INITIAL_LIMIT := 30
  const DEEP_LIMIT := 10
  const INITIAL_SECONDS := 600
  const DEEP_SECONDS := 14400
  const MAX_ROUNDS := 5

  datatype Option<+T> = None | Some(value: T)

  datatype Result<+T, +E> = Ok(value: T) | Err(error: E)

  ghost predicate Distinct<T>(s: seq<T>) { forall i, j :: 0 <= i < j < |s| ==> s[i] != s[j] }

  function Min(a: int, b: int): (n: int) { if a <= b then a else b }

  function Max(a: int, b: int): (n: int) { if a >= b then a else b }
}
