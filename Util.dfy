/** Python's built-in `min` and `max` on the two numeric types the game
    uses, `int()` of a float, and `Optional`. */
module Util {

  datatype Option<T> = None | Some(value: T)

  function Min(a: int, b: int): int { if a <= b then a else b }

  function Max(a: int, b: int): int { if a >= b then a else b }

  function MinR(a: real, b: real): real { if a <= b then a else b }

  function MaxR(a: real, b: real): real { if a >= b then a else b }

  /** `int(r)`: truncation toward zero, which is also what storing a float
      in an integer rectangle coordinate does. */
  function Trunc(r: real): int
  {
    if r >= 0.0 then r.Floor else -((-r).Floor)
  }
}
