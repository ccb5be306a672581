// Shared vocabulary of the gameplay model: optional values, results with an
// error, and the few arithmetic helpers the rules are written in.
module Base {

  datatype Option<+T> = None | Some(value: T) {
    function GetOr(default: T): T {
      match this
      case Some(v) => v
      case None => default
    }
  }

  datatype Result<+T, +E> = Ok(value: T) | Err(error: E)

  /** Width of the game viewport in pixels (GAME_WIDTH of the game configuration). */
  const GameWidth: real := 1408.0
  /** Height of the game viewport in pixels (GAME_HEIGHT of the game configuration). */
  const GameHeight: real := 768.0

  function Abs(r: real): real {
    if r < 0.0 then -r else r
  }

  function Max(a: int, b: int): int {
    if a < b then b else a
  }

  function Sum(xs: seq<int>): int {
    if xs == [] then 0 else xs[0] + Sum(xs[1..])
  }

  predicate AllNonNegative(xs: seq<int>) {
    forall i :: 0 <= i < |xs| ==> xs[i] >= 0
  }
}
