/** The playfield and the tuning constants of the pong game (game.py, lines 28-41). */
module Court {
  /** Width of the window, which is also the court. */
  const ScreenWidth: real := 800.0
  /** Height of the window; the ceiling of the court. */
  const ScreenHeight: real := 600.0

  /** Ball velocity given by a serve. */
  const InitBallSpeedX: real := 2.0
  const InitBallSpeedY: real := 4.0

  /** Fraction of the paddle's velocity that a rebound adds to the ball's horizontal velocity. */
  const AddedBallSpeedX: real := 0.2

  /** Speed of the paddle while an arrow key is held. */
  const BarMovementSpeed: real := 5.0

  /** Number of balls (rounds) in one game. */
  const InitTrialsQty: int := 3

  /** The absolute value of a real, as Python's `fabs`. */
  function Abs(x: real): real
  {
    if x < 0.0 then -x else x
  }
}
