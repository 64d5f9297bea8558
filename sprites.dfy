/**
 * The two moving sprites of the game: the paddle (`Bar`) and the ball (`Ball`).
 * Each class keeps the fields its `update` changes in place; the value types
 * `BarState` and `BallState` are snapshots of those fields, and the functions
 * `PaddleStep` and `BallStep` say what one call of `update` does to a snapshot.
 */
module Sprites {
  import opened Court

  /** A snapshot of the paddle: its centre, its horizontal velocity and the size of its image. */
  datatype BarState = BarState(centerX: real, centerY: real, changeX: real, width: real, height: real)
  {
    function Left(): real { centerX - width / 2.0 }
    function Right(): real { centerX + width / 2.0 }
    function Top(): real { centerY + height / 2.0 }
  }

  /** A snapshot of the ball: its centre, its velocity and the size of its image. */
  datatype BallState = BallState(centerX: real, centerY: real, changeX: real, changeY: real, width: real, height: real)
  {
    function Left(): real { centerX - width / 2.0 }
    function Right(): real { centerX + width / 2.0 }
    function Top(): real { centerY + height / 2.0 }
    function Bottom(): real { centerY - height / 2.0 }

    /** The ball touches the left or the right wall. */
    predicate AtSideWall() { Right() >= ScreenWidth || Left() <= 0.0 }

    /** The ball touches the ceiling. */
    predicate AtCeiling() { Top() >= ScreenHeight }
  }

  /** The paddle is heading for a wall that it has not reached yet. */
  predicate Unobstructed(p: BarState)
  {
    (p.changeX > 0.0 && p.Right() < ScreenWidth) || (p.changeX < 0.0 && p.Left() > 0.0)
  }

  /** One frame of paddle motion: move by the velocity, or stop at the wall. */
  function PaddleStep(p: BarState): (r: BarState)
    ensures r.centerY == p.centerY && r.width == p.width && r.height == p.height
    // it moves by exactly its velocity, keeping it, or it stops where it is
    ensures (r.centerX == p.centerX + p.changeX && r.changeX == p.changeX)
         || (r.centerX == p.centerX && r.changeX == 0.0)
    // it moves exactly when it is heading for a wall it has not reached
    ensures r.centerX != p.centerX <==> Unobstructed(p)
    // a paddle touching a wall is never pushed further into it
    ensures p.Right() >= ScreenWidth ==> r.Right() <= p.Right()
    ensures p.Left() <= 0.0 ==> r.Left() >= p.Left()
  {
    if Unobstructed(p) then p.(centerX := p.centerX + p.changeX) else p.(changeX := 0.0)
  }

  /** The paddle's velocity is one that the keys can give it. */
  predicate KeyVelocity(v: real)
  {
    v == 0.0 || v == BarMovementSpeed || v == -BarMovementSpeed
  }

  /**
   * The paddle is in the court, up to the overshoot of one step: the move is
   * allowed while the edge has not reached the wall, so the last step can
   * carry the edge up to one step past it.
   */
  predicate PaddleInCourt(p: BarState)
  {
    KeyVelocity(p.changeX) && -BarMovementSpeed < p.Left() && p.Right() < ScreenWidth + BarMovementSpeed
  }

  lemma PaddleStaysInCourt(p: BarState)
    requires PaddleInCourt(p)
    ensures PaddleInCourt(PaddleStep(p))
  {
  }

  /** One frame of ball motion: bounce off the side walls and the ceiling, then move. */
  function BallStep(b: BallState): (r: BallState)
    ensures r.width == b.width && r.height == b.height
    // a bounce only changes the sign of a velocity component
    ensures Abs(r.changeX) == Abs(b.changeX) && Abs(r.changeY) == Abs(b.changeY)
    // the horizontal velocity is reversed exactly at a side wall (a zero one stays zero)
    ensures b.AtSideWall() ==> r.changeX == -b.changeX
    ensures r.changeX != b.changeX ==> b.AtSideWall()
    // the vertical velocity is reversed exactly at the ceiling
    ensures b.AtCeiling() ==> r.changeY == -b.changeY
    ensures r.changeY != b.changeY ==> b.AtCeiling()
    // the position advances by the velocity after the bounce
    ensures r.centerX == b.centerX + r.changeX && r.centerY == b.centerY + r.changeY
  {
    var vx := if b.AtSideWall() then -b.changeX else b.changeX;
    var vy := if b.AtCeiling() then -b.changeY else b.changeY;
    b.(centerX := b.centerX + vx, centerY := b.centerY + vy, changeX := vx, changeY := vy)
  }

  /** A ball at rest stays where it is, even against a wall. */
  lemma BallAtRestStays(b: BallState)
    requires b.changeX == 0.0 && b.changeY == 0.0
    ensures BallStep(b) == b
  {
  }

  /** The paddle sprite (game.py, class Bar). */
  class Bar {
    var centerX: real
    var centerY: real
    var changeX: real
    const width: real
    const height: real

    function State(): BarState
      reads this
    {
      BarState(centerX, centerY, changeX, width, height)
    }

    /** A new sprite sits at the origin at rest, as arcade's sprites do. */
    constructor (width: real, height: real)
      ensures State() == BarState(0.0, 0.0, 0.0, width, height)
    {
      this.width := width;
      this.height := height;
      centerX, centerY, changeX := 0.0, 0.0, 0.0;
    }

    /** Bar.update */
    method Update()
      modifies this
      ensures State() == PaddleStep(old(State()))
    {
      if (changeX > 0.0 && State().Right() < ScreenWidth) || (changeX < 0.0 && State().Left() > 0.0) {
        centerX := centerX + changeX;
      } else {
        changeX := 0.0;
      }
    }
  }

  /** The ball sprite (game.py, class Ball). */
  class Ball {
    var centerX: real
    var centerY: real
    var changeX: real
    var changeY: real
    const width: real
    const height: real

    function State(): BallState
      reads this
    {
      BallState(centerX, centerY, changeX, changeY, width, height)
    }

    constructor (width: real, height: real)
      ensures State() == BallState(0.0, 0.0, 0.0, 0.0, width, height)
    {
      this.width := width;
      this.height := height;
      centerX, centerY, changeX, changeY := 0.0, 0.0, 0.0, 0.0;
    }

    /** Ball.update */
    method Update()
      modifies this
      ensures State() == BallStep(old(State()))
    {
      if State().Right() >= ScreenWidth || State().Left() <= 0.0 {
        changeX := -changeX;
      }
      if State().Top() >= ScreenHeight {
        changeY := -changeY;
      }
      centerX := centerX + changeX;
      centerY := centerY + changeY;
    }
  }
}
