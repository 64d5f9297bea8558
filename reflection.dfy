/**
 * The rebound of the ball off the paddle (game.py, Game.change_ball_speed).
 *
 * The paddle's top is flat in the middle and ends in two half-discs whose
 * radius is half the paddle's height. A ball over the flat part has its
 * vertical velocity reversed; a ball over an end cap is reflected about the
 * cap's normal, or passes unchanged when it grazes the cap. The trigonometry of
 * the cap case (atan2, cos, sin, the square root and pi) is not modelled: it is
 * a `Trig` record of functions that the caller supplies, so every result below
 * holds whatever those functions are, unless a lemma says what it assumes of them.
 */
module Reflection {
  import opened Court

  /** A pair of reals: a position, a size (width, height) or a velocity. */
  datatype Vec = Vec(x: real, y: real)

  /** The floating-point functions the cap reflection uses, left uninterpreted. */
  datatype Trig = Trig(atan2: (real, real) -> real, cos: real -> real, sin: real -> real, sqrt: real -> real, pi: real)

  /** Where the ball meets the paddle. */
  datatype Contact = Flat | RightCap | LeftCap

  /** Centre of the left end cap: half a height in from the paddle's left edge. */
  function LeftCapCentre(barCenter: Vec, barDim: Vec): Vec
  {
    Vec(barCenter.x - barDim.x / 2.0 + barDim.y / 2.0, barCenter.y)
  }

  /** Centre of the right end cap: half a height in from the paddle's right edge. */
  function RightCapCentre(barCenter: Vec, barDim: Vec): Vec
  {
    Vec(barCenter.x + barDim.x / 2.0 - barDim.y / 2.0, barCenter.y)
  }

  /**
   * The flat part is tried first, with inclusive bounds; a ball right of the
   * right cap's centre hits that cap, any other ball the left cap.
   */
  function Classify(ballCenter: Vec, barCenter: Vec, barDim: Vec): (c: Contact)
    ensures c == Flat <==>
      LeftCapCentre(barCenter, barDim).x <= ballCenter.x <= RightCapCentre(barCenter, barDim).x
    ensures c == RightCap <==> ballCenter.x > RightCapCentre(barCenter, barDim).x
    // on a paddle at least as wide as it is high, a left-cap hit is one left of the left cap's centre
    ensures barDim.y <= barDim.x ==> (c == LeftCap <==> ballCenter.x < LeftCapCentre(barCenter, barDim).x)
    // a ball exactly above the paddle's centre always lands on the flat part
    ensures barDim.y <= barDim.x && ballCenter.x == barCenter.x ==> c == Flat
  {
    var left := LeftCapCentre(barCenter, barDim);
    var right := RightCapCentre(barCenter, barDim);
    if left.x <= ballCenter.x <= right.x then Flat
    else if ballCenter.x > right.x then RightCap
    else LeftCap
  }

  /**
   * The direction the ball comes from: atan2 of its velocity, turned by pi
   * when negative (a falling ball has a negative angle).
   */
  function IncomingAngle(speedIn: Vec, trig: Trig): real
  {
    var a := trig.atan2(speedIn.y, speedIn.x);
    if a < 0.0 then a + trig.pi else a
  }

  /**
   * The direction of the normal at the contact point: from the centre of the
   * cap that was hit to the centre of the ball; for the left cap a negative
   * angle is turned by pi.
   */
  function NormalAngle(ballCenter: Vec, barCenter: Vec, barDim: Vec, trig: Trig): real
  {
    var right := RightCapCentre(barCenter, barDim);
    var left := LeftCapCentre(barCenter, barDim);
    if ballCenter.x > right.x then
      trig.atan2(ballCenter.y - right.y, ballCenter.x - right.x)
    else
      var a := trig.atan2(ballCenter.y - left.y, ballCenter.x - left.x);
      a + (if a < 0.0 then trig.pi else 0.0)
  }

  /** On a cap, the ball is reflected when it meets the surface at an acute angle. */
  predicate Reflects(ballCenter: Vec, barCenter: Vec, barDim: Vec, speedIn: Vec, trig: Trig)
  {
    Abs(IncomingAngle(speedIn, trig) - NormalAngle(ballCenter, barCenter, barDim, trig)) < trig.pi / 2.0
  }

  /**
   * The angle of the reflected ball: the incoming angle mirrored about the normal.
   * No contract pins this direction; it is fixed by this body alone.
   */
  function ReflectedAngle(ballCenter: Vec, barCenter: Vec, barDim: Vec, speedIn: Vec, trig: Trig): real
  {
    2.0 * NormalAngle(ballCenter, barCenter, barDim, trig) - IncomingAngle(speedIn, trig)
  }

  /** The speed of the ball, (vx ** 2 + vy ** 2) ** 0.5. */
  function Modulus(v: Vec, trig: Trig): real
  {
    trig.sqrt(v.x * v.x + v.y * v.y)
  }

  /** The velocity of the ball after it meets the paddle; nothing is changed in place. */
  function ChangeBallSpeed(ballCenter: Vec, barCenter: Vec, barDim: Vec, speedIn: Vec, barSpeed: real, trig: Trig): (r: Vec)
    // a flat hit reverses the vertical velocity and couples in a fifth of the paddle's velocity
    ensures Classify(ballCenter, barCenter, barDim) == Flat ==>
      r.y == -speedIn.y && r.x - speedIn.x == AddedBallSpeedX * barSpeed
    // a grazing hit on a cap leaves the velocity as it was
    ensures Classify(ballCenter, barCenter, barDim) != Flat && !Reflects(ballCenter, barCenter, barDim, speedIn, trig) ==>
      r == speedIn
  {
    if Classify(ballCenter, barCenter, barDim) == Flat then
      Vec(speedIn.x + barSpeed * AddedBallSpeedX, -speedIn.y)
    else if Reflects(ballCenter, barCenter, barDim, speedIn, trig) then
      var angle := ReflectedAngle(ballCenter, barCenter, barDim, speedIn, trig);
      var modulus := Modulus(speedIn, trig);
      Vec(modulus * trig.cos(angle) + barSpeed * AddedBallSpeedX, modulus * trig.sin(angle))
    else
      speedIn
  }

  /**
   * Every rebound, flat or off a cap, depends on the paddle's velocity only
   * through a fifth of it added to the horizontal velocity; a grazing ball
   * does not feel the paddle at all.
   */
  lemma BarSpeedOnlyShiftsHorizontal(ballCenter: Vec, barCenter: Vec, barDim: Vec, speedIn: Vec, b1: real, b2: real, trig: Trig)
    ensures ChangeBallSpeed(ballCenter, barCenter, barDim, speedIn, b1, trig).y
         == ChangeBallSpeed(ballCenter, barCenter, barDim, speedIn, b2, trig).y
    ensures Classify(ballCenter, barCenter, barDim) == Flat || Reflects(ballCenter, barCenter, barDim, speedIn, trig) ==>
      ChangeBallSpeed(ballCenter, barCenter, barDim, speedIn, b1, trig).x
        - ChangeBallSpeed(ballCenter, barCenter, barDim, speedIn, b2, trig).x == AddedBallSpeedX * (b1 - b2)
    ensures Classify(ballCenter, barCenter, barDim) != Flat && !Reflects(ballCenter, barCenter, barDim, speedIn, trig) ==>
      ChangeBallSpeed(ballCenter, barCenter, barDim, speedIn, b1, trig)
        == ChangeBallSpeed(ballCenter, barCenter, barDim, speedIn, b2, trig)
  {
  }

  /**
   * Off the flat part of a paddle at rest the ball keeps its speed, and a
   * second flat hit at the same spot gives back the velocity it came with.
   */
  lemma FlatHitIsMirror(ballCenter: Vec, barCenter: Vec, barDim: Vec, speedIn: Vec, trig: Trig)
    requires Classify(ballCenter, barCenter, barDim) == Flat
    ensures var r := ChangeBallSpeed(ballCenter, barCenter, barDim, speedIn, 0.0, trig);
      r.x * r.x + r.y * r.y == speedIn.x * speedIn.x + speedIn.y * speedIn.y &&
      ChangeBallSpeed(ballCenter, barCenter, barDim, r, 0.0, trig) == speedIn
  {
  }

  /** What the cap reflection needs of the trigonometry: a square root and cos^2 + sin^2 = 1. */
  ghost predicate SoundTrig(trig: Trig)
  {
    (forall q :: 0.0 <= q ==> trig.sqrt(q) * trig.sqrt(q) == q) &&
    (forall a :: trig.cos(a) * trig.cos(a) + trig.sin(a) * trig.sin(a) == 1.0)
  }

  /** With exact trigonometry, a reflection off a cap of a paddle at rest keeps the ball's speed. */
  lemma CapReflectionKeepsSpeed(ballCenter: Vec, barCenter: Vec, barDim: Vec, speedIn: Vec, trig: Trig)
    requires SoundTrig(trig)
    requires Classify(ballCenter, barCenter, barDim) != Flat
    requires Reflects(ballCenter, barCenter, barDim, speedIn, trig)
    ensures var r := ChangeBallSpeed(ballCenter, barCenter, barDim, speedIn, 0.0, trig);
      r.x * r.x + r.y * r.y == speedIn.x * speedIn.x + speedIn.y * speedIn.y
  {
  }
}
