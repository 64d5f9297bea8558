/**
 * The match and round state machine of the pong game (game.py, class Game).
 *
 * `GameState` is a snapshot of everything the game updates; `GameSetup`,
 * `RoundSetup`, `FrameStep`, `KeyPressed` and `KeyReleased` say what each
 * handler does to it, and the class `Game` performs those handlers in place.
 * The sprite-overlap test of the graphics library is the input `overlap` of a
 * frame, and the trigonometry of the cap rebound is the input `trig`.
 */
module Pong {
  import opened Court
  import opened Sprites
  import opened Reflection

  /**
   * A snapshot of the game. `changeX` is the attribute that setting up a round
   * writes on the game itself; it is never read.
   */
  datatype GameState = GameState(
    bar: BarState,
    ball: BallState,
    livesLeft: int,
    ballHits: int,
    inRoundStart: bool,
    inCollision: bool,
    changeX: real)

  /** The keys the game reacts to; every other key is `OtherKey`. */
  datatype Key = ArrowLeft | ArrowRight | Space | Enter | OtherKey

  /** The sprite images have a size, and the paddle fits in the court. */
  predicate SizesOk(s: GameState)
  {
    0.0 < s.bar.width < ScreenWidth && 0.0 < s.bar.height &&
    0.0 < s.ball.width && 0.0 < s.ball.height
  }

  /**
   * The invariant of the game: between none and all of the lives are left,
   * a game with no lives left waits at the start of a round, the score is a
   * count, and the paddle moves at a key speed inside the court.
   */
  ghost predicate Inv(s: GameState)
  {
    0 <= s.livesLeft <= InitTrialsQty &&
    (s.livesLeft == 0 ==> s.inRoundStart) &&
    0 <= s.ballHits &&
    SizesOk(s) &&
    PaddleInCourt(s.bar)
  }

  /** The layout at the start of a round: paddle centred, ball resting on it at rest, not yet served. */
  predicate AtRoundStart(s: GameState)
  {
    s.bar.centerX == ScreenWidth / 2.0 && s.bar.centerY == ScreenHeight / 5.0 &&
    s.ball.centerX == s.bar.centerX + s.bar.width / 10.0 &&
    s.ball.Bottom() == s.bar.Top() &&
    s.ball.changeX == 0.0 && s.ball.changeY == 0.0 &&
    !s.inCollision && s.inRoundStart &&
    s.changeX == 0.0
  }

  /** setup_game: a full set of lives and no hits; nothing else changes. */
  function GameSetup(s: GameState): (r: GameState)
    ensures r.livesLeft == InitTrialsQty && r.ballHits == 0
    ensures r.(livesLeft := s.livesLeft, ballHits := s.ballHits) == s
  {
    s.(livesLeft := InitTrialsQty, ballHits := 0)
  }

  /**
   * setup_round: the round-start layout. The paddle's velocity is not reset:
   * the zero goes to the game's own `changeX`, not to the paddle.
   */
  function RoundSetup(s: GameState): (r: GameState)
    ensures AtRoundStart(r)
    ensures r.bar.changeX == s.bar.changeX
    ensures r.bar.width == s.bar.width && r.bar.height == s.bar.height
    ensures r.ball.width == s.ball.width && r.ball.height == s.ball.height
    ensures r.livesLeft == s.livesLeft && r.ballHits == s.ballHits
  {
    var bar := s.bar.(centerX := ScreenWidth / 2.0, centerY := ScreenHeight / 5.0);
    var ball := s.ball.(
      centerX := bar.centerX + bar.width / 10.0,
      centerY := bar.Top() + s.ball.height / 2.0,
      changeX := 0.0,
      changeY := 0.0);
    s.(bar := bar, ball := ball, changeX := 0.0, inCollision := false, inRoundStart := true)
  }

  /** The ball has fallen to the floor after a serve. */
  predicate Missed(s: GameState)
  {
    s.ball.Top() <= 0.0 && !s.inRoundStart
  }

  /** The velocity the ball takes on first contact with the paddle. */
  function Rebound(s: GameState, trig: Trig): Vec
  {
    ChangeBallSpeed(
      Vec(s.ball.centerX, s.ball.centerY),
      Vec(s.bar.centerX, s.bar.centerY),
      Vec(s.bar.width, s.bar.height),
      Vec(s.ball.changeX, s.ball.changeY),
      s.bar.changeX,
      trig)
  }

  /** The first half of a frame: a miss, a contact with the paddle, or neither. */
  function FrameEvents(s: GameState, overlap: bool, trig: Trig): GameState
  {
    if Missed(s) then
      var t := s.(livesLeft := s.livesLeft - 1);
      if t.livesLeft > 0 then RoundSetup(t) else t.(inRoundStart := true)
    else if overlap then
      if !s.inCollision then
        var v := Rebound(s, trig);
        s.(ballHits := s.ballHits + 1, inCollision := true, ball := s.ball.(changeX := v.x, changeY := v.y))
      else s
    else
      s.(inCollision := false)
  }

  /**
   * The ball moves once it is served, and before that only while the paddle
   * it rests on is moving freely.
   */
  predicate BallMoves(s: GameState)
  {
    !s.inRoundStart || Unobstructed(s.bar)
  }

  /** Game.update: one frame. `overlap` is the sprite-overlap test at the start of the frame. */
  function FrameStep(s: GameState, overlap: bool, trig: Trig): (r: GameState)
    // a miss costs exactly one life and ends the round; otherwise lives and round state stay
    ensures Missed(s) ==> r.livesLeft == s.livesLeft - 1 && r.inRoundStart
    ensures !Missed(s) ==> r.livesLeft == s.livesLeft && r.inRoundStart == s.inRoundStart
    // the score rises by one on the first frame of a contact, and only then
    ensures r.ballHits == s.ballHits + (if !Missed(s) && overlap && !s.inCollision then 1 else 0)
    // outside a miss, the contact flag afterwards is the overlap of this frame
    ensures !Missed(s) ==> r.inCollision == overlap
    // the paddle moves every frame; only a reset round puts it back in the middle
    ensures !(Missed(s) && s.livesLeft > 1) ==> r.bar == PaddleStep(s.bar)
    // outside a miss: the first frame of a contact takes the rebound velocity, a continuing
    // contact keeps the velocity, and the ball then moves if served or riding a free paddle
    ensures !Missed(s) ==>
      var b := if overlap && !s.inCollision
        then s.ball.(changeX := Rebound(s, trig).x, changeY := Rebound(s, trig).y)
        else s.ball;
      r.ball == (if BallMoves(s) then BallStep(b) else b)
    // after the last miss the ball keeps its own velocity, and moves on it while the paddle moves freely
    ensures Missed(s) && s.livesLeft <= 1 ==>
      r.ball == (if Unobstructed(s.bar) then BallStep(s.ball) else s.ball)
    ensures !Missed(s) ==> r.changeX == s.changeX
    // the last miss keeps the contact flag and the game's own changeX
    ensures Missed(s) && s.livesLeft <= 1 ==> r.inCollision == s.inCollision && r.changeX == s.changeX
    // a miss with lives to spare is a round setup followed by the paddle's step
    ensures Missed(s) && s.livesLeft > 1 ==>
      var t := RoundSetup(s.(livesLeft := s.livesLeft - 1)); r == t.(bar := PaddleStep(t.bar))
  {
    var t := FrameEvents(s, overlap, trig);
    var u := if BallMoves(t) then t.(ball := BallStep(t.ball)) else t;
    u.(bar := PaddleStep(u.bar))
  }

  /** on_key_press: an arrow starts the paddle unless it is at that wall; the resting ball follows it. */
  function KeyPressed(s: GameState, k: Key): (r: GameState)
    ensures r.livesLeft == s.livesLeft && r.ballHits == s.ballHits && r.inRoundStart == s.inRoundStart
    ensures r.inCollision == s.inCollision && r.changeX == s.changeX
    // positions never change on a key press
    ensures r.bar.centerX == s.bar.centerX && r.ball.centerX == s.ball.centerX && r.ball.centerY == s.ball.centerY
    // once the game is over, keys are ignored
    ensures s.livesLeft <= 0 ==> r == s
    // before the serve the ball takes the paddle's velocity
    ensures s.livesLeft > 0 && s.inRoundStart ==> r.ball.changeX == r.bar.changeX
    // the right arrow starts the paddle right only while its right edge is inside the court
    ensures s.livesLeft > 0 && k == ArrowRight ==>
      r.bar.changeX == (if s.bar.Right() < ScreenWidth then BarMovementSpeed else s.bar.changeX)
    ensures s.livesLeft > 0 && k == ArrowLeft ==>
      r.bar.changeX == (if s.bar.Left() > 0.0 then -BarMovementSpeed else s.bar.changeX)
    // any other key leaves the paddle as it was
    ensures k != ArrowLeft && k != ArrowRight ==> r.bar == s.bar
    // only the paddle's and the ball's horizontal velocities can change
    ensures r.bar.(changeX := s.bar.changeX) == s.bar && r.ball.(changeX := s.ball.changeX) == s.ball
    // a ball in play is not affected
    ensures !s.inRoundStart ==> r.ball == s.ball
  {
    if s.livesLeft > 0 then
      var bar :=
        if k == ArrowRight && s.bar.Right() < ScreenWidth then s.bar.(changeX := BarMovementSpeed)
        else if k == ArrowLeft && s.bar.Left() > 0.0 then s.bar.(changeX := -BarMovementSpeed)
        else s.bar;
      var ball := if s.inRoundStart then s.ball.(changeX := bar.changeX) else s.ball;
      s.(bar := bar, ball := ball)
    else
      s
  }

  /** on_key_release: an arrow stops the paddle, Space serves, Enter starts a new game. */
  function KeyReleased(s: GameState, k: Key): (r: GameState)
    ensures r.ball.width == s.ball.width && r.ball.height == s.ball.height
    ensures r.bar.width == s.bar.width && r.bar.height == s.bar.height
    // releasing an arrow stops the paddle, and the resting ball with it
    ensures (k == ArrowLeft || k == ArrowRight) && s.livesLeft > 0 ==>
      r.bar.changeX == 0.0 && (s.inRoundStart ==> r.ball.changeX == 0.0) && r.bar.centerX == s.bar.centerX
    // Space serves a resting ball with the initial velocity, from where it rests
    ensures k == Space && s.inRoundStart && s.livesLeft > 0 ==>
      r.ball == s.ball.(changeX := InitBallSpeedX, changeY := InitBallSpeedY) && !r.inRoundStart
    // Space does nothing once the ball is in play or the game is over
    ensures k == Space && !(s.inRoundStart && s.livesLeft > 0) ==> r == s
    // Enter starts a new game only when the game is over
    ensures k == Enter && s.livesLeft <= 0 ==>
      r.livesLeft == InitTrialsQty && r.ballHits == 0 && AtRoundStart(r) && r.bar.changeX == s.bar.changeX
    ensures k == Enter && s.livesLeft > 0 ==> r == s
    ensures k == OtherKey ==> r == s
    // arrows are ignored once the game is over
    ensures (k == ArrowLeft || k == ArrowRight) && s.livesLeft <= 0 ==> r == s
    // an arrow release touches only the paddle's velocity, and the resting ball's
    ensures k == ArrowLeft || k == ArrowRight ==>
      r.(bar := s.bar, ball := s.ball) == s &&
      r.bar.(changeX := s.bar.changeX) == s.bar &&
      r.ball.(changeX := s.ball.changeX) == s.ball &&
      (!s.inRoundStart ==> r.ball == s.ball)
    // a serve leaves the paddle, the contact flag and the game's own changeX alone
    ensures k == Space ==> r.bar == s.bar && r.inCollision == s.inCollision && r.changeX == s.changeX
    // only a new game touches lives and score
    ensures k != Enter ==> r.livesLeft == s.livesLeft && r.ballHits == s.ballHits
  {
    if (k == ArrowRight || k == ArrowLeft) && s.livesLeft > 0 then
      s.(bar := s.bar.(changeX := 0.0), ball := if s.inRoundStart then s.ball.(changeX := 0.0) else s.ball)
    else if k == Space && s.inRoundStart && s.livesLeft > 0 then
      s.(ball := s.ball.(changeX := InitBallSpeedX, changeY := InitBallSpeedY), inRoundStart := false)
    else if k == Enter && s.livesLeft <= 0 then
      RoundSetup(GameSetup(s))
    else
      s
  }

  /** Setting up a game and a round establishes the invariant. */
  lemma SetupEstablishesInv(s: GameState)
    requires SizesOk(s) && KeyVelocity(s.bar.changeX)
    ensures Inv(RoundSetup(GameSetup(s)))
  {
  }

  /** Every frame keeps the invariant. */
  lemma FrameKeepsInv(s: GameState, overlap: bool, trig: Trig)
    requires Inv(s)
    ensures Inv(FrameStep(s, overlap, trig))
  {
  }

  /** Every key press keeps the invariant. */
  lemma KeyPressKeepsInv(s: GameState, k: Key)
    requires Inv(s)
    ensures Inv(KeyPressed(s, k))
  {
  }

  /** Every key release keeps the invariant. */
  lemma KeyReleaseKeepsInv(s: GameState, k: Key)
    requires Inv(s)
    ensures Inv(KeyReleased(s, k))
  {
  }

  /** The inputs the game reacts to: a frame, a key going down, a key coming up. */
  datatype Event = Tick(overlap: bool) | Press(key: Key) | Release(key: Key)

  function Apply(s: GameState, e: Event, trig: Trig): GameState
  {
    match e
    case Tick(overlap) => FrameStep(s, overlap, trig)
    case Press(k) => KeyPressed(s, k)
    case Release(k) => KeyReleased(s, k)
  }

  /** The state after a sequence of events. */
  function Run(s: GameState, events: seq<Event>, trig: Trig): GameState
    decreases |events|
  {
    if events == [] then s else Run(Apply(s, events[0], trig), events[1..], trig)
  }

  /** The invariant holds after any sequence of events. */
  lemma {:induction false} RunKeepsInv(s: GameState, events: seq<Event>, trig: Trig)
    requires Inv(s)
    ensures Inv(Run(s, events, trig))
    decreases |events|
  {
    if events != [] {
      var t := Apply(s, events[0], trig);
      match events[0] {
        case Tick(overlap) => FrameKeepsInv(s, overlap, trig);
        case Press(k) => KeyPressKeepsInv(s, k);
        case Release(k) => KeyReleaseKeepsInv(s, k);
      }
      RunKeepsInv(t, events[1..], trig);
    }
  }

  /** Every event is a frame in which the ball and the paddle overlap. */
  predicate AllOverlapping(events: seq<Event>)
  {
    forall i :: 0 <= i < |events| ==> events[i] == Tick(true)
  }

  /** No frame of the sequence starts with a miss. */
  ghost predicate NoMissAlong(s: GameState, events: seq<Event>, trig: Trig)
    decreases |events|
  {
    events == [] || (!Missed(s) && NoMissAlong(Apply(s, events[0], trig), events[1..], trig))
  }

  /**
   * Debounce: over any run of consecutive overlapping frames the score rises
   * by one if the contact is new, and by nothing if it was already going on.
   */
  lemma {:induction false} OverlapCountsOnce(s: GameState, events: seq<Event>, trig: Trig)
    requires events != [] && AllOverlapping(events)
    requires NoMissAlong(s, events, trig)
    ensures Run(s, events, trig).ballHits == s.ballHits + (if s.inCollision then 0 else 1)
    ensures Run(s, events, trig).inCollision
    decreases |events|
  {
    var t := Apply(s, events[0], trig);
    assert events[0] == Tick(true);
    assert t.ballHits == s.ballHits + (if s.inCollision then 0 else 1) && t.inCollision;
    if |events| > 1 {
      assert AllOverlapping(events[1..]) by {
        forall i | 0 <= i < |events[1..]| ensures events[1..][i] == Tick(true) {
          assert events[1..][i] == events[i + 1];
        }
      }
      OverlapCountsOnce(t, events[1..], trig);
    }
  }

  /** Once the game is over, nothing but releasing Enter brings lives back. */
  lemma {:induction false} GameOverIsAbsorbing(s: GameState, events: seq<Event>, trig: Trig)
    requires Inv(s) && s.livesLeft == 0
    requires forall i :: 0 <= i < |events| ==> events[i] != Release(Enter)
    ensures Run(s, events, trig).livesLeft == 0 && Run(s, events, trig).inRoundStart
    decreases |events|
  {
    if events != [] {
      var t := Apply(s, events[0], trig);
      match events[0] {
        case Tick(overlap) => FrameKeepsInv(s, overlap, trig);
        case Press(k) => KeyPressKeepsInv(s, k);
        case Release(k) => KeyReleaseKeepsInv(s, k);
      }
      GameOverIsAbsorbing(t, events[1..], trig);
    }
  }

  /**
   * Losing the last ball ends the game where it stands: the miss itself only
   * takes the life and sets the round-start flag, and with the paddle at rest
   * the rest of the frame moves nothing either.
   */
  lemma LastMissFreezes(s: GameState, overlap: bool, trig: Trig)
    requires Inv(s) && Missed(s) && s.livesLeft == 1
    ensures FrameEvents(s, overlap, trig) == s.(livesLeft := 0, inRoundStart := true)
    ensures s.bar.changeX == 0.0 ==> FrameStep(s, overlap, trig) == s.(livesLeft := 0, inRoundStart := true)
  {
  }

  /**
   * Losing a ball with lives to spare sets up the next round, but a paddle
   * that was moving goes on moving and leaves the resting ball behind.
   */
  lemma MissResetsRound(s: GameState, overlap: bool, trig: Trig)
    requires Inv(s) && Missed(s) && s.livesLeft > 1
    ensures var r := FrameStep(s, overlap, trig);
      r.livesLeft == s.livesLeft - 1 && r.ballHits == s.ballHits &&
      r.ball == RoundSetup(s).ball &&
      r.bar == PaddleStep(RoundSetup(s).bar) &&
      r.bar.changeX == s.bar.changeX &&
      r.inRoundStart && !r.inCollision
  {
  }

  /**
   * Before the serve the ball rides on the paddle: when it has the paddle's
   * velocity and touches no wall, a frame keeps its place relative to the
   * paddle, whether the paddle moves or has just stopped at a wall.
   */
  lemma RestingBallRidesPaddle(s: GameState, overlap: bool, trig: Trig)
    requires s.inRoundStart && (!overlap || s.inCollision)
    requires s.ball.changeX == s.bar.changeX && s.ball.changeY == 0.0
    requires !s.ball.AtSideWall() && !s.ball.AtCeiling()
    ensures var r := FrameStep(s, overlap, trig);
      r.ball.centerX - r.bar.centerX == s.ball.centerX - s.bar.centerX &&
      r.ball.centerY == s.ball.centerY &&
      r.ballHits == s.ballHits && r.inRoundStart
  {
  }

  /** The paddle sprite, the ball sprite and the state of the match (game.py, class Game). */
  class Game {
    const bar: Bar
    const ball: Ball
    var livesLeft: int
    var ballHits: int
    var inRoundStart: bool
    var inCollision: bool
    /** Written by SetupRound on the game itself; the paddle's velocity is `bar.changeX`. */
    var changeX: real

    function State(): GameState
      reads this, bar, ball
    {
      GameState(bar.State(), ball.State(), livesLeft, ballHits, inRoundStart, inCollision, changeX)
    }

    ghost predicate Valid()
      reads this, bar, ball
    {
      Inv(State())
    }

    /** A new window: the sprites, then a new game and its first round. */
    constructor (barWidth: real, barHeight: real, ballWidth: real, ballHeight: real)
      requires 0.0 < barWidth < ScreenWidth && 0.0 < barHeight && 0.0 < ballWidth && 0.0 < ballHeight
      ensures Valid() && fresh(bar) && fresh(ball)
      ensures livesLeft == InitTrialsQty && ballHits == 0 && AtRoundStart(State())
      ensures bar.changeX == 0.0
    {
      bar := new Bar(barWidth, barHeight);
      ball := new Ball(ballWidth, ballHeight);
      new;
      SetupGame();
      SetupRound();
      SetupEstablishesInv(State());
    }

    method SetupGame()
      modifies this
      ensures State() == GameSetup(old(State()))
    {
      livesLeft := InitTrialsQty;
      ballHits := 0;
    }

    method SetupRound()
      modifies this, bar, ball
      ensures State() == RoundSetup(old(State()))
    {
      bar.centerX := ScreenWidth / 2.0;
      bar.centerY := ScreenHeight / 5.0;
      changeX := 0.0;
      ball.centerX := bar.centerX + bar.width / 10.0;
      ball.centerY := bar.State().Top() + ball.height / 2.0;
      ball.changeX := 0.0;
      ball.changeY := 0.0;
      inCollision := false;
      inRoundStart := true;
    }

    /** One frame; the pause after a lost ball is not modelled. */
    method Update(overlap: bool, trig: Trig)
      requires Valid()
      modifies this, bar, ball
      ensures Valid()
      ensures State() == FrameStep(old(State()), overlap, trig)
    {
      ghost var s := State();
      FrameKeepsInv(s, overlap, trig);
      if ball.State().Top() <= 0.0 && !inRoundStart {
        livesLeft := livesLeft - 1;
        if livesLeft > 0 {
          SetupRound();
        } else {
          inRoundStart := true;
        }
      } else if overlap {
        if !inCollision {
          ballHits := ballHits + 1;
          inCollision := true;
          var v := Rebound(State(), trig);
          ball.changeX, ball.changeY := v.x, v.y;
        }
      } else {
        inCollision := false;
      }
      assert State() == FrameEvents(s, overlap, trig);
      if !inRoundStart || Unobstructed(bar.State()) {
        ball.Update();
      }
      bar.Update();
    }

    method OnKeyPress(k: Key)
      requires Valid()
      modifies bar, ball
      ensures Valid()
      ensures State() == KeyPressed(old(State()), k)
    {
      KeyPressKeepsInv(State(), k);
      if livesLeft > 0 {
        if k == ArrowRight && bar.State().Right() < ScreenWidth {
          bar.changeX := BarMovementSpeed;
        } else if k == ArrowLeft && bar.State().Left() > 0.0 {
          bar.changeX := -BarMovementSpeed;
        }
        if inRoundStart {
          ball.changeX := bar.changeX;
        }
      }
    }

    method OnKeyRelease(k: Key)
      requires Valid()
      modifies this, bar, ball
      ensures Valid()
      ensures State() == KeyReleased(old(State()), k)
    {
      KeyReleaseKeepsInv(State(), k);
      if (k == ArrowRight || k == ArrowLeft) && livesLeft > 0 {
        bar.changeX := 0.0;
        if inRoundStart {
          ball.changeX := 0.0;
        }
      } else if k == Space && inRoundStart && livesLeft > 0 {
        ball.changeX := InitBallSpeedX;
        ball.changeY := InitBallSpeedY;
        inRoundStart := false;
      } else if k == Enter && livesLeft <= 0 {
        SetupGame();
        SetupRound();
      }
    }
  }
}
