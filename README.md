# Pong: a verified model of the game logic

This project models the game logic of a single-screen paddle-and-ball game
(`game.py`). The player moves a paddle with the arrow keys, serves with Space,
and starts a new game with Enter. Each lost ball costs one of three lives, and
every new contact with the paddle scores a hit. The paddle's top is flat in the
middle and ends in two half-discs. A ball that lands on the flat part has its
vertical velocity reversed. A ball that lands on an end cap is reflected about
the cap's normal, or passes unchanged when it only grazes the cap. Either
rebound adds a fifth of the paddle's velocity to the ball's horizontal velocity.

Modules, one per component of `game.py`:

- `Court` (`court.dfy`): the court size and the tuning constants.
- `Sprites` (`sprites.dfy`): the classes `Bar` and `Ball`. Each keeps the
  fields its `update` changes in place. The value types `BarState` and
  `BallState` are snapshots of those fields. `PaddleStep` and `BallStep` state
  what one `update` does to a snapshot.
- `Reflection` (`reflection.dfy`): `change_ball_speed` as a pure function.
  `Classify` gives the contact kind. The trigonometry is a `Trig` record of
  functions the caller supplies.
- `Pong` (`game.dfy`): the match and round state machine. It has a snapshot
  `GameState` and one function per handler: `GameSetup`, `RoundSetup`,
  `FrameStep`, `KeyPressed` and `KeyReleased`. The class `Game` performs
  those handlers in place, and each method's postcondition ties its new state
  to the handler's function. `Inv` is the invariant every handler keeps. `Run`
  applies a sequence of events.

Python's floats are modelled as exact `real`s. A sprite's edges are its centre
plus or minus half its width or height.

Behaviour of `game.py` that the model keeps as written:

- The code applies no speed-up and no angle clamping, and plays no sounds.
- A negative left-cap normal angle is turned by pi.
- `setup_round` writes `change_x` on the game itself, not on the paddle. The
  paddle's velocity therefore survives a new round, and a moving paddle leaves
  the freshly placed ball behind (`MissResetsRound`).
- After the last ball is lost, the paddle and ball are not repositioned, but
  they are not frozen either. Arrow and Space events are ignored once no lives
  are left. Releasing Enter starts a new game but keeps the paddle's velocity.
  So a paddle that was moving keeps moving until it reaches a wall. Meanwhile
  the ball goes on below the floor with the velocity it had in play, because
  it moves whenever the paddle moves freely (`FrameStep`). Both stand still
  only when the paddle is at rest (`LastMissFreezes`).
- The paddle may pass a wall by less than one step before it stops, because
  it moves while its edge has not reached the wall (`PaddleInCourt`).

## Model

| member | source | states |
|---|---|---|
| `Sprites.PaddleStep` | game.py:48-52 | the paddle moves by exactly its velocity when it heads for a wall it has not reached, and otherwise stops in place with velocity 0; it is never pushed further into a wall it touches |
| `Sprites.PaddleStaysInCourt` | game.py:48-52 | a paddle moving at a key speed within one step of the court stays so after a step |
| `Sprites.Bar.Update` | game.py:48-52 | the paddle's new fields are one `PaddleStep` of the old ones |
| `Sprites.Bar.constructor` | game.py:45-46 | a new paddle sprite is at the origin at rest |
| `Sprites.BallStep` | game.py:62-68 | the horizontal velocity is negated exactly at a side wall and the vertical one exactly at the ceiling; magnitudes are kept; the position then advances by the new velocity |
| `Sprites.BallAtRestStays` | game.py:62-68 | a ball with zero velocity does not move, even against a wall |
| `Sprites.Ball.Update` | game.py:62-68 | the ball's new fields are one `BallStep` of the old ones |
| `Sprites.Ball.constructor` | game.py:56-57 | a new ball sprite is at the origin at rest |
| `Reflection.Classify` | game.py:165-191 | flat exactly when the ball's x lies between the two cap centres (inclusive); right cap exactly when it is right of the right cap's centre; on a paddle at least as wide as high, left cap exactly when left of the left cap's centre, and a ball above the paddle's centre is a flat hit |
| `Reflection.ChangeBallSpeed` | game.py:157-204 | a flat hit negates the vertical velocity and adds 0.2 times the paddle speed to the horizontal one; a grazing cap hit returns the velocity unchanged; nothing is mutated |
| `Reflection.BarSpeedOnlyShiftsHorizontal` | game.py:171-204 | for every contact, the paddle speed never affects the vertical velocity; in a flat or reflecting hit it shifts the horizontal velocity by 0.2 times the speed difference; a grazing ball does not feel it at all |
| `Reflection.FlatHitIsMirror` | game.py:171-173 | off the flat part of a paddle at rest the speed is kept, and a second flat hit restores the incoming velocity |
| `Reflection.CapReflectionKeepsSpeed` | game.py:196-201 | with an exact square root and cos^2 + sin^2 = 1, a cap reflection off a paddle at rest keeps the ball's speed |
| `Pong.GameSetup` | game.py:91-94 | lives become 3 and hits 0, and nothing else changes |
| `Pong.RoundSetup` | game.py:96-112 | the paddle is centred at (400, 120); the ball's bottom is on the paddle's top and its x is the paddle's x plus a tenth of its width; the ball is at rest, not in collision, not served; the game's own change_x is 0 while the paddle's velocity is kept; lives and hits are kept |
| `Pong.FrameStep` | game.py:114-155 | a miss costs exactly one life and leaves the round waiting for a serve; otherwise lives and serve state are kept; hits rise by one exactly on the first overlapping frame; outside a miss the contact flag becomes the frame's overlap, the first contact frame gives the ball the rebound velocity, a continuing contact keeps the ball's velocity, and the ball then takes its step only if served or riding a freely moving paddle; after the last miss the ball keeps its velocity and steps while the paddle moves freely, and the contact flag and the game's change_x are kept; a miss with lives to spare is exactly a round setup followed by the paddle's step; the paddle takes its step unless the round was reset |
| `Pong.KeyPressed` | game.py:207-218 | at game over nothing changes; an arrow sets the paddle speed to plus or minus 5 only when that edge is inside the court; before the serve the ball takes the paddle's velocity; other keys leave the paddle as it was; a ball in play is untouched; only the two horizontal velocities can change |
| `Pong.KeyReleased` | game.py:220-231 | an arrow stops the paddle and the resting ball; Space serves at (2, 4) only before the serve with lives left, else does nothing; Enter at game over gives 3 lives, 0 hits and the round-start layout, else does nothing; other keys do nothing; arrows do nothing at game over and otherwise touch only the paddle's and the resting ball's horizontal velocity; a serve leaves the paddle, the contact flag and the game's change_x alone |
| `Pong.SetupEstablishesInv` | game.py:73-78 | setting up a game and a round establishes the invariant |
| `Pong.FrameKeepsInv` | game.py:114-155 | a frame keeps 0 <= lives <= 3, lives 0 implies waiting for a serve, hits >= 0, and the paddle in the court at a key speed |
| `Pong.KeyPressKeepsInv` | game.py:207-218 | a key press keeps the invariant |
| `Pong.KeyReleaseKeepsInv` | game.py:220-231 | a key release keeps the invariant |
| `Pong.RunKeepsInv` | game.py:114-231 | the invariant holds after any sequence of frames and key events |
| `Pong.OverlapCountsOnce` | game.py:122-148 | over any run of consecutive overlapping frames without a miss, hits rise by exactly one if the contact is new and by none otherwise, and the contact flag stays set |
| `Pong.GameOverIsAbsorbing` | game.py:115-121 | once lives reach 0, no sequence of events without an Enter release brings lives back or starts play |
| `Pong.LastMissFreezes` | game.py:115-121 | losing the last ball: the miss branch only takes the life and sets the serve flag, leaving ball and paddle where they are; with the paddle at rest the whole frame moves nothing |
| `Pong.MissResetsRound` | game.py:115-119 | losing a ball with lives to spare resets ball and paddle to the round layout, keeps the hits, and keeps the paddle's velocity, so the paddle then takes its step |
| `Pong.RestingBallRidesPaddle` | game.py:150-155 | before the serve, a ball carrying the paddle's velocity and touching no wall keeps its place relative to the paddle over a frame |
| `Pong.Game.constructor` | game.py:73-78 | a new game has 3 lives, 0 hits, the round-start layout, a paddle at rest and the invariant |
| `Pong.Game.SetupGame` | game.py:91-94 | the new state is `GameSetup` of the old |
| `Pong.Game.SetupRound` | game.py:96-112 | the new state is `RoundSetup` of the old |
| `Pong.Game.Update` | game.py:114-155 | keeps the invariant, and the new state is `FrameStep` of the old |
| `Pong.Game.OnKeyPress` | game.py:207-218 | keeps the invariant, and the new state is `KeyPressed` of the old |
| `Pong.Game.OnKeyRelease` | game.py:220-231 | keeps the invariant, and the new state is `KeyReleased` of the old |

## Left out

- Drawing, text, sprite images and the window and event loop (game.py:44-46, 55-57, 80-89, 234-236) are presentation glue.
- The three-second pause after a lost ball (game.py:117) blocks in real time and is a no-op here.
- The sprite-overlap test of the graphics library (game.py:122) is a boolean input `overlap` of each frame.
- Sprite edges come from the library's hit boxes; here they are the centre plus or minus half the image size.
- The cap reflection's trigonometry (game.py:178-201) is supplied by the caller as a `Trig` record. Its results are proved only for whatever functions are supplied, or for ones with an exact square root and cos^2 + sin^2 = 1.
- Floating-point rounding: all arithmetic is exact over the reals.
- `Ball.setup` (game.py:59-60) does nothing. `COLLISION_WIDTH` (game.py:32) and the local `bar_is_moving` (game.py:214) are never used.
- Pong.Game.constructor: it requires positive image sizes and a paddle narrower than the court. The images fix these sizes, and the model does not read them.
