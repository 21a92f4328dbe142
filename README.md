# Pongo: the per-tick game update, modelled in Dafny

Pongo is a small Pong-style game. A paddle (`Paleta`) sits near the right edge of a
640 x 480 screen and moves up and down with the arrow keys. A ball (`Bola`) moves by its
velocity every tick. The left, top and bottom walls force the ball's velocity to a fixed
speed. A ball that reaches the right edge resets the game. A ball that reaches the
paddle is sent back and scores a point, and the high score follows the score.

`pongo.dfy` holds one module, `Pongo`, in two layers:

- **Value view (the specification).** The datatypes `Objecto`, `BolaState` and
  `GameState` describe the state, and one pure function specifies each step:
  `MovePaleta`, `MoveBola`, `ResetGame`, `WallCollision`, `PaletaCollision` and `Tick`
  (one `Update`). `Run` applies `Tick` once per element of a key sequence, the way the
  host's run loop calls `Update`. `PeakScore` is the best score seen along such a run.
  Lemmas prove what holds over any number of ticks: the score invariant, a high score
  that never falls and always equals the best score reached, the velocity invariant and
  a paddle that only moves vertically.
- **Objects updated in place.** The classes `Paleta`, `Bola` and `Game` have the
  source's fields. Each pointer-receiver method is a Dafny method with a `modifies`
  clause. Its `ensures` clause equates the new state with the specification function
  applied to the old state (`State() == Tick(old(State()), ...)`). Go's embedded
  `Objecto` struct becomes plain `X`, `Y`, `W`, `H` fields in each class, as Go
  promotes them. `NewGame` builds the state that `main` sets up.

The keys polled with `ebiten.IsKeyPressed` become two boolean parameters,
`downPressed` and `upPressed`.

Behaviour of the code that the model keeps as written:

- The paddle's vertical range test is inclusive at both ends.
- The paddle is not clamped to the screen.
- After a reset the ball sits at (0, 0), the top-left corner of the screen. The left
  and top walls then fire on that position in the same tick, so the velocity becomes
  (+3, +3).
- A ball at (638, 240) with velocity (3, 3), level with the paddle, lands at x = 641.
  The right-edge reset runs before the paddle test, so the ball is not returned
  (`RightEdgeWinsOverPaddle`).
- The paddle test has no right-hand bound. A ball already inside the paddle's column
  scores on consecutive ticks (`BallInsidePaddleScoresTwice`).

## Model

| member | source | states |
|---|---|---|
| `Pongo.MovePaleta` | main.go:36-43 | the down key alone adds 6 to Y, the up key alone subtracts 6, both or neither leave Y; X, W, H are untouched and there is no clamping |
| `Pongo.MoveBola` | main.go:50-53 | the position advances by exactly (dxdt, dydt); velocity and size are unchanged |
| `Pongo.ResetGame` | main.go:109-113 | the ball is at (0, 0) and the score is 0; high score, ball velocity, ball size and paddle are unchanged; the score invariant survives |
| `Pongo.WallCollision` | main.go:115-128 | at or past x = 640 the ball ends at (0, 0) with score 0 and velocity (+3, +3); otherwise position and score stay; final X <= 0 forces dxdt = +3, else dxdt stays; final Y <= 0 forces dydt = +3, Y >= 480 forces -3, otherwise dydt stays; paddle and high score untouched; score and velocity invariants kept |
| `Pongo.PaletaCollision` | main.go:130-138 | on an inclusive hit dxdt is negated, the score rises by exactly 1 and the high score becomes max(old high score, new score); without a hit nothing changes, and the state changes exactly when there is a hit; score and velocity invariants kept |
| `Pongo.Tick` | main.go:101-107 | one update moves the paddle as the keys say, keeps the ball's size, never lowers the high score, keeps 0 <= score <= highScore, and leaves highScore = max(old highScore, new score) |
| `Pongo.PeakScore` | main.go:133-136 | the best score along a run is at least the starting score |
| `Pongo.RunKeepsScoreInvariant` | main.go:101-138 | 0 <= score <= highScore holds after every number of updates |
| `Pongo.RunHighScoreMonotone` | main.go:133-136 | the high score never decreases over any number of updates |
| `Pongo.RunHighScoreIsPeak` | main.go:130-138 | after any run the high score is the larger of the starting high score and the best score reached |
| `Pongo.HighScoreFromStartIsBestScore` | main.go:152-171 | from the state `main` builds, the high score is exactly the best score ever reached and never below the current score |
| `Pongo.RunKeepsVelocityInvariant` | main.go:115-138 | both velocity components stay in {-3, 0, +3} over any run |
| `Pongo.RunKeepsPaletaColumn` | main.go:36-43 | the paddle's X, W and H never change over a run |
| `Pongo.RightEdgeWinsOverPaddle` | main.go:115-124 | a ball at (638, 240) moving (3, 3) is reset to (0, 0) with velocity (3, 3) before the paddle test |
| `Pongo.PaddleReturnsBall` | main.go:130-138 | a ball at (597, 240) moving (3, 3) hits the paddle at (600, 243): velocity (-3, 3), score 1, high score 1 |
| `Pongo.LeftWallForcesPositive` | main.go:119-121 | a ball at x = 1 moving -3 gets dxdt = +3 (forced, not negated) |
| `Pongo.BallInsidePaddleScoresTwice` | main.go:131 | a ball inside the paddle's column scores on two ticks in a row, its dxdt flipping each time |
| `Pongo.Paleta.constructor` | main.go:32-34 | a paddle has the given rectangle |
| `Pongo.Paleta.MoveOnKeyPress` | main.go:36-43 | the new paddle is `MovePaleta` of the old one |
| `Pongo.Bola.constructor` | main.go:45-48 | a ball built from a rectangle starts with zero velocity |
| `Pongo.Bola.Move` | main.go:50-53 | the new ball is `MoveBola` of the old one |
| `Pongo.Game.constructor` | main.go:168-171 | a game holds the given paddle and ball, with score and high score 0 |
| `Pongo.Game.Update` | main.go:101-107 | the new state is `Tick` of the old one; the score invariant is kept and the high score does not fall |
| `Pongo.Game.Reset` | main.go:109-113 | the new state is `ResetGame` of the old one; only the ball position and score are written |
| `Pongo.Game.CollideWithWall` | main.go:115-128 | the new state is `WallCollision` of the old one; the paddle and high score are not in its frame |
| `Pongo.Game.CollideWithPaleta` | main.go:130-138 | the new state is `PaletaCollision` of the old one |
| `Pongo.NewGame` | main.go:152-171 | builds fresh objects whose state is `InitialState`: paddle and ball at (600, 200, 15, 100), velocity 0, scores 0 |

## Left out

- `Draw`: rendering with float conversions and text formatting; it holds no game logic.
- `Layout`: it only returns the screen constants to the window host.
- `init`: font loading, whose failure ends the process with `log.Fatal`.
- `main`'s window setup and `ebiten.RunGame`. The run loop is represented only by `Run`, one `Tick` per element of a key sequence. Its initial values are `InitialState` and `NewGame`.
- `ebiten.IsKeyPressed`: a foreign input call, replaced by the `downPressed` and `upPressed` parameters.
- Go's 64-bit `int` wrap-around: the model uses unbounded integers. The code never guards against overflow, and a score or position would need about 2^63 ticks to reach it.
- The constants `fontSize` and `smallFontSize`: they serve only the renderer.
