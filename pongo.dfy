/**
  A model of the per-tick game-state update of Pongo, a Pong-style game:
  a paddle (Paleta) moved by the arrow keys, a ball (Bola) that moves by its
  velocity, bounces off the left, top and bottom walls, resets when it passes
  the right edge, and scores when it reaches the paddle.

  The value view (datatypes and pure functions) is the specification; the
  classes Paleta, Bola and Game update their fields in place, as the
  pointer-receiver methods of the game do, and are proved against it.
  Integers are unbounded; keyboard polling is passed in as two booleans.
 */
module Pongo {

  // ---------------------------------------------------------------------
  // Constants of the game

  const ScreenWidth: int := 640
  const ScreenHeight: int := 480
  /** Speed the walls give the ball, in pixels per tick. */
  const BolaSpeed: int := 3
  /** Distance the paddle moves per tick while a key is held. */
  const PaletaSpeed: int := 6

  function Max(a: int, b: int): (m: int)
    ensures m >= a && m >= b && (m == a || m == b)
  {
    if a >= b then a else b
  }

  // ---------------------------------------------------------------------
  // Value view of the state

  /** An axis-aligned rectangle: top-left corner (X, Y), width W, height H. */
  datatype Objecto = Objecto(X: int, Y: int, W: int, H: int)

  /** The ball: its rectangle and its velocity per tick. */
  datatype BolaState = BolaState(pos: Objecto, dxdt: int, dydt: int)

  /** The whole game: paddle, ball, current score and high score. */
  datatype GameState = GameState(paleta: Objecto, bola: BolaState, score: int, highScore: int)

  /** The keys held during one tick. */
  datatype Keys = Keys(downPressed: bool, upPressed: bool)

  /** The invariant Update keeps: the score is never negative and never above the high score. */
  predicate ScoreInvariant(s: GameState)
  {
    0 <= s.score <= s.highScore
  }

  /** A velocity component that is zero or one wall speed in either direction. */
  predicate IsWallSpeed(v: int)
  {
    v == -BolaSpeed || v == 0 || v == BolaSpeed
  }

  /** The velocity invariant: both components are 0 or +/- BolaSpeed. */
  predicate VelocityInvariant(s: GameState)
  {
    IsWallSpeed(s.bola.dxdt) && IsWallSpeed(s.bola.dydt)
  }

  /** The state `main` builds: paddle and ball both at (600, 200) of size 15 x 100,
      the ball at rest, both scores zero. */
  const InitialState: GameState :=
    GameState(Objecto(600, 200, 15, 100), BolaState(Objecto(600, 200, 15, 100), 0, 0), 0, 0)

  // ---------------------------------------------------------------------
  // Specification of each step

  /** Paleta.MoveOnKeyPress: the down key adds PaletaSpeed to Y, then the up key
      subtracts it; no clamping to the screen. */
  function MovePaleta(p: Objecto, downPressed: bool, upPressed: bool): (r: Objecto)
    ensures r.X == p.X && r.W == p.W && r.H == p.H
    ensures downPressed && !upPressed ==> r.Y == p.Y + PaletaSpeed
    ensures upPressed && !downPressed ==> r.Y == p.Y - PaletaSpeed
    ensures downPressed == upPressed ==> r.Y == p.Y
  {
    var afterDown := if downPressed then p.Y + PaletaSpeed else p.Y;
    p.(Y := if upPressed then afterDown - PaletaSpeed else afterDown)
  }

  /** Bola.Move: the position advances by the velocity; velocity and size stay. */
  function MoveBola(b: BolaState): (r: BolaState)
    ensures r.pos.X - b.pos.X == b.dxdt && r.pos.Y - b.pos.Y == b.dydt
    ensures r.pos.W == b.pos.W && r.pos.H == b.pos.H
    ensures r.dxdt == b.dxdt && r.dydt == b.dydt
  {
    b.(pos := b.pos.(X := b.pos.X + b.dxdt, Y := b.pos.Y + b.dydt))
  }

  /** Game.Reset: the ball goes back to (0, 0) and the score to 0; nothing else changes. */
  function ResetGame(s: GameState): (r: GameState)
    ensures r.bola.pos.X == 0 && r.bola.pos.Y == 0 && r.score == 0
    ensures r.bola.pos.W == s.bola.pos.W && r.bola.pos.H == s.bola.pos.H
    ensures r.bola.dxdt == s.bola.dxdt && r.bola.dydt == s.bola.dydt
    ensures r.paleta == s.paleta && r.highScore == s.highScore
    ensures ScoreInvariant(s) ==> ScoreInvariant(r)
  {
    s.(bola := s.bola.(pos := s.bola.pos.(X := 0, Y := 0)), score := 0)
  }

  /** Game.CollideWithWall: a ball at or past the right edge resets the game; then,
      on the resulting position, the left edge forces dxdt to +BolaSpeed, the top edge
      forces dydt to +BolaSpeed and the bottom edge to -BolaSpeed. These are forced
      values, not reflections. */
  function WallCollision(s: GameState): (r: GameState)
    // the right edge
    ensures s.bola.pos.X >= ScreenWidth ==>
      r.bola.pos.X == 0 && r.bola.pos.Y == 0 && r.score == 0 &&
      r.bola.dxdt == BolaSpeed && r.bola.dydt == BolaSpeed
    ensures s.bola.pos.X < ScreenWidth ==> r.bola.pos == s.bola.pos && r.score == s.score
    // the left edge, judged on the position after a possible reset
    ensures r.bola.pos.X <= 0 ==> r.bola.dxdt == BolaSpeed
    ensures r.bola.pos.X > 0 ==> r.bola.dxdt == s.bola.dxdt
    // the top and bottom edges
    ensures r.bola.pos.Y <= 0 ==> r.bola.dydt == BolaSpeed
    ensures r.bola.pos.Y >= ScreenHeight ==> r.bola.dydt == -BolaSpeed
    ensures 0 < r.bola.pos.Y < ScreenHeight ==> r.bola.dydt == s.bola.dydt
    // what no wall touches
    ensures r.bola.pos.W == s.bola.pos.W && r.bola.pos.H == s.bola.pos.H
    ensures r.paleta == s.paleta && r.highScore == s.highScore
    ensures ScoreInvariant(s) ==> ScoreInvariant(r)
    ensures VelocityInvariant(s) ==> VelocityInvariant(r)
  {
    var s1 := if s.bola.pos.X >= ScreenWidth then ResetGame(s) else s;
    var s2 := if s1.bola.pos.X <= 0 then s1.(bola := s1.bola.(dxdt := BolaSpeed)) else s1;
    var s3 := if s2.bola.pos.Y <= 0 then s2.(bola := s2.bola.(dydt := BolaSpeed)) else s2;
    if s3.bola.pos.Y >= ScreenHeight then s3.(bola := s3.bola.(dydt := -BolaSpeed)) else s3
  }

  /** The paddle-hit test of CollideWithPaleta: the ball's top-left corner is at or
      right of the paddle's left edge and within the paddle's vertical span, both
      ends included. The ball's own size plays no part. */
  predicate HitsPaleta(b: Objecto, p: Objecto)
  {
    b.X >= p.X && p.Y <= b.Y <= p.Y + p.H
  }

  /** Game.CollideWithPaleta: on a hit, dxdt is negated, the score goes up by one
      and the high score follows it when exceeded; otherwise nothing changes. */
  function PaletaCollision(s: GameState): (r: GameState)
    ensures HitsPaleta(s.bola.pos, s.paleta) ==>
      r.bola.dxdt == -s.bola.dxdt && r.score == s.score + 1 &&
      r.highScore == Max(s.highScore, s.score + 1)
    ensures !HitsPaleta(s.bola.pos, s.paleta) ==> r == s
    ensures r != s <==> HitsPaleta(s.bola.pos, s.paleta)
    ensures r.paleta == s.paleta && r.bola.pos == s.bola.pos && r.bola.dydt == s.bola.dydt
    ensures r.highScore >= s.highScore
    ensures ScoreInvariant(s) ==> ScoreInvariant(r)
    ensures VelocityInvariant(s) ==> VelocityInvariant(r)
  {
    if HitsPaleta(s.bola.pos, s.paleta) then
      var scored := s.score + 1;
      s.(bola := s.bola.(dxdt := -s.bola.dxdt),
         score := scored,
         highScore := if scored > s.highScore then scored else s.highScore)
    else
      s
  }

  /** Game.Update: move the paddle, move the ball, resolve walls, resolve the paddle. */
  function Tick(s: GameState, keys: Keys): (r: GameState)
    ensures r.paleta == MovePaleta(s.paleta, keys.downPressed, keys.upPressed)
    ensures r.bola.pos.W == s.bola.pos.W && r.bola.pos.H == s.bola.pos.H
    ensures r.highScore >= s.highScore
    ensures ScoreInvariant(s) ==> ScoreInvariant(r)
    ensures ScoreInvariant(s) ==> r.highScore == Max(s.highScore, r.score)
    ensures VelocityInvariant(s) ==> VelocityInvariant(r)
  {
    var moved := s.(paleta := MovePaleta(s.paleta, keys.downPressed, keys.upPressed),
                    bola := MoveBola(s.bola));
    PaletaCollision(WallCollision(moved))
  }

  // ---------------------------------------------------------------------
  // Many ticks: the host calls Update once per tick

  /** The state after one Update per element of `ticks`, in order. */
  function Run(s: GameState, ticks: seq<Keys>): GameState
    decreases |ticks|
  {
    if ticks == [] then s else Run(Tick(s, ticks[0]), ticks[1..])
  }

  /** The largest score among `s` and every state reached from it along `ticks`. */
  function PeakScore(s: GameState, ticks: seq<Keys>): (m: int)
    ensures m >= s.score
    decreases |ticks|
  {
    if ticks == [] then s.score else Max(s.score, PeakScore(Tick(s, ticks[0]), ticks[1..]))
  }

  /** score <= highScore (and score >= 0) holds after every tick of a run. */
  lemma {:induction false} RunKeepsScoreInvariant(s: GameState, ticks: seq<Keys>)
    requires ScoreInvariant(s)
    ensures ScoreInvariant(Run(s, ticks))
    decreases |ticks|
  {
    if ticks != [] {
      RunKeepsScoreInvariant(Tick(s, ticks[0]), ticks[1..]);
    }
  }

  /** The high score never decreases over a run. */
  lemma {:induction false} RunHighScoreMonotone(s: GameState, ticks: seq<Keys>)
    ensures Run(s, ticks).highScore >= s.highScore
    decreases |ticks|
  {
    if ticks != [] {
      RunHighScoreMonotone(Tick(s, ticks[0]), ticks[1..]);
    }
  }

  /** The high score after a run is the larger of the starting high score and the
      best score reached along the way. */
  lemma {:induction false} RunHighScoreIsPeak(s: GameState, ticks: seq<Keys>)
    requires ScoreInvariant(s)
    ensures Run(s, ticks).highScore == Max(s.highScore, PeakScore(s, ticks))
    decreases |ticks|
  {
    if ticks != [] {
      var next := Tick(s, ticks[0]);
      RunHighScoreIsPeak(next, ticks[1..]);
    }
  }

  /** From the state `main` sets up, the high score is exactly the best score
      ever reached, and never below the current score. */
  lemma {:induction false} HighScoreFromStartIsBestScore(ticks: seq<Keys>)
    ensures Run(InitialState, ticks).highScore == PeakScore(InitialState, ticks)
    ensures ScoreInvariant(Run(InitialState, ticks))
  {
    RunHighScoreIsPeak(InitialState, ticks);
    RunKeepsScoreInvariant(InitialState, ticks);
  }

  /** Both velocity components stay in {-BolaSpeed, 0, BolaSpeed} over a run. */
  lemma {:induction false} RunKeepsVelocityInvariant(s: GameState, ticks: seq<Keys>)
    requires VelocityInvariant(s)
    ensures VelocityInvariant(Run(s, ticks))
    decreases |ticks|
  {
    if ticks != [] {
      RunKeepsVelocityInvariant(Tick(s, ticks[0]), ticks[1..]);
    }
  }

  /** The paddle's X, W and H never change over a run; only its Y moves. */
  lemma {:induction false} RunKeepsPaletaColumn(s: GameState, ticks: seq<Keys>)
    ensures Run(s, ticks).paleta.X == s.paleta.X
    ensures Run(s, ticks).paleta.W == s.paleta.W && Run(s, ticks).paleta.H == s.paleta.H
    decreases |ticks|
  {
    if ticks != [] {
      RunKeepsPaletaColumn(Tick(s, ticks[0]), ticks[1..]);
    }
  }

  // ---------------------------------------------------------------------
  // Worked ticks

  /** A ball at (638, 240) moving (3, 3), with the paddle at (600, 200, 15, 100),
      reaches x = 641 and passes the right edge before the paddle test runs: the
      game resets and the ball then gets velocity (3, 3) from the left and top walls. */
  lemma RightEdgeWinsOverPaddle()
    ensures
      var s := GameState(Objecto(600, 200, 15, 100), BolaState(Objecto(638, 240, 15, 100), 3, 3), 0, 0);
      Tick(s, Keys(false, false)) ==
        GameState(Objecto(600, 200, 15, 100), BolaState(Objecto(0, 0, 15, 100), 3, 3), 0, 0)
  {
  }

  /** A ball at (597, 240) moving (3, 3) reaches x = 600 at y = 243, inside the
      paddle's span: dxdt becomes -3 and score and high score become 1. */
  lemma PaddleReturnsBall()
    ensures
      var s := GameState(Objecto(600, 200, 15, 100), BolaState(Objecto(597, 240, 15, 100), 3, 3), 0, 0);
      Tick(s, Keys(false, false)) ==
        GameState(Objecto(600, 200, 15, 100), BolaState(Objecto(600, 243, 15, 100), -3, 3), 1, 1)
  {
  }

  /** A ball at x = 1 moving left by 3 lands at x = -2; the left wall sets dxdt to
      +3 rather than negating it. */
  lemma LeftWallForcesPositive()
    ensures
      var s := GameState(Objecto(600, 200, 15, 100), BolaState(Objecto(1, 240, 15, 100), -3, 3), 4, 7);
      Tick(s, Keys(false, false)).bola == BolaState(Objecto(-2, 243, 15, 100), 3, 3)
  {
  }

  /** The hit test has no right-hand bound: a ball that is already inside the
      paddle's column scores on two ticks in a row. */
  lemma BallInsidePaddleScoresTwice()
    ensures
      var s := GameState(Objecto(600, 200, 15, 100), BolaState(Objecto(606, 240, 15, 100), 3, 0), 0, 0);
      var s1 := Tick(s, Keys(false, false));
      s1.score == 1 && s1.bola.dxdt == -3 &&
      Tick(s1, Keys(false, false)).score == 2 && Tick(s1, Keys(false, false)).bola.dxdt == 3
  {
  }

  // ---------------------------------------------------------------------
  // The objects the game updates in place

  /** The paddle; its fields are those of the embedded Objecto. */
  class Paleta {
    var X: int
    var Y: int
    var W: int
    var H: int

    constructor (x: int, y: int, w: int, h: int)
      ensures Value() == Objecto(x, y, w, h)
    {
      X, Y, W, H := x, y, w, h;
    }

    function Value(): Objecto
      reads this
    {
      Objecto(X, Y, W, H)
    }

    /** Moves the paddle vertically by the keys held this tick. */
    method MoveOnKeyPress(downPressed: bool, upPressed: bool)
      modifies this
      ensures Value() == MovePaleta(old(Value()), downPressed, upPressed)
    {
      if downPressed {
        Y := Y + PaletaSpeed;
      }
      if upPressed {
        Y := Y - PaletaSpeed;
      }
    }
  }

  /** The ball: the fields of the embedded Objecto plus its velocity. */
  class Bola {
    var X: int
    var Y: int
    var W: int
    var H: int
    var dxdt: int
    var dydt: int

    /** A ball built from a rectangle alone starts at rest, as Go zero-fills the velocity. */
    constructor (x: int, y: int, w: int, h: int)
      ensures Value() == BolaState(Objecto(x, y, w, h), 0, 0)
    {
      X, Y, W, H := x, y, w, h;
      dxdt, dydt := 0, 0;
    }

    function Value(): BolaState
      reads this
    {
      BolaState(Objecto(X, Y, W, H), dxdt, dydt)
    }

    /** Advances the ball by its velocity. */
    method Move()
      modifies this
      ensures Value() == MoveBola(old(Value()))
    {
      X := X + dxdt;
      Y := Y + dydt;
    }
  }

  /** The game: a paddle and a ball it owns, and the two scores. */
  class Game {
    var paleta: Paleta
    var bola: Bola
    var score: int
    var highScore: int

    /** A game over the given paddle and ball, with both scores zero. */
    constructor (paleta: Paleta, bola: Bola)
      ensures this.paleta == paleta && this.bola == bola
      ensures score == 0 && highScore == 0
    {
      this.paleta, this.bola := paleta, bola;
      score, highScore := 0, 0;
    }

    function State(): GameState
      reads this, paleta, bola
    {
      GameState(paleta.Value(), bola.Value(), score, highScore)
    }

    /** One tick of the game for the keys held during it. */
    method Update(downPressed: bool, upPressed: bool)
      modifies this`score, this`highScore, paleta, bola
      ensures State() == Tick(old(State()), Keys(downPressed, upPressed))
      ensures ScoreInvariant(old(State())) ==> ScoreInvariant(State())
      ensures highScore >= old(highScore)
    {
      paleta.MoveOnKeyPress(downPressed, upPressed);
      bola.Move();
      CollideWithWall();
      CollideWithPaleta();
    }

    /** Puts the ball back at (0, 0) and clears the score. */
    method Reset()
      modifies this`score, bola
      ensures State() == ResetGame(old(State()))
    {
      bola.X := 0;
      bola.Y := 0;
      score := 0;
    }

    /** Resolves the right-edge miss and the left, top and bottom walls. */
    method CollideWithWall()
      modifies this`score, bola
      ensures State() == WallCollision(old(State()))
    {
      if bola.X >= ScreenWidth {
        Reset();
      }
      if bola.X <= 0 {
        bola.dxdt := BolaSpeed;
      }
      if bola.Y <= 0 {
        bola.dydt := BolaSpeed;
      }
      if bola.Y >= ScreenHeight {
        bola.dydt := -BolaSpeed;
      }
    }

    /** Reflects the ball off the paddle and scores the hit. */
    method CollideWithPaleta()
      modifies this`score, this`highScore, bola
      ensures State() == PaletaCollision(old(State()))
    {
      if bola.X >= paleta.X && bola.Y >= paleta.Y && bola.Y <= paleta.Y + paleta.H {
        bola.dxdt := -bola.dxdt;
        score := score + 1;
        if score > highScore {
          highScore := score;
        }
      }
    }
  }

  /** The game `main` sets up before handing it to the run loop. */
  method NewGame() returns (g: Game)
    ensures fresh(g) && fresh(g.paleta) && fresh(g.bola)
    ensures g.State() == InitialState
  {
    var paleta := new Paleta(600, 200, 15, 100);
    var bola := new Bola(600, 200, 15, 100);
    g := new Game(paleta, bola);
  }
}
