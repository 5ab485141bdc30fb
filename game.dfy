/** The game session: the plane's vertical position, the obstacle pair and
    its horizontal position, the score and the start/over flags, changed in
    place by the start and reset actions, the game-loop tick, the obstacle
    animation and the animation's completion handler.  Timers are not
    modelled: each tick, each animation frame and each completed traversal
    is an explicit method call, and the random draw is a parameter. */
module GameLoop {
  import opened ObstacleGenerator
  import opened CollisionDetector

  /** Distance the plane moves per tick: down when released, up when held. */
  const TickStep: real := 5.0
  /** Where the obstacle animation ends: just past the left edge. */
  const ObstacleEnd: real := -100.0

  class Game {
    const windowWidth: int
    const windowHeight: int

    var planeY: real
    var obstacleX: real
    var obstacles: seq<Obstacle>
    var score: nat
    var gameStarted: bool
    var gameOver: bool

    /** The game loop and the obstacle animation are active. */
    predicate Running()
      reads this
    {
      gameStarted && !gameOver
    }

    /** A window wider than the plane's lane and tall enough for the gap and
        two minimal bars: every phone screen the game targets. */
    predicate Playable() {
      windowWidth > 110 && windowHeight >= GapHeight + 2 * MinHeight
    }

    /** The state left by resetGame. */
    predicate IsReset()
      reads this
    {
      planeY == windowHeight as real / 2.0 &&
      obstacleX == windowWidth as real &&
      obstacles == [] &&
      score == 0 &&
      !gameOver
    }

    ghost predicate Valid()
      reads this
    {
      windowWidth > 0 && windowHeight > 0 &&
      // the obstacles sit somewhere on their path across the window
      ObstacleEnd <= obstacleX <= windowWidth as real &&
      // with no obstacles yet, they wait at the right edge
      (obstacles == [] ==> obstacleX == windowWidth as real) &&
      (obstacles != [] ==> WellFormedPair(obstacles, windowHeight)) &&
      (obstacles != [] && Playable() ==> ValidPair(obstacles, windowHeight)) &&
      (gameOver ==> gameStarted) &&
      // collisions keep a running plane strictly inside the window
      (Running() && Playable() ==> !OutOfBounds(windowHeight, planeY))
    }

    /** The component's initial state: not started, plane at mid-height,
        obstacles at the right edge, none generated, score zero. */
    constructor (windowWidth: int, windowHeight: int)
      requires windowWidth > 0 && windowHeight > 0
      ensures Valid()
      ensures this.windowWidth == windowWidth && this.windowHeight == windowHeight
      ensures IsReset() && !gameStarted
    {
      this.windowWidth := windowWidth;
      this.windowHeight := windowHeight;
      planeY := windowHeight as real / 2.0;
      obstacleX := windowWidth as real;
      obstacles := [];
      score := 0;
      gameStarted := false;
      gameOver := false;
    }

    /** resetGame: plane back to mid-height, obstacles cleared and back at the
        right edge, score zero, not over.  The result depends on nothing but
        the window size, and resetting a reset game changes nothing. */
    method Reset()
      requires Valid()
      modifies this
      ensures Valid()
      ensures IsReset()
      ensures gameStarted == old(gameStarted)
      ensures old(IsReset()) ==> unchanged(this)
    {
      planeY := windowHeight as real / 2.0;
      obstacleX := windowWidth as real;
      obstacles := [];
      score := 0;
      gameOver := false;
    }

    /** startGame: reset, then mark the game started, whatever the previous
        session's score or outcome. */
    method Start()
      requires Valid()
      modifies this
      ensures Valid()
      ensures IsReset() && Running()
      ensures old(IsReset() && gameStarted) ==> unchanged(this)
    {
      Reset();
      gameStarted := true;
    }

    /** The game-loop effect's set-up: while running, an empty obstacle list
        is filled with a fresh pair placed at the right edge; a present pair
        is kept.  `u` is the random draw. */
    method SeedObstacles(u: real)
      requires Valid()
      requires 0.0 <= u < 1.0
      modifies this
      ensures Valid()
      ensures if old(Running() && obstacles == [])
              then obstacles == GenerateObstacles(windowHeight, u) && obstacleX == windowWidth as real
              else obstacles == old(obstacles) && obstacleX == old(obstacleX)
      ensures planeY == old(planeY) && score == old(score)
      ensures gameStarted == old(gameStarted) && gameOver == old(gameOver)
      ensures Running() ==> obstacles != []
    {
      if gameStarted && !gameOver && obstacles == [] {
        GeneratedPairValidIff(windowHeight, u);
        obstacles := GenerateObstacles(windowHeight, u);
        obstacleX := windowWidth as real;
      }
    }

    /** One frame of the obstacle animation, which only runs while the game
        runs and after the pair exists: the pair moves to `x`, a point on
        its path from the right edge to ObstacleEnd. */
    method SlideObstacles(x: real)
      requires Valid() && Running() && obstacles != []
      requires ObstacleEnd <= x <= windowWidth as real
      modifies this
      ensures Valid()
      ensures obstacleX == x
      ensures planeY == old(planeY) && obstacles == old(obstacles) && score == old(score)
      ensures gameStarted == old(gameStarted) && gameOver == old(gameOver)
    {
      obstacleX := x;
    }

    /** One game-loop tick, which only fires while the game runs: the plane
        moves down by TickStep, or up when the control is held; then the
        collision check runs on the new position, and a hit ends the game.
        A TypeError from the check aborts the tick after the move. */
    method Tick(pressed: bool) returns (outcome: Outcome)
      requires Valid() && Running()
      modifies this
      ensures Valid()
      ensures planeY == old(planeY) + (if pressed then -TickStep else TickStep)
      ensures outcome == CheckCollision(windowHeight, planeY, obstacles, obstacleX)
      ensures gameOver <==> outcome == Returns(true)
      ensures outcome == TypeError ==> obstacles == [] && windowWidth <= 110
      ensures Playable() ==> outcome == Returns(Collides(windowHeight, planeY, obstacles, obstacleX))
      ensures obstacles == old(obstacles) && obstacleX == old(obstacleX)
      ensures score == old(score) && gameStarted == old(gameStarted)
    {
      if !pressed {
        planeY := planeY + TickStep;
      } else {
        planeY := planeY - TickStep;
      }
      outcome := CheckCollision(windowHeight, planeY, obstacles, obstacleX);
      if outcome == Returns(true) {
        gameOver := true;
      }
      if obstacles != [] {
        CheckCollisionIsBoxOverlap(windowHeight, planeY, obstacles, obstacleX);
      }
    }

    /** The obstacle animation's completion handler: when the traversal
        finished while the game runs, the pair goes back to the right edge,
        a fresh pair replaces it and the score goes up by one; otherwise
        nothing changes.  `u` is the random draw. */
    method CompleteTraversal(finished: bool, u: real)
      requires Valid()
      requires 0.0 <= u < 1.0
      modifies this
      ensures Valid()
      ensures if finished && old(Running())
              then obstacleX == windowWidth as real &&
                   obstacles == GenerateObstacles(windowHeight, u) &&
                   score == old(score) + 1
              else obstacleX == old(obstacleX) && obstacles == old(obstacles) && score == old(score)
      ensures planeY == old(planeY)
      ensures gameStarted == old(gameStarted) && gameOver == old(gameOver)
    {
      if finished && gameStarted && !gameOver {
        GeneratedPairValidIff(windowHeight, u);
        obstacleX := windowWidth as real;
        obstacles := GenerateObstacles(windowHeight, u);
        score := score + 1;
      }
    }
  }

  /** A short session on an 800-high window: start, seed the pair, let the
      plane fall one tick, complete two traversals, then play again. */
  method PlaySession()
  {
    var g := new Game(400, 800);
    g.Start();
    g.SeedObstacles(0.5);
    assert g.obstacles == [Obstacle(0, 300), Obstacle(500, 300)];
    var outcome := g.Tick(false);
    assert g.planeY == 405.0 && outcome == Returns(false) && g.Running();
    g.CompleteTraversal(true, 0.0);
    g.CompleteTraversal(true, 0.99);
    assert g.score == 2 && g.obstacles[0].height == 545;
    g.Start();
    assert g.score == 0 && g.obstacles == [] && g.planeY == 400.0;
  }
}
