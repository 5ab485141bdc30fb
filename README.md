# Paper Plane Fly: game rules in Dafny

This project models the game rules of Paper Plane Fly, a side-scrolling arcade game. The player holds a control to make a paper plane climb and releases it to let the plane sink. The plane must fly through the gap between an upper and a lower obstacle bar. A new bar pair is generated each time the current pair finishes crossing the screen, and each finished crossing scores a point. Touching a bar, the ceiling or the ground ends the game.

All of the logic is in `App.js`. It is modelled in three modules:

- `ObstacleGenerator` (`obstacles.dfy`) models `generateObstacles`. It is a pure function from the window height and the random draw to a bar pair. Math.random's value is the parameter `u`, with `0 <= u < 1`. The upper height is `floor(u * (max - min + 1) + min)`, as in the source. Lemmas show four things:
  - a window at least 300 high gives an upper height in `[50, windowHeight - 250]`;
  - every height in that range is produced by some draw;
  - a window shorter than 300 always gives a lower bar shorter than 50;
  - the generator's outputs are exactly the valid pairs.
- `CollisionDetector` (`collision.dfy`) models `checkCollision` as a pure function. Reading `obstacles[0]` or `obstacles[1]` past the end of the array gives `undefined`, and reading `.height` or `.top` of that throws a TypeError. So the function returns either `Returns(hit)` or `TypeError`. It is checked against an independent definition: the closed boxes of the plane (60×40 at x = 50) and of each bar (60 wide) overlap, or the plane touches the ceiling or the ground.
- `GameLoop` (`game.dfy`) has a class `Game` whose fields are the component's state:
  - `planeY`, the plane's vertical position;
  - `obstacleX`, the bar pair's horizontal position;
  - `obstacles`, the current bar pair;
  - `score`, `gameStarted` and `gameOver`.
  
  Its methods are `resetGame`, `startGame`, the game-loop effect's set-up, the obstacle animation, one interval tick and the animation's completion handler. Each method keeps the object invariant `Valid()`:
  - the bar pair's position stays between -100 and the window width;
  - a missing pair waits at the right edge;
  - a present pair is well formed, and valid when the window is large enough;
  - the game is over only after it has started;
  - in a playable window (wider than 110 and at least 300 high), while the game runs, the plane stays strictly inside the window.

`GameLoop.PlaySession` is a usage scenario for the class. It plays a short session in an 800-high window: start, seed the pair, one falling tick, two completed traversals (score 2), then play again (score 0).

Positions (`planeY`, `obstacleX`) are `real`, because in the source they are JavaScript numbers driven by animated values. The window size and the bar offsets and heights are integers. The reset position `windowHeight / 2` is exact real division, so no even window height is required. The window size, the random draw, the control input and each animation frame are parameters of the methods.

Two behaviours of the code that the model keeps:
- `generateObstacles` does not check that the range for the random height is non-empty. The model computes what the code computes, and `ObstacleGenerator.ShortWindowBottomTooShort` shows the effect: in a window shorter than 300 the lower bar is always shorter than 50.
- `checkCollision` is not total. It throws when the plane is in the obstacle lane and the bar it reads is missing. The model returns `TypeError` in that case. `GameLoop.Game.Tick` shows that this can only happen in a window at most 110 wide.

## Model

| member | source | states |
|---|---|---|
| `ObstacleGenerator.GenerateObstacles` | App.js:30-49 | The result is two bars. The first starts at the top of the window and its height is the drawn top height. The second starts one 200-high gap below the first. Together the bars and the gap span exactly the window height. |
| `ObstacleGenerator.TopHeightInRange` | App.js:31-36 | If the window is at least 50 + 200 + 50 high, every draw `0 <= u < 1` gives a top height in `[50, windowHeight - 250]`. |
| `ObstacleGenerator.TopHeightCoversRange` | App.js:34-36 | Every whole number in `[50, windowHeight - 250]` is the top height for some draw in `[0, 1)`. With TopHeightInRange, the draw's range is exactly that interval. |
| `ObstacleGenerator.ShortWindowBottomTooShort` | App.js:31-37 | In a window shorter than 300, every draw gives a lower bar shorter than the 50 minimum. |
| `ObstacleGenerator.GeneratedPairValidIff` | App.js:30-49 | The generated pair has both bars at least 50 high and spans the window exactly if and only if the window is at least 300 high. |
| `ObstacleGenerator.EveryValidPairGenerated` | App.js:30-49 | Every valid pair (well formed, both bars at least 50) is the output for some draw. |
| `CollisionDetector.CheckCollision` | App.js:52-75 | The check throws exactly when the pair is in the plane's lane (`x <= 110 && x + 60 >= 50`) and the element it reads is missing. Leaving the window (`planeY <= 0` or `planeY + 40 >= windowHeight`) is a hit wherever the pair is, unless the check throws (pair in the lane, bars missing). In the lane, touching the upper bar's bottom is a hit whenever the upper bar exists, and touching the lower bar's top is a hit whenever both bars exist. Out of the lane and inside the window the result is no hit, and the bars are never read. Nothing else is a hit. |
| `CollisionDetector.CheckCollisionIsBoxOverlap` | App.js:52-75 | On a well-formed pair the check never throws. It returns true if and only if the plane's box touches one of the bars' boxes or the plane leaves the window. |
| `CollisionDetector.CollisionScenarios` | App.js:52-75 | Worked cases in an 800-high window with bars 0..120 and 320..800: a hit on the upper bar at x = 40; no hit at x = 500; a hit at the ceiling and at the ground; no hit and no error with no bars out of the lane; a hit on the upper bar when it is the only bar. |
| `GameLoop.Game.constructor` | App.js:14-27 | The initial state is: not started, not over, plane at half the window height, pair position at the window width, no bars, score 0. |
| `GameLoop.Game.Reset` | App.js:133-139 | resetGame leaves the plane at half height, the pair at the window width, no bars, score 0 and the game not over, and it keeps `gameStarted`. The result depends only on the window size. Resetting a reset game changes nothing, so reset is idempotent. |
| `GameLoop.Game.Start` | App.js:142-145 | startGame leaves the reset state with the game running, whatever the previous session's score. Starting a freshly started game changes nothing. |
| `GameLoop.Game.SeedObstacles` | App.js:79-84 | While the game runs and no bars exist, the set-up generates a pair and puts it at the window width. Otherwise the state is unchanged. Afterwards a running game has bars. |
| `GameLoop.Game.SlideObstacles` | App.js:86-91 | An animation frame moves the pair to a position between -100 and the window width. Nothing else changes. |
| `GameLoop.Game.Tick` | App.js:103-123 | The plane moves exactly +5 when released and -5 when held. The game becomes over if and only if the check on the new position reports a hit. The check throws only when there are no bars and the window is at most 110 wide. In a playable window the result is the box-overlap collision. Bars, pair position, score and started flag are unchanged. |
| `GameLoop.Game.CompleteTraversal` | App.js:93-99 | A finished traversal while the game runs puts the pair back at the window width, replaces it with a freshly generated pair and adds exactly 1 to the score. Otherwise nothing changes. The plane and the flags never change. |

## Left out

- Rendering (App.js:147-278) and the two visual components `components/PaperPlane.js` and `components/Obstacle.js`. They only draw what the state holds.
- Timers and animation plumbing (`setInterval` at 16 ms, `Animated.timing` over 3000 ms with its easing, effect cleanup). A tick, an animation frame and a completed traversal are explicit method calls. An animation frame may move the pair to any point between -100 and the window width. The completion callback (App.js:93-100) does not start a new animation, and the effect's dependencies (App.js:130) do not change after a traversal. So in the source the new pair waits at the right edge until the held state changes. The model does not capture this: it allows further frames at any time while the game runs.
- `GameLoop.Game.Tick` requires the game to be running. It does not re-check this, because the interval exists only while `gameStarted && !gameOver` holds and is cleared on a hit or on cleanup. The completion handler keeps its own guard. A stopped animation calls the handler with `finished == false`, which the model treats as a no-op.
- The interleaving of the interval callback with the animation callback, and React's asynchronous state updates. The model runs every step in sequence on the current state.
- The source's callbacks see the `obstacles`, `gameStarted` and `gameOver` captured when the effect last ran. The effect re-runs on `obstacles.length`, not on `obstacles`, so a tick after a traversal can still test the previous pair. The model reads the current fields.
- The source reads `obstaclesPosition._value` during a native-driver animation. Whether the JavaScript-side value tracks the native animation is a platform matter. The model uses the position the animation has reached.
- `Dimensions.get` (App.js:14-15): the window size is a pair of positive integer parameters. Fractional window sizes are not modelled.
- `Math.random` (App.js:35): the draw is the parameter `u` with `0 <= u < 1`. Arithmetic is exact, so floating-point rounding of `u * span` is not modelled.
- The press handlers `onPressIn` and `onPressOut` (App.js:149-150) belong to the rendered view. The held state is the `pressed` parameter of a tick.
