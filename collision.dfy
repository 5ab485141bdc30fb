/** Collision detection between the plane and the current obstacle pair.
    The plane's box is fixed horizontally; only its vertical position moves.
    Positions are `real`, as they are JavaScript numbers driven by animated
    values; obstacle offsets and heights are whole numbers. */
module CollisionDetector {
  import opened ObstacleGenerator

  /** Left edge of the plane's box; it never moves horizontally. */
  const PlaneX: real := 50.0
  const PlaneWidth: real := 60.0
  const PlaneHeight: real := 40.0
  const ObstacleWidth: real := 60.0

  /** What evaluating checkCollision does: it returns a boolean, or it throws
      a TypeError when it reads a property of a missing array element
      (`obstacles[0].height` of an empty array, `obstacles[1].top` of a
      one-element array). */
  datatype Outcome = Returns(hit: bool) | TypeError

  /** The obstacle pair's horizontal extent [x, x + 60] meets the plane's
      [50, 110]. */
  predicate InObstacleLane(obstacleX: real) {
    obstacleX <= PlaneX + PlaneWidth && obstacleX + ObstacleWidth >= PlaneX
  }

  /** The plane touches or passes the ceiling or the ground. */
  predicate OutOfBounds(windowHeight: int, planeY: real) {
    planeY <= 0.0 || planeY + PlaneHeight >= windowHeight as real
  }

  /** checkCollision: in the obstacle lane, the plane hits the upper bar when
      its top is at or above the bar's bottom edge, and the lower bar when its
      bottom is at or below the bar's top edge; anywhere, it hits the ceiling
      or the ground. */
  function CheckCollision(windowHeight: int, planeY: real, obstacles: seq<Obstacle>, obstacleX: real): (r: Outcome)
    // Error path: the obstacle reads throw exactly when the plane is in the
    // lane and the element read is missing.
    ensures r == TypeError <==>
      InObstacleLane(obstacleX) &&
      (|obstacles| == 0 || (|obstacles| == 1 && planeY > obstacles[0].height as real))
    // Ceiling and ground: a hit whatever the obstacles' position.
    ensures OutOfBounds(windowHeight, planeY) && r != TypeError ==> r == Returns(true)
    // The upper bar: a hit when in the lane and touching it, even if the
    // lower bar is missing, since it is read first.
    ensures InObstacleLane(obstacleX) && |obstacles| >= 1 &&
            planeY <= obstacles[0].height as real
            ==> r == Returns(true)
    // The lower bar: a hit when in the lane and touching it.
    ensures InObstacleLane(obstacleX) && |obstacles| >= 2 &&
            planeY + PlaneHeight >= obstacles[1].top as real
            ==> r == Returns(true)
    // Out of the lane and inside the window: no hit, and the obstacles are
    // never read, so an empty list is safe.
    ensures !InObstacleLane(obstacleX) && !OutOfBounds(windowHeight, planeY) ==> r == Returns(false)
    // Nothing else is a hit.
    ensures r == Returns(true) ==>
      OutOfBounds(windowHeight, planeY) ||
      (InObstacleLane(obstacleX) && |obstacles| >= 1 &&
       (planeY <= obstacles[0].height as real ||
        (|obstacles| >= 2 && planeY + PlaneHeight >= obstacles[1].top as real)))
  {
    if InObstacleLane(obstacleX) then
      if |obstacles| == 0 then TypeError
      else if planeY <= obstacles[0].height as real then Returns(true)
      else if |obstacles| == 1 then TypeError
      else if planeY + PlaneHeight >= obstacles[1].top as real then Returns(true)
      else Returns(OutOfBounds(windowHeight, planeY))
    else
      Returns(OutOfBounds(windowHeight, planeY))
  }

  /** An axis-aligned rectangle, closed on every side. */
  datatype Box = Box(left: real, top: real, width: real, height: real)

  /** Two closed rectangles share at least one point. */
  predicate Overlaps(a: Box, b: Box) {
    a.left <= b.left + b.width && b.left <= a.left + a.width &&
    a.top <= b.top + b.height && b.top <= a.top + a.height
  }

  function PlaneBox(planeY: real): (b: Box) {
    Box(PlaneX, planeY, PlaneWidth, PlaneHeight)
  }

  function ObstacleBox(o: Obstacle, obstacleX: real): (b: Box) {
    Box(obstacleX, o.top as real, ObstacleWidth, o.height as real)
  }

  /** Reference meaning of a collision: the plane's box touches some
      obstacle's box, or the plane is out of the window vertically. */
  predicate Collides(windowHeight: int, planeY: real, obstacles: seq<Obstacle>, obstacleX: real) {
    OutOfBounds(windowHeight, planeY) ||
    exists o :: o in obstacles && Overlaps(PlaneBox(planeY), ObstacleBox(o, obstacleX))
  }

  /** On a well-formed pair, checkCollision never throws and answers exactly
      whether the plane's box touches an obstacle's box or leaves the window. */
  lemma CheckCollisionIsBoxOverlap(windowHeight: int, planeY: real, obstacles: seq<Obstacle>, obstacleX: real)
    requires WellFormedPair(obstacles, windowHeight)
    ensures CheckCollision(windowHeight, planeY, obstacles, obstacleX)
            == Returns(Collides(windowHeight, planeY, obstacles, obstacleX))
  {
    var p := PlaneBox(planeY);
    var upper, lower := obstacles[0], obstacles[1];
    assert forall o :: o in obstacles ==> o == upper || o == lower;
    var hitsUpper := Overlaps(p, ObstacleBox(upper, obstacleX));
    var hitsLower := Overlaps(p, ObstacleBox(lower, obstacleX));
    assert hitsUpper ==> upper in obstacles;
    assert hitsLower ==> lower in obstacles;
    assert Collides(windowHeight, planeY, obstacles, obstacleX)
           <==> OutOfBounds(windowHeight, planeY) || hitsUpper || hitsLower;
  }

  /** Worked cases in an 800-high window with an upper bar of height 120 over
      a lower bar starting at 320; the last one has the upper bar alone. */
  lemma CollisionScenarios()
    ensures var pair := [Obstacle(0, 120), Obstacle(320, 480)];
      CheckCollision(800, 100.0, pair, 40.0) == Returns(true) &&
      CheckCollision(800, 200.0, pair, 500.0) == Returns(false) &&
      CheckCollision(800, 0.0, pair, 500.0) == Returns(true) &&
      CheckCollision(800, 760.0, pair, 500.0) == Returns(true) &&
      CheckCollision(800, 200.0, [], 500.0) == Returns(false) &&
      CheckCollision(800, 100.0, [Obstacle(0, 120)], 60.0) == Returns(true)
  {
  }
}
