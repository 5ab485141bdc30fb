/** Obstacle-pair generation: an upper bar hanging from the top of the window
    and a lower bar standing on the bottom, separated by a fixed gap.  The
    height of the upper bar is drawn at random; the random source is a
    parameter `u`, the value Math.random would return (0 <= u < 1). */
module ObstacleGenerator {

  /** One obstacle bar: its vertical offset from the top of the window and its height. */
  datatype Obstacle = Obstacle(top: int, height: int)

  /** Vertical gap between the upper and the lower bar. */
  const GapHeight: int := 200
  /** Smallest height either bar is meant to have. */
  const MinHeight: int := 50

  /** Largest height the upper bar is meant to have. */
  function MaxHeight(windowHeight: int): (m: int) {
    windowHeight - GapHeight - MinHeight
  }

  /** Number of distinct upper heights the draw can produce: max - min + 1. */
  function Span(windowHeight: int): (n: int) {
    MaxHeight(windowHeight) - MinHeight + 1
  }

  /** The height of the upper bar for the draw `u`: floor(u * span + min). */
  function TopHeight(windowHeight: int, u: real): (t: int)
    requires 0.0 <= u < 1.0
  {
    (u * Span(windowHeight) as real + MinHeight as real).Floor
  }

  /** The shape every generated pair has: two bars, the first starting at the
      top of the window, the second starting one gap below the first, the two
      bars and the gap together spanning the window exactly. */
  predicate WellFormedPair(pair: seq<Obstacle>, windowHeight: int) {
    |pair| == 2 &&
    pair[0].top == 0 &&
    pair[1].top == pair[0].height + GapHeight &&
    pair[1].top + pair[1].height == windowHeight
  }

  /** A well-formed pair in which neither bar is shorter than MinHeight. */
  predicate ValidPair(pair: seq<Obstacle>, windowHeight: int) {
    WellFormedPair(pair, windowHeight) &&
    pair[0].height >= MinHeight &&
    pair[1].height >= MinHeight
  }

  /** generateObstacles: the pair for the draw `u`. */
  function GenerateObstacles(windowHeight: int, u: real): (pair: seq<Obstacle>)
    requires 0.0 <= u < 1.0
    ensures WellFormedPair(pair, windowHeight)
    ensures pair[0].height == TopHeight(windowHeight, u)
  {
    var topHeight := TopHeight(windowHeight, u);
    var bottomHeight := windowHeight - topHeight - GapHeight;
    [Obstacle(0, topHeight), Obstacle(topHeight + GapHeight, bottomHeight)]
  }

  /** When the window leaves room for the gap and two minimal bars, every
      draw gives an upper height in [MinHeight, MaxHeight]. */
  lemma TopHeightInRange(windowHeight: int, u: real)
    requires windowHeight >= GapHeight + 2 * MinHeight
    requires 0.0 <= u < 1.0
    ensures MinHeight <= TopHeight(windowHeight, u) <= MaxHeight(windowHeight)
  {
    var n := Span(windowHeight) as real;
    assert n >= 1.0;
    assert (1.0 - u) * n > 0.0;
    assert 0.0 <= u * n < n;
  }

  /** Every upper height in [MinHeight, MaxHeight] is produced by some draw:
      with TopHeightInRange, the draw ranges over exactly that interval. */
  lemma TopHeightCoversRange(windowHeight: int, t: int)
    requires MinHeight <= t <= MaxHeight(windowHeight)
    ensures exists u: real :: 0.0 <= u < 1.0 && TopHeight(windowHeight, u) == t
  {
    var n := Span(windowHeight) as real;
    var k := (t - MinHeight) as real;
    var u := k / n;
    assert u * n == k;
    assert 0.0 <= u < 1.0;
    assert TopHeight(windowHeight, u) == t;
  }

  /** In a window too short for the gap and two minimal bars, whatever the
      draw, the lower bar comes out shorter than MinHeight. */
  lemma ShortWindowBottomTooShort(windowHeight: int, u: real)
    requires windowHeight < GapHeight + 2 * MinHeight
    requires 0.0 <= u < 1.0
    ensures GenerateObstacles(windowHeight, u)[1].height < MinHeight
  {
    var n := Span(windowHeight) as real;
    assert n <= 0.0;
    assert (1.0 - u) * n <= 0.0;
    assert u * n >= n;
    assert TopHeight(windowHeight, u) >= Span(windowHeight) + MinHeight;
  }

  /** A generated pair is valid exactly when the window is at least
      GapHeight + 2 * MinHeight tall. */
  lemma GeneratedPairValidIff(windowHeight: int, u: real)
    requires 0.0 <= u < 1.0
    ensures ValidPair(GenerateObstacles(windowHeight, u), windowHeight)
            <==> windowHeight >= GapHeight + 2 * MinHeight
  {
    if windowHeight >= GapHeight + 2 * MinHeight {
      TopHeightInRange(windowHeight, u);
    } else {
      ShortWindowBottomTooShort(windowHeight, u);
    }
  }

  /** Every valid pair is produced by some draw: the generator's outputs are
      exactly the valid pairs. */
  lemma EveryValidPairGenerated(pair: seq<Obstacle>, windowHeight: int)
    requires ValidPair(pair, windowHeight)
    ensures exists u: real :: 0.0 <= u < 1.0 && GenerateObstacles(windowHeight, u) == pair
  {
    TopHeightCoversRange(windowHeight, pair[0].height);
    var u: real :| 0.0 <= u < 1.0 && TopHeight(windowHeight, u) == pair[0].height;
    var g := GenerateObstacles(windowHeight, u);
    assert g[0] == pair[0] && g[1] == pair[1];
    assert g == pair;
  }
}
