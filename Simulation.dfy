/** One step of worm movement and the wall test that decides whether the
    step is fatal. */
module Simulation {
  import opened Vectors

  /** The cell p lies inside the width × height grid [0, width) × [0, height). */
  predicate InGrid(p: Point, width: int, height: int) {
    0 <= p.x < width && 0 <= p.y < height
  }

  /** Some segment of the worm lies outside the grid. */
  predicate HitsWalls(worm: seq<Point>, width: int, height: int) {
    exists i :: 0 <= i < |worm| && !InGrid(worm[i], width, height)
  }

  /** Translates the worm one step: the new head is the old head plus the
      direction, and every old segment moves one place back, so the old tail
      falls off. A worm without a head has no defined move. */
  function Move(worm: seq<Point>, direction: Point): (r: seq<Point>)
    requires |worm| > 0
    ensures |r| == |worm|
    ensures r[0] == SumVectors(worm[0], direction)
    ensures forall i :: 0 <= i < |worm| - 1 ==> r[i + 1] == worm[i]
  {
    [SumVectors(worm[0], direction)] + worm[..|worm| - 1]
  }

  /** The wall test as the loop with an early exit: it reports a hit as soon
      as one segment is outside the grid, and no hit after seeing them all. */
  method ScanForWalls(worm: seq<Point>, width: int, height: int) returns (hit: bool)
    ensures hit == HitsWalls(worm, width, height)
  {
    for i := 0 to |worm|
      invariant forall j :: 0 <= j < i ==> InGrid(worm[j], width, height)
    {
      var block := worm[i];
      if block.x < 0 || block.x >= width || block.y < 0 || block.y >= height {
        return true;
      }
    }
    return false;
  }

  /** For a worm that is inside the grid, a step is fatal exactly when the new
      head leaves the grid: the rest of the moved worm are old segments. */
  lemma FatalIffHeadLeaves(worm: seq<Point>, direction: Point, width: int, height: int)
    requires |worm| > 0
    requires !HitsWalls(worm, width, height)
    ensures HitsWalls(Move(worm, direction), width, height)
      <==> !InGrid(SumVectors(worm[0], direction), width, height)
  {
    var moved := Move(worm, direction);
    forall i | 1 <= i < |moved| ensures InGrid(moved[i], width, height) {
      assert moved[i] == worm[i - 1];
    }
  }
}
