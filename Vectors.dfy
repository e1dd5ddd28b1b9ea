/** Integer grid vectors: the cell coordinates of the worm and the four
    unit directions it can travel in. */
module Vectors {

  /** A cell of the grid, or a displacement between two cells. */
  datatype Point = Point(x: int, y: int)

  // The four direction vectors; y grows downwards, as on a canvas.
  const UP := Point(0, -1)
  const DOWN := Point(0, 1)
  const LEFT := Point(-1, 0)
  const RIGHT := Point(1, 0)

  /** True of exactly the four unit directions and nothing else. */
  predicate IsDirection(d: Point) {
    d == UP || d == DOWN || d == LEFT || d == RIGHT
  }

  /** Componentwise addition of two vectors: the result is v1 displaced by v2. */
  function SumVectors(v1: Point, v2: Point): (r: Point)
    ensures r.x - v1.x == v2.x && r.y - v1.y == v2.y
  {
    Point(v1.x + v2.x, v1.y + v2.y)
  }

  /** The displacement of k steps in direction d, built by repeated vector
      addition; it is d scaled by k. */
  function Scale(d: Point, k: nat): (r: Point)
    ensures r == Point(k * d.x, k * d.y)
  {
    if k == 0 then Point(0, 0) else SumVectors(Scale(d, k - 1), d)
  }
}
