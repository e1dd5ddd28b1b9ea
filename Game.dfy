/** The game world: its state, the tick that advances it and the arrow-key
    rule that steers the worm. */
module Game {
  import opened Vectors
  import opened Simulation

  datatype Option<T> = None | Some(value: T)

  /** The key names the steering rule reacts to. */
  const ARROW_KEYS: set<string> := {"ArrowUp", "ArrowDown", "ArrowLeft", "ArrowRight"}

  /** The direction an arrow key selects, or None for any other key. */
  function KeyDirection(key: string): (r: Option<Point>)
    ensures r.Some? <==> key in ARROW_KEYS
    ensures r.Some? ==> IsDirection(r.value)
  {
    if key == "ArrowUp" then Some(UP)
    else if key == "ArrowDown" then Some(DOWN)
    else if key == "ArrowLeft" then Some(LEFT)
    else if key == "ArrowRight" then Some(RIGHT)
    else None
  }

  /** Every direction the worm can travel in is selected by some arrow key. */
  lemma EveryDirectionHasKey(d: Point)
    requires IsDirection(d)
    ensures exists k :: KeyDirection(k) == Some(d)
  {
    if d == UP {
      assert KeyDirection("ArrowUp") == Some(d);
    } else if d == DOWN {
      assert KeyDirection("ArrowDown") == Some(d);
    } else if d == LEFT {
      assert KeyDirection("ArrowLeft") == Some(d);
    } else {
      assert KeyDirection("ArrowRight") == Some(d);
    }
  }

  /** Different arrow keys select different directions. */
  lemma ArrowKeysDistinct(k1: string, k2: string)
    requires k1 in ARROW_KEYS && k2 in ARROW_KEYS && k1 != k2
    ensures KeyDirection(k1) != KeyDirection(k2)
  {
  }

  /** The mutable world record: a fixed grid, the worm (head first), the
      direction applied on each tick, and whether the game has ended. */
  class World {
    const width: int
    const height: int
    var worm: seq<Point>
    var direction: Point
    var gameOver: bool

    /** The world invariant: the worm has a head and lies inside the grid,
        the direction is one of the four, and a finished game is one whose
        next step would still be fatal. */
    ghost predicate Valid()
      reads this
    {
      && |worm| > 0
      && !HitsWalls(worm, width, height)
      && IsDirection(direction)
      && (gameOver ==> HitsWalls(Move(worm, direction), width, height))
    }

    /** A fresh 30 × 20 world with a one-segment worm in the middle of the
        grid, travelling right, the game not over. */
    constructor ()
      ensures Valid()
      ensures width == 30 && height == 20
      ensures worm == [Point(15, 10)]
      ensures direction == RIGHT
      ensures !gameOver
    {
      width := 30;
      height := 20;
      worm := [Point(30 / 2, 20 / 2)];
      direction := Point(1, 0);
      gameOver := false;
    }

    /** One tick: the worm is moved in the current direction; if the moved
        worm touches a wall the game is over and the worm stays where it
        was, otherwise the moved worm is committed. The direction never
        changes, and a finished game stays exactly as it is. */
    method Simulate()
      requires Valid()
      modifies this
      ensures Valid()
      ensures direction == old(direction)
      ensures HitsWalls(Move(old(worm), old(direction)), width, height) ==>
                gameOver && worm == old(worm)
      ensures !HitsWalls(Move(old(worm), old(direction)), width, height) ==>
                worm == Move(old(worm), old(direction)) && gameOver == old(gameOver)
      ensures |worm| == old(|worm|) && !HitsWalls(worm, width, height)
      ensures old(gameOver) ==> gameOver && worm == old(worm)
    {
      var newWorm := Move(worm, direction);
      var hit := ScanForWalls(newWorm, width, height);
      if hit {
        gameOver := true;
      } else {
        worm := newWorm;
      }
    }

    /** The keydown rule: once the game is over every key is ignored;
        otherwise an arrow key sets the direction it names and any other key
        changes nothing. */
    method HandleKey(key: string)
      requires Valid()
      modifies this
      ensures Valid()
      ensures worm == old(worm) && gameOver == old(gameOver)
      ensures old(gameOver) ==> direction == old(direction)
      ensures !old(gameOver) && KeyDirection(key).Some? ==> direction == KeyDirection(key).value
      ensures KeyDirection(key).None? ==> direction == old(direction)
    {
      if gameOver {
        return;
      }
      if key == "ArrowUp" {
        direction := UP;
      }
      if key == "ArrowDown" {
        direction := DOWN;
      }
      if key == "ArrowLeft" {
        direction := LEFT;
      }
      if key == "ArrowRight" {
        direction := RIGHT;
      }
    }
  }

  /** A game left without input: each safe tick moves the head one step
      right of the start (15, 10), so after fourteen ticks it is in the last
      column x = 29, the fifteenth tick is the fatal one, and the worm is
      left in that last column. */
  method IdleRun() returns (ticks: nat, world: World)
    ensures ticks == 15
    ensures world.gameOver && world.worm == [Point(29, 10)] && world.direction == RIGHT
  {
    world := new World();
    ticks := 0;
    while !world.gameOver
      invariant world.Valid()
      invariant world.width == 30 && world.height == 20
      invariant world.direction == RIGHT
      invariant ticks <= 15
      invariant !world.gameOver ==> world.worm == [SumVectors(Point(15, 10), Scale(RIGHT, ticks))]
      invariant world.gameOver ==> ticks == 15 && world.worm == [Point(29, 10)]
      decreases 15 - ticks
    {
      FatalIffHeadLeaves(world.worm, world.direction, world.width, world.height);
      world.Simulate();
      ticks := ticks + 1;
    }
  }
}
