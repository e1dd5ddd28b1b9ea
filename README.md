# Matopeli worm simulation in Dafny

This project models the simulation logic of Matopeli, a worm game played in a
browser. A worm of grid cells moves across a 30 × 20 grid. It goes one cell per
simulation tick in its current direction. The arrow keys change that direction.
The game ends when a tick would take part of the worm outside the grid. When that
happens the fatal move is not applied.

The model is split into three modules:

- `Vectors` (Vectors.dfy): the `Point` datatype for cells and vectors, the four
  direction constants `UP`, `DOWN`, `LEFT` and `RIGHT`, `SumVectors`, and
  `Scale`, the displacement of k equal steps, which states how far repeated
  ticks carry the head.
- `Simulation` (Simulation.dfy): `Move`, the translation step, and the wall test.
  The wall test comes in two forms. `HitsWalls` is the specification predicate.
  `ScanForWalls` is the source's loop with an early exit, proved equal to
  `HitsWalls`.
- `Game` (Game.dfy): the class `World`, which holds the mutable world record, and
  `KeyDirection`, the rule that maps keys to directions. The constructor is
  `createWorld`. `Simulate` is `simulateWorld`. `HandleKey` is the body of the
  keydown handler. `IdleRun` is a client that drives a fresh world with no input
  until the game ends.

`World.Valid()` is the invariant that the constructor sets up and that `Simulate`
and `HandleKey` preserve:

- the worm has a head;
- every segment lies inside the grid, both while the game runs and after it ends;
- the direction is one of the four unit vectors;
- once the game is over, the next move would still be fatal.

With the last clause, every later tick of a finished game leaves the world as it
is. The source's timer keeps calling the tick after the game has ended.

## Model

| member | source | states |
|---|---|---|
| `Vectors.SumVectors` | src/Matopeli.js:26-31 | componentwise addition: the result is (v1.x + v2.x, v1.y + v2.y), v1 displaced by v2 |
| `Vectors.Scale` | src/Matopeli.js:26-31 | adding a direction d to itself k times by vector addition gives the vector (k·d.x, k·d.y) |
| `Simulation.Move` | src/Matopeli.js:36-41 | for a non-empty worm, the moved worm has the same length, its head is the old head plus the direction, and segment i+1 is the old segment i, so the old tail is dropped |
| `Simulation.ScanForWalls` | src/Matopeli.js:43-51 | the loop reports a hit exactly when some segment has x < 0, x >= width, y < 0 or y >= height |
| `Simulation.FatalIffHeadLeaves` | src/Matopeli.js:53-56 | for a worm inside the grid, a move is fatal exactly when the new head is outside the grid |
| `Game.KeyDirection` | src/Matopeli.js:112-123 | a key selects a direction exactly when it is one of the four arrow keys, and the direction it selects is one of UP, DOWN, LEFT, RIGHT |
| `Game.EveryDirectionHasKey` | src/Matopeli.js:4-7 | each of the four directions is selected by some key |
| `Game.ArrowKeysDistinct` | src/Matopeli.js:112-123 | two different arrow keys select different directions |
| `Game.World.constructor` | src/Matopeli.js:9-21 | the new world is 30 × 20, has the single-segment worm [(15, 10)] inside the grid, has direction (1, 0) and is not over |
| `Game.World.Simulate` | src/Matopeli.js:53-60 | if the moved worm hits a wall, gameOver becomes true and the worm is exactly the old worm; otherwise the worm becomes the moved worm and gameOver is unchanged; the direction is unchanged, the worm keeps its length and stays inside the grid, and a finished game stays exactly as it is |
| `Game.World.HandleKey` | src/Matopeli.js:108-124 | once the game is over no key changes anything; otherwise an arrow key sets the direction to the vector it names, and any other key leaves the direction unchanged; the worm and gameOver never change |
| `Game.IdleRun` | src/Matopeli.js:9-60 | a fresh world with no input reaches game over on exactly the 15th tick, with direction still RIGHT and the worm kept at [(29, 10)], the last safe cell |

## Left out

- Rendering (`renderWorld`, src/Matopeli.js:65-94) is left out. It draws on a canvas with floating-point cell sizes, fonts and text.
- The timers and wiring in `initGame` are left out (`setInterval`, the `addEventListener` call, `console.log`; src/Matopeli.js:99-106, 126). Ticks and keys are method calls here. Each call runs to completion, as a callback does on the browser's event loop.
- The React component `Matopeli` and src/App.js are left out. They are only the UI shell.
- Simulation.Move: requires a non-empty worm. On an empty worm the source reads the field of an undefined head and throws a TypeError. `World.Valid()` keeps the worm non-empty, so the simulation never reaches that case.
- Numbers in the source are JavaScript doubles. The model uses unbounded integers. All coordinates stay small integers, and `30 / 2` and `20 / 2` divide exactly, so nothing differs.
- `gameOver` is undefined in the source until the first fatal tick. Both places that read it treat undefined as false, so the model starts it as `false`.
- The code has no targets, growth, self-collision, score counter, queue of pending turns, ban on 180° reversals, start/restart transition, game-event listener or random target placement, so the model has none of them. The only "Score" is the worm's length, which `renderWorld` shows on the game-over screen (src/Matopeli.js:92); rendering is left out.
- Because the code has no ban on reversals, it accepts any arrow key while the game runs, the reverse of the current direction included, and `HandleKey` does the same.
