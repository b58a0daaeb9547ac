# StackGame core in Dafny

A model of the game core of `StackGameManager`, the single Unity component of a
block-stacking arcade game. A block slides back and forth along one horizontal
axis over the block below it. The player presses to drop it. The overlap with
the block below decides the outcome:

- **miss**: no overlap at all, and the game ends;
- **perfect**: the misalignment is within a tolerance, so the block snaps into
  place and the combo grows;
- **partial**: the block is cut down to the overlap, and the overhang falls off
  as rubble.

Every successful placement scores a point and speeds up the motion. The next
block then comes in on the other axis.

The project has five modules:

- `Geometry` (`geometry.dfy`): Unity's `Vector3` as a record of three exact
  reals, a block's transform as a record of position and scale, `Mathf.Abs`, and
  the lens `Along`/`Across`/`WithAlong` for the active and inactive horizontal
  axis. The same file holds the `Wrappers` module with the `Option` type.
- `Oscillator` (`oscillator.dfy`): `Mathf.Repeat` and `Mathf.PingPong` as Unity
  documents them, with the fold written with `.Floor`. Also the triangle wave
  `PingPong(time * speed, bounds * 2) - bounds` that `MoveBlock` evaluates, its
  range, its two halves, and its period.
- `Placement` (`placement.dfy`): `Resolve`, the case analysis of `PlaceBlock`
  over pure values, and the statement that a partial hit cuts exactly at the
  overlap with the block below.
- `StackGame` (`stack_game.dfy`): the class `StackGameManager`. It has the
  source's state fields (`currentBlock`, `previousBlock`, `currentSpeed`,
  `isMovingOnX`, `isGameActive`, `isGameOver`, `score`, `comboCount`,
  `blockStack`, `currentBlockSize`), the stored best score `highScore`, and the
  methods `SpawnNewBlock`, `MoveBlock`, `PlaceBlock`, `EndGame`, `RestartGame`
  and `Update`. The object invariant `Valid` says the following:
  - the list ends with the previous block and never holds more than 26 blocks;
  - the next block's size is the previous block's size;
  - block levels rise by one per point;
  - the speed equals `movementSpeed + score * speedGain`;
  - while playing, the moving block has the next size, sits one level up,
    lines up with the previous block on the inactive axis, and travels on Z at
    even scores and on X at odd ones.
- `Scenarios` (`scenarios.dfy`): worked placements with the default settings.

`Update` takes `Time.time` and the press (mouse button or space) as
parameters. PlayerPrefs' `HighScore` is the field `highScore`. Reloading the
scene is `RestartGame`, which re-runs the field initialisers and `Start` and
keeps `highScore`.

Notes on how the model reads the code:

- `isMovingOnX` starts `true` and is flipped before each spawn, so the first
  moving block travels on Z and the axes go Z, X, Z, ….
- In the frame of a miss, `Update` still calls `MoveBlock` after `EndGame`. The
  falling block therefore takes one more step of the wave; `Gameplay`'s contract
  says so.
- The position a press resolves is the one from the previous frame's
  `MoveBlock`, because `PlaceBlock` runs before `MoveBlock` in a frame. The
  exception is the first playing frame: the frame of the start press spawns the
  block without moving it, so a press in the next frame resolves the spawn
  position, `-bounds` on Z.

## Model

| member | source | states |
|---|---|---|
| `Geometry.Abs` | StackGameManager.cs:240 | the result is non-negative and is `x` or `-x` |
| `Geometry.WithAlong` | StackGameManager.cs:186-187 | overwriting the active coordinate sets it to the given value and keeps the inactive coordinate and y |
| `Oscillator.Repeat` | StackGameManager.cs:217 | `Mathf.Repeat` folds any real into `[0, length)` |
| `Oscillator.RepeatIdentity` | StackGameManager.cs:217 | on `[0, length)` the fold changes nothing |
| `Oscillator.RepeatPeriodic` | StackGameManager.cs:217 | the fold has period `length` |
| `Oscillator.PingPong` | StackGameManager.cs:217 | `Mathf.PingPong` stays in `[0, length]` for every argument |
| `Oscillator.PingPongRising` | StackGameManager.cs:217 | on `[0, length]` the wave climbs as the identity |
| `Oscillator.PingPongFalling` | StackGameManager.cs:217 | on `[length, 2 length]` the wave falls as `2 length - t` |
| `Oscillator.PingPongPeriodic` | StackGameManager.cs:217 | the wave repeats every `2 length`, so the two halves fix it everywhere |
| `Oscillator.Oscillate` | StackGameManager.cs:216-217 | the coordinate `MoveBlock` assigns lies in `[-bounds, bounds]` for every time and speed |
| `Oscillator.OscillatePeriodic` | StackGameManager.cs:216-217 | for positive speed the motion has period `4 bounds / speed` |
| `Oscillator.OscillateTurningPoints` | StackGameManager.cs:216-217 | the block is at `-bounds` when `time * speed` is 0 and at `+bounds` when it is `2 bounds` |
| `Placement.Resolve` | StackGameManager.cs:231-311 | a miss happens exactly when `abs(delta) >= size`, so equality is a miss. A perfect hit happens exactly when `abs(delta) < size` and `abs(delta) <= tolerance`; it snaps the active coordinate to the previous block's, keeps the other coordinates and keeps the scale. On a partial hit the new size is `size - abs(delta) > 0`, the rubble size is `abs(delta)`, and the two sum to `size`; the inactive scale and the y scale are inherited, and the inactive coordinate and y are kept for both pieces |
| `Placement.PartialCutsAtOverlap` | StackGameManager.cs:281-310 | when sizes on the active axis are equal, the survivor spans exactly the intersection with the block below. The rubble spans the rest of the pre-cut block and touches the survivor on the side of `sign(delta)`, with no gap and no overlap |
| `Placement.PerfectCoversBelow` | StackGameManager.cs:251-258 | with equal sizes, a perfect hit covers exactly the extent of the block below |
| `StackGame.Pooled` | StackGameManager.cs:194-197 | past `MAX_VISIBLE_STACK` (25) the oldest entry leaves the list; the rest is the newest suffix, and a list of at most 26 blocks comes out with at most 25 |
| `StackGame.StackGameManager.constructor` | StackGameManager.cs:46-98 | the initial state: base block (0, -0.5, 0) of scale (5, 1, 5) as previous block and only list entry, speed `movementSpeed`, `isMovingOnX` true, waiting, score and combo 0, stored best score as given |
| `StackGame.StackGameManager.RestartGame` | StackGameManager.cs:410-413 | a scene reload restores the initial state and keeps the stored best score |
| `StackGame.StackGameManager.SpawnNewBlock` | StackGameManager.cs:175-210 | flips `isMovingOnX`; the new block copies the previous position, has its active coordinate at `-bounds`, is raised by the two half-heights, and takes `currentBlockSize`. The oldest list entry is recycled when the list holds more than 25; nothing else changes; the invariant is restored |
| `StackGame.StackGameManager.MoveBlock` | StackGameManager.cs:212-224 | without a block nothing happens; otherwise only the active coordinate of the current block changes, to the wave's value in `[-bounds, bounds]` |
| `StackGame.StackGameManager.PlaceBlock` | StackGameManager.cs:226-324 | returns false exactly on a miss and then changes nothing. A perfect hit adds 1 to the combo and keeps `currentBlockSize`. A partial hit zeroes the combo, sets `currentBlockSize` to the shrunk scale, returns the rubble, and cuts at the overlap. Every hit makes the placed block the previous block, appends it to the list, adds 1 to the score and `speedGain` to the speed |
| `StackGame.StackGameManager.EndGame` | StackGameManager.cs:393-409 | sets game over; the stored best becomes the larger of the old best and the score, written only when the score beats it |
| `StackGame.StackGameManager.Gameplay` | StackGameManager.cs:127-144 | without a press only the block moves. With a press on a miss, the game ends with the best score updated, the state otherwise unchanged, and one last move of the falling block. On a hit, the stack, score, speed and combo are committed, the axis flips, the pooled list gets the placed block, and the new block moves on the wave |
| `StackGame.StackGameManager.Update` | StackGameManager.cs:105-147 | in game over a press only restarts and no press changes nothing. In waiting a press starts playing and spawns exactly one block, at (0, 0.5, `-bounds`) on Z, and no press changes nothing. In playing it behaves as `Gameplay`. The invariant is kept throughout |
| `Scenarios.PerfectThenPartial` | StackGameManager.cs:251-311 | 0.05 off on the base block is a perfect hit snapped to 0; 4.9 off on the next block leaves 0.1 at x = 2.45 and 4.9 of rubble at x = 4.95 |
| `Scenarios.ExactSizeIsMiss` | StackGameManager.cs:243 | a misalignment of exactly the size (5) on either side is a miss |

## Left out

- Rendering: the cube primitive and material in `CreateBlock`, `UpdateBlockColor` and the HSV colours, and the background lerp and fog in `UpdateVisuals`. These are engine presentation.
- The hue parameter: its random initial value (`Random.Range`) and its advance-and-wrap on each spawn. Both are purely cosmetic.
- Camera easing (`UpdateCamera`) and the camera target computed in `PlaceBlock`. A missing main camera would fault at that line; the model does not cover that.
- Audio (`PlaySound`, including the combo pitch), the combo flare (`CreateComboEffect`, `ComboEffect`) and the rubble's physics and shrinking (`SpawnRubble`, `RubbleControl`). Of these, only the rubble block is kept, as `PlaceBlock`'s output.
- The falling block's `Rigidbody` on a miss. It is a physics effect and its position is not tracked.
- UI text, panels and debug logging.
- Unity input polling, `SceneManager` and `PlayerPrefs` I/O. They are the `pressed` parameter, `RestartGame` and the field `highScore`. The reload happens immediately in the model, while Unity finishes the frame first.
- Object identity of Transforms. Blocks are values, so the aliasing of `currentBlock`, `previousBlock` and the last list entry is not modelled, and neither is the reuse of the recycled block's GameObject. The recycled entry is the oldest of more than 25, so it is never the previous block.
- IEEE single-precision rounding. All arithmetic is on exact reals, so on exact reals the clamp inside `Mathf.Repeat` never acts, and `newSize + rubbleSize == size` holds exactly.
- Non-positive `bounds`. The model requires `bounds > 0`. At zero, `Mathf.Repeat` divides by zero and Unity yields NaN. For negative values, Unity's clamp into an empty range makes the block sit at a fixed `3 * bounds` instead of oscillating.
- 32-bit overflow of `score` and `comboCount`. They are unbounded naturals in the model.
- Scene reload details outside the core: the inspector settings are constants of the object and survive a restart, as they do in the scene asset.
