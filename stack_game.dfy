/**
 * The StackGameManager component: its state fields, Start, Update's phase
 * dispatch, SpawnNewBlock, MoveBlock, PlaceBlock, EndGame and RestartGame.
 * Time.time and the "pressed" input (mouse button or space) are parameters;
 * PlayerPrefs' "HighScore" is the field `highScore`.
 */
module StackGame {
  import opened Wrappers
  import opened Geometry
  import Oscillator
  import Placement

  /** MAX_VISIBLE_STACK: beyond this many blocks in the list, the oldest is recycled. */
  const MaxVisibleStack: nat := 25

  /** The block Start creates at (0, -0.5, 0) with scale (5, 1, 5). */
  const BaseBlock: Block := Block(Vec3(0.0, -0.5, 0.0), Vec3(5.0, 1.0, 5.0))

  datatype GamePhase = Waiting | Playing | GameOver

  /** The list after the pooling check: once it holds more than MaxVisibleStack blocks, the oldest leaves it. */
  function Pooled(stack: seq<Block>): (r: seq<Block>)
    ensures |stack| > MaxVisibleStack ==> |r| == |stack| - 1
    ensures |stack| <= MaxVisibleStack ==> r == stack
    ensures |stack| <= MaxVisibleStack + 1 ==> |r| <= MaxVisibleStack
    ensures |r| <= |stack| && r == stack[|stack| - |r|..]
  {
    if |stack| > MaxVisibleStack then stack[1..] else stack
  }

  class StackGameManager {
    // Inspector settings
    const movementSpeed: real
    const speedGain: real
    const bounds: real
    const perfectTolerance: real

    // State
    var currentBlock: Option<Block>
    var previousBlock: Block
    var currentSpeed: real
    var isMovingOnX: bool
    var isGameActive: bool
    var isGameOver: bool
    var score: nat
    var comboCount: nat
    var blockStack: seq<Block>
    var currentBlockSize: Vec3

    /** The persisted best score (PlayerPrefs "HighScore"). */
    var highScore: int

    function Phase(): GamePhase
      reads this
    {
      if isGameOver then GameOver else if isGameActive then Playing else Waiting
    }

    /** The state Start leaves behind, from the field initialisers and Start's own assignments. */
    ghost predicate AtStart()
      reads this
    {
      currentBlock == None && previousBlock == BaseBlock && blockStack == [BaseBlock] &&
      currentSpeed == movementSpeed && isMovingOnX && !isGameActive && !isGameOver &&
      score == 0 && comboCount == 0 && currentBlockSize == BaseBlock.scale
    }

    /**
     * What holds between any two of the component's operations: the list ends
     * with the previous block and never exceeds MaxVisibleStack + 1 blocks; the
     * next block's size is the previous block's; block levels rise by one per
     * point; the speed has grown by speedGain per point.
     */
    ghost predicate Settled()
      reads this
    {
      bounds > 0.0 &&
      1 <= |blockStack| <= MaxVisibleStack + 1 &&
      blockStack[|blockStack| - 1] == previousBlock &&
      currentBlockSize == previousBlock.scale &&
      currentBlockSize.y == 1.0 &&
      previousBlock.position.y == score as real - 0.5 &&
      currentSpeed == movementSpeed + score as real * speedGain &&
      comboCount <= score &&
      (isGameOver ==> currentBlock.Some?) &&
      (!isGameActive ==> AtStart())
    }

    /**
     * What holds of the moving block while playing: it has the next block's size,
     * sits one level above the previous block, is aligned with it on the inactive
     * axis, and travels on Z for even scores and on X for odd ones.
     */
    ghost predicate Armed()
      reads this
    {
      currentBlock.Some? &&
      currentBlock.value.scale == currentBlockSize &&
      currentBlock.value.position.y == previousBlock.position.y + 1.0 &&
      Across(currentBlock.value.position, isMovingOnX) == Across(previousBlock.position, isMovingOnX) &&
      isMovingOnX == (score % 2 == 1) &&
      |blockStack| <= MaxVisibleStack
    }

    ghost predicate Valid()
      reads this
    {
      Settled() && (Phase() == Playing ==> Armed())
    }

    /** The scene's first load: field initialisers, then Start. */
    constructor (movementSpeed: real, speedGain: real, bounds: real, perfectTolerance: real, storedHighScore: int)
      requires bounds > 0.0
      ensures Valid() && AtStart() && Phase() == Waiting
      ensures this.movementSpeed == movementSpeed && this.speedGain == speedGain
      ensures this.bounds == bounds && this.perfectTolerance == perfectTolerance
      ensures highScore == storedHighScore
    {
      this.movementSpeed := movementSpeed;
      this.speedGain := speedGain;
      this.bounds := bounds;
      this.perfectTolerance := perfectTolerance;
      highScore := storedHighScore;
      new;
      RestartGame();
    }

    /**
     * Reloading the scene: every field is back at its initial value and Start
     * runs again; only the persisted best score survives.
     */
    method RestartGame()
      requires bounds > 0.0
      modifies this
      ensures Valid() && AtStart() && Phase() == Waiting
      ensures highScore == old(highScore)
    {
      isMovingOnX := true;
      isGameActive := false;
      isGameOver := false;
      score := 0;
      comboCount := 0;
      currentBlock := None;
      currentSpeed := movementSpeed;
      previousBlock := BaseBlock;
      blockStack := [previousBlock];
      currentBlockSize := Vec3(5.0, 1.0, 5.0);
    }

    /**
     * Flip the axis and bring in the next block at `-bounds` on the new active
     * axis, one level above the previous block, with the next block's size. The
     * oldest list entry is recycled once the list holds more than MaxVisibleStack.
     */
    method SpawnNewBlock()
      requires Settled() && Phase() == Playing
      requires isMovingOnX == (score % 2 == 0)
      modifies this
      ensures isMovingOnX == !old(isMovingOnX)
      ensures currentBlock.Some? && currentBlock.value.scale == currentBlockSize
      ensures Along(currentBlock.value.position, isMovingOnX) == -bounds
      ensures Across(currentBlock.value.position, isMovingOnX) == Across(previousBlock.position, isMovingOnX)
      ensures currentBlock.value.position.y ==
        previousBlock.position.y + previousBlock.scale.y / 2.0 + currentBlockSize.y / 2.0
      ensures blockStack == Pooled(old(blockStack))
      ensures previousBlock == old(previousBlock) && currentBlockSize == old(currentBlockSize)
      ensures score == old(score) && comboCount == old(comboCount) && currentSpeed == old(currentSpeed)
      ensures isGameActive == old(isGameActive) && isGameOver == old(isGameOver) && highScore == old(highScore)
      ensures Valid() && Phase() == Playing
    {
      isMovingOnX := !isMovingOnX;

      var spawnPos := previousBlock.position;
      var prevExtentY := previousBlock.scale.y / 2.0;
      var newExtentY := currentBlockSize.y / 2.0;
      spawnPos := spawnPos.(y := spawnPos.y + (prevExtentY + newExtentY));
      spawnPos := WithAlong(spawnPos, isMovingOnX, -bounds);

      if |blockStack| > MaxVisibleStack {
        // The recycled entry is the oldest one, never the previous block.
        blockStack := blockStack[1..];
      }
      currentBlock := Some(Block(spawnPos, currentBlockSize));
    }

    /** Put the moving block where the triangle wave says it is at `time`; nothing else moves. */
    method MoveBlock(time: real)
      requires Valid()
      modifies this`currentBlock
      ensures old(currentBlock).None? ==> currentBlock == old(currentBlock)
      ensures old(currentBlock).Some? ==>
        currentBlock.Some? &&
        currentBlock.value.position ==
          WithAlong(old(currentBlock).value.position, isMovingOnX, Oscillator.Oscillate(time, currentSpeed, bounds)) &&
        currentBlock.value.scale == old(currentBlock).value.scale
      ensures currentBlock.Some? ==> -bounds <= Along(currentBlock.value.position, isMovingOnX) <= bounds
      ensures Valid()
    {
      if currentBlock.None? {
        return;
      }
      var positionValue := Oscillator.Oscillate(time, currentSpeed, bounds);
      var current := currentBlock.value;
      currentBlock := Some(current.(position := WithAlong(current.position, isMovingOnX, positionValue)));
    }

    /**
     * Resolve the placement of the moving block on the previous one. A miss
     * changes nothing; a hit commits the placed block as the new previous block,
     * appends it to the list, and raises score and speed. `rubble` is the cut-off
     * part handed to the physics side after a partial hit.
     */
    method PlaceBlock() returns (placed: bool, rubble: Option<Block>)
      requires Valid() && Phase() == Playing
      modifies this
      ensures var outcome := Placement.Resolve(old(currentBlock).value, old(previousBlock), isMovingOnX, perfectTolerance);
        placed == !outcome.Miss? &&
        (outcome.Miss? ==>
          rubble == None &&
          currentBlock == old(currentBlock) && previousBlock == old(previousBlock) &&
          blockStack == old(blockStack) && score == old(score) && comboCount == old(comboCount) &&
          currentSpeed == old(currentSpeed) && currentBlockSize == old(currentBlockSize)) &&
        (outcome.Perfect? ==>
          rubble == None && comboCount == old(comboCount) + 1 && currentBlockSize == old(currentBlockSize)) &&
        (outcome.Partial? ==>
          rubble == Some(outcome.rubble) && comboCount == 0 && currentBlockSize == outcome.placed.scale &&
          Placement.CutAtOverlap(old(currentBlock).value, old(previousBlock), isMovingOnX, outcome.placed, outcome.rubble)) &&
        (placed ==>
          currentBlock == Some(outcome.placed) && previousBlock == outcome.placed &&
          blockStack == old(blockStack) + [outcome.placed] &&
          score == old(score) + 1 && currentSpeed == old(currentSpeed) + speedGain)
      ensures placed ==> currentBlockSize == previousBlock.scale
      ensures isMovingOnX == old(isMovingOnX) && isGameActive == old(isGameActive)
      ensures isGameOver == old(isGameOver) && highScore == old(highScore)
      ensures Settled()
      ensures !placed ==> Valid()
      ensures placed ==> isMovingOnX == (score % 2 == 0) && |blockStack| == |old(blockStack)| + 1
    {
      var current := currentBlock.value;
      var outcome := Placement.Resolve(current, previousBlock, isMovingOnX, perfectTolerance);
      if outcome.Miss? {
        // The block falls (Rigidbody) and the game-over sound plays.
        return false, None;
      }
      if outcome.Perfect? {
        comboCount := comboCount + 1;
        rubble := None;
      } else {
        comboCount := 0;
        Placement.PartialCutsAtOverlap(current, previousBlock, isMovingOnX, perfectTolerance);
        rubble := Some(outcome.rubble);
        currentBlockSize := outcome.placed.scale;
      }
      current := outcome.placed;

      currentBlock := Some(current);
      previousBlock := current;
      blockStack := blockStack + [current];
      score := score + 1;
      currentSpeed := currentSpeed + speedGain;
      placed := true;
    }

    /** Enter game over and store the score when it beats the best one; `wrote` says whether it was stored. */
    method EndGame() returns (wrote: bool)
      modifies this`isGameOver, this`highScore
      ensures isGameOver
      ensures wrote == (score > old(highScore))
      ensures highScore >= old(highScore) && highScore >= score && (highScore == old(highScore) || highScore == score)
    {
      isGameOver := true;
      wrote := score > highScore;
      if wrote {
        highScore := score;
      }
    }

    /**
     * One frame. Game over: a press restarts, nothing else runs. Waiting: a
     * press starts playing and spawns the first block. Playing: a press places
     * the block and then either spawns the next one or ends the game; the
     * moving block then follows the triangle wave in either case.
     */
    method Update(pressed: bool, time: real) returns (rubble: Option<Block>)
      requires Valid()
      modifies this
      ensures Valid()
      ensures old(Phase()) == GameOver ==>
        rubble == None &&
        (pressed ==> AtStart() && highScore == old(highScore)) &&
        (!pressed ==> unchanged(this))
      ensures old(Phase()) == Waiting ==>
        rubble == None &&
        (pressed ==>
          Phase() == Playing && !isMovingOnX && score == 0 && blockStack == [BaseBlock] &&
          currentBlock == Some(Block(Vec3(0.0, 0.5, -bounds), BaseBlock.scale)) &&
          highScore == old(highScore)) &&
        (!pressed ==> unchanged(this))
      ensures old(Phase()) == Playing && !pressed ==>
        rubble == None && Phase() == Playing &&
        currentBlock == Some(Block(
          WithAlong(old(currentBlock).value.position, isMovingOnX, Oscillator.Oscillate(time, currentSpeed, bounds)),
          old(currentBlock).value.scale)) &&
        previousBlock == old(previousBlock) && blockStack == old(blockStack) && isMovingOnX == old(isMovingOnX) &&
        score == old(score) && comboCount == old(comboCount) && currentSpeed == old(currentSpeed) &&
        currentBlockSize == old(currentBlockSize) && highScore == old(highScore)
      ensures old(Phase()) == Playing && pressed ==>
        var outcome := Placement.Resolve(old(currentBlock).value, old(previousBlock), old(isMovingOnX), perfectTolerance);
        (outcome.Miss? ==>
          rubble == None && Phase() == GameOver &&
          highScore == (if old(score) > old(highScore) then old(score) else old(highScore)) &&
          currentBlock == Some(Block(
            WithAlong(old(currentBlock).value.position, isMovingOnX, Oscillator.Oscillate(time, currentSpeed, bounds)),
            old(currentBlock).value.scale)) &&
          previousBlock == old(previousBlock) && blockStack == old(blockStack) && isMovingOnX == old(isMovingOnX) &&
          score == old(score) && comboCount == old(comboCount) && currentSpeed == old(currentSpeed) &&
          currentBlockSize == old(currentBlockSize)) &&
        (!outcome.Miss? ==>
          Phase() == Playing && isMovingOnX == !old(isMovingOnX) &&
          previousBlock == outcome.placed && blockStack == Pooled(old(blockStack) + [outcome.placed]) &&
          score == old(score) + 1 && currentSpeed == old(currentSpeed) + speedGain &&
          comboCount == (if outcome.Perfect? then old(comboCount) + 1 else 0) &&
          rubble == (if outcome.Partial? then Some(outcome.rubble) else None) &&
          currentBlock.Some? &&
          Along(currentBlock.value.position, isMovingOnX) == Oscillator.Oscillate(time, currentSpeed, bounds) &&
          highScore == old(highScore))
    {
      rubble := None;
      if isGameOver {
        if pressed {
          RestartGame();
        }
        return;
      }

      if !isGameActive {
        if pressed {
          isGameActive := true;
          SpawnNewBlock();
        }
      } else {
        rubble := Gameplay(pressed, time);
      }
    }

    /**
     * The playing branch of Update: a press places the block and then either
     * spawns the next one or ends the game; the moving block then follows the
     * triangle wave in either case (after a miss it is the falling block).
     */
    method Gameplay(pressed: bool, time: real) returns (rubble: Option<Block>)
      requires Valid() && Phase() == Playing
      modifies this
      ensures Valid()
      ensures !pressed ==>
        rubble == None && Phase() == Playing &&
        currentBlock == Some(Block(
          WithAlong(old(currentBlock).value.position, isMovingOnX, Oscillator.Oscillate(time, currentSpeed, bounds)),
          old(currentBlock).value.scale)) &&
        previousBlock == old(previousBlock) && blockStack == old(blockStack) && isMovingOnX == old(isMovingOnX) &&
        score == old(score) && comboCount == old(comboCount) && currentSpeed == old(currentSpeed) &&
        currentBlockSize == old(currentBlockSize) && highScore == old(highScore)
      ensures pressed ==>
        var outcome := Placement.Resolve(old(currentBlock).value, old(previousBlock), old(isMovingOnX), perfectTolerance);
        (outcome.Miss? ==>
          rubble == None && Phase() == GameOver &&
          highScore == (if old(score) > old(highScore) then old(score) else old(highScore)) &&
          currentBlock == Some(Block(
            WithAlong(old(currentBlock).value.position, isMovingOnX, Oscillator.Oscillate(time, currentSpeed, bounds)),
            old(currentBlock).value.scale)) &&
          previousBlock == old(previousBlock) && blockStack == old(blockStack) && isMovingOnX == old(isMovingOnX) &&
          score == old(score) && comboCount == old(comboCount) && currentSpeed == old(currentSpeed) &&
          currentBlockSize == old(currentBlockSize)) &&
        (!outcome.Miss? ==>
          Phase() == Playing && isMovingOnX == !old(isMovingOnX) &&
          previousBlock == outcome.placed && blockStack == Pooled(old(blockStack) + [outcome.placed]) &&
          score == old(score) + 1 && currentSpeed == old(currentSpeed) + speedGain &&
          comboCount == (if outcome.Perfect? then old(comboCount) + 1 else 0) &&
          rubble == (if outcome.Partial? then Some(outcome.rubble) else None) &&
          currentBlock.Some? &&
          Along(currentBlock.value.position, isMovingOnX) == Oscillator.Oscillate(time, currentSpeed, bounds) &&
          highScore == old(highScore))
    {
      rubble := None;
      if pressed {
        var placed;
        placed, rubble := PlaceBlock();
        if placed {
          SpawnNewBlock();
        } else {
          var _ := EndGame();
        }
      }
      MoveBlock(time);
    }
  }
}
