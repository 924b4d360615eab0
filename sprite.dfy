/**
 * The player's character: its position in pixels, the frame of its walking
 * animation and the number of pixels one keyboard move covers.
 */
module Sprite {

  /**
   * The frame after `step` in an animation whose last frame is `stepMax`:
   * the next frame, or the first frame again after the last.
   */
  function NextStep(step: int, stepMax: int): (next: int)
    ensures next == 0 || next == step + 1
    ensures 0 <= step <= stepMax ==> 0 <= next <= stepMax
    ensures step >= 0 ==> (next == 0 <==> step >= stepMax)
  {
    if step < stepMax then step + 1 else 0
  }

  /** The frame reached from `step` after `k` animation advances. */
  function Advance(step: int, stepMax: int, k: nat): int
  {
    if k == 0 then step else NextStep(Advance(step, stepMax, k - 1), stepMax)
  }

  /** From the first frame, the animation runs through every frame in order and is back at the start after stepMax + 1 advances. */
  lemma {:induction false} AnimationCycles(stepMax: nat, k: nat)
    requires k <= stepMax + 1
    ensures Advance(0, stepMax, k) == if k == stepMax + 1 then 0 else k
  {
    if k > 0 {
      AnimationCycles(stepMax, k - 1);
    }
  }

  class Character {
    var xPos: int
    var yPos: int
    var step: int
    const stepMax: int
    const moveSize: int

    /** A character standing at (x, y) on the first animation frame. */
    constructor At(x: int, y: int)
      ensures xPos == x && yPos == y && step == 0
      ensures stepMax == 1 && moveSize == 3
    {
      xPos := x;
      yPos := y;
      step := 0;
      stepMax := 1;
      moveSize := 3;
    }

    /** A character at the origin on the first animation frame. */
    constructor ()
      ensures xPos == 0 && yPos == 0 && step == 0
      ensures stepMax == 1 && moveSize == 3
    {
      xPos := 0;
      yPos := 0;
      step := 0;
      stepMax := 1;
      moveSize := 3;
    }

    method SetX(x: int)
      modifies this`xPos
      ensures xPos == x
    {
      xPos := x;
    }

    method SetY(y: int)
      modifies this`yPos
      ensures yPos == y
    {
      yPos := y;
    }

    method SetXY(x: int, y: int)
      modifies this`xPos, this`yPos
      ensures xPos == x && yPos == y
    {
      xPos := x;
      yPos := y;
    }

    method IncX()
      modifies this`xPos
      ensures xPos == old(xPos) + moveSize
    {
      xPos := xPos + moveSize;
    }

    method IncY()
      modifies this`yPos
      ensures yPos == old(yPos) + moveSize
    {
      yPos := yPos + moveSize;
    }

    method DecX()
      modifies this`xPos
      ensures xPos == old(xPos) - moveSize
    {
      xPos := xPos - moveSize;
    }

    method DecY()
      modifies this`yPos
      ensures yPos == old(yPos) - moveSize
    {
      yPos := yPos - moveSize;
    }

    method SetStep(newStep: int)
      modifies this`step
      ensures step == newStep
    {
      step := newStep;
    }

    /** Advances the walking animation by one frame, wrapping after the last. */
    method IncStep()
      modifies this`step
      ensures step == NextStep(old(step), stepMax)
      ensures 0 <= old(step) <= stepMax ==> 0 <= step <= stepMax
    {
      if step < stepMax {
        step := step + 1;
      } else {
        step := 0;
      }
    }
  }
}
