/**
 * Properties of the character physics: how far a keyboard move goes, when
 * the walking animation advances, the jump cycle, landing, water and the
 * gravity ramps.
 */
module PhysicsFacts {
  import opened Shapes
  import opened Sprite
  import opened Physics

  /** The state `k` pixels further in direction `dir` ('r', 'l' or 'd'), nothing else changed. */
  function Shifted(s: GState, dir: char, k: int): GState
  {
    if dir == 'r' then s.(x := s.x + k)
    else if dir == 'l' then s.(x := s.x - k)
    else s.(y := s.y + k)
  }

  /** `n` pixels in direction `dir` stay short of the border that triggers an edge warp. */
  predicate Inside(cfg: Config, s: GState, dir: char, n: nat)
  {
    if dir == 'r' then s.x + n < Here(cfg, s).width + EDGE_WARP_OFFSET_R
    else if dir == 'l' then s.x - n > 0 - EDGE_WARP_OFFSET_L
    else s.y + n < Here(cfg, s).height + EDGE_WARP_OFFSET_D
  }

  /** Away from the border, one pixel step either takes the pixel or changes nothing. */
  lemma StepInside(cfg: Config, t: GState, dir: char)
    requires WellFormed(cfg) && dir in "rld" && Inside(cfg, t, dir, 1)
    ensures StepSpec(cfg, t, dir) == (Shifted(t, dir, 1), true) || StepSpec(cfg, t, dir) == (t, false)
  {
  }

  /**
   * Away from the borders, a move of `n` pixels to the left, to the right
   * or down takes some k <= n pixels in that direction and changes nothing
   * else; it reports a move exactly when k > 0.
   */
  lemma {:induction false} SlideInsideMap(cfg: Config, s: GState, dir: char, n: nat)
    requires WellFormed(cfg) && dir in "rld" && Inside(cfg, s, dir, n)
    ensures exists k :: 0 <= k <= n && SlideSpec(cfg, s, dir, n) == (Shifted(s, dir, k), k > 0)
  {
    if n == 0 {
      assert SlideSpec(cfg, s, dir, n) == (Shifted(s, dir, 0), 0 > 0);
    } else {
      SlideInsideMap(cfg, s, dir, n - 1);
      var k :| 0 <= k <= n - 1 && SlideSpec(cfg, s, dir, n - 1) == (Shifted(s, dir, k), k > 0);
      SlideOneMore(cfg, s, dir, n, k);
      if SlideSpec(cfg, s, dir, n) == (Shifted(s, dir, k + 1), true) {
        assert SlideSpec(cfg, s, dir, n) == (Shifted(s, dir, k + 1), k + 1 > 0);
      }
    }
  }

  /** The last pixel of an n-pixel move, away from the border, is taken or refused without other effect. */
  lemma SlideOneMore(cfg: Config, s: GState, dir: char, n: nat, k: nat)
    requires WellFormed(cfg) && dir in "rld" && Inside(cfg, s, dir, n)
    requires 0 < n && k <= n - 1 && SlideSpec(cfg, s, dir, n - 1) == (Shifted(s, dir, k), k > 0)
    ensures SlideSpec(cfg, s, dir, n) == (Shifted(s, dir, k + 1), true)
            || SlideSpec(cfg, s, dir, n) == (Shifted(s, dir, k), k > 0)
  {
    var t := Shifted(s, dir, k);
    assert Here(cfg, t) == Here(cfg, s);
    assert Inside(cfg, t, dir, 1);
    StepInside(cfg, t, dir);
    assert Shifted(t, dir, 1) == Shifted(s, dir, k + 1);
  }

  /** A move in a direction whose first pixel is refused goes nowhere and changes nothing. */
  lemma {:induction false} SlideBlocked(cfg: Config, s: GState, dir: char, n: nat)
    requires WellFormed(cfg) && StepSpec(cfg, s, dir) == (s, false)
    ensures SlideSpec(cfg, s, dir, n) == (s, false)
  {
    if n > 0 {
      SlideBlocked(cfg, s, dir, n - 1);
    }
  }

  /** Moving right when the probed pixel is not free, short of the right border, is refused. */
  lemma RightBlocked(cfg: Config, s: GState)
    requires WellFormed(cfg)
    requires !Free(cfg, s, 'r', s.x + 1, s.y) && s.x < Here(cfg, s).width + EDGE_WARP_OFFSET_R
    ensures SlideSpec(cfg, s, 'r', 3) == (s, false)
  {
    assert StepSpec(cfg, s, 'r') == (s, false);
    SlideBlocked(cfg, s, 'r', 3);
  }

  /** Moving left when the probed pixel is not free, short of the left border, is refused. */
  lemma LeftBlocked(cfg: Config, s: GState)
    requires WellFormed(cfg)
    requires !Free(cfg, s, 'l', s.x - 1, s.y) && s.x > 0 - EDGE_WARP_OFFSET_L
    ensures SlideSpec(cfg, s, 'l', 3) == (s, false)
  {
    assert StepSpec(cfg, s, 'l') == (s, false);
    SlideBlocked(cfg, s, 'l', 3);
  }

  /** During a jump the down key takes no pixel at all. */
  lemma DownDuringJump(cfg: Config, s: GState)
    requires WellFormed(cfg) && s.jumpStep != JUMP_READY
    ensures SlideSpec(cfg, s, 'd', 3) == (s, false)
  {
    SlideBlocked(cfg, s, 'd', 3);
  }

  /**
   * After a move left, right or down, the walking animation has advanced
   * by one frame exactly when at least one pixel was taken.
   */
  lemma MoveAnimates(cfg: Config, s: GState, dir: char)
    requires WellFormed(cfg) && dir in "rld"
    ensures MoveSpec(cfg, s, dir).step
            == if SlideSpec(cfg, s, dir, 3).1 then NextStep(s.step, 1) else s.step
  {
  }

  /**
   * During a jump the down key neither moves the character nor runs the
   * fall check: only the climb check runs.
   */
  lemma MoveDownDuringJump(cfg: Config, s: GState)
    requires WellFormed(cfg) && s.jumpStep != JUMP_READY
    ensures MoveSpec(cfg, s, 'd') == CheckClimbSpec(cfg, s).0
  {
    DownDuringJump(cfg, s);
  }

  /**
   * Away from warp zones, the up key may start a jump exactly when the
   * character stands on ground with no climb kind around it, or is in
   * water, or is at a jump-through shape.
   */
  lemma JumpAllowedAwayFromWarps(cfg: Config, s: GState)
    requires WellFormed(cfg) && !AtWarp(cfg, s)
    ensures JumpAllowedSpec(cfg, s).0 == s
    ensures JumpAllowedSpec(cfg, s).1
            <==> (OnGround(cfg, s) && ClimbHere(cfg, s) == NO_CLIMB)
                 || ClimbHere(cfg, s) == WATER || ClimbHere(cfg, s) == JUMP_THROUGH
  {
  }

  /**
   * The up key starts a jump, and only then sets the jump counter to 0:
   * the counter must have been ready, the jump allowed and the three pixels
   * above the head free. A started jump raises the character three pixels,
   * stops the fall timer, resets the animation and starts the jump timer.
   */
  lemma UpStartsJump(cfg: Config, s: GState)
    requires WellFormed(cfg) && s.jumpStep == JUMP_READY
    ensures var checked := JumpAllowedSpec(cfg, s);
            var s3 := checked.0;
            var started := checked.1 && Free(cfg, s3, 'u', s3.x, s3.y - JUMP_RISE);
            && (UpSpec(cfg, s).0.jumpStep == 0 <==> started)
            && (started ==> UpSpec(cfg, s) == (s3.(fallTimer := false, y := s3.y - JUMP_RISE, step := 0,
                                                   jumpStep := 0, jumpTimer := true), true))
  {
  }

  /** The up key never touches the jump counter while a jump is running. */
  lemma UpDuringJump(cfg: Config, s: GState)
    requires WellFormed(cfg) && s.jumpStep != JUMP_READY
    ensures UpSpec(cfg, s).0.jumpStep == s.jumpStep
  {
  }

  /**
   * The first two jump ticks each raise the character three pixels when
   * the pixels at its feet three rows up are free (away from the top
   * border), and otherwise only advance the counter.
   */
  lemma JumpRise(cfg: Config, s: GState)
    requires WellFormed(cfg) && (s.jumpStep == 0 || s.jumpStep == 1)
    requires s.y - JUMP_RISE > 0 - EDGE_WARP_OFFSET_U
    ensures JumpTickSpec(cfg, s)
            == if Free(cfg, s, 'd', s.x, s.y - JUMP_RISE) then s.(y := s.y - JUMP_RISE, jumpStep := s.jumpStep + 1)
               else s.(jumpStep := s.jumpStep + 1)
  {
  }

  /** The third jump tick ends the jump: the jump timer stops, the animation resets and the counter is ready again. */
  lemma JumpEnds(cfg: Config, s: GState)
    requires WellFormed(cfg) && s.jumpStep == 2
    ensures var r := JumpTickSpec(cfg, s);
            r.jumpStep == JUMP_READY && !r.jumpTimer && r.step == 0
  {
  }

  /** Three jump ticks from a freshly started jump leave the jump counter ready and the jump timer stopped. */
  lemma JumpCycle(cfg: Config, s: GState)
    requires WellFormed(cfg) && s.jumpStep == 0
    ensures var r := JumpTickSpec(cfg, JumpTickSpec(cfg, JumpTickSpec(cfg, s)));
            r.jumpStep == JUMP_READY && !r.jumpTimer && r.step == 0
  {
    JumpEnds(cfg, JumpTickSpec(cfg, JumpTickSpec(cfg, s)));
  }

  /** Standing on ground away from warp zones, the normal fall's pixel loop changes nothing. */
  lemma {:induction false} NormalLoopGrounded(cfg: Config, s: GState, i: int)
    requires WellFormed(cfg) && GravityOK(s)
    requires OnGround(cfg, s) && !AtWarp(cfg, s)
    ensures NormalLoop(cfg, s, i) == s
    decreases 9 - i
  {
    if i < s.gravity / GRAVITY_DIVIDER {
      assert NormalPixel(cfg, s) == s;
      NormalLoopGrounded(cfg, s, i + 1);
    }
  }

  /**
   * Landing: when a normal fall tick finds the character on ground away
   * from warp zones and no fast fall running, the fall timer stops, the
   * animation resets and gravity is back at its initial values.
   */
  lemma NormalTickLands(cfg: Config, s: GState)
    requires WellFormed(cfg) && GravityOK(s)
    requires OnGround(cfg, s) && !AtWarp(cfg, s) && !s.fastFall
    ensures NormalTickSpec(cfg, s) == GravityReset(s.(fallTimer := false, step := 0))
  {
    NormalLoopGrounded(cfg, s, 0);
  }

  /** In water away from warp zones, the normal fall's pixel loop changes nothing. */
  lemma {:induction false} NormalLoopInWater(cfg: Config, s: GState, i: int)
    requires WellFormed(cfg) && GravityOK(s)
    requires !OnGround(cfg, s) && ClimbHere(cfg, s) == WATER
    ensures NormalLoop(cfg, s, i) == s
    decreases 9 - i
  {
    if i < s.gravity / GRAVITY_DIVIDER {
      assert NormalPixel(cfg, s) == s;
      NormalLoopInWater(cfg, s, i + 1);
    }
  }

  /**
   * In water the character sinks one pixel per normal fall tick (away from
   * the bottom border) and gravity is reset.
   */
  lemma NormalTickInWater(cfg: Config, s: GState)
    requires WellFormed(cfg) && GravityOK(s)
    requires !OnGround(cfg, s) && ClimbHere(cfg, s) == WATER
    requires s.y + 1 < Here(cfg, s).height + EDGE_WARP_OFFSET_D
    ensures NormalTickSpec(cfg, s) == GravityReset(s.(y := s.y + 1))
  {
    NormalLoopInWater(cfg, s, 0);
  }

  /** Standing on ground away from warp zones, the fast fall's pixel loop changes nothing. */
  lemma {:induction false} FastLoopGrounded(cfg: Config, s: GState, i: int)
    requires WellFormed(cfg) && GravityOK(s)
    requires OnGround(cfg, s) && !AtWarp(cfg, s)
    ensures FastLoop(cfg, s, i) == s
    decreases 9 - i
  {
    if i < s.fastGravity / FAST_GRAVITY_DIVIDER {
      assert FastPixel(cfg, s) == s;
      FastLoopGrounded(cfg, s, i + 1);
    }
  }

  /**
   * Landing from a fast fall: the fast fall and its timer stop, the
   * animation resets and gravity is back at its initial values.
   */
  lemma FastTickLands(cfg: Config, s: GState)
    requires WellFormed(cfg) && GravityOK(s)
    requires OnGround(cfg, s) && !AtWarp(cfg, s)
    ensures FastTickSpec(cfg, s) == GravityReset(s.(fastFallTimer := false, fastFall := false, step := 0))
  {
    FastLoopGrounded(cfg, s, 0);
  }

  /**
   * One pixel of normal fall away from the bottom border: the character
   * drops a pixel, gravity grows by the acceleration while it is at most
   * the cap, and at 3 pixels per tick the fast fall takes over.
   */
  lemma NormalDescentRamps(cfg: Config, s: GState)
    requires WellFormed(cfg) && s.y + 1 < Here(cfg, s).height + EDGE_WARP_OFFSET_D
    ensures var g := if s.gravity <= GRAVITY_CAP then s.gravity + GRAVITY_ACCELERATION else s.gravity;
            NormalDescent(cfg, s)
            == if g >= FAST_FALL_SWITCH then s.(y := s.y + 1, gravity := g, fastFall := true,
                                                fastFallTimer := true, fallTimer := false)
               else s.(y := s.y + 1, gravity := g)
  {
  }

  /**
   * One pixel of fast fall away from the bottom border: fast gravity grows
   * on every second pixel while it is at most its cap.
   */
  lemma FastDescentRamps(cfg: Config, s: GState)
    requires WellFormed(cfg) && s.y + 1 < Here(cfg, s).height + EDGE_WARP_OFFSET_D
    ensures FastDescent(cfg, s)
            == if s.fastGravity <= FAST_GRAVITY_CAP && s.accelCount == ACCEL_AT
               then s.(y := s.y + 1, fastGravity := s.fastGravity + FAST_GRAVITY_ACCELERATION, accelCount := 0)
               else s.(y := s.y + 1, accelCount := s.accelCount + 1)
  {
  }

  /**
   * Walking off the right border with a free pixel: the character lands
   * on the right neighbour at x = -15 on the same row, unless the landing
   * spot is an in-map warp zone.
   */
  lemma RightEdgeWarp(cfg: Config, s: GState)
    requires WellFormed(cfg)
    requires Free(cfg, s, 'r', s.x + 1, s.y) && s.x + 1 >= Here(cfg, s).width + EDGE_WARP_OFFSET_R
    requires !AtWarp(cfg, EdgeLanding(cfg, s.(x := s.x + 1), 'r'))
    ensures var r := StepRight(cfg, s).0;
            r.loaded == r.mapNumber == Here(cfg, s).edgeRight && r.x == 0 - EDGE_WARP_OFFSET_L && r.y == s.y
  {
  }

  /**
   * Walking off the left border with a free pixel: the character lands on
   * the left neighbour five pixels right of its width, on the same row.
   */
  lemma LeftEdgeWarp(cfg: Config, s: GState)
    requires WellFormed(cfg)
    requires Free(cfg, s, 'l', s.x - 1, s.y) && s.x - 1 <= 0 - EDGE_WARP_OFFSET_L
    requires !AtWarp(cfg, EdgeLanding(cfg, s.(x := s.x - 1), 'l'))
    ensures var r := StepLeft(cfg, s).0;
            && r.loaded == r.mapNumber == Here(cfg, s).edgeLeft
            && r.x == LevelOf(cfg, Here(cfg, s).edgeLeft).width + EDGE_WARP_OFFSET_R && r.y == s.y
  {
  }
}
