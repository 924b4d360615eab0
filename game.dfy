/**
 * The game's character physics: keyboard moves one pixel at a time, jumps,
 * the normal and fast falling ticks with accelerating gravity, the climb
 * check that fires in-map warps, and edge warps that load the neighbouring
 * map.
 *
 * The behaviour is first given by pure functions over `GState`, a snapshot
 * of everything the game changes; the class `Game` then performs the same
 * steps on its fields and on the character object, and each of its methods
 * is proved to end in the state the matching function computes.
 *
 * Gravity is kept in tenths of a pixel: a gravity of 4.0 is 40 here.
 */
module Physics {
  import opened Shapes
  import opened MapQuery
  import opened Probes
  import opened Sprite

  /** How far past the border the character is placed by an edge warp. */
  const EDGE_WARP_OFFSET_L := 15
  const EDGE_WARP_OFFSET_R := 5
  const EDGE_WARP_OFFSET_U := 2
  const EDGE_WARP_OFFSET_D := 22

  /** The map the game starts on. */
  const START_MAP := 4
  /** The jump counter's value when no jump is running. */
  const JUMP_READY := 3
  /** Height of the first rise of a jump, in pixels. */
  const JUMP_RISE := 3

  /** Normal falling: initial speed, divider, acceleration and the cap on acceleration, in tenths. */
  const GRAVITY_INITIAL := 40
  const GRAVITY_DIVIDER := 20
  const GRAVITY_ACCELERATION := 2
  const GRAVITY_CAP := 160
  /** Normal gravity at which the fast-fall timer takes over (speed 3 pixels per tick). */
  const FAST_FALL_SWITCH := 60
  /** Fast falling, in tenths. */
  const FAST_GRAVITY_INITIAL := 80
  const FAST_GRAVITY_DIVIDER := 60
  const FAST_GRAVITY_ACCELERATION := 2
  const FAST_GRAVITY_CAP := 480
  /** Fast gravity grows on every ACCEL_AT-th pixel of fall. */
  const ACCEL_AT := 1

  /**
   * What the game is configured with: the level read for each map number
   * and whether the two kinds of warp reset gravity.
   */
  datatype Config = Config(levels: map<int, Level>,
                           normWarpResetsGravity: bool, edgeWarpResetsGravity: bool)

  /** The level the game loads for map `id`; a map without a file loads as empty. */
  function LevelOf(cfg: Config, id: int): Level
  {
    if id in cfg.levels then cfg.levels[id] else MissingLevel()
  }

  /**
   * Everything the physics changes: the loaded map, the game's own map
   * number, the character's position and animation frame, the jump counter,
   * the three timers, the fast-fall flag and the gravity state.
   */
  datatype GState = GState(loaded: int, mapNumber: int, x: int, y: int, step: int,
                           jumpStep: int, jumpTimer: bool, fallTimer: bool,
                           fastFallTimer: bool, fastFall: bool,
                           gravity: int, fastGravity: int, accelCount: int)

  /** Every warp shape of the level names an entry of its warp table. */
  predicate WarpIndicesOK(l: Level)
  {
    forall i :: 0 <= i < |l.shapes| && l.shapes[i].climb >= WARP_BASE ==>
      l.shapes[i].climb - WARP_BASE < |l.warps|
  }

  /** A warp target is not itself inside a warp zone. */
  predicate Settled(cfg: Config, w: Warp)
  {
    ClimbAt(LevelOf(cfg, w.targetMap).shapes, w.targetX, w.targetY) < WARP_BASE
  }

  /**
   * The levels the physics is defined on: every warp shape has its warp
   * entry, and no in-map warp lands in another warp zone (which would chain
   * warps without end).
   */
  predicate WellFormed(cfg: Config)
  {
    && (forall id :: id in cfg.levels ==> WarpIndicesOK(cfg.levels[id]))
    && (forall id, k :: id in cfg.levels && 0 <= k < |cfg.levels[id].warps| ==>
          Settled(cfg, cfg.levels[id].warps[k]))
  }

  /** The gravity values the game can reach. */
  predicate GravityOK(s: GState)
  {
    GRAVITY_INITIAL <= s.gravity <= GRAVITY_CAP + GRAVITY_ACCELERATION
    && FAST_GRAVITY_INITIAL <= s.fastGravity <= FAST_GRAVITY_CAP + FAST_GRAVITY_ACCELERATION
  }

  function Here(cfg: Config, s: GState): Level
  {
    LevelOf(cfg, s.loaded)
  }

  /** The side `side` of a box at (x, y) on the loaded map is free. */
  function Free(cfg: Config, s: GState, side: char, x: int, y: int): bool
  {
    SideClear(Here(cfg, s).shapes, side, x, y)
  }

  predicate OnGround(cfg: Config, s: GState)
  {
    Grounded(Here(cfg, s).shapes, s.x, s.y)
  }

  /** The merged climb kind at the character's position. */
  function ClimbHere(cfg: Config, s: GState): int
  {
    ClimbAt(Here(cfg, s).shapes, s.x, s.y)
  }

  predicate AtWarp(cfg: Config, s: GState)
  {
    ClimbHere(cfg, s) >= WARP_BASE
  }

  function GravityReset(s: GState): (r: GState)
    ensures GravityOK(r)
  {
    s.(gravity := GRAVITY_INITIAL, fastGravity := FAST_GRAVITY_INITIAL, accelCount := 0)
  }

  /** Gravity is either untouched or back at its initial values. */
  predicate GravityKeptOrReset(s: GState, r: GState)
  {
    || (r.gravity == s.gravity && r.fastGravity == s.fastGravity && r.accelCount == s.accelCount)
    || (r.gravity == GRAVITY_INITIAL && r.fastGravity == FAST_GRAVITY_INITIAL && r.accelCount == 0)
  }

  /**
   * What a warp or a fall check may change: the map and position, the fall
   * timer (only by starting it) and gravity (only by resetting it); the
   * animation, the jump and the fast fall are left alone.
   */
  predicate WarpEffect(s: GState, r: GState)
  {
    && r.step == s.step && r.jumpStep == s.jumpStep && r.jumpTimer == s.jumpTimer
    && r.fastFallTimer == s.fastFallTimer && r.fastFall == s.fastFall
    && (s.fallTimer ==> r.fallTimer)
    && GravityKeptOrReset(s, r)
  }

  /** A warp shape under the character names an entry of the loaded level's warp table. */
  lemma WarpInRange(cfg: Config, s: GState)
    requires WellFormed(cfg)
    ensures AtWarp(cfg, s) ==> ClimbHere(cfg, s) - WARP_BASE < |Here(cfg, s).warps|
  {
    ClimbAtFromShape(Here(cfg, s).shapes, s.x, s.y);
  }

  /**
   * The fall check: when the character is in the air and the climb check
   * reports neither a ladder nor a jump-through shape (checked twice, as
   * each check may fire an in-map warp), the fall timer starts unless a fast
   * fall is running.
   */
  function CheckFallSpec(cfg: Config, s: GState): (r: GState)
    requires WellFormed(cfg)
    ensures WarpEffect(s, r) && r.mapNumber == s.mapNumber
    ensures !AtWarp(cfg, s) || !OnGround(cfg, s) ==> !AtWarp(cfg, r)
    ensures !AtWarp(cfg, s) ==>
              r == s.(fallTimer := s.fallTimer || (!OnGround(cfg, s) && ClimbHere(cfg, s) != LADDER
                                                   && ClimbHere(cfg, s) != JUMP_THROUGH && !s.fastFall))
    decreases if AtWarp(cfg, s) then 4 else 1
  {
    if !OnGround(cfg, s) then
      var (s1, c1) := CheckClimbSpec(cfg, s);
      if c1 != LADDER then
        var (s2, c2) := CheckClimbSpec(cfg, s1);
        if c2 != JUMP_THROUGH && !s2.fastFall then s2.(fallTimer := true) else s2
      else s1
    else
      s
  }

  /**
   * The climb check: the merged climb kind at the character's position,
   * and, when it is in-map warp number k, the state after that warp.
   */
  function CheckClimbSpec(cfg: Config, s: GState): (r: (GState, int))
    requires WellFormed(cfg)
    ensures r.1 == ClimbHere(cfg, s)
    ensures r.1 < WARP_BASE ==> r.0 == s
    ensures r.1 >= WARP_BASE ==>
              && r.1 - WARP_BASE < |Here(cfg, s).warps|
              && var w := Here(cfg, s).warps[r.1 - WARP_BASE];
                 r.0.loaded == w.targetMap && r.0.x == w.targetX && r.0.y == w.targetY
    ensures WarpEffect(s, r.0) && r.0.mapNumber == s.mapNumber
    ensures !AtWarp(cfg, r.0)
    decreases if AtWarp(cfg, s) then 3 else 0
  {
    var priority := ClimbHere(cfg, s);
    WarpInRange(cfg, s);
    if priority >= WARP_BASE then (NormWarpSpec(cfg, s, priority - WARP_BASE), priority)
    else (s, priority)
  }

  /**
   * In-map warp number k: load the warp's map, place the character exactly
   * at the warp's position, reset gravity if so configured, then check for
   * a fall. The game's own map number is not updated.
   */
  function NormWarpSpec(cfg: Config, s: GState, k: int): (r: GState)
    requires WellFormed(cfg)
    requires 0 <= k < |Here(cfg, s).warps|
    ensures var w := Here(cfg, s).warps[k];
            r.loaded == w.targetMap && r.x == w.targetX && r.y == w.targetY
    ensures WarpEffect(s, r) && r.mapNumber == s.mapNumber
    ensures !AtWarp(cfg, r)
    decreases 2
  {
    var w := Here(cfg, s).warps[k];
    var placed := s.(loaded := w.targetMap, x := w.targetX, y := w.targetY);
    var reset := if cfg.normWarpResetsGravity then GravityReset(placed) else placed;
    CheckFallSpec(cfg, reset)
  }

  /**
   * The position in-map warp number k sets before its fall check, as the
   * game's code computes it: the map comes from the warp entry, but x and y
   * are read after the new map is loaded, from entry k of the NEW map's
   * warp table. None when that table has no entry k (the game then fails
   * with an index error).
   */
  function NormWarpTargetAsWritten(cfg: Config, s: GState, k: int): (r: Option<(int, int, int)>)
    requires 0 <= k < |Here(cfg, s).warps|
    ensures r.Some? <==> k < |LevelOf(cfg, Here(cfg, s).warps[k].targetMap).warps|
    ensures r.Some? ==> r.value.0 == Here(cfg, s).warps[k].targetMap
  {
    var m := Here(cfg, s).warps[k].targetMap;
    var there := LevelOf(cfg, m).warps;
    if k < |there| then Some((m, there[k].targetX, there[k].targetY)) else None
  }

  /** Two small levels: map 1 has a warp to (2, 100, 50); map 2 has one warp to (3, 7, 8). */
  function WarpExample(): Config
  {
    var warpShape := Shape(0, 0, 10, 10, WARP_SHAPE, WARP_BASE, 0, 0, 0);
    Config(map[1 := Level(100, 100, 0, 0, 1, 1, 1, 1, [warpShape], [Warp(2, 100, 50)]),
               2 := Level(100, 100, 0, 0, 2, 2, 2, 2, [], [Warp(3, 7, 8)])],
           false, false)
  }

  /**
   * Through warp 0 of map 1 the code as written puts the character at
   * (7, 8), the position of map 2's own warp 0, while the warp entry says
   * (100, 50); the corrected warp lands at (100, 50).
   */
  lemma NormWarpAsWrittenMisplaces(s: GState)
    requires s.loaded == 1
    ensures NormWarpTargetAsWritten(WarpExample(), s, 0) == Some((2, 7, 8))
    ensures Here(WarpExample(), s).warps[0] == Warp(2, 100, 50)
  {
  }

  /**
   * Edge warp in direction `dir`: load the map named by the loaded map's
   * edge warp on that side and place the character just past the opposite
   * border of the new map; then reset gravity if so configured and check
   * for a fall.
   */
  function EdgeWarpSpec(cfg: Config, s: GState, dir: char): (r: GState)
    requires WellFormed(cfg)
    ensures WarpEffect(s, r)
    ensures dir in "lrud" ==> r.mapNumber == EdgeTarget(cfg, s, dir)
    ensures !AtWarp(cfg, EdgeLanding(cfg, s, dir)) ==>
              r.loaded == EdgeLanding(cfg, s, dir).loaded
              && r.x == EdgeLanding(cfg, s, dir).x && r.y == EdgeLanding(cfg, s, dir).y
  {
    var landed := EdgeLanding(cfg, s, dir);
    var reset := if cfg.edgeWarpResetsGravity then GravityReset(landed) else landed;
    CheckFallSpec(cfg, reset)
  }

  /** The map an edge warp in direction `dir` leads to. */
  function EdgeTarget(cfg: Config, s: GState, dir: char): int
  {
    var here := Here(cfg, s);
    if dir == 'l' then here.edgeLeft
    else if dir == 'r' then here.edgeRight
    else if dir == 'u' then here.edgeUp
    else if dir == 'd' then here.edgeDown
    else s.mapNumber
  }

  /** Where an edge warp puts the character, before the fall check. */
  function EdgeLanding(cfg: Config, s: GState, dir: char): (r: GState)
    ensures dir in "lrud" ==> r.loaded == r.mapNumber == EdgeTarget(cfg, s, dir)
    ensures dir == 'l' ==> r.x == LevelOf(cfg, r.loaded).width + 5 && r.y == s.y
    ensures dir == 'r' ==> r.x == -15 && r.y == s.y
    ensures dir == 'u' ==> r.x == s.x && r.y == LevelOf(cfg, r.loaded).height + 22
    ensures dir == 'd' ==> r.x == s.x && r.y == -2
    ensures dir !in "lrud" ==> r == s
  {
    var t := EdgeTarget(cfg, s, dir);
    if dir == 'l' then s.(mapNumber := t, loaded := t, x := LevelOf(cfg, t).width + EDGE_WARP_OFFSET_R)
    else if dir == 'r' then s.(mapNumber := t, loaded := t, x := 0 - EDGE_WARP_OFFSET_L)
    else if dir == 'u' then s.(mapNumber := t, loaded := t, y := LevelOf(cfg, t).height + EDGE_WARP_OFFSET_D)
    else if dir == 'd' then s.(mapNumber := t, loaded := t, y := 0 - EDGE_WARP_OFFSET_U)
    else s
  }

  /** One pixel to the right, with the edge warp past the right border. */
  function StepRight(cfg: Config, s: GState): (r: (GState, bool))
    requires WellFormed(cfg)
    ensures WarpEffect(s, r.0)
  {
    var ok := Free(cfg, s, 'r', s.x + 1, s.y);
    var t := if ok then s.(x := s.x + 1) else s;
    (if t.x >= Here(cfg, t).width + EDGE_WARP_OFFSET_R then EdgeWarpSpec(cfg, t, 'r') else t, ok)
  }

  /** One pixel to the left, with the edge warp past the left border. */
  function StepLeft(cfg: Config, s: GState): (r: (GState, bool))
    requires WellFormed(cfg)
    ensures WarpEffect(s, r.0)
  {
    var ok := Free(cfg, s, 'l', s.x - 1, s.y);
    var t := if ok then s.(x := s.x - 1) else s;
    (if t.x <= 0 - EDGE_WARP_OFFSET_L then EdgeWarpSpec(cfg, t, 'l') else t, ok)
  }

  /** One pixel up (a ladder climb), with the edge warp past the top border. */
  function StepUp(cfg: Config, s: GState): (r: (GState, bool))
    requires WellFormed(cfg)
    ensures WarpEffect(s, r.0)
  {
    if Free(cfg, s, 'u', s.x, s.y - 1) then
      var t := s.(y := s.y - 1);
      (if t.y <= 0 - EDGE_WARP_OFFSET_U then EdgeWarpSpec(cfg, t, 'u') else t, true)
    else (s, false)
  }

  /** One pixel down, taken only when no jump is running, with the edge warp past the bottom border. */
  function StepDown(cfg: Config, s: GState): (r: (GState, bool))
    requires WellFormed(cfg)
    ensures WarpEffect(s, r.0)
  {
    if Free(cfg, s, 'd', s.x, s.y + 1) && s.jumpStep == JUMP_READY then
      var t := s.(y := s.y + 1);
      (if t.y >= Here(cfg, t).height + EDGE_WARP_OFFSET_D then EdgeWarpSpec(cfg, t, 'd') else t, true)
    else (s, false)
  }

  /**
   * One pixel of a keyboard move in direction `dir` ('u' is one pixel of
   * a ladder climb), with the edge warp it may trigger; the flag says
   * whether the pixel was taken.
   */
  function StepSpec(cfg: Config, s: GState, dir: char): (r: (GState, bool))
    requires WellFormed(cfg)
    ensures WarpEffect(s, r.0)
  {
    if dir == 'r' then StepRight(cfg, s)
    else if dir == 'l' then StepLeft(cfg, s)
    else if dir == 'u' then StepUp(cfg, s)
    else if dir == 'd' then StepDown(cfg, s)
    else (s, false)
  }

  /** `n` pixels of a move; the flag says whether any pixel was taken. */
  function SlideSpec(cfg: Config, s: GState, dir: char, n: nat): (r: (GState, bool))
    requires WellFormed(cfg)
    ensures WarpEffect(s, r.0)
  {
    if n == 0 then (s, false)
    else
      var (t, movedBefore) := SlideSpec(cfg, s, dir, n - 1);
      var (u, ok) := StepSpec(cfg, t, dir);
      (u, movedBefore || ok)
  }

  /**
   * The up key: a jump starts when the jump counter is ready, the three
   * pixels above the head are free and the character either stands on
   * ground with no climb kind around it or is in water or at a jump-through
   * shape; otherwise, on a ladder, the character climbs three pixels.
   */
  function UpSpec(cfg: Config, s: GState): (GState, bool)
    requires WellFormed(cfg)
  {
    var checked := JumpAllowedSpec(cfg, s);
    JumpOrClimbSpec(cfg, checked.0, checked.1)
  }

  /** After the climb checks: the jump when allowed, ready and free above, else the ladder climb. */
  function JumpOrClimbSpec(cfg: Config, s: GState, canJump: bool): (GState, bool)
    requires WellFormed(cfg)
  {
    if canJump && Free(cfg, s, 'u', s.x, s.y - JUMP_RISE) && s.jumpStep == JUMP_READY then
      (s.(fallTimer := false, y := s.y - JUMP_RISE, step := 0, jumpStep := 0, jumpTimer := true), true)
    else LadderSpec(cfg, s)
  }

  /** When no jump starts: the climb check, and three pixels up when it reports a ladder. */
  function LadderSpec(cfg: Config, s: GState): (r: (GState, bool))
    requires WellFormed(cfg)
    ensures WarpEffect(s, r.0)
  {
    var (s4, c4) := CheckClimbSpec(cfg, s);
    if c4 == LADDER then SlideSpec(cfg, s4, 'u', 3) else (s4, false)
  }

  /**
   * The climb checks the up key runs before a jump: on ground with no climb
   * kind, or in water, or at a jump-through shape, a jump may start. Each
   * check may fire an in-map warp, so the state is returned too.
   */
  function JumpAllowedSpec(cfg: Config, s: GState): (r: (GState, bool))
    requires WellFormed(cfg)
    ensures WarpEffect(s, r.0)
  {
    var grounded := OnGround(cfg, s);
    var r1 := if grounded then CheckClimbSpec(cfg, s) else (s, NO_CLIMB);
    var standing := grounded && r1.1 == NO_CLIMB;
    var r2 := if standing then (r1.0, NO_CLIMB) else CheckClimbSpec(cfg, r1.0);
    var swimming := standing || r2.1 == WATER;
    var r3 := if swimming then (r2.0, NO_CLIMB) else CheckClimbSpec(cfg, r2.0);
    (r3.0, swimming || r3.1 == JUMP_THROUGH)
  }

  /**
   * A keyboard move: three pixels left, right or down, or the up key; the
   * walking animation advances when any pixel was taken; then the climb
   * check runs and, when no jump is running, the fall check.
   */
  function MoveSpec(cfg: Config, s: GState, dir: char): GState
    requires WellFormed(cfg)
  {
    var (s1, moved) :=
      if dir == 'r' || dir == 'l' || dir == 'd' then SlideSpec(cfg, s, dir, 3)
      else if dir == 'u' then UpSpec(cfg, s)
      else (s, false);
    var s2 := if moved then s1.(step := NextStep(s1.step, 1)) else s1;
    var s3 := CheckClimbSpec(cfg, s2).0;
    if s3.jumpStep == JUMP_READY then CheckFallSpec(cfg, s3) else s3
  }

  /** One pixel of fall, with the edge warp through the bottom border it may trigger. */
  function Descend(cfg: Config, s: GState): (r: GState)
    requires WellFormed(cfg)
    ensures WarpEffect(s, r)
  {
    var t := s.(y := s.y + 1);
    if t.y >= Here(cfg, t).height + EDGE_WARP_OFFSET_D then EdgeWarpSpec(cfg, t, 'd') else t
  }

  /** One pixel of a normal fall: gravity grows up to its cap and hands over to the fast fall at 3 pixels per tick. */
  function NormalDescent(cfg: Config, s: GState): (r: GState)
    requires WellFormed(cfg)
    ensures s.gravity <= GRAVITY_CAP + GRAVITY_ACCELERATION ==> r.gravity <= GRAVITY_CAP + GRAVITY_ACCELERATION
    ensures r.gravity >= FAST_FALL_SWITCH ==> r.fastFall && r.fastFallTimer && !r.fallTimer
    ensures r.step == s.step && r.jumpStep == s.jumpStep && r.jumpTimer == s.jumpTimer
  {
    var t := Descend(cfg, s);
    var u := if t.gravity <= GRAVITY_CAP then t.(gravity := t.gravity + GRAVITY_ACCELERATION) else t;
    if u.gravity >= FAST_FALL_SWITCH then u.(fastFall := true, fastFallTimer := true, fallTimer := false)
    else u
  }

  /** The pixel loop of the normal fall tick, from iteration i on; its bound is recomputed every iteration. */
  function NormalLoop(cfg: Config, s: GState, i: int): GState
    requires WellFormed(cfg) && s.gravity <= GRAVITY_CAP + GRAVITY_ACCELERATION
    decreases 9 - i
  {
    if i < s.gravity / GRAVITY_DIVIDER then NormalLoop(cfg, NormalPixel(cfg, s), i + 1)
    else s
  }

  /** One iteration of the normal fall's pixel loop: in the air, with no climb kind and no fast fall, one pixel down. */
  function NormalPixel(cfg: Config, s: GState): (r: GState)
    requires WellFormed(cfg) && s.gravity <= GRAVITY_CAP + GRAVITY_ACCELERATION
    ensures r.gravity <= GRAVITY_CAP + GRAVITY_ACCELERATION
  {
    var grounded := OnGround(cfg, s);
    var r := if !grounded then CheckClimbSpec(cfg, s) else (s, NO_CLIMB);
    if !grounded && r.1 == NO_CLIMB && !r.0.fastFall then NormalDescent(cfg, r.0) else r.0
  }

  /**
   * One tick of the normal fall timer: the pixel loop, then one more pixel
   * in the air; in water one pixel and a gravity reset; when a fast fall
   * has taken over, the timer stops; otherwise (landed or climbing) the
   * timer stops, the animation resets and so does gravity.
   */
  function NormalTickSpec(cfg: Config, s: GState): GState
    requires WellFormed(cfg) && s.gravity <= GRAVITY_CAP + GRAVITY_ACCELERATION
  {
    NormalTail(cfg, NormalLoop(cfg, s, 0))
  }

  /** What the normal fall tick does after its pixel loop. */
  function NormalTail(cfg: Config, s1: GState): GState
    requires WellFormed(cfg)
  {
    var s2 := CheckClimbSpec(cfg, s1).0;
    var grounded := OnGround(cfg, s2);
    var r1 := if !grounded then CheckClimbSpec(cfg, s2) else (s2, NO_CLIMB);
    var s3 := r1.0;
    if !grounded && r1.1 == NO_CLIMB && !s3.fastFall then Descend(cfg, s3)
    else NormalStop(cfg, s3)
  }

  /** The normal fall ends: one pixel and a gravity reset in water, else the timer stops. */
  function NormalStop(cfg: Config, s3: GState): GState
    requires WellFormed(cfg)
  {
    var grounded := OnGround(cfg, s3);
    var r2 := if !grounded then CheckClimbSpec(cfg, s3) else (s3, NO_CLIMB);
    var s4 := r2.0;
    if !grounded && r2.1 == WATER then GravityReset(Descend(cfg, s4))
    else if s4.fastFall then s4.(fallTimer := false)
    else GravityReset(s4.(fallTimer := false, step := 0))
  }

  /** One pixel of a fast fall: fast gravity grows on every ACCEL_AT-th pixel up to its cap. */
  function FastDescent(cfg: Config, s: GState): (r: GState)
    requires WellFormed(cfg)
    ensures s.fastGravity <= FAST_GRAVITY_CAP + FAST_GRAVITY_ACCELERATION ==>
              r.fastGravity <= FAST_GRAVITY_CAP + FAST_GRAVITY_ACCELERATION
  {
    var t := Descend(cfg, s);
    if t.fastGravity <= FAST_GRAVITY_CAP && t.accelCount == ACCEL_AT then
      t.(fastGravity := t.fastGravity + FAST_GRAVITY_ACCELERATION, accelCount := 0)
    else t.(accelCount := t.accelCount + 1)
  }

  /** The pixel loop of the fast fall tick, from iteration i on. */
  function FastLoop(cfg: Config, s: GState, i: int): GState
    requires WellFormed(cfg) && s.fastGravity <= FAST_GRAVITY_CAP + FAST_GRAVITY_ACCELERATION
    decreases 9 - i
  {
    if i < s.fastGravity / FAST_GRAVITY_DIVIDER then FastLoop(cfg, FastPixel(cfg, s), i + 1)
    else s
  }

  /** One iteration of the fast fall's pixel loop: in the air and with no climb kind, one pixel down. */
  function FastPixel(cfg: Config, s: GState): (r: GState)
    requires WellFormed(cfg) && s.fastGravity <= FAST_GRAVITY_CAP + FAST_GRAVITY_ACCELERATION
    ensures r.fastGravity <= FAST_GRAVITY_CAP + FAST_GRAVITY_ACCELERATION
  {
    var grounded := OnGround(cfg, s);
    var r := if !grounded then CheckClimbSpec(cfg, s) else (s, NO_CLIMB);
    if !grounded && r.1 == NO_CLIMB then FastDescent(cfg, r.0) else r.0
  }

  /**
   * One tick of the fast fall timer: the pixel loop, then one more pixel
   * in the air; otherwise the fast fall ends, the animation resets and so
   * does gravity.
   */
  function FastTickSpec(cfg: Config, s: GState): GState
    requires WellFormed(cfg) && s.fastGravity <= FAST_GRAVITY_CAP + FAST_GRAVITY_ACCELERATION
  {
    FastTail(cfg, FastLoop(cfg, s, 0))
  }

  /** What the fast fall tick does after its pixel loop. */
  function FastTail(cfg: Config, s1: GState): GState
    requires WellFormed(cfg)
  {
    var s2 := CheckClimbSpec(cfg, s1).0;
    var grounded := OnGround(cfg, s2);
    var r := if !grounded then CheckClimbSpec(cfg, s2) else (s2, NO_CLIMB);
    if !grounded && r.1 == NO_CLIMB then Descend(cfg, r.0)
    else GravityReset(r.0.(fastFallTimer := false, fastFall := false, step := 0))
  }

  /**
   * One tick of the jump timer: on counter 0 and 1 the character rises
   * three pixels if free, on counter 2 the jump ends and the fall check
   * runs; the counter always advances.
   */
  function JumpTickSpec(cfg: Config, s: GState): (r: GState)
    requires WellFormed(cfg)
    ensures r.jumpStep == s.jumpStep + 1
  {
    var t :=
      if s.jumpStep == 0 || s.jumpStep == 1 then RiseSpec(cfg, s)
      else if s.jumpStep == 2 then CheckFallSpec(cfg, s.(jumpTimer := false, step := 0))
      else s;
    t.(jumpStep := t.jumpStep + 1)
  }

  /** The rise of a jump: three pixels up when free, with the edge warp past the top border. */
  function RiseSpec(cfg: Config, s: GState): (r: GState)
    requires WellFormed(cfg)
    ensures WarpEffect(s, r)
  {
    if Free(cfg, s, 'd', s.x, s.y - JUMP_RISE) then
      var u := s.(y := s.y - JUMP_RISE);
      if u.y <= 0 - EDGE_WARP_OFFSET_U then EdgeWarpSpec(cfg, u, 'u') else u
    else s
  }

  /** The map object holds exactly the level's shapes, warp table and edge warps. */
  predicate MapHolds(m: GameMap, l: Level)
    reads m
  {
    && m.Valid()
    && m.shapeData == l.shapes && m.shapeCount == |l.shapes|
    && m.warpList == l.warps && m.warpCount == |l.warps|
    && m.edgeWarpLeft == l.edgeLeft && m.edgeWarpRight == l.edgeRight
    && m.edgeWarpUp == l.edgeUp && m.edgeWarpDown == l.edgeDown
  }

  /** The state right after the game has loaded its start map and placed the character at the spawn point. */
  function StartState(cfg: Config): GState
  {
    var start := LevelOf(cfg, START_MAP);
    GState(START_MAP, START_MAP, start.spawnX, start.spawnY, 0, JUMP_READY,
           false, false, false, false, GRAVITY_INITIAL, FAST_GRAVITY_INITIAL, 1)
  }

  /**
   * The running game: the character, the loaded map, the jump counter, the
   * three timers (as running flags) and the gravity state.
   */
  class Game {
    const levels: map<int, Level>
    const normWarpResetsGravity: bool
    const edgeWarpResetsGravity: bool
    const sChar: Character
    var sMap: GameMap
    var mapNumber: int
    var frameWidth: int
    var frameHeight: int
    var jumpStep: int
    var jumpTimerRunning: bool
    var fallTimerRunning: bool
    var fastFallTimerRunning: bool
    var fastFall: bool
    var gravityStart: int
    var fastGravityStart: int
    var accelCount: int

    function Cfg(): Config
    {
      Config(levels, normWarpResetsGravity, edgeWarpResetsGravity)
    }

    function State(): GState
      reads this, sChar, sMap
    {
      GState(sMap.mapNumber, mapNumber, sChar.xPos, sChar.yPos, sChar.step, jumpStep,
             jumpTimerRunning, fallTimerRunning, fastFallTimerRunning, fastFall,
             gravityStart, fastGravityStart, accelCount)
    }

    /** The loaded map object and the frame size match the level of the loaded map. */
    predicate Valid()
      reads this, sChar, sMap
    {
      && WellFormed(Cfg())
      && sChar.stepMax == 1
      && MapHolds(sMap, LevelOf(Cfg(), sMap.mapNumber))
      && frameWidth == LevelOf(Cfg(), sMap.mapNumber).width
      && frameHeight == LevelOf(Cfg(), sMap.mapNumber).height
      && GravityOK(State())
    }

    /**
     * A new game on the start map: the character at the map's spawn point,
     * no jump running, then the fall check.
     */
    constructor (levels: map<int, Level>, normWarpResetsGravity: bool, edgeWarpResetsGravity: bool)
      requires WellFormed(Config(levels, normWarpResetsGravity, edgeWarpResetsGravity))
      ensures Valid()
      ensures State() == CheckFallSpec(Cfg(), StartState(Cfg()))
    {
      this.levels := levels;
      this.normWarpResetsGravity := normWarpResetsGravity;
      this.edgeWarpResetsGravity := edgeWarpResetsGravity;
      jumpStep := JUMP_READY;
      sChar := new Character();
      mapNumber := START_MAP;
      sMap := new GameMap(START_MAP);
      frameWidth, frameHeight := 0, 0;
      jumpTimerRunning, fallTimerRunning, fastFallTimerRunning, fastFall := false, false, false, false;
      gravityStart, fastGravityStart, accelCount := GRAVITY_INITIAL, FAST_GRAVITY_INITIAL, 1;
      new;
      ChangeMap(mapNumber);
      sChar.SetX(LevelOf(Cfg(), mapNumber).spawnX);
      sChar.SetY(LevelOf(Cfg(), mapNumber).spawnY);
      CheckFall();
    }

    /** Loads map `newMap`: a new map object holding its level, and the level's frame size. */
    method ChangeMap(newMap: int)
      modifies this`sMap, this`frameWidth, this`frameHeight
      ensures fresh(sMap) && sMap.mapNumber == newMap
      ensures MapHolds(sMap, LevelOf(Cfg(), newMap))
      ensures frameWidth == LevelOf(Cfg(), newMap).width && frameHeight == LevelOf(Cfg(), newMap).height
    {
      var file := LevelOf(Cfg(), newMap);
      var m := new GameMap(newMap);
      m.SetShapeData(file.shapes);
      m.SetShapeCount(|file.shapes|);
      m.SetEdgeWarps(file.edgeLeft, file.edgeRight, file.edgeUp, file.edgeDown);
      m.SetWarpCount(|file.warps|);
      m.SetWarpList(file.warps);
      sMap := m;
      frameHeight := file.height;
      frameWidth := file.width;
    }

    /** Whether side `side` of the character's box placed at (x, y) is free on the loaded map. */
    function CheckCollision(side: char, x: int, y: int): (free: bool)
      reads this, sMap
      requires sMap.Valid()
    {
      SideClear(sMap.Shapes(), side, x, y)
    }

    function IsOnGround(x: int, y: int): bool
      reads this, sMap
      requires sMap.Valid()
    {
      !CheckCollision('d', x, y)
    }

    method ResetGravity()
      modifies this`gravityStart, this`fastGravityStart, this`accelCount
      ensures gravityStart == GRAVITY_INITIAL && fastGravityStart == FAST_GRAVITY_INITIAL && accelCount == 0
    {
      gravityStart := GRAVITY_INITIAL;
      fastGravityStart := FAST_GRAVITY_INITIAL;
      accelCount := 0;
    }

    /** The merged climb kind of the 38 pixels sensed around a character at (x, y), in sensing order. */
    method SenseClimb(x: int, y: int) returns (priority: int)
      requires sMap.Valid()
      ensures priority == NO_CLIMB || ClimbCode(priority)
      ensures priority == ClimbAt(sMap.Shapes(), x, y)
    {
      var probes := ClimbProbes(x, y);
      ghost var codes := ProbeCodes(sMap.Shapes(), x, y);
      priority := NO_CLIMB;
      var k := 0;
      while k < |probes|
        invariant 0 <= k <= |probes|
        invariant priority == MergeAll(codes[..k])
      {
        var climb := sMap.GetClimb(probes[k].0, probes[k].1);
        assert climb == codes[k];
        assert codes[..k + 1][..k] == codes[..k];
        priority := Merge(priority, climb);
        k := k + 1;
      }
      assert codes[..|probes|] == codes;
      assert priority == MergeAll(codes);
      assert ClimbAt(sMap.Shapes(), x, y) == MergeAll(codes);
    }

    /** The climb check: merges the climb kinds of the 38 sensed pixels and fires an in-map warp. */
    method CheckClimb() returns (priority: int)
      requires Valid()
      modifies this, sChar
      ensures Valid()
      ensures (State(), priority) == CheckClimbSpec(Cfg(), old(State()))
      decreases if AtWarp(Cfg(), State()) then 3 else 0
    {
      priority := SenseClimb(sChar.xPos, sChar.yPos);
      WarpInRange(Cfg(), State());
      if priority >= WARP_BASE {
        NormWarp(priority - WARP_BASE);
      }
    }

    /** In-map warp number `warpNumber` of the loaded map. */
    method NormWarp(warpNumber: int)
      requires Valid() && 0 <= warpNumber < |Here(Cfg(), State()).warps|
      modifies this, sChar
      ensures Valid()
      ensures State() == NormWarpSpec(Cfg(), old(State()), warpNumber)
      decreases 2
    {
      var target := sMap.GetNormWarpValue(warpNumber, 0);
      var x := sMap.GetNormWarpValue(warpNumber, 1);
      var y := sMap.GetNormWarpValue(warpNumber, 2);
      assert Settled(Cfg(), Here(Cfg(), State()).warps[warpNumber]);
      ChangeMap(target);
      sChar.SetX(x);
      sChar.SetY(y);
      if normWarpResetsGravity {
        ResetGravity();
      }
      CheckFall();
    }

    /** The fall check. */
    method CheckFall()
      requires Valid()
      modifies this, sChar
      ensures Valid()
      ensures State() == CheckFallSpec(Cfg(), old(State()))
      decreases if AtWarp(Cfg(), State()) then 4 else 1
    {
      if !IsOnGround(sChar.xPos, sChar.yPos) {
        var first := CheckClimb();
        if first != LADDER {
          var second := CheckClimb();
          if second != JUMP_THROUGH {
            if !fastFall {
              fallTimerRunning := true;
            }
          }
        }
      }
    }

    /** Loads the map behind the border in direction `direction` and places the character past the opposite border. */
    method EdgeLand(direction: char)
      requires Valid()
      modifies this`mapNumber, this`sMap, this`frameWidth, this`frameHeight, sChar`xPos, sChar`yPos
      ensures Valid()
      ensures State() == EdgeLanding(Cfg(), old(State()), direction)
    {
      if direction == 'l' {
        mapNumber := sMap.edgeWarpLeft;
        ChangeMap(mapNumber);
        sChar.SetX(frameWidth + EDGE_WARP_OFFSET_R);
      } else if direction == 'r' {
        mapNumber := sMap.edgeWarpRight;
        ChangeMap(mapNumber);
        sChar.SetX(0 - EDGE_WARP_OFFSET_L);
      } else if direction == 'u' {
        mapNumber := sMap.edgeWarpUp;
        ChangeMap(mapNumber);
        sChar.SetY(frameHeight + EDGE_WARP_OFFSET_D);
      } else if direction == 'd' {
        mapNumber := sMap.edgeWarpDown;
        ChangeMap(mapNumber);
        sChar.SetY(0 - EDGE_WARP_OFFSET_U);
      }
    }

    /** Edge warp in direction `direction`. */
    method EdgeWarp(direction: char)
      requires Valid()
      modifies this, sChar
      ensures Valid()
      ensures State() == EdgeWarpSpec(Cfg(), old(State()), direction)
    {
      EdgeLand(direction);
      ghost var landed := State();
      if edgeWarpResetsGravity {
        ResetGravity();
      }
      assert State() == if edgeWarpResetsGravity then GravityReset(landed) else landed;
      CheckFall();
    }

    /** One pixel of a keyboard move. */
    method Step(dir: char) returns (ok: bool)
      requires Valid()
      modifies this, sChar
      ensures Valid()
      ensures (State(), ok) == StepSpec(Cfg(), old(State()), dir)
    {
      if dir == 'r' {
        ok := MoveRight();
      } else if dir == 'l' {
        ok := MoveLeft();
      } else if dir == 'u' {
        ok := MoveUpPixel();
      } else if dir == 'd' {
        ok := MoveDown();
      } else {
        ok := false;
      }
    }

    method MoveRight() returns (ok: bool)
      requires Valid()
      modifies this, sChar
      ensures Valid()
      ensures (State(), ok) == StepRight(Cfg(), old(State()))
    {
      ok := CheckCollision('r', sChar.xPos + 1, sChar.yPos);
      if ok {
        sChar.SetX(sChar.xPos + 1);
      }
      if sChar.xPos >= frameWidth + EDGE_WARP_OFFSET_R {
        EdgeWarp('r');
      }
    }

    method MoveLeft() returns (ok: bool)
      requires Valid()
      modifies this, sChar
      ensures Valid()
      ensures (State(), ok) == StepLeft(Cfg(), old(State()))
    {
      ok := CheckCollision('l', sChar.xPos - 1, sChar.yPos);
      if ok {
        sChar.SetX(sChar.xPos - 1);
      }
      if sChar.xPos <= 0 - EDGE_WARP_OFFSET_L {
        EdgeWarp('l');
      }
    }

    method MoveUpPixel() returns (ok: bool)
      requires Valid()
      modifies this, sChar
      ensures Valid()
      ensures (State(), ok) == StepUp(Cfg(), old(State()))
    {
      ok := CheckCollision('u', sChar.xPos, sChar.yPos - 1);
      if ok {
        sChar.SetY(sChar.yPos - 1);
        if sChar.yPos <= 0 - EDGE_WARP_OFFSET_U {
          EdgeWarp('u');
        }
      }
    }

    method MoveDown() returns (ok: bool)
      requires Valid()
      modifies this, sChar
      ensures Valid()
      ensures (State(), ok) == StepDown(Cfg(), old(State()))
    {
      ok := CheckCollision('d', sChar.xPos, sChar.yPos + 1) && jumpStep == JUMP_READY;
      if ok {
        sChar.SetY(sChar.yPos + 1);
        if sChar.yPos >= frameHeight + EDGE_WARP_OFFSET_D {
          EdgeWarp('d');
        }
      }
    }

    /** Three pixels of a keyboard move; whether any was taken. */
    method Slide(dir: char) returns (moved: bool)
      requires Valid()
      modifies this, sChar
      ensures Valid()
      ensures (State(), moved) == SlideSpec(Cfg(), old(State()), dir, 3)
    {
      moved := false;
      var i := 0;
      while i < 3
        invariant 0 <= i <= 3 && Valid()
        invariant (State(), moved) == SlideSpec(Cfg(), old(State()), dir, i)
      {
        var ok := Step(dir);
        moved := moved || ok;
        i := i + 1;
      }
    }

    /** The up key: start a jump, or climb a ladder. */
    method MoveUp() returns (moved: bool)
      requires Valid()
      modifies this, sChar
      ensures Valid()
      ensures (State(), moved) == UpSpec(Cfg(), old(State()))
    {
      var canJump := JumpAllowed();
      ghost var s3 := State();
      if canJump && CheckCollision('u', sChar.xPos, sChar.yPos - JUMP_RISE) && jumpStep == JUMP_READY {
        StartJump();
        moved := true;
      } else {
        moved := ClimbLadder();
      }
      assert (State(), moved) == JumpOrClimbSpec(Cfg(), s3, canJump);
    }

    /** Starts a jump: the character rises three pixels, the fall timer stops and the jump timer starts. */
    method StartJump()
      requires Valid()
      modifies this`fallTimerRunning, this`jumpStep, this`jumpTimerRunning, sChar`yPos, sChar`step
      ensures Valid()
      ensures State() == old(State()).(fallTimer := false, y := old(State()).y - JUMP_RISE, step := 0,
                                       jumpStep := 0, jumpTimer := true)
    {
      fallTimerRunning := false;
      sChar.SetY(sChar.yPos - JUMP_RISE);
      sChar.SetStep(0);
      jumpStep := 0;
      jumpTimerRunning := true;
    }

    /** The climb check, and three pixels up on a ladder. */
    method ClimbLadder() returns (moved: bool)
      requires Valid()
      modifies this, sChar
      ensures Valid()
      ensures (State(), moved) == LadderSpec(Cfg(), old(State()))
    {
      var c4 := CheckClimb();
      if c4 == LADDER {
        moved := Slide('u');
      } else {
        moved := false;
      }
    }

    /** The climb checks run before a jump; whether a jump may start. */
    method JumpAllowed() returns (canJump: bool)
      requires Valid()
      modifies this, sChar
      ensures Valid()
      ensures (State(), canJump) == JumpAllowedSpec(Cfg(), old(State()))
    {
      var grounded := IsOnGround(sChar.xPos, sChar.yPos);
      var c1 := NO_CLIMB;
      if grounded {
        c1 := CheckClimb();
      }
      var standing := grounded && c1 == NO_CLIMB;
      var c2 := NO_CLIMB;
      if !standing {
        c2 := CheckClimb();
      }
      var swimming := standing || c2 == WATER;
      var c3 := NO_CLIMB;
      if !swimming {
        c3 := CheckClimb();
      }
      canJump := swimming || c3 == JUMP_THROUGH;
    }

    /** A keyboard move in direction `dir`. */
    method Move(dir: char)
      requires Valid()
      modifies this, sChar
      ensures Valid()
      ensures State() == MoveSpec(Cfg(), old(State()), dir)
    {
      ghost var s0 := State();
      var moved := false;
      if dir == 'r' || dir == 'l' || dir == 'd' {
        moved := Slide(dir);
      } else if dir == 'u' {
        moved := MoveUp();
      }
      ghost var s1 := State();
      assert (s1, moved) == if dir == 'r' || dir == 'l' || dir == 'd' then SlideSpec(Cfg(), s0, dir, 3)
                            else if dir == 'u' then UpSpec(Cfg(), s0) else (s0, false);
      Animate(moved);
      ghost var s2 := State();
      var climb := CheckClimb();
      assert State() == CheckClimbSpec(Cfg(), s2).0;
      if jumpStep == JUMP_READY {
        CheckFall();
      }
    }

    /** The walking frame advances when the move took a pixel. */
    method Animate(moved: bool)
      requires Valid()
      modifies sChar
      ensures Valid()
      ensures State() == if moved then old(State()).(step := NextStep(old(State()).step, 1)) else old(State())
    {
      if moved {
        sChar.IncStep();
      }
    }

    /** A key event: the four arrow keys move; every other key does nothing. */
    method Update(key: char)
      requires Valid()
      modifies this, sChar
      ensures Valid()
      ensures State() == if key in "lrud" then MoveSpec(Cfg(), old(State()), key) else old(State())
    {
      if key == 'l' || key == 'r' || key == 'u' || key == 'd' {
        Move(key);
      }
    }

    /** One pixel of fall, with an edge warp through the bottom border. */
    method FallOnePixel()
      requires Valid()
      modifies this, sChar
      ensures Valid()
      ensures State() == Descend(Cfg(), old(State()))
    {
      sChar.SetY(sChar.yPos + 1);
      if sChar.yPos >= frameHeight + EDGE_WARP_OFFSET_D {
        EdgeWarp('d');
      }
    }

    /** One tick of the normal fall timer. */
    method FallTick()
      requires Valid()
      modifies this, sChar
      ensures Valid()
      ensures State() == NormalTickSpec(Cfg(), old(State()))
    {
      var i := 0;
      while i < gravityStart / GRAVITY_DIVIDER
        invariant 0 <= i <= 9 && Valid()
        invariant NormalLoop(Cfg(), State(), i) == NormalLoop(Cfg(), old(State()), 0)
        decreases 9 - i
      {
        NormalFallPixel();
        i := i + 1;
      }
      FallTickEnd();
    }

    /** One iteration of the normal fall's pixel loop. */
    method NormalFallPixel()
      requires Valid()
      modifies this, sChar
      ensures Valid()
      ensures State() == NormalPixel(Cfg(), old(State()))
    {
      if !IsOnGround(sChar.xPos, sChar.yPos) {
        var climb := CheckClimb();
        if climb == NO_CLIMB && !fastFall {
          NormalFall();
        }
      }
    }

    /** One pixel of a normal fall, with the gravity update. */
    method NormalFall()
      requires Valid()
      modifies this, sChar
      ensures Valid()
      ensures State() == NormalDescent(Cfg(), old(State()))
    {
      FallOnePixel();
      if gravityStart <= GRAVITY_CAP {
        gravityStart := gravityStart + GRAVITY_ACCELERATION;
      }
      if gravityStart >= FAST_FALL_SWITCH {
        fastFall := true;
        fastFallTimerRunning := true;
        fallTimerRunning := false;
      }
    }

    /** The part of the normal fall tick after its pixel loop. */
    method FallTickEnd()
      requires Valid()
      modifies this, sChar
      ensures Valid()
      ensures State() == NormalTail(Cfg(), old(State()))
    {
      var problem := CheckClimb();
      var grounded := IsOnGround(sChar.xPos, sChar.yPos);
      var c1 := NO_CLIMB;
      if !grounded {
        c1 := CheckClimb();
      }
      if !grounded && c1 == NO_CLIMB && !fastFall {
        FallOnePixel();
      } else {
        StopFall();
      }
    }

    /** The end of a normal fall: one more pixel in water, else the timer stops. */
    method StopFall()
      requires Valid()
      modifies this, sChar
      ensures Valid()
      ensures State() == NormalStop(Cfg(), old(State()))
    {
      var grounded := IsOnGround(sChar.xPos, sChar.yPos);
      var c2 := NO_CLIMB;
      if !grounded {
        c2 := CheckClimb();
      }
      if !grounded && c2 == WATER {
        FallOnePixel();
        ResetGravity();
      } else if fastFall {
        fallTimerRunning := false;
      } else {
        fallTimerRunning := false;
        sChar.SetStep(0);
        ResetGravity();
      }
    }

    /** One tick of the fast fall timer. */
    method FastFallTick()
      requires Valid()
      modifies this, sChar
      ensures Valid()
      ensures State() == FastTickSpec(Cfg(), old(State()))
    {
      var i := 0;
      while i < fastGravityStart / FAST_GRAVITY_DIVIDER
        invariant 0 <= i <= 9 && Valid()
        invariant FastLoop(Cfg(), State(), i) == FastLoop(Cfg(), old(State()), 0)
        decreases 9 - i
      {
        FastFallPixel();
        i := i + 1;
      }
      FastFallTickEnd();
    }

    /** One iteration of the fast fall's pixel loop. */
    method FastFallPixel()
      requires Valid()
      modifies this, sChar
      ensures Valid()
      ensures State() == FastPixel(Cfg(), old(State()))
    {
      if !IsOnGround(sChar.xPos, sChar.yPos) {
        var climb := CheckClimb();
        if climb == NO_CLIMB {
          FastFall();
        }
      }
    }

    /** One pixel of a fast fall, with the fast gravity update. */
    method FastFall()
      requires Valid()
      modifies this, sChar
      ensures Valid()
      ensures State() == FastDescent(Cfg(), old(State()))
    {
      FallOnePixel();
      if fastGravityStart <= FAST_GRAVITY_CAP && accelCount == ACCEL_AT {
        fastGravityStart := fastGravityStart + FAST_GRAVITY_ACCELERATION;
        accelCount := 0;
      } else {
        accelCount := accelCount + 1;
      }
    }

    /** The part of the fast fall tick after its pixel loop. */
    method FastFallTickEnd()
      requires Valid()
      modifies this, sChar
      ensures Valid()
      ensures State() == FastTail(Cfg(), old(State()))
    {
      ghost var s1 := State();
      var problem := CheckClimb();
      ghost var s2 := State();
      assert s2 == CheckClimbSpec(Cfg(), s1).0;
      var grounded := IsOnGround(sChar.xPos, sChar.yPos);
      var c := NO_CLIMB;
      if !grounded {
        c := CheckClimb();
        assert (State(), c) == CheckClimbSpec(Cfg(), s2);
      }
      if !grounded && c == NO_CLIMB {
        FallOnePixel();
      } else {
        Land();
      }
    }

    /** The fast fall ends: both fast-fall flags off, the first frame, and gravity reset. */
    method Land()
      requires Valid()
      modifies this, sChar
      ensures Valid()
      ensures State() == GravityReset(old(State()).(fastFallTimer := false, fastFall := false, step := 0))
    {
      fastFallTimerRunning := false;
      fastFall := false;
      sChar.SetStep(0);
      ResetGravity();
    }

    /** One tick of the jump timer. */
    method JumpTick()
      requires Valid()
      modifies this, sChar
      ensures Valid()
      ensures State() == JumpTickSpec(Cfg(), old(State()))
    {
      var switchJumpStep := 2;
      if jumpStep == 0 || jumpStep == 1 {
        switchJumpStep := 0;
      } else if jumpStep == 2 {
        switchJumpStep := 1;
      } else if jumpStep == 3 {
        switchJumpStep := 2;
      }
      ghost var t := old(State());
      if switchJumpStep == 0 {
        Rise();
        t := RiseSpec(Cfg(), old(State()));
      } else if switchJumpStep == 1 {
        jumpTimerRunning := false;
        sChar.SetStep(0);
        CheckFall();
        t := CheckFallSpec(Cfg(), old(State()).(jumpTimer := false, step := 0));
      }
      assert State() == t;
      jumpStep := jumpStep + 1;
    }

    /** The rise of a jump. */
    method Rise()
      requires Valid()
      modifies this, sChar
      ensures Valid()
      ensures State() == RiseSpec(Cfg(), old(State()))
    {
      if CheckCollision('d', sChar.xPos, sChar.yPos - JUMP_RISE) {
        sChar.SetY(sChar.yPos - JUMP_RISE);
        if sChar.yPos <= 0 - EDGE_WARP_OFFSET_U {
          EdgeWarp('u');
        }
      }
    }
  }
}
