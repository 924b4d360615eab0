/**
 * The read-only questions the game asks about the character's surroundings:
 * may the character's box move to a position (collision probes along one
 * side of the box), is it standing on something, and which climb kind wins
 * among the pixels its climb-sensing box touches.
 */
module Probes {
  import opened Shapes
  import opened MapQuery

  /** Offsets from the character's position to the sides of its collision box. */
  const LEFT_COLLISION_OFFSET := 1
  const RIGHT_COLLISION_OFFSET := 8
  const UP_COLLISION_OFFSET := -22
  const DOWN_COLLISION_OFFSET := -1
  /** The top row of the climb-sensing box, relative to the character's position. */
  const CLIMB_TOP_OFFSET := -11

  /** The character may occupy pixel (x, y) of the map. */
  predicate PixelFree(shapes: seq<Shape>, x: int, y: int)
  {
    Collision(shapes, x, y)
  }

  /** Every pixel of column px from row `top` to row `bottom` is free; scanned from the bottom up. */
  function ColumnClear(shapes: seq<Shape>, px: int, top: int, bottom: int): (clear: bool)
    ensures clear <==> forall py :: top <= py <= bottom ==> PixelFree(shapes, px, py)
    decreases bottom - top
  {
    if bottom < top then true
    else
      PixelFree(shapes, px, bottom) && ColumnClear(shapes, px, top, bottom - 1)
  }

  /** Every pixel of row py from column `left` to column `right` is free; scanned from the left. */
  function RowClear(shapes: seq<Shape>, py: int, left: int, right: int): (clear: bool)
    ensures clear <==> forall px :: left <= px <= right ==> PixelFree(shapes, px, py)
    decreases right - left
  {
    if right < left then true
    else
      PixelFree(shapes, left, py) && RowClear(shapes, py, left + 1, right)
  }

  /**
   * Whether the character's box, placed at (x, y), is free along one side:
   * 'l' and 'r' probe a column, 'u' the row above the head and 'd' the row
   * under the feet. Any other side is always free.
   */
  function SideClear(shapes: seq<Shape>, side: char, x: int, y: int): bool
  {
    if side == 'l' then
      ColumnClear(shapes, x + LEFT_COLLISION_OFFSET + 1, y + UP_COLLISION_OFFSET, y + DOWN_COLLISION_OFFSET)
    else if side == 'r' then
      ColumnClear(shapes, x + RIGHT_COLLISION_OFFSET - 1, y + UP_COLLISION_OFFSET, y + DOWN_COLLISION_OFFSET)
    else if side == 'u' then
      RowClear(shapes, y + UP_COLLISION_OFFSET - 1, x + LEFT_COLLISION_OFFSET + 1, x + RIGHT_COLLISION_OFFSET - 1)
    else if side == 'd' then
      RowClear(shapes, y + DOWN_COLLISION_OFFSET + 1, x + LEFT_COLLISION_OFFSET + 1, x + RIGHT_COLLISION_OFFSET - 1)
    else true
  }

  /** The pixels probed for side `side` of a box at (x, y), in plain numbers. */
  predicate Probed(side: char, x: int, y: int, px: int, py: int)
  {
    || (side == 'l' && px == x + 2 && y - 22 <= py <= y - 1)
    || (side == 'r' && px == x + 7 && y - 22 <= py <= y - 1)
    || (side == 'u' && py == y - 23 && x + 2 <= px <= x + 7)
    || (side == 'd' && py == y && x + 2 <= px <= x + 7)
  }

  /**
   * A side is clear exactly when every probed pixel is free, and blocked
   * exactly when some solid shape covers one of the probed pixels.
   */
  lemma SideClearProbes(shapes: seq<Shape>, side: char, x: int, y: int)
    ensures SideClear(shapes, side, x, y)
            <==> forall px, py :: Probed(side, x, y, px, py) ==> PixelFree(shapes, px, py)
    ensures !SideClear(shapes, side, x, y)
            <==> exists i, px, py :: 0 <= i < |shapes| && Probed(side, x, y, px, py) && Blocks(shapes[i], px, py)
  {
  }

  /** The character at (x, y) stands on something: a pixel of the row under its feet is blocked. */
  function Grounded(shapes: seq<Shape>, x: int, y: int): (onGround: bool)
    ensures onGround <==> exists px :: x + 2 <= px <= x + 7 && !PixelFree(shapes, px, y)
  {
    !SideClear(shapes, 'd', x, y)
  }

  /** Precedence of climb kinds: warp, then jump-through, then ladder, then water, then none. */
  function Rank(c: int): int
  {
    if c >= WARP_BASE then 4
    else if c == JUMP_THROUGH then 3
    else if c == LADDER then 2
    else if c == WATER then 1
    else 0
  }

  /** One step of the priority merge: the climb kind sensed at one pixel against the winner so far. */
  function Merge(priority: int, climb: int): int
  {
    if climb >= WARP_BASE then climb
    else if climb == JUMP_THROUGH && (priority == NO_CLIMB || priority == WATER || priority == LADDER) then JUMP_THROUGH
    else if climb == LADDER && (priority == NO_CLIMB || priority == WATER) then LADDER
    else if climb == WATER && priority == NO_CLIMB then WATER
    else priority
  }

  /** The merge folded over a sequence of sensed climb kinds, in order, from no climb. */
  function MergeAll(codes: seq<int>): int
    decreases |codes|
  {
    if codes == [] then NO_CLIMB
    else Merge(MergeAll(codes[..|codes| - 1]), codes[|codes| - 1])
  }

  /** Every entry is a value a climb query can report. */
  predicate Codes(codes: seq<int>)
  {
    forall k :: 0 <= k < |codes| ==> codes[k] == NO_CLIMB || ClimbCode(codes[k])
  }

  /**
   * The merge picks the sensed climb kind of highest precedence: its result
   * is no climb or one of the sensed kinds, and nothing sensed outranks it.
   */
  lemma {:induction false} MergeAllRanked(codes: seq<int>)
    requires Codes(codes)
    ensures MergeAll(codes) == NO_CLIMB || ClimbCode(MergeAll(codes))
    ensures MergeAll(codes) == NO_CLIMB || exists k :: 0 <= k < |codes| && codes[k] == MergeAll(codes)
    ensures forall k :: 0 <= k < |codes| ==> Rank(codes[k]) <= Rank(MergeAll(codes))
    ensures MergeAll(codes) == NO_CLIMB <==> forall k :: 0 <= k < |codes| ==> codes[k] == NO_CLIMB
  {
    if codes != [] {
      var init := codes[..|codes| - 1];
      assert forall k :: 0 <= k < |init| ==> init[k] == codes[k];
      MergeAllRanked(init);
      var p := MergeAll(init);
      if p != NO_CLIMB && Merge(p, codes[|codes| - 1]) == p {
        var k :| 0 <= k < |init| && init[k] == p;
        assert codes[k] == p;
      }
    }
  }

  /** When in-map warps are sensed, the last one sensed wins. */
  lemma {:induction false} MergeAllLastWarp(codes: seq<int>, k: int)
    requires 0 <= k < |codes| && codes[k] >= WARP_BASE
    requires forall j :: k < j < |codes| ==> codes[j] < WARP_BASE
    ensures MergeAll(codes) == codes[k]
  {
    if k < |codes| - 1 {
      var init := codes[..|codes| - 1];
      MergeAllLastWarp(init, k);
    }
  }

  /** Without warps, the order in which pixels are sensed does not change the result. */
  lemma MergeAllOrderFree(a: seq<int>, b: seq<int>)
    requires Codes(a) && multiset(a) == multiset(b)
    requires forall k :: 0 <= k < |a| ==> a[k] < WARP_BASE
    ensures MergeAll(a) == MergeAll(b)
  {
    forall k | 0 <= k < |b|
      ensures b[k] == NO_CLIMB || ClimbCode(b[k])
      ensures b[k] < WARP_BASE
    {
      assert b[k] in multiset(a);
      var j :| 0 <= j < |a| && a[j] == b[k];
    }
    MergeAllRanked(a);
    MergeAllRanked(b);
    var pa, pb := MergeAll(a), MergeAll(b);
    if pa != NO_CLIMB {
      var k :| 0 <= k < |a| && a[k] == pa;
      assert pa in multiset(b);
      var j :| 0 <= j < |b| && b[j] == pa;
    }
    if pb != NO_CLIMB {
      var k :| 0 <= k < |b| && b[k] == pb;
      assert pb in multiset(a);
      var j :| 0 <= j < |a| && a[j] == pb;
    }
  }

  /**
   * The 38 pixels of the climb-sensing box, in the order the game senses
   * them: the left column from the feet up, the right column from the feet
   * up, the top row left to right, the bottom row left to right.
   */
  function ClimbProbes(x: int, y: int): (pts: seq<(int, int)>)
    ensures |pts| == 38
  {
    seq(11, k => (x + LEFT_COLLISION_OFFSET, y + DOWN_COLLISION_OFFSET - k))
    + seq(11, k => (x + RIGHT_COLLISION_OFFSET, y + DOWN_COLLISION_OFFSET - k))
    + seq(8, k => (x + LEFT_COLLISION_OFFSET + k, y + CLIMB_TOP_OFFSET))
    + seq(8, k => (x + LEFT_COLLISION_OFFSET + k, y + DOWN_COLLISION_OFFSET))
  }

  /** The pixels of the climb-sensing box of a character at (x, y), in plain numbers. */
  predicate ClimbSensed(x: int, y: int, px: int, py: int)
  {
    || ((px == x + 1 || px == x + 8) && y - 11 <= py <= y - 1)
    || ((py == y - 11 || py == y - 1) && x + 1 <= px <= x + 8)
  }

  /** The probe list covers exactly the sensed pixels. */
  lemma ClimbProbesCover(x: int, y: int, px: int, py: int)
    ensures ClimbSensed(x, y, px, py) <==> (px, py) in ClimbProbes(x, y)
  {
    var pts := ClimbProbes(x, y);
    if ClimbSensed(x, y, px, py) {
      if px == x + 1 && y - 11 <= py <= y - 1 {
        assert pts[y - 1 - py] == (px, py);
      } else if px == x + 8 && y - 11 <= py <= y - 1 {
        assert pts[11 + (y - 1 - py)] == (px, py);
      } else if py == y - 11 {
        assert pts[22 + (px - x - 1)] == (px, py);
      } else {
        assert pts[30 + (px - x - 1)] == (px, py);
      }
    }
    if (px, py) in pts {
      var k :| 0 <= k < 38 && pts[k] == (px, py);
    }
  }

  /** The climb kind sensed at each probe pixel, in sensing order. */
  function ProbeCodes(shapes: seq<Shape>, x: int, y: int): (codes: seq<int>)
    ensures |codes| == 38 && Codes(codes)
  {
    var pts := ClimbProbes(x, y);
    seq(38, k requires 0 <= k < 38 => Climb(shapes, pts[k].0, pts[k].1))
  }

  /** The merged climb kind of the character at (x, y). */
  function ClimbAt(shapes: seq<Shape>, x: int, y: int): (priority: int)
    ensures priority == NO_CLIMB || ClimbCode(priority)
  {
    MergeAllRanked(ProbeCodes(shapes, x, y));
    MergeAll(ProbeCodes(shapes, x, y))
  }

  /** The merged climb kind is no climb exactly when no sensed pixel has a climb kind. */
  lemma ClimbAtNone(shapes: seq<Shape>, x: int, y: int)
    ensures ClimbAt(shapes, x, y) == NO_CLIMB
            <==> forall px, py :: ClimbSensed(x, y, px, py) ==> Climb(shapes, px, py) == NO_CLIMB
  {
    var pts := ClimbProbes(x, y);
    var codes := ProbeCodes(shapes, x, y);
    MergeAllRanked(codes);
    if ClimbAt(shapes, x, y) == NO_CLIMB {
      forall px, py | ClimbSensed(x, y, px, py)
        ensures Climb(shapes, px, py) == NO_CLIMB
      {
        ClimbProbesCover(x, y, px, py);
        var k :| 0 <= k < 38 && pts[k] == (px, py);
        assert codes[k] == Climb(shapes, px, py);
      }
    } else {
      var k :| 0 <= k < 38 && codes[k] == ClimbAt(shapes, x, y);
      ClimbProbesCover(x, y, pts[k].0, pts[k].1);
      assert ClimbSensed(x, y, pts[k].0, pts[k].1);
    }
  }

  /** A non-zero merged climb kind is the climb value of some shape of the map. */
  lemma ClimbAtFromShape(shapes: seq<Shape>, x: int, y: int)
    ensures ClimbAt(shapes, x, y) != NO_CLIMB ==>
              exists i :: 0 <= i < |shapes| && shapes[i].climb == ClimbAt(shapes, x, y)
  {
    var pts := ClimbProbes(x, y);
    var codes := ProbeCodes(shapes, x, y);
    MergeAllRanked(codes);
    if ClimbAt(shapes, x, y) != NO_CLIMB {
      var k :| 0 <= k < 38 && codes[k] == ClimbAt(shapes, x, y);
      ClimbComesFromShape(shapes, pts[k].0, pts[k].1);
    }
  }

  /** A ladder sensed anywhere beats water sensed anywhere, when nothing of higher precedence is sensed. */
  lemma LadderBeatsWater(shapes: seq<Shape>, x: int, y: int, k: int)
    requires 0 <= k < 38 && ProbeCodes(shapes, x, y)[k] == LADDER
    requires forall j :: 0 <= j < 38 ==>
               ProbeCodes(shapes, x, y)[j] != JUMP_THROUGH && ProbeCodes(shapes, x, y)[j] < WARP_BASE
    ensures ClimbAt(shapes, x, y) == LADDER
  {
    var codes := ProbeCodes(shapes, x, y);
    MergeAllRanked(codes);
    assert Rank(codes[k]) == 2;
  }
}
