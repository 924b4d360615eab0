/**
 * The map editor's state and the operations that change it: drawing a
 * shape with two clicks, undo, the edit menu (delete, send to back, bring
 * to front, set attributes, select by number, set coordinates, set warp
 * target), the toolbox settings, and save and load on in-memory token
 * lines.
 */
module Editor {
  import opened Shapes
  import opened LevelFile
  import opened MapFormat
  import opened ShapeList

  /** Draw types: rectangle, oval, edit, warp. */
  const RECTANGLE_MODE := 0
  const OVAL_MODE := 2
  const EDIT_MODE := 3
  const WARP_MODE := 4

  /** A colour value moved into 0..255. */
  function FixColorRange(value: int): (c: int)
    ensures 0 <= c <= 255
    ensures 0 <= value <= 255 ==> c == value
  {
    if value > 255 then 255 else if value < 0 then 0 else value
  }

  /** The fixed value is the in-range value nearest to the input. */
  lemma FixColorRangeNearest(value: int, v: int)
    requires 0 <= v <= 255
    ensures var c := FixColorRange(value);
            (if c >= value then c - value else value - c) <= (if v >= value then v - value else value - v)
  {
  }

  /** Fixing keeps the order of values, and fixing twice is fixing once. */
  lemma FixColorRangeMonotone(a: int, b: int)
    requires a <= b
    ensures FixColorRange(a) <= FixColorRange(b)
    ensures FixColorRange(FixColorRange(a)) == FixColorRange(a)
  {
  }

  function Min(a: int, b: int): int
  {
    if a <= b then a else b
  }

  function Max(a: int, b: int): int
  {
    if a <= b then b else a
  }

  /**
   * A box given by a corner and a signed width and height, turned into its
   * top-left corner and positive size. A box with zero width or height is
   * left as it is.
   */
  function Normalize(x: int, y: int, w: int, h: int): (r: (int, int, int, int))
    ensures w != 0 && h != 0 ==>
              && r.2 > 0 && r.3 > 0
              && r.0 == Min(x, x + w) && r.0 + r.2 == Max(x, x + w)
              && r.1 == Min(y, y + h) && r.1 + r.3 == Max(y, y + h)
    ensures w == 0 || h == 0 ==> r == (x, y, w, h)
  {
    if w < 0 && h > 0 then (x + w, y, -w, h)
    else if w < 0 && h < 0 then (x + w, y + h, -w, -h)
    else if w > 0 && h < 0 then (x, y + h, w, -h)
    else (x, y, w, h)
  }

  /** Normalizing a normalized box changes nothing. */
  lemma NormalizeIdempotent(x: int, y: int, w: int, h: int)
    ensures var r := Normalize(x, y, w, h);
            Normalize(r.0, r.1, r.2, r.3) == r
  {
  }

  /**
   * The box the edit menu's four coordinate fields describe: the fields
   * hold the two corners in the coordinates the editor shows, 14 and 15
   * pixels off the canvas.
   */
  function EditedBox(x1: int, y1: int, x2: int, y2: int): (int, int, int, int)
  {
    var left, top := x1 + 14, y1 + 15;
    Normalize(left, top, x2 - left + 15, y2 - top + 15)
  }

  /** The fields selecting a shape fills in describe that shape's box again. */
  lemma EditedBoxOfSelection(x: int, y: int, w: int, h: int)
    requires w > 0 && h > 0
    ensures EditedBox(x - 14, y - 15, x + w - 15, y + h - 15) == (x, y, w, h)
  {
  }

  /** What a load does with an edge-warp token: n keeps the field, anything else replaces it. */
  function LoadedEdge(t: Token, current: Token): Token
  {
    if t == NONE_WORD then current else t
  }

  /**
   * The climb value the edit menu holds after its water box is toggled:
   * water when the box is now selected, else jump-through or ladder as
   * the climb-type buttons say.
   */
  function WaterClimb(waterSelected: bool, jump: bool): (c: int)
    ensures c in {LADDER, WATER, JUMP_THROUGH}
    ensures c == WATER <==> waterSelected
  {
    if waterSelected then WATER else if jump then JUMP_THROUGH else LADDER
  }

  /**
   * The climb value the edit menu holds after its "climbable" box is
   * toggled, as the listener is written: water is stored first and then
   * always overwritten by jump-through or ladder.
   */
  function EditClimbAsWritten(checked: bool, water: bool, jump: bool): (c: int)
    ensures c != WATER
  {
    if !checked then NO_CLIMB else if jump then JUMP_THROUGH else LADDER
  }

  /**
   * The climb value the edit menu holds after its "climbable" box is
   * toggled, with the water box taking precedence as it does everywhere
   * else: 0 when unchecked, else water, jump-through or ladder.
   */
  function EditClimb(checked: bool, water: bool, jump: bool): (c: int)
    ensures c == NO_CLIMB <==> !checked
    ensures checked && water ==> c == WATER
  {
    if !checked then NO_CLIMB else if water then WATER else if jump then JUMP_THROUGH else LADDER
  }

  /**
   * The toolbox's climb value after its "climbable" box is toggled: 0 when
   * unchecked; else water when the water box is selected, otherwise the
   * selected climb type, ladder when none is.
   */
  function ToolboxClimb(checked: bool, water: bool, ladder: bool, jump: bool): (c: int)
    ensures c == NO_CLIMB <==> !checked
    ensures checked && water ==> c == WATER
  {
    if !checked then NO_CLIMB else if water then WATER else if jump then JUMP_THROUGH else LADDER
  }

  /**
   * The climb-type buttons form a group, so exactly one of ladder and jump
   * is selected. Then the corrected edit-menu listener stores what the
   * toolbox stores and what the water listener stores for the same boxes;
   * the listener as written disagrees with both whenever water is
   * selected.
   */
  lemma EditClimbAgreesWithToolbox(checked: bool, water: bool, jump: bool)
    ensures EditClimb(checked, water, jump) == ToolboxClimb(checked, water, !jump, jump)
    ensures checked ==> EditClimb(checked, water, jump) == WaterClimb(water, jump)
    ensures checked && water ==> EditClimbAsWritten(checked, water, jump) != ToolboxClimb(checked, water, !jump, jump)
    ensures checked && water ==> EditClimbAsWritten(checked, water, jump) != WaterClimb(water, jump)
  {
  }

  /** The selection fields (made, kind, x, y, width, height) that show record r. */
  function SelectionOf(r: seq<int>): (sel: (bool, int, int, int, int, int))
    requires |r| == 9
    ensures sel.0 && sel.1 == r[COLLISION_AT]
    ensures (sel.2, sel.3, sel.4, sel.5) == (r[0], r[1], r[2], r[3])
  {
    (true, r[COLLISION_AT], r[0], r[1], r[2], r[3])
  }

  class MapMaker {
    var mapNumber: int
    var gameWidth: int
    var gameHeight: int
    var spawnX: int
    var spawnY: int
    var edgeWarpLeft: Token
    var edgeWarpRight: Token
    var edgeWarpUp: Token
    var edgeWarpDown: Token
    var rectList: seq<int>
    var rectCount: int
    var warpList: seq<int>
    var warpCount: int
    var drawType: int
    var collisVal: int
    var climbable: int
    var redVal: int
    var greenVal: int
    var blueVal: int
    var newRectStep: int
    var newRectX: int
    var newRectY: int
    var newRectWidth: int
    var newRectHeight: int
    var warpToMapNum: int
    var warpToXCoord: int
    var warpToYCoord: int
    var editMenuCountVal: int
    var tempCollisVal: int
    var tempClimbable: int
    var selectionMade: bool
    var selectionType: int
    var selectionX: int
    var selectionY: int
    var selectionWidth: int
    var selectionHeight: int

    /** The counts are the lengths of the lists: nine values per shape, three per warp. */
    predicate Valid()
      reads this
    {
      rectCount >= 0 && warpCount >= 0 && |rectList| == 9 * rectCount && |warpList| == 3 * warpCount
    }

    /** The part of the state a save writes. */
    function Data(): (d: MapData)
      reads this
      ensures Valid() ==> Consistent(d)
    {
      MapData(gameWidth, gameHeight, spawnX, spawnY,
              [edgeWarpLeft, edgeWarpRight, edgeWarpUp, edgeWarpDown],
              rectList, rectCount, warpList, warpCount)
    }

    /** The edit menu's shape number names a shape. */
    predicate Selected()
      reads this
    {
      1 <= editMenuCountVal <= rectCount
    }

    /** A fresh editor: an empty 430 by 210 map numbered 0, spawn at (99, 99), rectangle mode. */
    constructor ()
      ensures Valid() && rectList == [] && warpList == [] && rectCount == 0 && warpCount == 0
      ensures mapNumber == 0 && gameWidth == 430 && gameHeight == 210 && spawnX == 99 && spawnY == 99
      ensures edgeWarpLeft == NONE_WORD && edgeWarpRight == NONE_WORD
      ensures edgeWarpUp == NONE_WORD && edgeWarpDown == NONE_WORD
      ensures drawType == RECTANGLE_MODE && collisVal == SOLID && climbable == NO_CLIMB
      ensures redVal == 0 && greenVal == 0 && blueVal == 0 && newRectStep == 0
      ensures tempCollisVal == -1 && tempClimbable == -1 && !selectionMade
    {
      mapNumber := 0;
      gameWidth, gameHeight := 430, 210;
      spawnX, spawnY := 99, 99;
      edgeWarpLeft, edgeWarpRight, edgeWarpUp, edgeWarpDown := NONE_WORD, NONE_WORD, NONE_WORD, NONE_WORD;
      rectList, rectCount := [], 0;
      warpList, warpCount := [], 0;
      drawType, collisVal, climbable := RECTANGLE_MODE, SOLID, NO_CLIMB;
      redVal, greenVal, blueVal := 0, 0, 0;
      newRectStep, newRectX, newRectY, newRectWidth, newRectHeight := 0, 0, 0, 0, 0;
      warpToMapNum, warpToXCoord, warpToYCoord := 0, 0, 0;
      editMenuCountVal := 0;
      tempCollisVal, tempClimbable := -1, -1;
      selectionMade := false;
      selectionType, selectionX, selectionY, selectionWidth, selectionHeight := 0, 0, 0, 0, 0;
    }

    /**
     * Warp mode: new shapes are warps (collision 5) referring to the warp
     * the next warp drawn would add, fixed when the mode is entered.
     */
    method EnterWarpMode()
      modifies this`drawType, this`collisVal, this`climbable
      ensures drawType == WARP_MODE && collisVal == WARP_SHAPE && climbable == WARP_BASE + warpCount
    {
      drawType := WARP_MODE;
      collisVal := WARP_SHAPE;
      climbable := WARP_BASE + warpCount;
    }

    /**
     * Rectangle mode, from the toolbox's check boxes: the climb kind is the
     * last of ladder, jump-through and water selected (unchanged when none
     * is, 0 when climbing is off); the collision is 1 when collision is on,
     * else 2 for a front layer with collision off, else 0.
     */
    method EnterRectangleMode(climbChecked: bool, ladder: bool, jump: bool, water: bool,
                              collisionOff: bool, front: bool, collisionOn: bool)
      modifies this`drawType, this`collisVal, this`climbable
      ensures drawType == RECTANGLE_MODE
      ensures climbable == if !climbChecked then NO_CLIMB
                           else if water then WATER else if jump then JUMP_THROUGH
                           else if ladder then LADDER else old(climbable)
      ensures collisVal == if collisionOn then SOLID else if collisionOff && front then 2 else 0
    {
      drawType := RECTANGLE_MODE;
      if climbChecked {
        if ladder {
          climbable := LADDER;
        }
        if jump {
          climbable := JUMP_THROUGH;
        }
        if water {
          climbable := WATER;
        }
      } else {
        climbable := NO_CLIMB;
      }
      if collisionOff && front {
        collisVal := 2;
      } else {
        collisVal := 0;
      }
      if collisionOn {
        collisVal := SOLID;
      }
    }

    /** Oval mode: no climb kind, and collision 4 on the front layer or 3 on the back. */
    method EnterOvalMode(front: bool)
      modifies this`drawType, this`collisVal, this`climbable
      ensures drawType == OVAL_MODE && climbable == NO_CLIMB
      ensures collisVal == if front then FRONT_OVAL else BACK_OVAL
    {
      drawType := OVAL_MODE;
      climbable := NO_CLIMB;
      if front {
        collisVal := FRONT_OVAL;
      } else {
        collisVal := BACK_OVAL;
      }
    }

    method EnterEditMode()
      modifies this`drawType
      ensures drawType == EDIT_MODE
    {
      drawType := EDIT_MODE;
    }

    /** The target the next warp drawn will send the character to. */
    method SetWarpDrawTarget(targetMap: int, targetX: int, targetY: int)
      modifies this`warpToMapNum, this`warpToXCoord, this`warpToYCoord
      ensures warpToMapNum == targetMap && warpToXCoord == targetX && warpToYCoord == targetY
    {
      warpToMapNum := targetMap;
      warpToXCoord := targetX;
      warpToYCoord := targetY;
    }

    /**
     * A mouse click at window position (ex, ey) while drawing: the first
     * click fixes one corner, the second the signed size; later clicks do
     * nothing until the shape is committed.
     */
    method Click(ex: int, ey: int)
      modifies this`newRectStep, this`newRectX, this`newRectY, this`newRectWidth, this`newRectHeight
      ensures old(drawType) !in {RECTANGLE_MODE, OVAL_MODE, WARP_MODE} || old(newRectStep) !in {0, 1} ==> unchanged(this)
      ensures drawType in {RECTANGLE_MODE, OVAL_MODE, WARP_MODE} && old(newRectStep) == 0 ==>
                newRectStep == 1 && newRectX == ex - 1 && newRectY == ey - 25
                && newRectWidth == old(newRectWidth) && newRectHeight == old(newRectHeight)
      ensures drawType in {RECTANGLE_MODE, OVAL_MODE, WARP_MODE} && old(newRectStep) == 1 ==>
                newRectStep == 2 && newRectX == old(newRectX) && newRectY == old(newRectY)
                && newRectX + newRectWidth == ex && newRectY + newRectHeight == ey - 23
    {
      if drawType == RECTANGLE_MODE || drawType == OVAL_MODE || drawType == WARP_MODE {
        if newRectStep == 0 {
          newRectStep := newRectStep + 1;
          newRectX := ex - 1;
          newRectY := ey - 25;
        } else if newRectStep == 1 {
          newRectStep := newRectStep + 1;
          newRectWidth := ex - newRectX;
          newRectHeight := ey - 23 - newRectY;
        }
      }
    }

    /** The toolbox's "no collision" button: in rectangle mode, collision 0 on the back layer or 2 on the front. */
    method ChooseCollisionOff(backLayer: bool)
      modifies this`collisVal
      ensures collisVal == if old(drawType) == RECTANGLE_MODE then (if backLayer then 0 else 2) else old(collisVal)
    {
      if drawType == RECTANGLE_MODE {
        collisVal := if backLayer then 0 else 2;
      }
    }

    /** The toolbox's "collision" button: new shapes are solid. */
    method ChooseCollisionOn()
      modifies this`collisVal
      ensures collisVal == SOLID
    {
      collisVal := SOLID;
    }

    /** The toolbox's layer buttons: 2 or 0 for rectangles, 4 or 3 for ovals, in front or behind. */
    method ChooseLayer(front: bool)
      modifies this`collisVal
      ensures collisVal == if drawType == RECTANGLE_MODE then (if front then 2 else 0)
                           else if drawType == OVAL_MODE then (if front then FRONT_OVAL else BACK_OVAL)
                           else old(collisVal)
    {
      if drawType == RECTANGLE_MODE {
        collisVal := if front then 2 else 0;
      } else if drawType == OVAL_MODE {
        collisVal := if front then FRONT_OVAL else BACK_OVAL;
      }
    }

    /** The toolbox's "climbable" box toggled to `checked`. */
    method ChooseClimbable(checked: bool, water: bool, ladder: bool, jump: bool)
      modifies this`climbable
      ensures climbable == ToolboxClimb(checked, water, ladder, jump)
    {
      if checked {
        climbable := LADDER;
        if !water {
          if ladder {
            climbable := LADDER;
          }
          if jump {
            climbable := JUMP_THROUGH;
          }
        }
        if water {
          climbable := WATER;
        }
      } else {
        climbable := NO_CLIMB;
      }
    }

    /** The toolbox's climb-type buttons: jump-through or ladder. */
    method ChooseClimbType(jump: bool)
      modifies this`climbable
      ensures climbable == if jump then JUMP_THROUGH else LADDER
    {
      climbable := if jump then JUMP_THROUGH else LADDER;
    }

    /** The toolbox's water box toggled to `selected`: water, or back to the selected climb type. */
    method ChooseWater(selected: bool, ladder: bool, jump: bool)
      modifies this`climbable
      ensures climbable == if selected then WATER else if jump then JUMP_THROUGH else if ladder then LADDER else old(climbable)
    {
      if selected {
        climbable := WATER;
      } else {
        if ladder {
          climbable := LADDER;
        }
        if jump {
          climbable := JUMP_THROUGH;
        }
      }
    }

    /**
     * A mouse click at window position (ex, ey) in edit mode selects the
     * topmost shape under the pointer: the last one in the list whose box
     * holds the point. A click on no shape, or outside edit mode, selects
     * nothing and changes nothing.
     */
    method SelectAt(ex: int, ey: int) returns (found: bool)
      requires Valid()
      modifies this`selectionMade, this`selectionType, this`selectionX, this`selectionY
      modifies this`selectionWidth, this`selectionHeight, this`editMenuCountVal
      ensures var mx, my := ex - 1, ey - 25;
              found <==> drawType == EDIT_MODE && exists i :: 0 <= i < rectCount && InRecord(rectList, i, mx, my)
      ensures !found ==> unchanged(this)
      ensures found ==> var i, mx, my := editMenuCountVal - 1, ex - 1, ey - 25;
                        && 0 <= i < rectCount && InRecord(rectList, i, mx, my)
                        && (forall j :: i < j < rectCount ==> !InRecord(rectList, j, mx, my))
                        && selectionMade && selectionType == rectList[9 * i + COLLISION_AT]
                        && selectionX == rectList[9 * i] && selectionY == rectList[9 * i + 1]
                        && selectionWidth == rectList[9 * i + 2] && selectionHeight == rectList[9 * i + 3]
    {
      found := false;
      if drawType == EDIT_MODE {
        var mouseX := ex - 1;
        var mouseY := ey - 25;
        var i := rectCount - 1;
        while i >= 0
          invariant -1 <= i < rectCount
          invariant forall j :: i < j < rectCount ==> !InRecord(rectList, j, mouseX, mouseY)
          invariant unchanged(this)
        {
          var leftX := rectList[i * 9];
          var rightX := leftX + rectList[i * 9 + 2];
          var topY := rectList[i * 9 + 1];
          var bottomY := topY + rectList[i * 9 + 3];
          if mouseX >= leftX && mouseX <= rightX && mouseY >= topY && mouseY <= bottomY {
            selectionMade := true;
            selectionType := rectList[i * 9 + COLLISION_AT];
            selectionX := leftX;
            selectionY := topY;
            selectionWidth := rightX - leftX;
            selectionHeight := bottomY - topY;
            editMenuCountVal := i + 1;
            assert InRecord(rectList, i, mouseX, mouseY);
            return true;
          }
          i := i - 1;
        }
      }
    }

    /**
     * After the second click: a box with non-zero width and height is
     * added as one record, its corner and size normalized, with the
     * current collision, climb and colour; in warp mode the warp target
     * is added as well. A box with a zero side adds nothing. Either way
     * drawing starts over.
     */
    method Commit()
      requires Valid()
      modifies this`rectList, this`rectCount, this`warpList, this`warpCount, this`newRectStep
      ensures Valid()
      ensures old(newRectStep) != 2 ==> unchanged(this)
      ensures old(newRectStep) == 2 ==> newRectStep == 0
      ensures old(newRectStep) == 2 && (newRectWidth == 0 || newRectHeight == 0) ==>
                rectList == old(rectList) && rectCount == old(rectCount)
                && warpList == old(warpList) && warpCount == old(warpCount)
      ensures old(newRectStep) == 2 && newRectWidth != 0 && newRectHeight != 0 ==>
                var box := Normalize(newRectX, newRectY, newRectWidth, newRectHeight);
                && rectList == old(rectList) + [box.0, box.1, box.2, box.3, collisVal, climbable, redVal, greenVal, blueVal]
                && rectCount == old(rectCount) + 1
                && (drawType == WARP_MODE ==>
                      warpList == old(warpList) + [warpToMapNum, warpToXCoord, warpToYCoord]
                      && warpCount == old(warpCount) + 1)
                && (drawType != WARP_MODE ==> warpList == old(warpList) && warpCount == old(warpCount))
    {
      if newRectStep == 2 {
        var added := false;
        if newRectWidth > 0 && newRectHeight > 0 {
          rectList := rectList + [newRectX, newRectY, newRectWidth, newRectHeight];
          added := true;
        } else if newRectWidth < 0 && newRectHeight > 0 {
          rectList := rectList + [newRectX + newRectWidth, newRectY, -newRectWidth, newRectHeight];
          added := true;
        } else if newRectWidth < 0 && newRectHeight < 0 {
          rectList := rectList + [newRectX + newRectWidth, newRectY + newRectHeight, -newRectWidth, -newRectHeight];
          added := true;
        } else if newRectWidth > 0 && newRectHeight < 0 {
          rectList := rectList + [newRectX, newRectY + newRectHeight, newRectWidth, -newRectHeight];
          added := true;
        } else {
          newRectStep := 0;
        }
        if added {
          rectList := rectList + [collisVal, climbable, redVal, greenVal, blueVal];
          rectCount := rectCount + 1;
          if drawType == WARP_MODE {
            warpList := warpList + [warpToMapNum, warpToXCoord, warpToYCoord];
            warpCount := warpCount + 1;
          }
          newRectStep := 0;
        }
      }
    }

    /**
     * The undo button: removes the most recently added shape, and when it
     * is a warp also the last warp target, then clears the selection. On
     * an empty list only the selection is cleared; a warp shape with no
     * warp target left to remove fails without a change.
     */
    method Undo() returns (ok: bool)
      requires Valid()
      modifies this`rectList, this`rectCount, this`warpList, this`warpCount, this`selectionMade
      ensures Valid()
      ensures ok <==> old(rectCount) == 0 || !IsWarpRecord(old(rectList), old(rectCount) - 1) || old(warpCount) > 0
      ensures !ok ==> unchanged(this)
      ensures ok ==> !selectionMade
      ensures ok && old(rectCount) == 0 ==>
                rectList == old(rectList) && rectCount == old(rectCount)
                && warpList == old(warpList) && warpCount == old(warpCount)
      ensures ok && old(rectCount) > 0 ==>
                && rectList == old(rectList)[..9 * (old(rectCount) - 1)] && rectCount == old(rectCount) - 1
                && (IsWarpRecord(old(rectList), old(rectCount) - 1) ==>
                      warpList == old(warpList)[..3 * (old(warpCount) - 1)] && warpCount == old(warpCount) - 1)
                && (!IsWarpRecord(old(rectList), old(rectCount) - 1) ==>
                      warpList == old(warpList) && warpCount == old(warpCount))
    {
      if |rectList| > 0 {
        if rectList[|rectList| - 5] == WARP_SHAPE {
          if |warpList| == 0 {
            return false;
          }
          var i := 0;
          while i < 3
            invariant 0 <= i <= 3 && rectCount == old(rectCount) && warpCount == old(warpCount)
            invariant rectList == old(rectList)
            invariant warpList == old(warpList)[..|old(warpList)| - i]
          {
            warpList := warpList[..|warpList| - 1];
            i := i + 1;
          }
          warpCount := warpCount - 1;
        }
        ghost var warpsLeft, countLeft := warpList, warpCount;
        assert rectList == old(rectList)[..|old(rectList)|];
        var i := 0;
        while i < 9
          invariant 0 <= i <= 9 && rectCount == old(rectCount)
          invariant warpList == warpsLeft && warpCount == countLeft
          invariant rectList == old(rectList)[..|old(rectList)| - i]
        {
          rectList := rectList[..|rectList| - 1];
          i := i + 1;
        }
        rectCount := rectCount - 1;
      }
      selectionMade := false;
      ok := true;
    }

    /**
     * Lowers by one the climb value of every warp shape that refers to a
     * warp after the one numbered `deleted`.
     */
    method AdjustWarpData(deleted: int)
      requires Valid()
      modifies this`rectList
      ensures rectList == Renumbered(old(rectList), deleted)
    {
      var i := 0;
      while rectCount > 0 && i < rectCount
        invariant 0 <= i <= rectCount && |rectList| == |old(rectList)|
        invariant forall k :: 0 <= k < 9 * i ==> rectList[k] == RenumberAt(old(rectList), k, deleted)
        invariant forall k :: 9 * i <= k < |rectList| ==> rectList[k] == old(rectList)[k]
      {
        if rectList[9 * i + COLLISION_AT] == WARP_SHAPE && rectList[9 * i + CLIMB_AT] > deleted {
          rectList := rectList[9 * i + CLIMB_AT := rectList[9 * i + CLIMB_AT] - 1];
        }
        forall k | 9 * i <= k < 9 * i + 9
          ensures rectList[k] == RenumberAt(old(rectList), k, deleted)
        {
          assert k % 9 == k - 9 * i;
        }
        i := i + 1;
      }
    }

    /**
     * Deletes the selected shape. A warp shape takes its warp target with
     * it, and the warp shapes after it are renumbered. A selection that
     * names no shape, or a warp shape whose number names no warp target,
     * fails without a change.
     */
    method Delete() returns (ok: bool)
      requires Valid()
      modifies this`rectList, this`rectCount, this`warpList, this`warpCount, this`selectionMade
      ensures Valid()
      ensures ok <==> old(Selected()) &&
                      (IsWarpRecord(old(rectList), old(editMenuCountVal) - 1) ==>
                         0 <= old(rectList)[9 * (old(editMenuCountVal) - 1) + CLIMB_AT] - WARP_BASE < old(warpCount))
      ensures !ok ==> unchanged(this)
      ensures ok ==> var i := old(editMenuCountVal) - 1;
                     var climb := old(rectList)[9 * i + CLIMB_AT];
                     && rectCount == old(rectCount) - 1 && !selectionMade
                     && (IsWarpRecord(old(rectList), i) ==>
                           && rectList == RemoveRecord(Renumbered(old(rectList), climb), i)
                           && warpList == RemoveWarp(old(warpList), climb - WARP_BASE)
                           && warpCount == old(warpCount) - 1)
                     && (!IsWarpRecord(old(rectList), i) ==>
                           rectList == RemoveRecord(old(rectList), i)
                           && warpList == old(warpList) && warpCount == old(warpCount))
    {
      if !(1 <= editMenuCountVal <= rectCount) {
        return false;
      }
      var index := (editMenuCountVal - 1) * 9;
      if rectList[index + COLLISION_AT] == WARP_SHAPE {
        var warpNum := rectList[index + CLIMB_AT] - WARP_BASE;
        if !(0 <= warpNum < warpCount) {
          return false;
        }
        var i := 0;
        while i < 3
          invariant 0 <= i <= 3 && rectList == old(rectList)
          invariant rectCount == old(rectCount) && warpCount == old(warpCount)
          invariant warpList == old(warpList)[..warpNum * 3] + old(warpList)[warpNum * 3 + i..]
        {
          warpList := warpList[..warpNum * 3] + warpList[warpNum * 3 + 1..];
          i := i + 1;
        }
        warpCount := warpCount - 1;
        AdjustWarpData(warpNum + WARP_BASE);
      }
      ghost var before, warpsLeft, countLeft := rectList, warpList, warpCount;
      var i := 0;
      while i < 9
        invariant 0 <= i <= 9 && rectCount == old(rectCount)
        invariant warpList == warpsLeft && warpCount == countLeft
        invariant rectList == before[..index] + before[index + i..]
      {
        rectList := rectList[..index] + rectList[index + 1..];
        i := i + 1;
      }
      rectCount := rectCount - 1;
      selectionMade := false;
      ok := true;
    }

    /** Takes the nine values of the selected shape out of the list, in order. */
    method TakeSelected() returns (temp: array<int>)
      requires Valid() && Selected()
      modifies this`rectList
      ensures fresh(temp) && temp.Length == 9
      ensures temp[..] == Record(old(rectList), editMenuCountVal - 1)
      ensures rectList == RemoveRecord(old(rectList), editMenuCountVal - 1)
    {
      var index := (editMenuCountVal - 1) * 9;
      temp := new int[9];
      var i := 0;
      while i < 9
        invariant 0 <= i <= 9
        invariant temp[..i] == old(rectList)[index .. index + i]
        invariant rectList == old(rectList)[..index] + old(rectList)[index + i..]
      {
        temp[i] := rectList[index];
        rectList := rectList[..index] + rectList[index + 1..];
        i := i + 1;
      }
    }

    /** Inserts the nine values of `record` at the front of the list, last value first. */
    method PutFirst(record: seq<int>)
      requires |record| == 9
      modifies this`rectList
      ensures rectList == record + old(rectList)
    {
      var i := 8;
      while i >= 0
        invariant -1 <= i <= 8
        invariant rectList == record[i + 1..] + old(rectList)
      {
        ghost var placed := rectList;
        rectList := [record[i]] + rectList;
        assert rectList == [record[i]] + placed;
        assert record[i..] == [record[i]] + record[i + 1..];
        i := i - 1;
      }
    }

    /** Send to back: the selected shape becomes the first, drawn behind all others, and stays selected. */
    method ToBack() returns (ok: bool)
      requires Valid()
      modifies this`rectList, this`editMenuCountVal
      ensures Valid()
      ensures ok <==> old(Selected())
      ensures !ok ==> unchanged(this)
      ensures ok ==> rectList == ToBackList(old(rectList), old(editMenuCountVal) - 1) && editMenuCountVal == 1
    {
      if !(1 <= editMenuCountVal <= rectCount) {
        return false;
      }
      var temp := TakeSelected();
      PutFirst(temp[..]);
      editMenuCountVal := 1;
      ok := true;
    }

    /** Bring to front: the selected shape becomes the last, drawn over all others, and stays selected. */
    method ToFront() returns (ok: bool)
      requires Valid()
      modifies this`rectList, this`editMenuCountVal
      ensures Valid()
      ensures ok <==> old(Selected())
      ensures !ok ==> unchanged(this)
      ensures ok ==> rectList == ToFrontList(old(rectList), old(editMenuCountVal) - 1) && editMenuCountVal == rectCount
    {
      if !(1 <= editMenuCountVal <= rectCount) {
        return false;
      }
      var temp := TakeSelected();
      ghost var rest, record := rectList, temp[..];
      var i := 0;
      while i < 9
        invariant 0 <= i <= 9 && editMenuCountVal == old(editMenuCountVal)
        invariant temp[..] == record
        invariant rectList == rest + record[..i]
      {
        assert record[..i + 1] == record[..i] + [record[i]];
        rectList := rectList + [temp[i]];
        i := i + 1;
      }
      assert record[..9] == record;
      editMenuCountVal := rectCount;
      ok := true;
    }

    /**
     * Applies the edit menu's collision and climb values to the selected
     * shape. A value of -1 means "keep the shape's own", and is replaced
     * by it for later uses too. An oval (collision 3 or 4) gets climb 0.
     */
    method SetAttributes() returns (ok: bool)
      requires Valid()
      modifies this`rectList, this`tempCollisVal, this`tempClimbable
      ensures Valid()
      ensures ok <==> old(Selected())
      ensures !ok ==> unchanged(this)
      ensures ok ==> var i := 9 * (editMenuCountVal - 1);
                     && tempCollisVal == (if old(tempCollisVal) == -1 then old(rectList)[i + COLLISION_AT] else old(tempCollisVal))
                     && tempClimbable == (if old(tempClimbable) == -1 then old(rectList)[i + CLIMB_AT] else old(tempClimbable))
                     && rectList[i + COLLISION_AT] == tempCollisVal
                     && rectList[i + CLIMB_AT] == (if tempCollisVal in {BACK_OVAL, FRONT_OVAL} then NO_CLIMB else tempClimbable)
                     && forall k :: 0 <= k < |rectList| && k != i + COLLISION_AT && k != i + CLIMB_AT ==>
                          rectList[k] == old(rectList)[k]
    {
      if !(1 <= editMenuCountVal <= rectCount) {
        return false;
      }
      var index := (editMenuCountVal - 1) * 9;
      if tempCollisVal == -1 {
        tempCollisVal := rectList[index + COLLISION_AT];
      }
      if tempClimbable == -1 {
        tempClimbable := rectList[index + CLIMB_AT];
      }
      rectList := rectList[index + COLLISION_AT := tempCollisVal];
      if rectList[index + COLLISION_AT] != BACK_OVAL && rectList[index + COLLISION_AT] != FRONT_OVAL {
        rectList := rectList[index + CLIMB_AT := tempClimbable];
      } else {
        rectList := rectList[index + CLIMB_AT := NO_CLIMB];
      }
      ok := true;
    }

    /**
     * The edit menu's "no collision" button: a selected shape of collision
     * 0, 1 or 2 is to get collision 0 on the back layer or 2 on the front.
     */
    method EditCollisionOff(backLayer: bool) returns (ok: bool)
      requires Valid()
      modifies this`tempCollisVal
      ensures ok <==> Selected()
      ensures var i := 9 * (editMenuCountVal - 1);
              tempCollisVal == if ok && rectList[i + COLLISION_AT] in {0, SOLID, 2} then (if backLayer then 0 else 2)
                               else old(tempCollisVal)
    {
      if !(1 <= editMenuCountVal <= rectCount) {
        return false;
      }
      var index := (editMenuCountVal - 1) * 9;
      var c := rectList[index + COLLISION_AT];
      if c == 0 || c == SOLID || c == 2 {
        if backLayer {
          tempCollisVal := 0;
        } else {
          tempCollisVal := 2;
        }
      }
      ok := true;
    }

    /** The edit menu's "collision" button: the shape is to become solid. */
    method EditCollisionOn()
      modifies this`tempCollisVal
      ensures tempCollisVal == SOLID
    {
      tempCollisVal := SOLID;
    }

    /**
     * The edit menu's layer buttons: a rectangle (collision 0, 1 or 2) is
     * to get 2 in front or 0 behind, an oval 4 in front or 3 behind; a
     * warp shape is left as it is.
     */
    method EditLayer(front: bool) returns (ok: bool)
      requires Valid()
      modifies this`tempCollisVal
      ensures ok <==> Selected()
      ensures !ok ==> tempCollisVal == old(tempCollisVal)
      ensures ok ==> var c := rectList[9 * (editMenuCountVal - 1) + COLLISION_AT];
                     tempCollisVal == if c in {0, SOLID, 2} then (if front then 2 else 0)
                                      else if c in {BACK_OVAL, FRONT_OVAL} then (if front then FRONT_OVAL else BACK_OVAL)
                                      else old(tempCollisVal)
    {
      if !(1 <= editMenuCountVal <= rectCount) {
        return false;
      }
      var index := (editMenuCountVal - 1) * 9;
      var c := rectList[index + COLLISION_AT];
      if c == 0 || c == SOLID || c == 2 {
        tempCollisVal := if front then 2 else 0;
      } else if c == BACK_OVAL || c == FRONT_OVAL {
        tempCollisVal := if front then FRONT_OVAL else BACK_OVAL;
      }
      ok := true;
    }

    /** The edit menu's "climbable" box toggled to `checked`, with water taking precedence. */
    method EditClimbable(checked: bool, water: bool, jump: bool)
      modifies this`tempClimbable
      ensures tempClimbable == EditClimb(checked, water, jump)
    {
      if checked {
        if water {
          tempClimbable := WATER;
        } else if jump {
          tempClimbable := JUMP_THROUGH;
        } else {
          tempClimbable := LADDER;
        }
      } else {
        tempClimbable := NO_CLIMB;
      }
    }

    /** The edit menu's water box toggled to `selected`. */
    method EditWater(selected: bool, jump: bool)
      modifies this`tempClimbable
      ensures tempClimbable == WaterClimb(selected, jump)
    {
      if selected {
        tempClimbable := WATER;
      } else if jump {
        tempClimbable := JUMP_THROUGH;
      } else {
        tempClimbable := LADDER;
      }
    }

    /** The edit menu's climb-type buttons: jump-through or ladder. */
    method EditClimbType(jump: bool)
      modifies this`tempClimbable
      ensures tempClimbable == if jump then JUMP_THROUGH else LADDER
    {
      tempClimbable := if jump then JUMP_THROUGH else LADDER;
    }

    /**
     * The edit menu's colour button: the selected shape's colour becomes
     * the three fields, each read as 0 when it holds no number and fixed
     * into 0..255; every other value is kept.
     */
    method EditSetColor(red: Option<int>, green: Option<int>, blue: Option<int>) returns (ok: bool)
      requires Valid()
      modifies this`rectList
      ensures Valid()
      ensures ok <==> Selected()
      ensures !ok ==> rectList == old(rectList)
      ensures ok ==> var i := 9 * (editMenuCountVal - 1);
                     && rectList[..i + 6] == old(rectList)[..i + 6]
                     && rectList[i + 9..] == old(rectList)[i + 9..]
                     && rectList[i + 6..i + 9] == [FixColorRange(if red.Some? then red.value else 0),
                                                   FixColorRange(if green.Some? then green.value else 0),
                                                   FixColorRange(if blue.Some? then blue.value else 0)]
    {
      var r := if red.Some? then red.value else 0;
      var g := if green.Some? then green.value else 0;
      var b := if blue.Some? then blue.value else 0;
      if r > 255 || r < 0 {
        r := FixColorRange(r);
      }
      if b > 255 || b < 0 {
        b := FixColorRange(b);
      }
      if g > 255 || g < 0 {
        g := FixColorRange(g);
      }
      if !(1 <= editMenuCountVal <= rectCount) {
        return false;
      }
      var index := (editMenuCountVal - 1) * 9;
      rectList := rectList[index + 6 := r][index + 7 := g][index + 8 := b];
      ok := true;
    }

    /** The selection fields: made, kind, x, y, width, height. */
    function Selection(): (bool, int, int, int, int, int)
      reads this
    {
      (selectionMade, selectionType, selectionX, selectionY, selectionWidth, selectionHeight)
    }

    /**
     * The selection the edit menu's loop leaves, starting from `before`:
     * the shape the menu's number names; the first shape when the number
     * is 0 or less (the loop then fails just past it); `before` when there
     * is no such shape.
     */
    function SelectedAfter(before: (bool, int, int, int, int, int)): (bool, int, int, int, int, int)
      requires Valid()
      reads this
    {
      if 1 <= editMenuCountVal <= rectCount then SelectionOf(Record(rectList, editMenuCountVal - 1))
      else if editMenuCountVal < 1 && rectCount > 0 then SelectionOf(Record(rectList, 0))
      else before
    }

    /**
     * The edit menu's selection loop: from the last shape down to the one
     * the menu's number names, each shape in turn fills the selection. It
     * fails reading past the first shape when the number is 0 or less.
     */
    method SelectCurrent() returns (ok: bool)
      requires Valid()
      modifies this`selectionMade, this`selectionType, this`selectionX, this`selectionY
      modifies this`selectionWidth, this`selectionHeight
      ensures ok <==> editMenuCountVal >= 1
      ensures Selection() == SelectedAfter(old(Selection()))
    {
      var i := rectCount - 1;
      while i >= editMenuCountVal - 1
        invariant -1 <= i <= rectCount - 1
        invariant i >= editMenuCountVal - 2 || i == rectCount - 1
        invariant i == rectCount - 1 ==> Selection() == old(Selection())
        invariant i < rectCount - 1 ==> Selection() == SelectionOf(Record(rectList, i + 1))
      {
        if i < 0 {
          return false;
        }
        var leftX := rectList[i * 9];
        var rightX := leftX + rectList[i * 9 + 2];
        var topY := rectList[i * 9 + 1];
        var bottomY := topY + rectList[i * 9 + 3];
        selectionMade := true;
        selectionType := rectList[i * 9 + COLLISION_AT];
        selectionX := leftX;
        selectionY := topY;
        selectionWidth := rightX - leftX;
        selectionHeight := bottomY - topY;
        i := i - 1;
      }
      ok := editMenuCountVal >= 1;
    }

    /**
     * The edit menu's plus button: the next shape, or with `warpsOnly` the
     * next warp shape (the number stays when there is none); then the
     * selection loop. A negative number fails the warp search at once.
     */
    method EditNext(warpsOnly: bool) returns (ok: bool)
      requires Valid()
      modifies this`editMenuCountVal, this`selectionMade, this`selectionType, this`selectionX
      modifies this`selectionY, this`selectionWidth, this`selectionHeight
      ensures var v := old(editMenuCountVal);
              editMenuCountVal == if !warpsOnly then (if v < rectCount then v + 1 else v)
                                  else if v < 0 then v
                                  else match NextWarp(rectList, rectCount, v) case Some(k) => k case None => v
      ensures warpsOnly && old(editMenuCountVal) < 0 ==> !ok && Selection() == old(Selection())
      ensures !warpsOnly || old(editMenuCountVal) >= 0 ==>
                (ok <==> editMenuCountVal >= 1) && Selection() == SelectedAfter(old(Selection()))
    {
      if !warpsOnly {
        if editMenuCountVal < rectCount {
          editMenuCountVal := editMenuCountVal + 1;
        }
      } else {
        if editMenuCountVal < 0 {
          return false;
        }
        ghost var from: nat := editMenuCountVal;
        var i := editMenuCountVal;
        var found := false;
        while !found && i < rectCount
          invariant from <= i
          invariant !found ==> editMenuCountVal == from && NextWarp(rectList, rectCount, i) == NextWarp(rectList, rectCount, from)
          invariant found ==> NextWarp(rectList, rectCount, from) == Some(editMenuCountVal)
          invariant Selection() == old(Selection())
          decreases rectCount - i
        {
          if rectList[i * 9 + COLLISION_AT] == WARP_SHAPE {
            editMenuCountVal := i + 1;
            found := true;
          }
          i := i + 1;
        }
      }
      ok := SelectCurrent();
    }

    /**
     * The edit menu's minus button: the previous shape, or with `warpsOnly`
     * the previous warp shape (the number stays when there is none); then
     * the selection loop. A number more than one past the count fails the
     * warp search at once.
     */
    method EditPrev(warpsOnly: bool) returns (ok: bool)
      requires Valid()
      modifies this`editMenuCountVal, this`selectionMade, this`selectionType, this`selectionX
      modifies this`selectionY, this`selectionWidth, this`selectionHeight
      ensures var v := old(editMenuCountVal);
              editMenuCountVal == if !warpsOnly then (if v > 1 then v - 1 else v)
                                  else if v - 1 > rectCount then v
                                  else match PrevWarp(rectList, rectCount, v - 1) case Some(k) => k case None => v
      ensures warpsOnly && old(editMenuCountVal) - 1 > rectCount ==> !ok && Selection() == old(Selection())
      ensures !warpsOnly || old(editMenuCountVal) - 1 <= rectCount ==>
                (ok <==> editMenuCountVal >= 1) && Selection() == SelectedAfter(old(Selection()))
    {
      if !warpsOnly {
        if editMenuCountVal > 1 {
          editMenuCountVal := editMenuCountVal - 1;
        }
      } else {
        if editMenuCountVal - 1 > rectCount {
          return false;
        }
        ghost var below := editMenuCountVal - 1;
        var i := editMenuCountVal - 2;
        var found := false;
        while !found && i >= 0
          invariant i < below
          invariant !found ==> editMenuCountVal == below + 1 && PrevWarp(rectList, rectCount, i + 1) == PrevWarp(rectList, rectCount, below)
          invariant found ==> PrevWarp(rectList, rectCount, below) == Some(editMenuCountVal)
          invariant Selection() == old(Selection())
          decreases i + 1
        {
          if rectList[i * 9 + COLLISION_AT] == WARP_SHAPE {
            editMenuCountVal := i + 1;
            found := true;
          }
          i := i - 1;
        }
      }
      ok := SelectCurrent();
    }

    /**
     * Selects shape number `requested`, moved into 1..rectCount; the
     * selection takes that shape's kind and box. With no shapes, asking
     * for a positive number sets the number to 0 and then fails reading
     * shape 0.
     */
    method SetCount(requested: int) returns (ok: bool)
      requires Valid()
      modifies this`editMenuCountVal, this`selectionMade, this`selectionType
      modifies this`selectionX, this`selectionY, this`selectionWidth, this`selectionHeight
      ensures editMenuCountVal == if 0 < requested <= rectCount then requested
                                  else if requested > rectCount then rectCount else 1
      ensures rectCount > 0 ==> Selected()
      ensures ok <==> !(rectCount == 0 && requested > 0)
      ensures rectCount == 0 ==> Selection() == old(Selection())
      ensures rectCount > 0 ==> Selection() == SelectionOf(Record(rectList, editMenuCountVal - 1))
    {
      if requested <= rectCount && requested > 0 {
        editMenuCountVal := requested;
      } else if requested > rectCount {
        editMenuCountVal := rectCount;
      } else if requested <= 0 {
        editMenuCountVal := 1;
      }
      ok := SelectCurrent();
    }

    /**
     * Moves the selected shape to the box whose corners the edit menu's
     * fields give; the selection follows it. A box with a zero side is
     * stored as computed, without normalizing.
     */
    method SetCoords(x1: int, y1: int, x2: int, y2: int) returns (ok: bool)
      requires Valid()
      modifies this`rectList, this`selectionX, this`selectionY, this`selectionWidth, this`selectionHeight
      ensures Valid()
      ensures ok <==> old(Selected())
      ensures !ok ==> unchanged(this)
      ensures ok ==> var i, box := editMenuCountVal - 1, EditedBox(x1, y1, x2, y2);
                     && Record(rectList, i)[..4] == [box.0, box.1, box.2, box.3]
                     && (selectionX, selectionY, selectionWidth, selectionHeight) == box
                     && forall k :: 0 <= k < |rectList| && !(9 * i <= k < 9 * i + 4) ==> rectList[k] == old(rectList)[k]
    {
      var newX1 := x1 + 14;
      var newY1 := y1 + 15;
      var newWidth := x2 - newX1 + 15;
      var newHeight := y2 - newY1 + 15;
      if !(1 <= editMenuCountVal <= rectCount) {
        return false;
      }
      var index := (editMenuCountVal - 1) * 9;
      if newWidth < 0 && newHeight > 0 {
        newX1 := newX1 + newWidth;
        newWidth := -newWidth;
      } else if newWidth < 0 && newHeight < 0 {
        newX1 := newX1 + newWidth;
        newWidth := -newWidth;
        newY1 := newY1 + newHeight;
        newHeight := -newHeight;
      } else if newWidth > 0 && newHeight < 0 {
        newY1 := newY1 + newHeight;
        newHeight := -newHeight;
      }
      rectList := rectList[index := newX1][index + 1 := newY1][index + 2 := newWidth][index + 3 := newHeight];
      selectionX := newX1;
      selectionY := newY1;
      selectionHeight := newHeight;
      selectionWidth := newWidth;
      ok := true;
    }

    /**
     * Changes the target of the warp the selected shape refers to. A
     * selection that names no shape, or a climb value that names no warp
     * target, fails without a change.
     */
    method EditWarpSet(targetMap: int, targetX: int, targetY: int) returns (ok: bool)
      requires Valid()
      modifies this`warpList
      ensures Valid()
      ensures ok <==> old(Selected()) && 0 <= rectList[9 * (editMenuCountVal - 1) + CLIMB_AT] - WARP_BASE < warpCount
      ensures !ok ==> unchanged(this)
      ensures ok ==> var k := rectList[9 * (editMenuCountVal - 1) + CLIMB_AT] - WARP_BASE;
                     && warpList[3 * k .. 3 * k + 3] == [targetMap, targetX, targetY]
                     && forall t :: 0 <= t < |warpList| && !(3 * k <= t < 3 * k + 3) ==> warpList[t] == old(warpList)[t]
    {
      if !(1 <= editMenuCountVal <= rectCount) {
        return false;
      }
      var warpNum := rectList[(editMenuCountVal - 1) * 9 + CLIMB_AT] - WARP_BASE;
      if !(0 <= warpNum < warpCount) {
        return false;
      }
      warpList := warpList[warpNum * 3 := targetMap][warpNum * 3 + 1 := targetX][warpNum * 3 + 2 := targetY];
      ok := true;
    }

    /** The toolbox colour: a field that does not hold a number counts as 0, and each value is fixed into 0..255. */
    method SetColor(red: Option<int>, green: Option<int>, blue: Option<int>)
      modifies this`redVal, this`greenVal, this`blueVal
      ensures 0 <= redVal <= 255 && 0 <= greenVal <= 255 && 0 <= blueVal <= 255
      ensures redVal == FixColorRange(if red.Some? then red.value else 0)
      ensures greenVal == FixColorRange(if green.Some? then green.value else 0)
      ensures blueVal == FixColorRange(if blue.Some? then blue.value else 0)
    {
      redVal := if red.Some? then red.value else 0;
      greenVal := if green.Some? then green.value else 0;
      blueVal := if blue.Some? then blue.value else 0;
      if redVal > 255 {
        redVal := 255;
      }
      if redVal < 0 {
        redVal := 0;
      }
      if blueVal > 255 {
        blueVal := 255;
      }
      if blueVal < 0 {
        blueVal := 0;
      }
      if greenVal > 255 {
        greenVal := 255;
      }
      if greenVal < 0 {
        greenVal := 0;
      }
    }

    /** The edge warps from the edge-warp menu; an empty or disabled field (None) means n. */
    method SetEdgeWarps(left: Option<Token>, right: Option<Token>, up: Option<Token>, down: Option<Token>)
      modifies this`edgeWarpLeft, this`edgeWarpRight, this`edgeWarpUp, this`edgeWarpDown
      ensures edgeWarpLeft == (if left.None? then NONE_WORD else left.value)
      ensures edgeWarpRight == (if right.None? then NONE_WORD else right.value)
      ensures edgeWarpUp == (if up.None? then NONE_WORD else up.value)
      ensures edgeWarpDown == (if down.None? then NONE_WORD else down.value)
    {
      edgeWarpLeft := if left.None? then NONE_WORD else left.value;
      edgeWarpRight := if right.None? then NONE_WORD else right.value;
      edgeWarpUp := if up.None? then NONE_WORD else up.value;
      edgeWarpDown := if down.None? then NONE_WORD else down.value;
    }

    method SetSpawn(x: int, y: int)
      modifies this`spawnX, this`spawnY
      ensures spawnX == x && spawnY == y
    {
      spawnX := x;
      spawnY := y;
    }

    method SetDimensions(width: int, height: int)
      modifies this`gameWidth, this`gameHeight
      ensures gameWidth == width && gameHeight == height
    {
      gameWidth := width;
      gameHeight := height;
    }

    method SetMapNumber(number: int)
      modifies this`mapNumber
      ensures mapNumber == number
    {
      mapNumber := number;
    }

    /** Empties the map; its size, spawn point and edge warps stay as they are. */
    method NewMap()
      modifies this`rectList, this`rectCount, this`warpList, this`warpCount, this`selectionMade
      ensures Valid() && rectList == [] && rectCount == 0 && warpList == [] && warpCount == 0 && !selectionMade
    {
      rectList := [];
      rectCount := 0;
      warpList := [];
      warpCount := 0;
      selectionMade := false;
    }

    /** The lines a save writes: the header, one line per shape and one per warp. */
    method Save() returns (lines: seq<seq<Token>>)
      requires Savable(Data())
      ensures lines == SaveLines(Data())
    {
      lines := [[Num(gameWidth), Num(gameHeight)],
                [Num(spawnX - SPAWN_SHIFT_X), Num(spawnY + SPAWN_SHIFT_Y)],
                [edgeWarpLeft, edgeWarpRight, edgeWarpUp, edgeWarpDown],
                [Num(rectCount)]];
      var i := 0;
      while rectCount > 0 && i < rectCount
        invariant 0 <= i <= Rows(rectCount)
        invariant lines == HeadLines(Data()) + ShapeLines(rectList, i)
      {
        lines := lines + [[Num(rectList[i * 9] - CANVAS_SHIFT), Num(rectList[i * 9 + 1] - CANVAS_SHIFT),
                           Num(rectList[i * 9 + 2]), Num(rectList[i * 9 + 3]), Num(rectList[i * 9 + 4]),
                           Num(rectList[i * 9 + 5]), Num(rectList[i * 9 + 6]), Num(rectList[i * 9 + 7]),
                           Num(rectList[i * 9 + 8])]];
        assert ShapeLines(rectList, i + 1) == ShapeLines(rectList, i) + [ShapeLine(rectList, i)];
        i := i + 1;
      }
      assert i == Rows(rectCount);
      lines := lines + [[Num(warpCount)]];
      var j := 0;
      while warpCount > 0 && j < warpCount
        invariant 0 <= j <= Rows(warpCount)
        invariant lines == HeadLines(Data()) + ShapeLines(rectList, Rows(rectCount)) + [[Num(warpCount)]]
                           + WarpLines(warpList, j)
      {
        lines := lines + [[Num(warpList[j * 3]), Num(warpList[j * 3 + 1]), Num(warpList[j * 3 + 2])]];
        assert WarpLines(warpList, j + 1) == WarpLines(warpList, j) + [WarpLine(warpList, j)];
        j := j + 1;
      }
      assert j == Rows(warpCount);
    }

    /**
     * Loads map `number` from `file` (None: there is no such file). The
     * lists are emptied first; a missing file leaves them empty. Otherwise
     * the size, the spawn point (shifted back), the edge warps (n keeps the
     * current one), the shapes (x and y shifted back) and the warps are
     * read in file order; a missing or non-numeric token fails.
     */
    method Load(number: int, file: Option<seq<seq<Token>>>) returns (ok: bool)
      modifies this`mapNumber, this`rectList, this`rectCount, this`warpList, this`warpCount, this`selectionMade
      modifies this`gameWidth, this`gameHeight, this`spawnX, this`spawnY
      modifies this`edgeWarpLeft, this`edgeWarpRight, this`edgeWarpUp, this`edgeWarpDown
      ensures mapNumber == number && !selectionMade
      ensures file.None? ==> ok && Valid() && rectList == [] && warpList == []
                             && Data() == old(Data()).(rectList := [], rectCount := 0, warpList := [], warpCount := 0)
      ensures file.Some? ==> (ok <==> Decode(Flatten(file.value)).Some?)
      ensures file.Some? && ok ==>
                var d := Decode(Flatten(file.value)).value;
                && gameWidth == d.width && gameHeight == d.height && spawnX == d.spawnX && spawnY == d.spawnY
                && rectList == d.rectList && rectCount == d.rectCount
                && warpList == d.warpList && warpCount == d.warpCount
                && edgeWarpLeft == LoadedEdge(d.edges[0], old(edgeWarpLeft))
                && edgeWarpRight == LoadedEdge(d.edges[1], old(edgeWarpRight))
                && edgeWarpUp == LoadedEdge(d.edges[2], old(edgeWarpUp))
                && edgeWarpDown == LoadedEdge(d.edges[3], old(edgeWarpDown))
      ensures ok && rectCount >= 0 && warpCount >= 0 ==> Valid()
    {
      rectList := [];
      rectCount := 0;
      warpList := [];
      warpCount := 0;
      selectionMade := false;
      mapNumber := number;
      if file.None? {
        return true;
      }
      ok := LoadTokens(Flatten(file.value));
    }

    /** Reads a whole file's tokens into the emptied lists: header, shapes, then warps. */
    method LoadTokens(toks: seq<Token>) returns (ok: bool)
      requires rectList == [] && warpList == []
      modifies this`rectList, this`rectCount, this`warpList, this`warpCount
      modifies this`gameWidth, this`gameHeight, this`spawnX, this`spawnY
      modifies this`edgeWarpLeft, this`edgeWarpRight, this`edgeWarpUp, this`edgeWarpDown
      ensures ok <==> Decode(toks).Some?
      ensures ok ==>
                var d := Decode(toks).value;
                && gameWidth == d.width && gameHeight == d.height && spawnX == d.spawnX && spawnY == d.spawnY
                && rectList == d.rectList && rectCount == d.rectCount
                && warpList == d.warpList && warpCount == d.warpCount
                && edgeWarpLeft == LoadedEdge(d.edges[0], old(edgeWarpLeft))
                && edgeWarpRight == LoadedEdge(d.edges[1], old(edgeWarpRight))
                && edgeWarpUp == LoadedEdge(d.edges[2], old(edgeWarpUp))
                && edgeWarpDown == LoadedEdge(d.edges[3], old(edgeWarpDown))
    {
      ok := LoadHeader(toks);
      if !ok {
        return;
      }
      ok := LoadShapes(toks);
      if !ok {
        return;
      }
      ok := LoadWarps(toks, 9 + 9 * Rows(rectCount));
    }

    /** The size, the spawn point, the edge warps and the shape count: the first nine tokens. */
    method LoadHeader(toks: seq<Token>) returns (ok: bool)
      modifies this`gameWidth, this`gameHeight, this`spawnX, this`spawnY, this`rectCount
      modifies this`edgeWarpLeft, this`edgeWarpRight, this`edgeWarpUp, this`edgeWarpDown
      ensures ok <==> AllNum(toks, 0, 4) && |toks| >= 9 && AllNum(toks, 8, 1)
      ensures ok ==> && gameWidth == toks[0].n && gameHeight == toks[1].n
                     && spawnX == toks[2].n + SPAWN_SHIFT_X && spawnY == toks[3].n - SPAWN_SHIFT_Y
                     && edgeWarpLeft == LoadedEdge(toks[4], old(edgeWarpLeft))
                     && edgeWarpRight == LoadedEdge(toks[5], old(edgeWarpRight))
                     && edgeWarpUp == LoadedEdge(toks[6], old(edgeWarpUp))
                     && edgeWarpDown == LoadedEdge(toks[7], old(edgeWarpDown))
                     && rectCount == toks[8].n
    {
      if |toks| < 2 || !toks[0].Num? || !toks[1].Num? {
        return false;
      }
      gameHeight := toks[1].n;
      gameWidth := toks[0].n;
      if |toks| < 4 || !toks[2].Num? || !toks[3].Num? {
        return false;
      }
      spawnX := toks[2].n + SPAWN_SHIFT_X;
      spawnY := toks[3].n - SPAWN_SHIFT_Y;
      if |toks| < 9 {
        return false;
      }
      edgeWarpLeft := LoadedEdge(toks[4], edgeWarpLeft);
      edgeWarpRight := LoadedEdge(toks[5], edgeWarpRight);
      edgeWarpUp := LoadedEdge(toks[6], edgeWarpUp);
      edgeWarpDown := LoadedEdge(toks[7], edgeWarpDown);
      if !toks[8].Num? {
        return false;
      }
      rectCount := toks[8].n;
      ok := true;
    }

    /** `rectCount` shapes of nine numbers from token 9 on, x and y shifted back onto the canvas. */
    method LoadShapes(toks: seq<Token>) returns (ok: bool)
      requires rectList == [] && |toks| >= 9
      modifies this`rectList
      ensures ok <==> AllNum(toks, 9, 9 * Rows(rectCount))
      ensures ok ==> var n := 9 * Rows(rectCount);
                     rectList == seq(n, k requires 0 <= k < n => Unshift(k, toks[9 + k].n))
    {
      var pos := 9;
      var i := 0;
      while i < rectCount
        invariant 0 <= i <= Rows(rectCount) && pos == 9 + 9 * i && |rectList| == 9 * i
        invariant AllNum(toks, 9, 9 * i)
        invariant forall k :: 0 <= k < 9 * i ==> rectList[k] == Unshift(k, toks[9 + k].n)
      {
        var j := 0;
        while j < 9
          invariant 0 <= j <= 9 && pos == 9 + 9 * i + j && |rectList| == 9 * i + j
          invariant AllNum(toks, 9, 9 * i + j)
          invariant forall k :: 0 <= k < 9 * i + j ==> rectList[k] == Unshift(k, toks[9 + k].n)
        {
          if pos >= |toks| || !toks[pos].Num? {
            assert !AllNum(toks, 9, 9 * Rows(rectCount)) by {
              if pos < |toks| {
                assert !toks[pos].Num?;
              }
            }
            return false;
          }
          assert (9 * i + j) % 9 == j;
          if j < 2 {
            rectList := rectList + [toks[pos].n + CANVAS_SHIFT];
          } else {
            rectList := rectList + [toks[pos].n];
          }
          pos := pos + 1;
          j := j + 1;
        }
        i := i + 1;
      }
      ok := true;
    }

    /** The warp count at token `at`, then that many warps of three numbers. */
    method LoadWarps(toks: seq<Token>, at: nat) returns (ok: bool)
      requires warpList == []
      modifies this`warpList, this`warpCount
      ensures ok <==> AllNum(toks, at, 1) && AllNum(toks, at + 1, 3 * Rows(toks[at].n))
      ensures ok ==> warpCount == toks[at].n
                     && var m := 3 * Rows(warpCount);
                        warpList == seq(m, k requires 0 <= k < m => toks[at + 1 + k].n)
    {
      if at >= |toks| || !toks[at].Num? {
        return false;
      }
      var count := toks[at].n;
      warpCount := count;
      var pos := at + 1;
      var i := 0;
      while i < count
        invariant 0 <= i <= Rows(count) && pos == at + 1 + 3 * i && |warpList| == 3 * i
        invariant warpCount == count
        invariant AllNum(toks, at + 1, 3 * i)
        invariant forall k :: 0 <= k < 3 * i ==> warpList[k] == toks[at + 1 + k].n
      {
        var j := 0;
        while j < 3
          invariant 0 <= j <= 3 && pos == at + 1 + 3 * i + j && |warpList| == 3 * i + j
          invariant warpCount == count
          invariant AllNum(toks, at + 1, 3 * i + j)
          invariant forall k :: 0 <= k < 3 * i + j ==> warpList[k] == toks[at + 1 + k].n
        {
          if pos >= |toks| || !toks[pos].Num? {
            assert !AllNum(toks, at + 1, 3 * Rows(warpCount)) by {
              if pos < |toks| {
                assert !toks[pos].Num?;
              }
            }
            return false;
          }
          warpList := warpList + [toks[pos].n];
          pos := pos + 1;
          j := j + 1;
        }
        i := i + 1;
      }
      ok := true;
    }
  }
}
