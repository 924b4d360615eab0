/**
 * Queries on the shapes of the current map: may the character stand at a
 * pixel (collision) and what climb kind does a pixel have (ladder, water,
 * jump-through or an in-map warp). `GameMap` holds the loaded map's data the
 * way the game stores it.
 */
module MapQuery {
  import opened Shapes

  /** The pixel (x, y) lies in the shape's box, borders included. */
  predicate Contains(s: Shape, x: int, y: int)
  {
    s.x <= x <= s.x + s.width && s.y <= y <= s.y + s.height
  }

  /** The shape stops the character at (x, y). */
  predicate Blocks(s: Shape, x: int, y: int)
  {
    s.collision == SOLID && Contains(s, x, y)
  }

  /**
   * Whether the character may occupy pixel (x, y): no solid shape covers it.
   * Shapes are scanned in order and the first solid one that covers the
   * pixel decides.
   */
  function Collision(shapes: seq<Shape>, x: int, y: int): (free: bool)
    ensures free <==> forall i :: 0 <= i < |shapes| ==> !Blocks(shapes[i], x, y)
  {
    if shapes == [] then true
    else if Blocks(shapes[0], x, y) then false
    else
      var rest := Collision(shapes[1..], x, y);
      assert forall i :: 1 <= i < |shapes| ==> shapes[i] == shapes[1..][i - 1];
      rest
  }

  /** The pixels from which a shape may be climbed: its box widened by three pixels on the left. */
  predicate InClimbZone(s: Shape, x: int, y: int)
  {
    (x == s.x || x == s.x + s.width || s.x - 3 <= x <= s.x + s.width)
    && s.y <= y <= s.y + s.height
  }

  /** The climb kinds a query reports: ladder, water, jump-through and in-map warps. */
  predicate ClimbCode(c: int)
  {
    c == LADDER || c == WATER || c == JUMP_THROUGH || c >= WARP_BASE
  }

  /** The shape decides the climb query at (x, y). */
  predicate Offers(s: Shape, x: int, y: int)
  {
    InClimbZone(s, x, y) && ClimbCode(s.climb)
  }

  /**
   * The climb kind at pixel (x, y): the climb value of the first shape, in
   * order, whose climb zone holds the pixel and whose climb value is a
   * climb kind; 0 when there is none. Shapes with climb 0, with 4..9 or
   * with a negative climb value are passed over.
   */
  function Climb(shapes: seq<Shape>, x: int, y: int): (c: int)
    ensures c == NO_CLIMB || ClimbCode(c)
    ensures c == NO_CLIMB <==> forall i :: 0 <= i < |shapes| ==> !Offers(shapes[i], x, y)
  {
    if shapes == [] then NO_CLIMB
    else if Offers(shapes[0], x, y) then shapes[0].climb
    else
      var rest := Climb(shapes[1..], x, y);
      assert forall i :: 1 <= i < |shapes| ==> shapes[i] == shapes[1..][i - 1];
      rest
  }

  /** The shapes that can stop the character, in order. */
  function SolidOnly(shapes: seq<Shape>): (solid: seq<Shape>)
    ensures forall i :: 0 <= i < |solid| ==> solid[i].collision == SOLID
  {
    if shapes == [] then []
    else if shapes[0].collision == SOLID then [shapes[0]] + SolidOnly(shapes[1..])
    else SolidOnly(shapes[1..])
  }

  /** Shapes of any collision kind other than solid never make a pixel blocked. */
  lemma {:induction false} CollisionSeesOnlySolid(shapes: seq<Shape>, x: int, y: int)
    ensures Collision(shapes, x, y) == Collision(SolidOnly(shapes), x, y)
  {
    if shapes != [] {
      CollisionSeesOnlySolid(shapes[1..], x, y);
      if shapes[0].collision == SOLID {
        assert SolidOnly(shapes) == [shapes[0]] + SolidOnly(shapes[1..]);
        assert Collision(SolidOnly(shapes), x, y)
            == (!Blocks(shapes[0], x, y) && Collision(SolidOnly(shapes[1..]), x, y));
      }
    }
  }

  /** A pixel blocked by some shape of `a` stays blocked when `b` holds all of `a`'s shapes. */
  lemma BlockedCarriesOver(a: seq<Shape>, b: seq<Shape>, x: int, y: int)
    requires multiset(a) <= multiset(b)
    ensures !Collision(a, x, y) ==> !Collision(b, x, y)
  {
    if !Collision(a, x, y) {
      var i :| 0 <= i < |a| && Blocks(a[i], x, y);
      assert a[i] in multiset(b);
      var j :| 0 <= j < |b| && b[j] == a[i];
    }
  }

  /** The order in which shapes are stored does not change any collision answer. */
  lemma CollisionOrderFree(a: seq<Shape>, b: seq<Shape>, x: int, y: int)
    requires multiset(a) == multiset(b)
    ensures Collision(a, x, y) == Collision(b, x, y)
  {
    BlockedCarriesOver(a, b, x, y);
    BlockedCarriesOver(b, a, x, y);
  }

  /** The climb answer at a pixel is the climb value of the first shape that offers one there. */
  lemma {:induction false} ClimbIsFirstOffer(shapes: seq<Shape>, x: int, y: int, i: int)
    requires 0 <= i < |shapes| && Offers(shapes[i], x, y)
    requires forall j :: 0 <= j < i ==> !Offers(shapes[j], x, y)
    ensures Climb(shapes, x, y) == shapes[i].climb
  {
    if i > 0 {
      ClimbIsFirstOffer(shapes[1..], x, y, i - 1);
    }
  }

  /** A non-zero climb answer is the climb value of some shape of the map. */
  lemma {:induction false} ClimbComesFromShape(shapes: seq<Shape>, x: int, y: int)
    ensures Climb(shapes, x, y) != NO_CLIMB ==>
              exists i :: 0 <= i < |shapes| && shapes[i].climb == Climb(shapes, x, y)
  {
    if shapes != [] && !Offers(shapes[0], x, y) {
      ClimbComesFromShape(shapes[1..], x, y);
      if Climb(shapes, x, y) != NO_CLIMB {
        var j :| 0 <= j < |shapes[1..]| && shapes[1..][j].climb == Climb(shapes, x, y);
        assert shapes[j + 1].climb == Climb(shapes, x, y);
      }
    }
  }

  /** Changing only the collision kinds of the shapes leaves every climb answer as it was. */
  lemma {:induction false} ClimbIgnoresCollision(a: seq<Shape>, b: seq<Shape>, x: int, y: int)
    requires |a| == |b|
    requires forall i :: 0 <= i < |a| ==> a[i].(collision := 0) == b[i].(collision := 0)
    ensures Climb(a, x, y) == Climb(b, x, y)
  {
    if a != [] {
      assert a[0].(collision := 0) == b[0].(collision := 0);
      ClimbIgnoresCollision(a[1..], b[1..], x, y);
    }
  }

  /** For a box of non-negative width the climb zone is the box widened by three pixels on the left. */
  lemma ClimbZoneOfBox(s: Shape, x: int, y: int)
    requires s.width >= 0
    ensures InClimbZone(s, x, y) <==> s.x - 3 <= x <= s.x + s.width && s.y <= y <= s.y + s.height
  {
  }

  /**
   * The data of the map the game is playing: its shapes, its in-map warp
   * table and its four edge warps.
   */
  class GameMap {
    var mapNumber: int
    var shapeData: seq<Shape>
    var shapeCount: int
    var warpCount: int
    var warpList: seq<Warp>
    var edgeWarpLeft: int
    var edgeWarpRight: int
    var edgeWarpUp: int
    var edgeWarpDown: int

    /** The shape count never exceeds the number of shape records stored. */
    predicate Valid()
      reads this
    {
      0 <= shapeCount <= |shapeData|
    }

    /** The shapes the queries scan. */
    function Shapes(): (shapes: seq<Shape>)
      reads this
      requires Valid()
      ensures |shapes| == shapeCount
      ensures shapeCount == |shapeData| ==> shapes == shapeData
    {
      shapeData[..shapeCount]
    }

    /** A new map holds only its number; everything else is set afterwards. */
    constructor (mapNumber: int)
      ensures this.mapNumber == mapNumber && Valid()
      ensures shapeData == [] && shapeCount == 0 && warpCount == 0 && warpList == []
      ensures edgeWarpLeft == 0 && edgeWarpRight == 0 && edgeWarpUp == 0 && edgeWarpDown == 0
    {
      this.mapNumber := mapNumber;
      shapeData := [];
      shapeCount := 0;
      warpCount := 0;
      warpList := [];
      edgeWarpLeft, edgeWarpRight, edgeWarpUp, edgeWarpDown := 0, 0, 0, 0;
    }

    method SetShapeData(data: seq<Shape>)
      modifies this`shapeData
      ensures shapeData == data
    {
      shapeData := data;
    }

    method SetShapeCount(val: int)
      modifies this`shapeCount
      ensures shapeCount == val
    {
      shapeCount := val;
    }

    method SetWarpCount(val: int)
      modifies this`warpCount
      ensures warpCount == val
    {
      warpCount := val;
    }

    method SetWarpList(list: seq<Warp>)
      modifies this`warpList
      ensures warpList == list
    {
      warpList := list;
    }

    method SetEdgeWarps(left: int, right: int, up: int, down: int)
      modifies this`edgeWarpLeft, this`edgeWarpRight, this`edgeWarpUp, this`edgeWarpDown
      ensures edgeWarpLeft == left && edgeWarpRight == right
      ensures edgeWarpUp == up && edgeWarpDown == down
    {
      edgeWarpLeft := left;
      edgeWarpRight := right;
      edgeWarpUp := up;
      edgeWarpDown := down;
    }

    /** Field `value` of shape record `rectangle`. */
    function ReadNum(rectangle: int, value: int): (n: int)
      reads this
      requires 0 <= rectangle < |shapeData| && 0 <= value < 9
      ensures n == Row(shapeData[rectangle])[value]
    {
      Field(shapeData[rectangle], value)
    }

    /** Value `value` (0 map, 1 x, 2 y) of in-map warp `warpNumber`. */
    function GetNormWarpValue(warpNumber: int, value: int): (n: int)
      reads this
      requires 0 <= warpNumber < |warpList| && 0 <= value < 3
      ensures n == WarpRow(warpList[warpNumber])[value]
    {
      WarpField(warpList[warpNumber], value)
    }

    /** Whether (x, y) is free: no solid shape among the first shapeCount covers it. */
    method GetCollision(x: int, y: int) returns (free: bool)
      requires Valid()
      ensures free <==> forall i :: 0 <= i < shapeCount ==> !Blocks(shapeData[i], x, y)
      ensures free == Collision(Shapes(), x, y)
    {
      var i := 0;
      while i < shapeCount
        invariant 0 <= i <= shapeCount
        invariant forall j :: 0 <= j < i ==> !Blocks(shapeData[j], x, y)
      {
        if ReadNum(i, 4) == SOLID {
          if shapeData[i].x <= x <= shapeData[i].x + shapeData[i].width
             && shapeData[i].y <= y <= shapeData[i].y + shapeData[i].height {
            return false;
          }
        }
        i := i + 1;
      }
      return true;
    }

    /** The climb kind at (x, y), scanning the first shapeCount shapes in order. */
    method GetClimb(x: int, y: int) returns (c: int)
      requires Valid()
      ensures c == NO_CLIMB || ClimbCode(c)
      ensures c == Climb(Shapes(), x, y)
    {
      var i := 0;
      while i < shapeCount
        invariant 0 <= i <= shapeCount
        invariant forall j :: 0 <= j < i ==> !Offers(shapeData[j], x, y)
      {
        var s := shapeData[i];
        if InClimbZone(s, x, y) {
          var canClimb := ReadNum(i, 5);
          if canClimb >= WARP_BASE {
            ClimbIsFirstOffer(Shapes(), x, y, i);
            return canClimb;
          } else if canClimb == WATER || canClimb == LADDER || canClimb == JUMP_THROUGH {
            ClimbIsFirstOffer(Shapes(), x, y, i);
            return canClimb;
          }
        }
        i := i + 1;
      }
      return NO_CLIMB;
    }
  }
}
