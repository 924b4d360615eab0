/**
 * Reading a level file. A level file is a sequence of lines of tokens:
 *
 *   line 1   width height
 *   line 2   spawnX spawnY
 *   line 3   four edge warps, left right up down (n: this map)
 *   line 4   shapeCount
 *   then     shapeCount shapes of nine numbers, the warp count, and
 *            warpCount warps of three values (n: this map)
 *
 * The reader scans the file once per item, each time skipping the lines
 * before the item and then reading tokens across line breaks.
 */
module LevelFile {
  import opened Shapes

  /** What a scanner has left after skipping k lines; None when the file has fewer than k lines. */
  function After(lines: seq<seq<Token>>, k: nat): Option<seq<Token>>
  {
    if k <= |lines| then Some(Flatten(lines[k..])) else None
  }

  /** Tokens from..from+count-1 exist and are all numbers. */
  predicate AllNum(toks: seq<Token>, from: int, count: int)
  {
    0 <= from && 0 <= count && from + count <= |toks|
    && forall k :: from <= k < from + count ==> toks[k].Num?
  }

  /** A token read as a string and resolved against the map's own number `id`. */
  predicate IsValue(t: Token)
  {
    t.Num? || t == NONE_WORD
  }

  /** Tokens from..from+count-1 exist and are all numbers or n. */
  predicate AllValues(toks: seq<Token>, from: int, count: int)
  {
    0 <= from && 0 <= count && from + count <= |toks|
    && forall k :: from <= k < from + count ==> IsValue(toks[k])
  }

  /** The number a value token stands for: n is the map's own number. */
  function Resolve(t: Token, id: int): int
    requires IsValue(t)
  {
    if t == NONE_WORD then id else t.n
  }

  /** The first two numbers of a line, as width and height or as the spawn point. */
  function PairAt(lines: seq<seq<Token>>, k: nat): Option<(int, int)>
  {
    match After(lines, k)
    case None => None
    case Some(toks) => if AllNum(toks, 0, 2) then Some((toks[0].n, toks[1].n)) else None
  }

  /** The frame size: the first two numbers of the file; zero when the file is missing. */
  function DimensionsOf(file: Option<seq<seq<Token>>>): Option<(int, int)>
  {
    if file.None? then Some((0, 0)) else PairAt(file.value, 0)
  }

  /** The spawn point: the first two numbers after line 1; zero when the file is missing. */
  function SpawnOf(file: Option<seq<seq<Token>>>): Option<(int, int)>
  {
    if file.None? then Some((0, 0)) else PairAt(file.value, 1)
  }

  /** The four edge warps after line 2; zero when the file is missing. */
  function EdgeWarpsOf(file: Option<seq<seq<Token>>>, id: int): Option<seq<int>>
  {
    if file.None? then Some([0, 0, 0, 0])
    else match After(file.value, 2)
      case None => None
      case Some(toks) =>
        if AllValues(toks, 0, 4) then Some(seq(4, k requires 0 <= k < 4 => Resolve(toks[k], id))) else None
  }

  /** The shape count: the first number after line 3; zero when the file is missing. */
  function ShapeCountOf(file: Option<seq<seq<Token>>>): Option<int>
  {
    if file.None? then Some(0)
    else match After(file.value, 3)
      case None => None
      case Some(toks) => if AllNum(toks, 0, 1) then Some(toks[0].n) else None
  }

  /** A shape with all nine values zero, as a fresh Java int array holds. */
  function ZeroShape(): Shape
  {
    Shape(0, 0, 0, 0, 0, 0, 0, 0, 0)
  }

  /** `count` shapes of nine numbers each from the start of `toks`. */
  function ShapesFrom(toks: seq<Token>, count: nat): (shapes: seq<Shape>)
    requires AllNum(toks, 0, 9 * count)
    ensures |shapes| == count
    ensures forall i, j :: 0 <= i < count && 0 <= j < 9 ==> Row(shapes[i])[j] == toks[9 * i + j].n
  {
    seq(count, i requires 0 <= i < count => ShapeOfRow(seq(9, j requires 0 <= j < 9 => toks[9 * i + j].n)))
  }

  /** `count` warps of three values each from position `from` of `toks`. */
  function WarpsFrom(toks: seq<Token>, from: nat, count: nat, id: int): (warps: seq<Warp>)
    requires AllValues(toks, from, 3 * count)
    ensures |warps| == count
    ensures forall i, j :: 0 <= i < count && 0 <= j < 3 ==>
              WarpRow(warps[i])[j] == Resolve(toks[from + 3 * i + j], id)
  {
    seq(count, i requires 0 <= i < count =>
          Warp(Resolve(toks[from + 3 * i], id), Resolve(toks[from + 3 * i + 1], id),
               Resolve(toks[from + 3 * i + 2], id)))
  }

  /**
   * The shape table and the warp table, read after line 4 for a shape
   * count of `count`. A missing file gives `count` zero shapes and no warp
   * table; a negative count or warp count fails, as does a missing or
   * non-numeric token.
   */
  function TablesOf(file: Option<seq<seq<Token>>>, id: int, count: int): Option<(seq<Shape>, seq<Warp>)>
  {
    if count < 0 then None
    else if file.None? then Some((seq(count, i => ZeroShape()), []))
    else match After(file.value, 4)
      case None => None
      case Some(toks) =>
        var at := 9 * count;
        if !AllNum(toks, 0, at) || !AllNum(toks, at, 1) then None
        else
          var warpCount := toks[at].n;
          if warpCount < 0 || !AllValues(toks, at + 1, 3 * warpCount) then None
          else Some((ShapesFrom(toks, count), WarpsFrom(toks, at + 1, warpCount, id)))
  }

  /** Everything read from the file of map `id`, or None when reading it fails. */
  function ParseLevel(id: int, file: Option<seq<seq<Token>>>): Option<Level>
  {
    var count := ShapeCountOf(file);
    if count.None? then None
    else
      var tables := TablesOf(file, id, count.value);
      var edges := EdgeWarpsOf(file, id);
      var spawn := SpawnOf(file);
      var size := DimensionsOf(file);
      if tables.None? || edges.None? || spawn.None? || size.None? then None
      else
        Some(Level(size.value.0, size.value.1, spawn.value.0, spawn.value.1,
                   edges.value[0], edges.value[1], edges.value[2], edges.value[3],
                   tables.value.0, tables.value.1))
  }

  /** A missing file reads as the empty level: no shapes, no warps, everything zero. */
  lemma MissingFileIsEmpty(id: int)
    ensures ParseLevel(id, None) == Some(MissingLevel())
  {
    assert seq(0, i => ZeroShape()) == [];
  }

  /** The shapes of a 9-column table, one per row. */
  function ShapesIn(a: array2<int>): (shapes: seq<Shape>)
    reads a
    requires a.Length1 == 9
    ensures |shapes| == a.Length0
  {
    seq(a.Length0, i requires 0 <= i < a.Length0 reads a =>
          ShapeOfRow(seq(9, j requires 0 <= j < 9 reads a => a[i, j])))
  }

  /** The warps of a 3-column table, one per row. */
  function WarpsIn(a: array2<int>): (warps: seq<Warp>)
    reads a
    requires a.Length1 == 3
    ensures |warps| == a.Length0
  {
    seq(a.Length0, i requires 0 <= i < a.Length0 reads a => Warp(a[i, 0], a[i, 1], a[i, 2]))
  }

  /** A table holding shapes row by row holds exactly those shapes. */
  lemma ShapesInRows(a: array2<int>, shapes: seq<Shape>)
    requires a.Length1 == 9 && a.Length0 == |shapes|
    requires forall i, j :: 0 <= i < a.Length0 && 0 <= j < 9 ==> a[i, j] == Row(shapes[i])[j]
    ensures ShapesIn(a) == shapes
  {
    forall i | 0 <= i < a.Length0
      ensures ShapesIn(a)[i] == shapes[i]
    {
      assert seq(9, j requires 0 <= j < 9 reads a => a[i, j]) == Row(shapes[i]);
    }
  }

  /** A table holding warps row by row holds exactly those warps. */
  lemma WarpsInRows(a: array2<int>, warps: seq<Warp>)
    requires a.Length1 == 3 && a.Length0 == |warps|
    requires forall i, j :: 0 <= i < a.Length0 && 0 <= j < 3 ==> a[i, j] == WarpRow(warps[i])[j]
    ensures WarpsIn(a) == warps
  {
    forall i | 0 <= i < a.Length0
      ensures WarpsIn(a)[i] == warps[i]
    {
      assert a[i, 0] == WarpRow(warps[i])[0] && a[i, 1] == WarpRow(warps[i])[1] && a[i, 2] == WarpRow(warps[i])[2];
    }
  }

  /** A file whose every item reads gives the level made of those items. */
  lemma ReadPartsMakeLevel(id: int, file: Option<seq<seq<Token>>>, count: int, tables: (seq<Shape>, seq<Warp>),
                           edges: seq<int>, spawnX: int, spawnY: int, width: int, height: int)
    requires ShapeCountOf(file) == Some(count) && TablesOf(file, id, count) == Some(tables)
    requires EdgeWarpsOf(file, id) == Some(edges)
    requires SpawnOf(file) == Some((spawnX, spawnY)) && DimensionsOf(file) == Some((width, height))
    ensures ParseLevel(id, file)
            == Some(Level(width, height, spawnX, spawnY, edges[0], edges[1], edges[2], edges[3], tables.0, tables.1))
  {
  }

  /** A file any item of which fails to read gives no level. */
  lemma FailedPartFailsLevel(id: int, file: Option<seq<seq<Token>>>)
    requires || ShapeCountOf(file).None?
             || TablesOf(file, id, ShapeCountOf(file).value).None?
             || EdgeWarpsOf(file, id).None? || SpawnOf(file).None? || DimensionsOf(file).None?
    ensures ParseLevel(id, file).None?
  {
  }

  /**
   * The reader of one map's level file. `failed` records that the scanner
   * threw (a missing line, a non-numeric token, a negative count), which
   * in the game aborts the reader's construction.
   */
  class LevelReader {
    const mapNumber: int
    const file: Option<seq<seq<Token>>>
    var spawnX: int
    var spawnY: int
    var fileShapeData: array2<int>
    var hasEdgeWarpLeft: bool
    var hasEdgeWarpRight: bool
    var hasEdgeWarpUp: bool
    var hasEdgeWarpDown: bool
    var edgeWarpLeft: int
    var edgeWarpRight: int
    var edgeWarpUp: int
    var edgeWarpDown: int
    var shapeCount: int
    var warpCount: int
    var warpList: array2?<int>
    var frameWidth: int
    var frameHeight: int
    var failed: bool

    /** The tables have the widths of a shape row and of a warp row. */
    predicate Shaped()
      reads this
    {
      fileShapeData.Length1 == 9 && (warpList != null ==> warpList.Length1 == 3)
    }

    /** The level this reader holds. */
    function Contents(): Level
      reads this, fileShapeData, warpList
      requires Shaped()
    {
      Level(frameWidth, frameHeight, spawnX, spawnY,
            edgeWarpLeft, edgeWarpRight, edgeWarpUp, edgeWarpDown,
            ShapesIn(fileShapeData), if warpList == null then [] else WarpsIn(warpList))
    }

    /** Reads every item of the file of map `mapNumber`, in the game's order. */
    constructor (mapNumber: int, file: Option<seq<seq<Token>>>)
      ensures this.mapNumber == mapNumber && this.file == file
      ensures failed <==> ParseLevel(mapNumber, file).None?
      ensures !failed ==> Shaped() && Contents() == ParseLevel(mapNumber, file).value
    {
      this.mapNumber := mapNumber;
      this.file := file;
      spawnX, spawnY := 0, 0;
      fileShapeData := new int[0, 9];
      hasEdgeWarpLeft, hasEdgeWarpRight, hasEdgeWarpUp, hasEdgeWarpDown := false, false, false, false;
      edgeWarpLeft, edgeWarpRight, edgeWarpUp, edgeWarpDown := 0, 0, 0, 0;
      shapeCount, warpCount := 0, 0;
      warpList := null;
      frameWidth, frameHeight := 0, 0;
      failed := false;
      new;
      var ok := ReadTables();
      if !ok {
        FailedPartFailsLevel(mapNumber, file);
        failed := true;
        return;
      }
      ghost var tables := TablesOf(file, mapNumber, ShapeCountOf(file).value).value;
      ok := ReadHeader();
      if !ok {
        FailedPartFailsLevel(mapNumber, file);
        failed := true;
        return;
      }
      ReadPartsMakeLevel(mapNumber, file, ShapeCountOf(file).value, tables,
                         [edgeWarpLeft, edgeWarpRight, edgeWarpUp, edgeWarpDown],
                         spawnX, spawnY, frameWidth, frameHeight);
    }

    /** The edge warps, the spawn point and the frame size, in that order. */
    method ReadHeader() returns (ok: bool)
      modifies this`hasEdgeWarpLeft, this`hasEdgeWarpRight, this`hasEdgeWarpUp, this`hasEdgeWarpDown
      modifies this`edgeWarpLeft, this`edgeWarpRight, this`edgeWarpUp, this`edgeWarpDown
      modifies this`spawnX, this`spawnY, this`frameWidth, this`frameHeight
      ensures ok <==> EdgeWarpsOf(file, mapNumber).Some? && SpawnOf(file).Some? && DimensionsOf(file).Some?
      ensures ok && file.Some? ==>
                && [edgeWarpLeft, edgeWarpRight, edgeWarpUp, edgeWarpDown] == EdgeWarpsOf(file, mapNumber).value
                && (spawnX, spawnY) == SpawnOf(file).value
                && (frameWidth, frameHeight) == DimensionsOf(file).value
      ensures file.None? ==> unchanged(this)
    {
      ok := GetEdgeWarps();
      if !ok {
        return;
      }
      ok := GetSpawn();
      if !ok {
        return;
      }
      ok := GameDimensions();
    }

    /** The shape count, then the shape table and the warp table. */
    method ReadTables() returns (ok: bool)
      modifies this`shapeCount, this`fileShapeData, this`warpCount, this`warpList
      ensures ok <==> ShapeCountOf(file).Some? && TablesOf(file, mapNumber, ShapeCountOf(file).value).Some?
      ensures ok ==> fileShapeData.Length1 == 9 && shapeCount == ShapeCountOf(file).value
                     && ShapesIn(fileShapeData) == TablesOf(file, mapNumber, shapeCount).value.0
      ensures ok && file.Some? ==>
                (warpList != null && warpList.Length1 == 3
                 && WarpsIn(warpList) == TablesOf(file, mapNumber, shapeCount).value.1)
      ensures file.None? ==> warpList == old(warpList) && warpCount == old(warpCount)
    {
      ok := SetShapeCount();
      if !ok {
        return;
      }
      ok := FillMapArray();
    }

    /** The shape count: the first number after line 3; zero when the file is missing. */
    method SetShapeCount() returns (ok: bool)
      modifies this`shapeCount
      ensures ok <==> ShapeCountOf(file).Some?
      ensures shapeCount == if ok then ShapeCountOf(file).value else 0
    {
      shapeCount := 0;
      if file.None? {
        return true;
      }
      var lines := file.value;
      if |lines| < 3 {
        return false;
      }
      var toks := Flatten(lines[3..]);
      if |toks| == 0 || !toks[0].Num? {
        return false;
      }
      shapeCount := toks[0].n;
      ok := true;
    }

    /**
     * Reads `shapeCount` rows of nine numbers after line 4 into a fresh
     * table, then the warp count and that many rows of three values into
     * a fresh warp table. With a missing file the table has `shapeCount`
     * zero rows and the warp table is not touched.
     */
    method FillMapArray() returns (ok: bool)
      modifies this`fileShapeData, this`warpCount, this`warpList
      ensures ok <==> TablesOf(file, mapNumber, shapeCount).Some?
      ensures ok ==> fileShapeData.Length1 == 9
                     && ShapesIn(fileShapeData) == TablesOf(file, mapNumber, shapeCount).value.0
      ensures ok && file.Some? ==>
                (warpList != null && warpList.Length1 == 3
                 && WarpsIn(warpList) == TablesOf(file, mapNumber, shapeCount).value.1
                 && warpCount == |TablesOf(file, mapNumber, shapeCount).value.1|)
      ensures file.None? ==> warpList == old(warpList) && warpCount == old(warpCount)
    {
      if shapeCount < 0 {
        return false;
      }
      var data := new int[shapeCount, 9]((i, j) => 0);
      fileShapeData := data;
      if file.None? {
        ShapesInRows(data, seq(shapeCount, i => ZeroShape()));
        return true;
      }
      var lines := file.value;
      if |lines| < 4 {
        return false;
      }
      var toks := Flatten(lines[4..]);
      ok := ReadShapes(data, toks);
      if !ok {
        return false;
      }
      ShapesInRows(data, ShapesFrom(toks, shapeCount));
      ok := ReadWarpTable(toks, 9 * shapeCount);
    }

    /**
     * Reads the warp count at token `at`, then that many rows of three
     * values into a fresh warp table; false when the count is missing or
     * negative or a value is not readable.
     */
    method ReadWarpTable(toks: seq<Token>, at: nat) returns (ok: bool)
      modifies this`warpCount, this`warpList
      ensures ok <==> AllNum(toks, at, 1) && toks[at].n >= 0 && AllValues(toks, at + 1, 3 * toks[at].n)
      ensures ok ==> warpList != null && warpList.Length1 == 3
                     && WarpsIn(warpList) == WarpsFrom(toks, at + 1, toks[at].n, mapNumber)
                     && warpCount == toks[at].n
    {
      if at >= |toks| || !toks[at].Num? {
        return false;
      }
      warpCount := toks[at].n;
      if warpCount < 0 {
        return false;
      }
      var warps := new int[warpCount, 3]((i, j) => 0);
      warpList := warps;
      ok := ReadWarps(warps, toks, at + 1);
      if ok {
        WarpsInRows(warps, WarpsFrom(toks, at + 1, warpCount, mapNumber));
      }
    }

    /** Fills `data` row by row from the first 9 * rows numbers of `toks`; false at the first token that is not a number. */
    method ReadShapes(data: array2<int>, toks: seq<Token>) returns (ok: bool)
      requires data.Length1 == 9
      modifies data
      ensures ok <==> AllNum(toks, 0, 9 * data.Length0)
      ensures ok ==> forall i, j :: 0 <= i < data.Length0 && 0 <= j < 9 ==>
                       data[i, j] == Row(ShapesFrom(toks, data.Length0)[i])[j]
    {
      var i := 0;
      while i < data.Length0
        invariant 0 <= i <= data.Length0
        invariant AllNum(toks, 0, 9 * i)
        invariant forall i', j' :: 0 <= i' < i && 0 <= j' < 9 ==> data[i', j'] == toks[9 * i' + j'].n
      {
        var j := 0;
        while j < 9
          invariant 0 <= j <= 9
          invariant AllNum(toks, 0, 9 * i + j)
          invariant forall i', j' :: 0 <= i' < i && 0 <= j' < 9 ==> data[i', j'] == toks[9 * i' + j'].n
          invariant forall j' :: 0 <= j' < j ==> data[i, j'] == toks[9 * i + j'].n
        {
          var pos := 9 * i + j;
          if pos >= |toks| || !toks[pos].Num? {
            assert !AllNum(toks, 0, 9 * data.Length0) by {
              if pos < |toks| {
                assert !toks[pos].Num?;
              }
            }
            return false;
          }
          data[i, j] := toks[pos].n;
          j := j + 1;
        }
        i := i + 1;
      }
      ok := true;
    }

    /** Fills `warps` row by row from the values of `toks` at `from` on; false at the first token that is neither a number nor n. */
    method ReadWarps(warps: array2<int>, toks: seq<Token>, from: nat) returns (ok: bool)
      requires warps.Length1 == 3 && from <= |toks|
      modifies warps
      ensures ok <==> AllValues(toks, from, 3 * warps.Length0)
      ensures ok ==> forall i, j :: 0 <= i < warps.Length0 && 0 <= j < 3 ==>
                       warps[i, j] == WarpRow(WarpsFrom(toks, from, warps.Length0, mapNumber)[i])[j]
    {
      var i := 0;
      while i < warps.Length0
        invariant 0 <= i <= warps.Length0
        invariant AllValues(toks, from, 3 * i)
        invariant forall i', j' :: 0 <= i' < i && 0 <= j' < 3 ==>
                    warps[i', j'] == Resolve(toks[from + 3 * i' + j'], mapNumber)
      {
        var j := 0;
        while j < 3
          invariant 0 <= j <= 3
          invariant AllValues(toks, from, 3 * i + j)
          invariant forall i', j' :: 0 <= i' < i && 0 <= j' < 3 ==>
                      warps[i', j'] == Resolve(toks[from + 3 * i' + j'], mapNumber)
          invariant forall j' :: 0 <= j' < j ==> warps[i, j'] == Resolve(toks[from + 3 * i + j'], mapNumber)
        {
          var pos := from + 3 * i + j;
          if pos >= |toks| || !IsValue(toks[pos]) {
            assert !AllValues(toks, from, 3 * warps.Length0) by {
              if pos < |toks| {
                assert !IsValue(toks[pos]);
              }
            }
            return false;
          }
          var value := toks[pos];
          if value == NONE_WORD {
            warps[i, j] := mapNumber;
          } else {
            warps[i, j] := value.n;
          }
          j := j + 1;
        }
        i := i + 1;
      }
      ok := true;
    }

    /** The four edge warps after line 2, left, right, up, down; n means this map and no edge warp. */
    method GetEdgeWarps() returns (ok: bool)
      modifies this`hasEdgeWarpLeft, this`hasEdgeWarpRight, this`hasEdgeWarpUp, this`hasEdgeWarpDown
      modifies this`edgeWarpLeft, this`edgeWarpRight, this`edgeWarpUp, this`edgeWarpDown
      ensures ok <==> EdgeWarpsOf(file, mapNumber).Some?
      ensures ok && file.Some? ==> [edgeWarpLeft, edgeWarpRight, edgeWarpUp, edgeWarpDown] == EdgeWarpsOf(file, mapNumber).value
      ensures ok && file.Some? ==>
                var toks := Flatten(file.value[2..]);
                && (hasEdgeWarpLeft <==> toks[0] != NONE_WORD) && (hasEdgeWarpRight <==> toks[1] != NONE_WORD)
                && (hasEdgeWarpUp <==> toks[2] != NONE_WORD) && (hasEdgeWarpDown <==> toks[3] != NONE_WORD)
      ensures file.None? ==> unchanged(this)
    {
      if file.None? {
        return true;
      }
      var lines := file.value;
      if |lines| < 2 {
        return false;
      }
      var toks := Flatten(lines[2..]);
      if |toks| < 4 || !IsValue(toks[0]) || !IsValue(toks[1]) || !IsValue(toks[2]) || !IsValue(toks[3]) {
        return false;
      }
      hasEdgeWarpLeft := toks[0] != NONE_WORD;
      edgeWarpLeft := Resolve(toks[0], mapNumber);
      hasEdgeWarpRight := toks[1] != NONE_WORD;
      edgeWarpRight := Resolve(toks[1], mapNumber);
      hasEdgeWarpUp := toks[2] != NONE_WORD;
      edgeWarpUp := Resolve(toks[2], mapNumber);
      hasEdgeWarpDown := toks[3] != NONE_WORD;
      edgeWarpDown := Resolve(toks[3], mapNumber);
      ok := true;
    }

    /** The spawn point: the first two numbers after line 1. */
    method GetSpawn() returns (ok: bool)
      modifies this`spawnX, this`spawnY
      ensures ok <==> SpawnOf(file).Some?
      ensures ok && file.Some? ==> (spawnX, spawnY) == SpawnOf(file).value
      ensures file.None? ==> spawnX == old(spawnX) && spawnY == old(spawnY)
    {
      if file.None? {
        return true;
      }
      var lines := file.value;
      if |lines| < 1 {
        return false;
      }
      var toks := Flatten(lines[1..]);
      if |toks| < 2 || !toks[0].Num? || !toks[1].Num? {
        return false;
      }
      spawnX := toks[0].n;
      spawnY := toks[1].n;
      ok := true;
    }

    /** The frame size: the first two numbers of the file. */
    method GameDimensions() returns (ok: bool)
      modifies this`frameWidth, this`frameHeight
      ensures ok <==> DimensionsOf(file).Some?
      ensures ok && file.Some? ==> (frameWidth, frameHeight) == DimensionsOf(file).value
      ensures file.None? ==> frameWidth == old(frameWidth) && frameHeight == old(frameHeight)
    {
      if file.None? {
        return true;
      }
      var toks := Flatten(file.value);
      assert file.value[0..] == file.value;
      if |toks| < 2 || !toks[0].Num? || !toks[1].Num? {
        return false;
      }
      frameHeight := toks[1].n;
      frameWidth := toks[0].n;
      ok := true;
    }
  }
}
