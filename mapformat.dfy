/**
 * The level-file layout as the map editor writes and reads it. The editor
 * keeps shapes as a flat list of integers, nine per shape, with x and y in
 * canvas coordinates (15 pixels right of and below the game's), and warp
 * targets as a flat list of integers, three per warp. Saving shifts the
 * shapes and the spawn point into game coordinates; loading shifts them
 * back.
 */
module MapFormat {
  import opened Shapes
  import opened LevelFile

  /** The canvas is drawn 15 pixels right of and below the game's origin. */
  const CANVAS_SHIFT := 15
  /** The spawn point is saved 5 pixels left of the editor's marker ... */
  const SPAWN_SHIFT_X := 5
  /** ... and 11 pixels below it. */
  const SPAWN_SHIFT_Y := 11

  /** The parts of the editor's state that a save writes. */
  datatype MapData = MapData(width: int, height: int, spawnX: int, spawnY: int,
                             edges: seq<Token>,
                             rectList: seq<int>, rectCount: int,
                             warpList: seq<int>, warpCount: int)

  /** The counts are the lengths of the lists: nine integers per shape, three per warp. */
  predicate Consistent(d: MapData)
  {
    |d.edges| == 4 && d.rectCount >= 0 && d.warpCount >= 0
    && |d.rectList| == 9 * d.rectCount && |d.warpList| == 3 * d.warpCount
  }

  /** How many rows a loop `for (i = 0; count > 0 && i < count; i++)` visits. */
  function Rows(count: int): nat
  {
    if count > 0 then count else 0
  }

  /** What a save needs: four edge tokens and a row for every shape and warp counted. */
  predicate Savable(d: MapData)
  {
    |d.edges| == 4 && 9 * Rows(d.rectCount) <= |d.rectList| && 3 * Rows(d.warpCount) <= |d.warpList|
  }

  /** The line a save writes for shape i: x and y in game coordinates, then the other seven values. */
  function ShapeLine(rects: seq<int>, i: nat): (line: seq<Token>)
    requires 9 * i + 9 <= |rects|
    ensures |line| == 9
  {
    [Num(rects[9 * i] - CANVAS_SHIFT), Num(rects[9 * i + 1] - CANVAS_SHIFT),
     Num(rects[9 * i + 2]), Num(rects[9 * i + 3]), Num(rects[9 * i + 4]), Num(rects[9 * i + 5]),
     Num(rects[9 * i + 6]), Num(rects[9 * i + 7]), Num(rects[9 * i + 8])]
  }

  /** The line a save writes for warp i. */
  function WarpLine(warps: seq<int>, i: nat): (line: seq<Token>)
    requires 3 * i + 3 <= |warps|
    ensures |line| == 3
  {
    [Num(warps[3 * i]), Num(warps[3 * i + 1]), Num(warps[3 * i + 2])]
  }

  function ShapeLines(rects: seq<int>, n: nat): seq<seq<Token>>
    requires 9 * n <= |rects|
  {
    seq(n, i requires 0 <= i < n => ShapeLine(rects, i))
  }

  function WarpLines(warps: seq<int>, n: nat): seq<seq<Token>>
    requires 3 * n <= |warps|
  {
    seq(n, i requires 0 <= i < n => WarpLine(warps, i))
  }

  /** The first four lines of a save: size, spawn point, edge warps, shape count. */
  function HeadLines(d: MapData): seq<seq<Token>>
  {
    [[Num(d.width), Num(d.height)],
     [Num(d.spawnX - SPAWN_SHIFT_X), Num(d.spawnY + SPAWN_SHIFT_Y)],
     d.edges,
     [Num(d.rectCount)]]
  }

  /** The lines after the fourth: the shapes, the warp count, the warps. */
  function TableLines(d: MapData): seq<seq<Token>>
    requires Savable(d)
  {
    ShapeLines(d.rectList, Rows(d.rectCount)) + [[Num(d.warpCount)]] + WarpLines(d.warpList, Rows(d.warpCount))
  }

  /** Every line a save writes, in order (the comment trailer after them is not modelled). */
  function SaveLines(d: MapData): seq<seq<Token>>
    requires Savable(d)
  {
    HeadLines(d) + TableLines(d)
  }

  /** Undo the canvas shift on the first two values of every nine. */
  function Unshift(k: int, v: int): int
  {
    if k % 9 < 2 then v + CANVAS_SHIFT else v
  }

  /**
   * What the editor's load takes from a file's tokens: two numbers for
   * the size, two for the spawn point (shifted back), four tokens of any
   * kind for the edge warps, the shape count, nine numbers per shape (x
   * and y shifted back), the warp count and three numbers per warp. A
   * missing or non-numeric token where a number is read gives None.
   */
  function Decode(toks: seq<Token>): (d: Option<MapData>)
    ensures d.Some? ==> |d.value.edges| == 4
    ensures d.Some? ==> |d.value.rectList| == 9 * Rows(d.value.rectCount)
    ensures d.Some? ==> |d.value.warpList| == 3 * Rows(d.value.warpCount)
  {
    if !AllNum(toks, 0, 4) || |toks| < 9 || !AllNum(toks, 8, 1) then None
    else
      var rectCount := toks[8].n;
      var n := Rows(rectCount);
      if !AllNum(toks, 9, 9 * n) || !AllNum(toks, 9 + 9 * n, 1) then None
      else
        var at := 9 + 9 * n;
        var warpCount := toks[at].n;
        var m := Rows(warpCount);
        if !AllNum(toks, at + 1, 3 * m) then None
        else
          Some(MapData(toks[0].n, toks[1].n, toks[2].n + SPAWN_SHIFT_X, toks[3].n - SPAWN_SHIFT_Y,
                       toks[4..8],
                       seq(9 * n, k requires 0 <= k < 9 * n => Unshift(k, toks[9 + k].n)), rectCount,
                       seq(3 * m, k requires 0 <= k < 3 * m => toks[at + 1 + k].n), warpCount))
  }

  /** The shapes the game reads from a save: x and y moved into game coordinates. */
  function GameShapes(rects: seq<int>, n: nat): (shapes: seq<Shape>)
    requires 9 * n <= |rects|
    ensures |shapes| == n
  {
    seq(n, i requires 0 <= i < n =>
          Shape(rects[9 * i] - CANVAS_SHIFT, rects[9 * i + 1] - CANVAS_SHIFT, rects[9 * i + 2],
                rects[9 * i + 3], rects[9 * i + 4], rects[9 * i + 5],
                rects[9 * i + 6], rects[9 * i + 7], rects[9 * i + 8]))
  }

  /** The warps the game reads from a save. */
  function GameWarps(warps: seq<int>, n: nat): (targets: seq<Warp>)
    requires 3 * n <= |warps|
    ensures |targets| == n
  {
    seq(n, i requires 0 <= i < n => Warp(warps[3 * i], warps[3 * i + 1], warps[3 * i + 2]))
  }

  /** Shift the first two values of every nine into game coordinates. */
  function Shift(k: int, v: int): int
  {
    if k % 9 < 2 then v - CANVAS_SHIFT else v
  }

  /** The shape tokens of a save as one run: value k of the list, shifted when it is an x or a y. */
  function ShapeRun(rects: seq<int>, n: nat): (run: seq<Token>)
    requires 9 * n <= |rects|
    ensures |run| == 9 * n
  {
    seq(9 * n, k requires 0 <= k < 9 * n => Num(Shift(k, rects[k])))
  }

  /** The warp tokens of a save as one run. */
  function WarpRun(warps: seq<int>, m: nat): (run: seq<Token>)
    requires 3 * m <= |warps|
    ensures |run| == 3 * m
  {
    seq(3 * m, k requires 0 <= k < 3 * m => Num(warps[k]))
  }

  /** The tokens after the fourth line of a save, as one run. */
  function TableRun(d: MapData): seq<Token>
    requires Savable(d)
  {
    ShapeRun(d.rectList, Rows(d.rectCount)) + [Num(d.warpCount)] + WarpRun(d.warpList, Rows(d.warpCount))
  }

  /** Reading the lines of `a` and then those of `b` reads the tokens of both in turn. */
  lemma {:induction false} FlattenAppend(a: seq<seq<Token>>, b: seq<seq<Token>>)
    ensures Flatten(a + b) == Flatten(a) + Flatten(b)
  {
    if a == [] {
      assert a + b == b;
    } else {
      assert a + b != [] && (a + b)[0] == a[0];
      assert (a + b)[1..] == a[1..] + b;
      FlattenAppend(a[1..], b);
    }
  }

  /** A single line reads as its own tokens. */
  lemma FlattenOne(line: seq<Token>)
    ensures Flatten([line]) == line
  {
    assert [line][1..] == [];
  }

  /** The shape lines of a save read as the shape run. */
  lemma {:induction false} ShapeLinesRead(rects: seq<int>, n: nat)
    requires 9 * n <= |rects|
    ensures Flatten(ShapeLines(rects, n)) == ShapeRun(rects, n)
  {
    if n > 0 {
      var last := ShapeLine(rects, n - 1);
      assert ShapeLines(rects, n) == ShapeLines(rects, n - 1) + [last];
      FlattenAppend(ShapeLines(rects, n - 1), [last]);
      FlattenOne(last);
      ShapeLinesRead(rects, n - 1);
      forall k | 9 * (n - 1) <= k < 9 * n
        ensures last[k - 9 * (n - 1)] == Num(Shift(k, rects[k]))
      {
        assert k % 9 == k - 9 * (n - 1);
      }
      assert ShapeRun(rects, n) == ShapeRun(rects, n - 1) + last;
    }
  }

  /** The warp lines of a save read as the warp run. */
  lemma {:induction false} WarpLinesRead(warps: seq<int>, m: nat)
    requires 3 * m <= |warps|
    ensures Flatten(WarpLines(warps, m)) == WarpRun(warps, m)
  {
    if m > 0 {
      var last := WarpLine(warps, m - 1);
      assert WarpLines(warps, m) == WarpLines(warps, m - 1) + [last];
      FlattenAppend(WarpLines(warps, m - 1), [last]);
      FlattenOne(last);
      WarpLinesRead(warps, m - 1);
      assert WarpRun(warps, m) == WarpRun(warps, m - 1) + last;
    }
  }

  /** The lines after the fourth read as the table run. */
  lemma TableLinesRead(d: MapData)
    requires Savable(d)
    ensures Flatten(TableLines(d)) == TableRun(d)
  {
    var shapes, warps := ShapeLines(d.rectList, Rows(d.rectCount)), WarpLines(d.warpList, Rows(d.warpCount));
    FlattenAppend(shapes + [[Num(d.warpCount)]], warps);
    FlattenAppend(shapes, [[Num(d.warpCount)]]);
    FlattenOne([Num(d.warpCount)]);
    ShapeLinesRead(d.rectList, Rows(d.rectCount));
    WarpLinesRead(d.warpList, Rows(d.warpCount));
  }

  /** What the game's reader finds after skipping k lines of a save, for k = 1 .. 4. */
  lemma SaveSuffixes(d: MapData)
    requires Savable(d)
    ensures var lines := SaveLines(d);
            && Flatten(lines[4..]) == TableRun(d)
            && Flatten(lines[3..]) == [Num(d.rectCount)] + TableRun(d)
            && Flatten(lines[2..]) == d.edges + [Num(d.rectCount)] + TableRun(d)
            && Flatten(lines[1..]) == [Num(d.spawnX - SPAWN_SHIFT_X), Num(d.spawnY + SPAWN_SHIFT_Y)]
                                      + d.edges + [Num(d.rectCount)] + TableRun(d)
  {
    var lines := SaveLines(d);
    TableLinesRead(d);
    assert lines[4..] == TableLines(d);
    assert lines[3..][1..] == lines[4..];
    assert lines[2..][1..] == lines[3..];
    assert lines[1..][1..] == lines[2..];
  }

  /** A save reads as one run of tokens. */
  lemma SaveRead(d: MapData)
    requires Savable(d)
    ensures Flatten(SaveLines(d))
            == [Num(d.width), Num(d.height), Num(d.spawnX - SPAWN_SHIFT_X), Num(d.spawnY + SPAWN_SHIFT_Y)]
               + d.edges + [Num(d.rectCount)] + TableRun(d)
  {
    SaveSuffixes(d);
    assert SaveLines(d)[1..] == SaveLines(d)[1..];
  }

  /** The editor's load reads back exactly what the editor's save wrote. */
  lemma LoadReadsSave(d: MapData)
    requires Consistent(d)
    ensures Decode(Flatten(SaveLines(d))) == Some(d)
  {
    var toks := Flatten(SaveLines(d));
    var n, m := d.rectCount, d.warpCount;
    SaveRead(d);
    var shapes, warps := ShapeRun(d.rectList, n), WarpRun(d.warpList, m);
    assert toks[9..9 + 9 * n] == shapes;
    assert toks[9 + 9 * n] == Num(m);
    assert toks[10 + 9 * n..] == warps;
    var r := Decode(toks).value;
    assert r.rectList == d.rectList by {
      forall k | 0 <= k < 9 * n
        ensures r.rectList[k] == d.rectList[k]
      {
        assert toks[9 + k] == shapes[k];
      }
    }
    assert r.warpList == d.warpList by {
      forall k | 0 <= k < 3 * m
        ensures r.warpList[k] == d.warpList[k]
      {
        assert toks[10 + 9 * n + k] == warps[k];
      }
    }
    assert r.edges == toks[4..8] == d.edges;
  }

  /** The game's reader takes the shape run as the shapes in game coordinates. */
  lemma GameReadsShapeRun(rects: seq<int>, n: nat, table: seq<Token>)
    requires 9 * n <= |rects| && 9 * n <= |table| && table[..9 * n] == ShapeRun(rects, n)
    ensures AllNum(table, 0, 9 * n)
    ensures ShapesFrom(table, n) == GameShapes(rects, n)
  {
    var shapes := ShapeRun(rects, n);
    assert AllNum(table, 0, 9 * n) by {
      forall k | 0 <= k < 9 * n
        ensures table[k].Num?
      {
        assert table[k] == shapes[k];
      }
    }
    forall i | 0 <= i < n
      ensures ShapesFrom(table, n)[i] == GameShapes(rects, n)[i]
    {
      forall j | 0 <= j < 9
        ensures table[9 * i + j].n == Row(GameShapes(rects, n)[i])[j]
      {
        assert table[9 * i + j] == shapes[9 * i + j];
        assert (9 * i + j) % 9 == j;
      }
      assert Row(ShapesFrom(table, n)[i]) == Row(GameShapes(rects, n)[i]);
    }
  }

  /** The game's reader takes the warp run as the warps. */
  lemma GameReadsWarpRun(warps: seq<int>, m: nat, table: seq<Token>, from: nat, id: int)
    requires 3 * m <= |warps| && from + 3 * m <= |table| && table[from..from + 3 * m] == WarpRun(warps, m)
    ensures AllValues(table, from, 3 * m)
    ensures WarpsFrom(table, from, m, id) == GameWarps(warps, m)
  {
    var run := WarpRun(warps, m);
    assert AllValues(table, from, 3 * m) by {
      forall k | from <= k < from + 3 * m
        ensures IsValue(table[k])
      {
        assert table[k] == run[k - from];
      }
    }
    forall i | 0 <= i < m
      ensures WarpsFrom(table, from, m, id)[i] == GameWarps(warps, m)[i]
    {
      forall j | 0 <= j < 3
        ensures Resolve(table[from + 3 * i + j], id) == WarpRow(GameWarps(warps, m)[i])[j]
      {
        assert table[from + 3 * i + j] == run[3 * i + j];
      }
      assert WarpRow(WarpsFrom(table, from, m, id)[i]) == WarpRow(GameWarps(warps, m)[i]);
    }
  }

  /** The shape and warp tables the game's reader takes from a save. */
  lemma GameReadsTables(id: int, d: MapData)
    requires Consistent(d)
    ensures TablesOf(Some(SaveLines(d)), id, d.rectCount)
            == Some((GameShapes(d.rectList, d.rectCount), GameWarps(d.warpList, d.warpCount)))
  {
    var n, m := d.rectCount, d.warpCount;
    SaveSuffixes(d);
    var table := TableRun(d);
    assert table[..9 * n] == ShapeRun(d.rectList, n);
    assert table[9 * n] == Num(m);
    assert table[9 * n + 1..9 * n + 1 + 3 * m] == WarpRun(d.warpList, m);
    GameReadsShapeRun(d.rectList, n, table);
    GameReadsWarpRun(d.warpList, m, table, 9 * n + 1, id);
  }

  /**
   * The game's reader accepts a save exactly when each edge-warp token is
   * a number or n, and then reads the size, the spawn point in game
   * coordinates, the edge warps (n as the map's own number), the shapes
   * in game coordinates and the warps.
   */
  lemma GameReadsSave(id: int, d: MapData)
    requires Consistent(d)
    ensures ParseLevel(id, Some(SaveLines(d))).Some? <==> forall k :: 0 <= k < 4 ==> IsValue(d.edges[k])
    ensures ParseLevel(id, Some(SaveLines(d))).Some? ==>
              ParseLevel(id, Some(SaveLines(d))).value
              == Level(d.width, d.height, d.spawnX - SPAWN_SHIFT_X, d.spawnY + SPAWN_SHIFT_Y,
                       Resolve(d.edges[0], id), Resolve(d.edges[1], id),
                       Resolve(d.edges[2], id), Resolve(d.edges[3], id),
                       GameShapes(d.rectList, d.rectCount), GameWarps(d.warpList, d.warpCount))
  {
    var lines := SaveLines(d);
    SaveSuffixes(d);
    SaveRead(d);
    GameReadsTables(id, d);
    assert lines[0..] == lines;
    assert ShapeCountOf(Some(lines)) == Some(d.rectCount);
    assert SpawnOf(Some(lines)) == Some((d.spawnX - SPAWN_SHIFT_X, d.spawnY + SPAWN_SHIFT_Y));
    assert DimensionsOf(Some(lines)) == Some((d.width, d.height));
    var toks := Flatten(lines[2..]);
    assert toks[..4] == d.edges;
    if forall k :: 0 <= k < 4 ==> IsValue(d.edges[k]) {
      assert AllValues(toks, 0, 4);
      assert EdgeWarpsOf(Some(lines), id).value
             == [Resolve(d.edges[0], id), Resolve(d.edges[1], id), Resolve(d.edges[2], id), Resolve(d.edges[3], id)];
    } else {
      var k :| 0 <= k < 4 && !IsValue(d.edges[k]);
      assert toks[k] == d.edges[k];
    }
  }
}
