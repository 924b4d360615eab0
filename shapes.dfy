/**
 * The values shared by the game and the map editor: a shape record (one
 * line of nine integers in a level file), an in-map warp target (one line
 * of three integers) and a whole loaded level.
 */
module Shapes {

  datatype Option<T> = None | Some(value: T)

  /** One shape: its box, its collision kind, its climb kind and its colour. */
  datatype Shape = Shape(x: int, y: int, width: int, height: int,
                         collision: int, climb: int,
                         red: int, green: int, blue: int)

  /** Where in-map warp number k sends the character: a map and a position. */
  datatype Warp = Warp(targetMap: int, targetX: int, targetY: int)

  /** Everything the game takes from one level file. */
  datatype Level = Level(width: int, height: int, spawnX: int, spawnY: int,
                         edgeLeft: int, edgeRight: int, edgeUp: int, edgeDown: int,
                         shapes: seq<Shape>, warps: seq<Warp>)

  /** Collision kinds. Only SOLID stops the character. */
  const SOLID := 1
  const BACK_OVAL := 3
  const FRONT_OVAL := 4
  const WARP_SHAPE := 5

  /** Climb kinds; a value of WARP_BASE + k means "in-map warp number k". */
  const NO_CLIMB := 0
  const LADDER := 1
  const WATER := 2
  const JUMP_THROUGH := 3
  const WARP_BASE := 10

  /**
   * One whitespace-separated token of a level file: a number the Java
   * scanner reads as an int, or any other word (the letter n marks a
   * missing edge warp or the map's own number).
   */
  datatype Token = Num(n: int) | Word(w: string)

  /** The word that stands for "none" or "this map". */
  const NONE_WORD: Token := Word("n")

  /** The tokens of a file, line after line. */
  function Flatten(lines: seq<seq<Token>>): seq<Token>
  {
    if lines == [] then [] else lines[0] + Flatten(lines[1..])
  }

  /** The values a level reader holds when its file does not exist. */
  function MissingLevel(): Level
  {
    Level(0, 0, 0, 0, 0, 0, 0, 0, [], [])
  }

  /** Field number v (0..8) of a shape record, in file order. */
  function Field(s: Shape, v: int): int
    requires 0 <= v < 9
  {
    match v
    case 0 => s.x
    case 1 => s.y
    case 2 => s.width
    case 3 => s.height
    case 4 => s.collision
    case 5 => s.climb
    case 6 => s.red
    case 7 => s.green
    case _ => s.blue
  }

  /** Field number v (0..2) of a warp record, in file order. */
  function WarpField(w: Warp, v: int): int
    requires 0 <= v < 3
  {
    if v == 0 then w.targetMap else if v == 1 then w.targetX else w.targetY
  }

  /** A shape as its nine integers, in file order. */
  function Row(s: Shape): (r: seq<int>)
    ensures |r| == 9
    ensures forall v :: 0 <= v < 9 ==> r[v] == Field(s, v)
  {
    [s.x, s.y, s.width, s.height, s.collision, s.climb, s.red, s.green, s.blue]
  }

  /** The shape whose nine integers are `row`. */
  function ShapeOfRow(row: seq<int>): (s: Shape)
    requires |row| == 9
    ensures Row(s) == row
  {
    Shape(row[0], row[1], row[2], row[3], row[4], row[5], row[6], row[7], row[8])
  }

  /** A warp as its three integers, in file order. */
  function WarpRow(w: Warp): (r: seq<int>)
    ensures |r| == 3
    ensures forall v :: 0 <= v < 3 ==> r[v] == WarpField(w, v)
  {
    [w.targetMap, w.targetX, w.targetY]
  }
}
