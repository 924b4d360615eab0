/**
 * The map editor's shape list: a flat list of integers, nine per shape
 * (x, y, width, height, collision, climb, red, green, blue), and its warp
 * list, three integers per warp target. A warp shape has collision 5 and
 * climb 10 + k, where k is the number of its target in the warp list.
 * These functions are what the editor's list operations compute.
 */
module ShapeList {
  import opened Shapes

  /** Offsets of the collision and climb values inside a record. */
  const COLLISION_AT := 4
  const CLIMB_AT := 5

  /** The nine values of record i. */
  function Record(rects: seq<int>, i: int): (r: seq<int>)
    requires 0 <= i && 9 * i + 9 <= |rects|
    ensures |r| == 9
  {
    rects[9 * i .. 9 * i + 9]
  }

  /** The n records of a list of 9 * n values, in order. */
  function Records(rects: seq<int>, n: nat): (rs: seq<seq<int>>)
    requires |rects| == 9 * n
    ensures |rs| == n
  {
    seq(n, i requires 0 <= i < n => Record(rects, i))
  }

  /** Record i is a warp shape. */
  predicate IsWarpRecord(rects: seq<int>, i: int)
    requires 0 <= i && 9 * i + 9 <= |rects|
  {
    rects[9 * i + COLLISION_AT] == WARP_SHAPE
  }

  /** The point (mx, my) lies in the box of record i, borders included. */
  predicate InRecord(rects: seq<int>, i: int, mx: int, my: int)
    requires 0 <= i && 9 * i + 9 <= |rects|
  {
    rects[9 * i] <= mx <= rects[9 * i] + rects[9 * i + 2]
    && rects[9 * i + 1] <= my <= rects[9 * i + 1] + rects[9 * i + 3]
  }

  /**
   * The number (index + 1) of the first warp shape at index `from` or
   * later among the n shapes, or None when there is none.
   */
  function NextWarp(rects: seq<int>, n: nat, from: nat): (r: Option<nat>)
    requires |rects| == 9 * n
    ensures r.Some? ==> from < r.value <= n && IsWarpRecord(rects, r.value - 1)
                        && forall j :: from <= j < r.value - 1 ==> !IsWarpRecord(rects, j)
    ensures r.None? ==> forall j :: from <= j < n ==> !IsWarpRecord(rects, j)
    decreases n - from
  {
    if from >= n then None
    else if IsWarpRecord(rects, from) then Some(from + 1)
    else NextWarp(rects, n, from + 1)
  }

  /**
   * The number (index + 1) of the last warp shape below index `below`,
   * or None when there is none.
   */
  function PrevWarp(rects: seq<int>, n: nat, below: int): (r: Option<nat>)
    requires |rects| == 9 * n && below <= n
    ensures r.Some? ==> 0 < r.value <= below && IsWarpRecord(rects, r.value - 1)
                        && forall j :: r.value - 1 < j < below ==> !IsWarpRecord(rects, j)
    ensures r.None? ==> forall j :: 0 <= j < below ==> !IsWarpRecord(rects, j)
    decreases below
  {
    if below <= 0 then None
    else if IsWarpRecord(rects, below - 1) then Some(below)
    else PrevWarp(rects, n, below - 1)
  }

  /** The list without record i. */
  function RemoveRecord(rects: seq<int>, i: int): (r: seq<int>)
    requires 0 <= i && 9 * i + 9 <= |rects|
    ensures |r| == |rects| - 9
  {
    rects[..9 * i] + rects[9 * i + 9..]
  }

  /** The warp list without warp k. */
  function RemoveWarp(warps: seq<int>, k: int): (r: seq<int>)
    requires 0 <= k && 3 * k + 3 <= |warps|
    ensures |r| == |warps| - 3
  {
    warps[..3 * k] + warps[3 * k + 3..]
  }

  /** Record i moved to the front: drawn first, behind every other shape. */
  function ToBackList(rects: seq<int>, i: int): (r: seq<int>)
    requires 0 <= i && 9 * i + 9 <= |rects|
    ensures |r| == |rects|
  {
    Record(rects, i) + RemoveRecord(rects, i)
  }

  /** Record i moved to the end: drawn last, over every other shape. */
  function ToFrontList(rects: seq<int>, i: int): (r: seq<int>)
    requires 0 <= i && 9 * i + 9 <= |rects|
    ensures |r| == |rects|
  {
    RemoveRecord(rects, i) + Record(rects, i)
  }

  /** Value k of the list after the warp numbered `deleted` (10 + its index) is gone. */
  function RenumberAt(rects: seq<int>, k: int, deleted: int): int
    requires 0 <= k < |rects|
  {
    if k % 9 == CLIMB_AT && rects[k - 1] == WARP_SHAPE && rects[k] > deleted then rects[k] - 1 else rects[k]
  }

  /**
   * The list after the warp numbered `deleted` is gone: every warp shape
   * that refers to a later warp refers to the one before it.
   */
  function Renumbered(rects: seq<int>, deleted: int): (r: seq<int>)
    ensures |r| == |rects|
  {
    seq(|rects|, k requires 0 <= k < |rects| => RenumberAt(rects, k, deleted))
  }

  /** Renumbering changes only the climb value of warp shapes that refer to a later warp. */
  lemma RenumberedRecord(rects: seq<int>, deleted: int, j: int)
    requires 0 <= j && 9 * j + 9 <= |rects|
    ensures var r, s := Record(rects, j), Record(Renumbered(rects, deleted), j);
            && s[..CLIMB_AT] == r[..CLIMB_AT] && s[CLIMB_AT + 1..] == r[CLIMB_AT + 1..]
            && s[CLIMB_AT] == if r[COLLISION_AT] == WARP_SHAPE && r[CLIMB_AT] > deleted then r[CLIMB_AT] - 1 else r[CLIMB_AT]
  {
    var r, s := Record(rects, j), Record(Renumbered(rects, deleted), j);
    forall t | 0 <= t < 9
      ensures s[t] == if t == CLIMB_AT && r[COLLISION_AT] == WARP_SHAPE && r[CLIMB_AT] > deleted then r[t] - 1 else r[t]
    {
      assert (9 * j + t) % 9 == t;
    }
  }

  /** Joining two lists of whole records joins their records. */
  lemma RecordsAppend(a: seq<int>, na: nat, b: seq<int>, nb: nat)
    requires |a| == 9 * na && |b| == 9 * nb
    ensures Records(a + b, na + nb) == Records(a, na) + Records(b, nb)
  {
    forall i | 0 <= i < na + nb
      ensures Record(a + b, i) == (Records(a, na) + Records(b, nb))[i]
    {
      if i < na {
        assert Record(a + b, i) == Record(a, i);
      } else {
        assert Record(a + b, i) == Record(b, i - na);
      }
    }
  }

  /** Removing record i removes exactly that record and keeps the others in order. */
  lemma RemoveRecordRecords(rects: seq<int>, n: nat, i: int)
    requires |rects| == 9 * n && 0 <= i < n
    ensures Records(RemoveRecord(rects, i), n - 1) == Records(rects, n)[..i] + Records(rects, n)[i + 1..]
  {
    RecordsAppend(rects[..9 * i], i, rects[9 * i + 9..], n - i - 1);
    assert Records(rects[..9 * i], i) == Records(rects, n)[..i] by {
      forall j | 0 <= j < i
        ensures Record(rects[..9 * i], j) == Record(rects, j)
      {
      }
    }
    var tail, later := Records(rects[9 * i + 9..], n - i - 1), Records(rects, n)[i + 1..];
    forall j | 0 <= j < |later|
      ensures tail[j] == later[j]
    {
      assert later[j] == Record(rects, j + i + 1);
    }
    assert tail == later;
  }

  /** Send-to-back puts record i first and keeps the other records in their order. */
  lemma ToBackRecords(rects: seq<int>, n: nat, i: int)
    requires |rects| == 9 * n && 0 <= i < n
    ensures Records(ToBackList(rects, i), n) == [Records(rects, n)[i]] + Records(rects, n)[..i] + Records(rects, n)[i + 1..]
  {
    RecordsAppend(Record(rects, i), 1, RemoveRecord(rects, i), n - 1);
    RemoveRecordRecords(rects, n, i);
    assert Record(Record(rects, i), 0) == Record(rects, i);
    assert Records(Record(rects, i), 1) == [Record(rects, i)];
  }

  /** Bring-to-front puts record i last and keeps the other records in their order. */
  lemma ToFrontRecords(rects: seq<int>, n: nat, i: int)
    requires |rects| == 9 * n && 0 <= i < n
    ensures Records(ToFrontList(rects, i), n) == Records(rects, n)[..i] + Records(rects, n)[i + 1..] + [Records(rects, n)[i]]
  {
    RecordsAppend(RemoveRecord(rects, i), n - 1, Record(rects, i), 1);
    RemoveRecordRecords(rects, n, i);
    assert Record(Record(rects, i), 0) == Record(rects, i);
    assert Records(Record(rects, i), 1) == [Record(rects, i)];
  }

  /** Reordering keeps exactly the same records: the result is a permutation of them. */
  lemma ReorderKeepsRecords(rects: seq<int>, n: nat, i: int)
    requires |rects| == 9 * n && 0 <= i < n
    ensures multiset(Records(ToBackList(rects, i), n)) == multiset(Records(rects, n))
    ensures multiset(Records(ToFrontList(rects, i), n)) == multiset(Records(rects, n))
  {
    var rs := Records(rects, n);
    ToBackRecords(rects, n, i);
    ToFrontRecords(rects, n, i);
    assert rs == rs[..i] + [rs[i]] + rs[i + 1..];
  }

  /**
   * Deleting warp shape i (climb 10 + k) removes warp k; every other warp
   * shape that referred to a different warp still reaches the same target
   * through its renumbered climb value. Shapes that referred to warp k
   * too are not covered: they now reach the warp after it.
   */
  lemma DeleteKeepsWarpTargets(rects: seq<int>, n: nat, warps: seq<int>, i: int, j: int)
    requires |rects| == 9 * n && 0 <= i < n && 0 <= j < n && j != i
    requires IsWarpRecord(rects, i) && IsWarpRecord(rects, j)
    requires var k := rects[9 * i + CLIMB_AT] - WARP_BASE; 0 <= k && 3 * k + 3 <= |warps|
    requires var c := rects[9 * j + CLIMB_AT];
             c != rects[9 * i + CLIMB_AT] && WARP_BASE <= c && 3 * (c - WARP_BASE) + 3 <= |warps|
    ensures var deleted := rects[9 * i + CLIMB_AT];
            var after := RemoveRecord(Renumbered(rects, deleted), i);
            var j' := if j < i then j else j - 1;
            var c, c' := rects[9 * j + CLIMB_AT], after[9 * j' + CLIMB_AT];
            var w := RemoveWarp(warps, deleted - WARP_BASE);
            && IsWarpRecord(after, j')
            && WARP_BASE <= c' && 3 * (c' - WARP_BASE) + 3 <= |w|
            && w[3 * (c' - WARP_BASE) .. 3 * (c' - WARP_BASE) + 3] == warps[3 * (c - WARP_BASE) .. 3 * (c - WARP_BASE) + 3]
  {
    var deleted := rects[9 * i + CLIMB_AT];
    var renumbered := Renumbered(rects, deleted);
    var after := RemoveRecord(renumbered, i);
    var j' := if j < i then j else j - 1;
    assert after[9 * j' + COLLISION_AT] == renumbered[9 * j + COLLISION_AT];
    assert after[9 * j' + CLIMB_AT] == renumbered[9 * j + CLIMB_AT];
    assert (9 * j + COLLISION_AT) % 9 == COLLISION_AT;
    assert (9 * j + CLIMB_AT) % 9 == CLIMB_AT;
  }
}
