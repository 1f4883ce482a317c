/**
 * The geometry the move generator works with: the eight ray directions as
 * flat index offsets, and the number of squares from each square to the
 * edge of the board in each direction.
 */
module Geometry {
  import opened Squares

  /**
   * `direction_offsets`: north, south, west, east, then the four diagonals
   * north-west, south-east, north-east, south-west.
   */
  const DirectionOffsets: seq<int> := [8, -8, -1, 1, 7, -7, 9, -9]

  /** The change of rank of one step in direction `d`. */
  function RankStep(d: int): int
    requires 0 <= d < 8
  {
    if d == 0 || d == 4 || d == 6 then 1
    else if d == 1 || d == 5 || d == 7 then -1
    else 0
  }

  /** The change of file of one step in direction `d`. */
  function FileStep(d: int): int
    requires 0 <= d < 8
  {
    if d == 2 || d == 4 || d == 7 then -1
    else if d == 3 || d == 5 || d == 6 then 1
    else 0
  }

  /** The offset of direction `d` is one step of rank and file on the flattened board. */
  function Offset(d: int): (o: int)
    requires 0 <= d < 8
    ensures o == RankStep(d) * 8 + FileStep(d)
    ensures o != 0
  {
    DirectionOffsets[d]
  }

  /** The four straight directions come first, the four diagonals after them. */
  lemma DirectionKinds(d: int)
    requires 0 <= d < 8
    ensures d < 4 ==> (RankStep(d) == 0) != (FileStep(d) == 0)
    ensures 4 <= d ==> RankStep(d) != 0 && FileStep(d) != 0
  {
  }

  function Min(a: int, b: int): int
  {
    if a <= b then a else b
  }

  /**
   * The row of `num_squares_to_edge` for a square: the squares left to the
   * north, south, west and east edges, and for each diagonal the smaller of
   * its two straight distances.
   */
  function EdgeRow(sq: int): (row: seq<int>)
    requires 0 <= sq < BoardSize
    ensures |row| == 8
    ensures forall d :: 0 <= d < 8 ==> 0 <= row[d] <= 7
  {
    var north := 7 - RankOf(sq);
    var south := RankOf(sq);
    var west := FileOf(sq);
    var east := 7 - FileOf(sq);
    [north, south, west, east, Min(north, west), Min(south, east), Min(north, east), Min(south, west)]
  }

  /** `k` steps from `sq` in direction `d`, counted on ranks and files, stay on the board. */
  predicate StaysOnBoard(sq: int, d: int, k: int)
    requires 0 <= d < 8
  {
    0 <= RankOf(sq) + k * RankStep(d) < 8 && 0 <= FileOf(sq) + k * FileStep(d) < 8
  }

  /**
   * The edge table is the distance to the edge: `k` steps stay on the
   * board exactly when `k` is at most the table entry.
   */
  lemma EdgeRowIsDistance(sq: int, d: int, k: int)
    requires 0 <= sq < BoardSize && 0 <= d < 8 && 0 <= k
    ensures k <= EdgeRow(sq)[d] <==> StaysOnBoard(sq, d, k)
  {
    IndexOfFileRank(sq);
    var rs, fs := RankStep(d), FileStep(d);
    assert rs == 0 || rs == 1 || rs == -1;
    assert fs == 0 || fs == 1 || fs == -1;
    assert k * rs == if rs == 0 then 0 else if rs == 1 then k else -k;
    assert k * fs == if fs == 0 then 0 else if fs == 1 then k else -k;
  }

  /**
   * The square `k` steps from `sq` in direction `d`, for `k` within the
   * edge table: on the board, and reached by moving exactly `k` ranks and
   * files in the direction's steps, so the ray never wraps around an edge.
   */
  function StepTarget(sq: int, d: int, k: int): (t: int)
    requires 0 <= sq < BoardSize && 0 <= d < 8 && 0 <= k <= EdgeRow(sq)[d]
    ensures 0 <= t < BoardSize
    ensures RankOf(t) == RankOf(sq) + k * RankStep(d)
    ensures FileOf(t) == FileOf(sq) + k * FileStep(d)
  {
    EdgeRowIsDistance(sq, d, k);
    StepIndex(sq, d, k);
    sq + DirectionOffsets[d] * k
  }

  /** Stepping on the flat index is stepping on rank and file. */
  lemma StepIndex(sq: int, d: int, k: int)
    requires 0 <= sq < BoardSize && 0 <= d < 8 && StaysOnBoard(sq, d, k)
    ensures sq + DirectionOffsets[d] * k == IndexOf(FileOf(sq) + k * FileStep(d), RankOf(sq) + k * RankStep(d))
  {
    IndexOfFileRank(sq);
    var rs, fs := RankStep(d), FileStep(d);
    assert DirectionOffsets[d] * k == (rs * 8 + fs) * k == rs * k * 8 + fs * k;
  }
}
