/**
 * Two positions from the generator's own examples, worked out on the
 * move functions: a knight in the corner, whose wrapping offsets the
 * guard stops, and a queen in the corner, blocked on every ray.
 */
module MoveExamples {
  import opened Results
  import opened Pieces
  import opened Squares
  import opened Fen
  import opened Moves
  import opened Geometry
  import opened MoveRules
  import opened KnownPositions

  /**
   * A knight on h1 (square 7) reaches only f2 (13) and g3 (22); the
   * offsets landing on b1, b3 and a4 wrap around the board and are
   * stopped by the file check.
   */
  lemma KnightOnH1(p: Position)
    requires BoardSized(p) && Open(p, 13) && Open(p, 22)
    ensures KnightMoves(p, 7) == [Move(7, 13), Move(7, 22)]
  {
    assert KnightFrom(p, 7, 8) == [];
    assert KnightFrom(p, 7, 7) == [];
    assert KnightFrom(p, 7, 6) == [Move(7, 22)];
    assert KnightFrom(p, 7, 5) == [Move(7, 22)];
    assert KnightFrom(p, 7, 4) == [Move(7, 13), Move(7, 22)];
    assert KnightFrom(p, 7, 3) == [Move(7, 13), Move(7, 22)];
    assert KnightFrom(p, 7, 2) == [Move(7, 13), Move(7, 22)];
    assert KnightFrom(p, 7, 1) == [Move(7, 13), Move(7, 22)];
  }

  /**
   * A queen on a8 (square 56) with rooks of the other side on a7 (48)
   * and b8 (57), an empty b7 (49) and a piece of the side to move on c6
   * (42) captures on a7, captures on b8 and moves to b7, in direction
   * order; the other five rays leave the board at once.
   */
  lemma QueenOnA8(p: Position)
    requires BoardSized(p) && p.squares[56] == Some(Queen)
    requires p.colors[48].Some? && p.colors[48] != Some(p.toMove)
    requires p.colors[57].Some? && p.colors[57] != Some(p.toMove)
    requires p.colors[49].None? && p.colors[42] == Some(p.toMove)
    ensures SlidingMoves(p, 56) == [Move(56, 48), Move(56, 57), Move(56, 49)]
  {
    assert EdgeRow(56) == [0, 7, 0, 7, 0, 7, 0, 0];
    assert RayFrom(p, 56, 0, 0) == [] && RayFrom(p, 56, 2, 0) == [] && RayFrom(p, 56, 4, 0) == [];
    assert RayFrom(p, 56, 6, 0) == [] && RayFrom(p, 56, 7, 0) == [];
    assert StepTarget(56, 1, 1) == 48 && RayFrom(p, 56, 1, 0) == [Move(56, 48)];
    assert StepTarget(56, 3, 1) == 57 && RayFrom(p, 56, 3, 0) == [Move(56, 57)];
    assert StepTarget(56, 5, 2) == 42 && RayFrom(p, 56, 5, 1) == [];
    assert StepTarget(56, 5, 1) == 49 && RayFrom(p, 56, 5, 0) == [Move(56, 49)];
    assert RaysFrom(p, 56, 5, 8) == [Move(56, 49)];
    assert RaysFrom(p, 56, 3, 8) == [Move(56, 57), Move(56, 49)];
  }

  /**
   * In the starting position the knight on b1 (square 1) has exactly a3
   * (16) and c3 (18): h1 is a wrap-around and d2 holds a White pawn.
   */
  lemma StartKnightOnB1()
    ensures KnightMoves(StartPosition, 1) == [Move(1, 16), Move(1, 18)]
  {
    var p := StartPosition;
    assert KnightFrom(p, 1, 8) == [];
    assert KnightFrom(p, 1, 7) == [Move(1, 18)];
    assert KnightFrom(p, 1, 6) == [Move(1, 16), Move(1, 18)];
    assert KnightFrom(p, 1, 5) == [Move(1, 16), Move(1, 18)];
    assert KnightFrom(p, 1, 4) == [Move(1, 16), Move(1, 18)];
    assert KnightFrom(p, 1, 3) == [Move(1, 16), Move(1, 18)];
    assert KnightFrom(p, 1, 2) == [Move(1, 16), Move(1, 18)];
    assert KnightFrom(p, 1, 1) == [Move(1, 16), Move(1, 18)];
  }
}
