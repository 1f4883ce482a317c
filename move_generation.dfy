/**
 * The move generator of move_generation.rs: it owns a board, the table of
 * distances to the edge and the direction offsets, and appends the moves
 * it generates to its `moves` list, which nothing ever clears. Every
 * generator method is proved to append exactly the moves the function of
 * the same name in `MoveRules` describes.
 */
module MoveGeneration {
  import opened Results
  import opened Pieces
  import opened Squares
  import opened Fen
  import opened Moves
  import opened Geometry
  import opened MoveRules
  import opened Boards
  import opened KnownPositions

  /** Appending one sequence after another, grouped either way. */
  lemma AppendAssoc(a: seq<Move>, b: seq<Move>, c: seq<Move>)
    ensures a + b + c == a + (b + c)
  {
  }

  class MoveGenerator {
    var moves: seq<Move>
    const numSquaresToEdge: array2<int>
    const directionOffsets: array<int>
    const board: Board

    /** The tables hold what `new` puts in them, and the board is valid. */
    ghost predicate Valid()
      reads numSquaresToEdge, directionOffsets, board, board.squares, board.colors
    {
      && numSquaresToEdge.Length0 == BoardSize && numSquaresToEdge.Length1 == 8
      && (forall sq, d :: 0 <= sq < BoardSize && 0 <= d < 8 ==> numSquaresToEdge[sq, d] == EdgeRow(sq)[d])
      && directionOffsets[..] == DirectionOffsets
      && board.Valid()
    }

    /** `MoveGenerator::new`: the offsets, the precomputed edge table, no moves yet, and the board. */
    constructor (board: Board)
      requires board.Valid()
      ensures Valid() && moves == [] && this.board == board
    {
      directionOffsets := new int[8] [8, -8, -1, 1, 7, -7, 9, -9];
      var table := MoveGenerator.PrecomputeMoveData();
      numSquaresToEdge := table;
      moves := [];
      this.board := board;
      new;
      assert directionOffsets[..] == DirectionOffsets;
    }

    /** `MoveGenerator::default`: a generator over the starting position. */
    constructor Default()
      ensures Valid() && moves == [] && board.Snapshot() == StartPosition
    {
      var start := Board.StartingPosition();
      directionOffsets := new int[8] [8, -8, -1, 1, 7, -7, 9, -9];
      var table := MoveGenerator.PrecomputeMoveData();
      numSquaresToEdge := table;
      moves := [];
      board := start;
      new;
      assert directionOffsets[..] == DirectionOffsets;
    }

    /**
     * `precompute_move_data`: for every square, its distances to the north,
     * south, west and east edges and along the four diagonals.
     */
    static method PrecomputeMoveData() returns (table: array2<int>)
      ensures table.Length0 == BoardSize && table.Length1 == 8
      ensures forall sq, d :: 0 <= sq < BoardSize && 0 <= d < 8 ==> table[sq, d] == EdgeRow(sq)[d]
    {
      table := new int[BoardSize, 8]((_, _) => 0);
      for file := 0 to 8
        invariant forall f, r, d :: 0 <= f < file && 0 <= r < 8 && 0 <= d < 8 ==>
          table[IndexOf(f, r), d] == EdgeRow(IndexOf(f, r))[d]
      {
        for rank := 0 to 8
          invariant forall f, r, d :: 0 <= d < 8 && ((0 <= f < file && 0 <= r < 8) || (f == file && 0 <= r < rank)) ==>
            table[IndexOf(f, r), d] == EdgeRow(IndexOf(f, r))[d]
        {
          var numNorth := 7 - rank;
          var numSouth := rank;
          var numEast := 7 - file;
          var numWest := file;
          var squareIndex := IndexOf(file, rank);
          var row := [numNorth, numSouth, numWest, numEast,
                      Min(numNorth, numWest), Min(numSouth, numEast), Min(numNorth, numEast), Min(numSouth, numWest)];
          assert row == EdgeRow(squareIndex);
          SetRow(table, squareIndex, row);
        }
      }
      forall sq, d | 0 <= sq < BoardSize && 0 <= d < 8 ensures table[sq, d] == EdgeRow(sq)[d] {
        IndexOfFileRank(sq);
      }
    }

    /** The assignment of a whole row of the edge table. */
    static method SetRow(table: array2<int>, sq: int, row: seq<int>)
      requires table.Length0 == BoardSize && table.Length1 == 8 && 0 <= sq < BoardSize && |row| == 8
      modifies table
      ensures forall s, d :: 0 <= s < BoardSize && 0 <= d < 8 ==>
        table[s, d] == if s == sq then row[d] else old(table[s, d])
    {
      table[sq, 0] := row[0];
      table[sq, 1] := row[1];
      table[sq, 2] := row[2];
      table[sq, 3] := row[3];
      table[sq, 4] := row[4];
      table[sq, 5] := row[5];
      table[sq, 6] := row[6];
      table[sq, 7] := row[7];
    }

    /**
     * `generate_moves`: every square holding the colour of the side to move
     * is expanded by the generator of its piece (kings have none). The moves
     * are appended to `moves`; the vector returned is a fresh one that
     * nothing is ever added to.
     */
    method GenerateMoves() returns (result: seq<Move>)
      requires Valid() && Generatable(board.Snapshot())
      modifies this
      ensures result == []
      ensures moves == old(moves) + AllMoves(board.Snapshot())
    {
      result := [];
      ghost var p := board.Snapshot();
      for square := 0 to BoardSize
        invariant moves + MovesFrom(p, square) == old(moves) + AllMoves(p)
      {
        ghost var before := moves;
        var color := board.colors[square];
        if color.None? || color.value != board.toMove {
          assert SquareMoves(p, square) == [];
          assert MovesFrom(p, square) == MovesFrom(p, square + 1);
          continue;
        }
        GeneratePieceMoves(square);
        assert MovesFrom(p, square) == PieceMoves(p, square) + MovesFrom(p, square + 1);
        AppendAssoc(before, PieceMoves(p, square), MovesFrom(p, square + 1));
      }
    }

    /** The dispatch on the piece in the body of `generate_moves`; a king generates nothing. */
    method GeneratePieceMoves(square: int)
      requires Valid() && Generatable(board.Snapshot())
      requires 0 <= square < BoardSize && board.colors[square] == Some(board.toMove)
      modifies this
      ensures moves == old(moves) + PieceMoves(board.Snapshot(), square)
    {
      var piece := board.squares[square];
      match piece.value {
        case Queen => GenerateSlidingMoves(square);
        case Rook => GenerateSlidingMoves(square);
        case Bishop => GenerateSlidingMoves(square);
        case Knight => GenerateKnightMoves(square);
        case Pawn => GeneratePawnMoves(square);
        case King =>
      }
    }

    /**
     * `generate_sliding_moves`: for each direction of the piece, the squares
     * along the ray up to the edge; empty squares are appended and the ray
     * goes on, the first occupied square is appended when it does not hold
     * the side to move's colour, and the ray stops there.
     */
    method GenerateSlidingMoves(startSquare: int)
      requires Valid() && 0 <= startSquare < BoardSize && board.squares[startSquare].Some?
      modifies this
      ensures moves == old(moves) + SlidingMoves(board.Snapshot(), startSquare)
    {
      ghost var p := board.Snapshot();
      var piece := board.squares[startSquare].value;
      var startDirectionIndex := if piece == Bishop then 4 else 0;
      var endDirectionIndex := if piece == Rook then 4 else 8;
      for directionIndex := startDirectionIndex to endDirectionIndex
        invariant moves + RaysFrom(p, startSquare, directionIndex, endDirectionIndex)
               == old(moves) + SlidingMoves(p, startSquare)
      {
        ghost var before := moves;
        GenerateRay(startSquare, directionIndex);
        AppendAssoc(before, RayFrom(p, startSquare, directionIndex, 0),
                    RaysFrom(p, startSquare, directionIndex + 1, endDirectionIndex));
      }
    }

    /** The inner loop of `generate_sliding_moves`: one ray. */
    method GenerateRay(startSquare: int, directionIndex: int)
      requires Valid() && 0 <= startSquare < BoardSize && 0 <= directionIndex < 8
      modifies this
      ensures moves == old(moves) + RayFrom(board.Snapshot(), startSquare, directionIndex, 0)
    {
      ghost var p := board.Snapshot();
      for n := 0 to numSquaresToEdge[startSquare, directionIndex]
        invariant moves + RayFrom(p, startSquare, directionIndex, n)
               == old(moves) + RayFrom(p, startSquare, directionIndex, 0)
      {
        ghost var before := moves;
        var targetSquare := startSquare + directionOffsets[directionIndex] * (n + 1);
        assert targetSquare == StepTarget(startSquare, directionIndex, n + 1);
        var colorOnTargetSquare := board.colors[targetSquare];
        match colorOnTargetSquare {
          case Some(color) =>
            if color != board.toMove {
              moves := moves + [Move(startSquare, targetSquare)];
            }
            assert moves == old(moves) + RayFrom(p, startSquare, directionIndex, 0);
            break;
          case None =>
            moves := moves + [Move(startSquare, targetSquare)];
            AppendAssoc(before, [Move(startSquare, targetSquare)], RayFrom(p, startSquare, directionIndex, n + 1));
        }
      }
    }

    /**
     * `generate_knight_moves`: each of the eight offsets whose target is on
     * the board, at most two ranks and two files away, and does not hold
     * the side to move's colour.
     */
    method GenerateKnightMoves(startSquare: int)
      requires Valid() && 0 <= startSquare < BoardSize
      modifies this
      ensures moves == old(moves) + KnightMoves(board.Snapshot(), startSquare)
    {
      ghost var p := board.Snapshot();
      var knightMoveOffsets := [-17, -15, -10, -6, 6, 10, 15, 17];
      for i := 0 to 8
        invariant moves + KnightFrom(p, startSquare, i) == old(moves) + KnightMoves(p, startSquare)
      {
        ghost var before := moves;
        GenerateKnightJump(startSquare, knightMoveOffsets[i]);
        ghost var jump := moves[|before|..];
        AppendAssoc(before, jump, KnightFrom(p, startSquare, i + 1));
      }
    }

    /** The body of the loop of `generate_knight_moves`: one offset. */
    method GenerateKnightJump(startSquare: int, offset: int)
      requires Valid() && 0 <= startSquare < BoardSize
      modifies this
      ensures moves == old(moves) + KnightJumpMoves(board.Snapshot(), startSquare, offset)
    {
      var targetSquare := startSquare + offset;
      var startingRank := startSquare / 8;
      var startingFile := startSquare % 8;
      if !(0 <= targetSquare < BoardSize) {
        return;
      }
      var targetRank := targetSquare / 8;
      var targetFile := targetSquare % 8;
      if Abs(targetRank - startingRank) > 2 || Abs(targetFile - startingFile) > 2 {
        return;
      }
      match board.colors[targetSquare] {
        case None =>
          moves := moves + [Move(startSquare, targetSquare)];
        case Some(color) =>
          if color != board.toMove {
            moves := moves + [Move(startSquare, targetSquare)];
          }
      }
    }

    /**
     * `generate_pawn_moves`: the single push unless it lands on the first
     * or last rank, the two captures, and the double push from the home
     * rank when the square ahead was empty.
     */
    method GeneratePawnMoves(startSquare: int)
      requires Valid() && PawnInBounds(board.toMove, startSquare)
      modifies this
      ensures moves == old(moves) + PawnMoves(board.Snapshot(), startSquare)
    {
      ghost var p := board.Snapshot();
      var pawnMoveOffsets := if board.toMove == White then [8, 16, 7, 9] else [-8, -16, -7, -9];
      assert pawnMoveOffsets == PawnOffsets(p.toMove);
      var targetOneUpIndex := startSquare + pawnMoveOffsets[0];
      var targetOneUpRank := targetOneUpIndex / 8;
      var canMoveUpOneRank := board.squares[targetOneUpIndex].None?;
      if canMoveUpOneRank {
        var isPromotionMove := targetOneUpRank == 0 || targetOneUpRank == 7;
        if !isPromotionMove {
          moves := moves + [Move(startSquare, targetOneUpIndex)];
        }
      }
      assert moves == old(moves) + PawnSingle(p, startSquare);
      ghost var afterSingle := moves;
      for i := 2 to 4
        invariant i == 2 ==> moves == afterSingle
        invariant i == 3 ==> moves == afterSingle + PawnCapture(p, startSquare, pawnMoveOffsets[2])
        invariant i == 4 ==> moves == afterSingle + PawnCapture(p, startSquare, pawnMoveOffsets[2])
                                                  + PawnCapture(p, startSquare, pawnMoveOffsets[3])
      {
        GeneratePawnCapture(startSquare, pawnMoveOffsets[i]);
      }
      ghost var afterCaptures := moves;
      ghost var captures := PawnCapture(p, startSquare, pawnMoveOffsets[2]) + PawnCapture(p, startSquare, pawnMoveOffsets[3]);
      AppendAssoc(old(moves) + PawnSingle(p, startSquare), PawnCapture(p, startSquare, pawnMoveOffsets[2]),
                  PawnCapture(p, startSquare, pawnMoveOffsets[3]));
      AppendAssoc(old(moves), PawnSingle(p, startSquare), captures);
      AppendAssoc(old(moves), PawnSingle(p, startSquare) + captures, PawnDouble(p, startSquare));
      assert afterCaptures + PawnDouble(p, startSquare) == old(moves) + PawnMoves(p, startSquare);
      if !canMoveUpOneRank {
        assert PawnDouble(p, startSquare) == [];
        return;
      }
      var startingRank := startSquare / 8;
      var hasMoved := (startingRank != 1 && board.toMove == White) || (startingRank != 6 && board.toMove == Black);
      if hasMoved {
        assert PawnDouble(p, startSquare) == [];
        return;
      }
      var targetTwoUpIndex := startSquare + pawnMoveOffsets[1];
      if board.squares[targetTwoUpIndex].None? {
        assert PawnDouble(p, startSquare) == [Move(startSquare, targetTwoUpIndex)];
        moves := moves + [Move(startSquare, targetTwoUpIndex)];
      } else {
        assert PawnDouble(p, startSquare) == [];
      }
    }

    /** The body of the capture loop of `generate_pawn_moves`: one capture offset. */
    method GeneratePawnCapture(startSquare: int, captureOffset: int)
      requires Valid() && 0 <= startSquare < BoardSize && 0 <= startSquare + captureOffset < BoardSize
      modifies this
      ensures moves == old(moves) + PawnCapture(board.Snapshot(), startSquare, captureOffset)
    {
      var captureIndex := startSquare + captureOffset;
      var startingFile := startSquare % 8;
      var targetFile := captureIndex % 8;
      if board.colors[captureIndex].Some? && board.colors[captureIndex].value != board.toMove
         && Abs(targetFile - startingFile) == 1 {
        moves := moves + [Move(startSquare, captureIndex)];
      }
    }
  }
}
