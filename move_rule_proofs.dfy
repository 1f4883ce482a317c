/**
 * What the generator's moves are, square by square: each rule's moves
 * described by where they go rather than by how the generator walks to
 * them, and the facts about a whole call of `generate_moves` that follow.
 */
module MoveRuleProofs {
  import opened Results
  import opened Pieces
  import opened Squares
  import opened Fen
  import opened Moves
  import opened Geometry
  import opened MoveRules

  // ---------------------------------------------------------------------------
  // Rays
  // ---------------------------------------------------------------------------

  /** Every square strictly between step `n` and step `k` of the ray is empty. */
  predicate ClearBetween(p: Position, start: int, d: int, n: int, k: int)
    requires BoardSized(p) && 0 <= start < BoardSize && 0 <= d < 8
    requires 0 <= n && k <= EdgeRow(start)[d]
  {
    forall j :: n < j < k ==> p.colors[StepTarget(start, d, j)].None?
  }

  /**
   * Step `k` of the ray in direction `d` is reached from step `n`: it is
   * past `n` and on the board, nothing stands between, and the side to
   * move may land on it.
   */
  predicate RayReaches(p: Position, start: int, d: int, n: int, k: int)
    requires BoardSized(p) && 0 <= start < BoardSize && 0 <= d < 8 && 0 <= n
  {
    && n < k <= EdgeRow(start)[d]
    && ClearBetween(p, start, d, n, k)
    && Open(p, StepTarget(start, d, k))
  }

  /**
   * A ray from step `n` emits exactly the squares it reaches: every empty
   * square up to the first occupied one, that one only when it holds the
   * other side's colour, and nothing beyond it.
   */
  lemma {:induction false} RayFromMembers(p: Position, start: int, d: int, n: int, m: Move)
    requires BoardSized(p) && 0 <= start < BoardSize && 0 <= d < 8
    requires 0 <= n <= EdgeRow(start)[d]
    ensures m in RayFrom(p, start, d, n) <==>
      m.startingSquare == start && exists k :: RayReaches(p, start, d, n, k) && m.targetSquare == StepTarget(start, d, k)
    decreases EdgeRow(start)[d] - n
  {
    if n < EdgeRow(start)[d] {
      var first := StepTarget(start, d, n + 1);
      assert RayReaches(p, start, d, n, n + 1) <==> Open(p, first);
      if p.colors[first].Some? {
        forall k | RayReaches(p, start, d, n, k) ensures k == n + 1 {
        }
      } else {
        RayFromMembers(p, start, d, n + 1, m);
        forall k | n + 1 < k
          ensures RayReaches(p, start, d, n, k) <==> RayReaches(p, start, d, n + 1, k)
        {
        }
        if m in RayFrom(p, start, d, n) && m != Move(start, first) {
          var k :| RayReaches(p, start, d, n + 1, k) && m.targetSquare == StepTarget(start, d, k);
          assert RayReaches(p, start, d, n, k);
        }
      }
    }
  }

  /** The rays of directions `d` up to `end` emit what one of those rays emits. */
  lemma {:induction false} RaysFromMembers(p: Position, start: int, d: int, end: int, m: Move)
    requires BoardSized(p) && 0 <= start < BoardSize && 0 <= d <= end <= 8
    ensures m in RaysFrom(p, start, d, end) <==> exists e :: d <= e < end && m in RayFrom(p, start, e, 0)
    decreases end - d
  {
    if d < end {
      RaysFromMembers(p, start, d + 1, end, m);
      assert RaysFrom(p, start, d, end) == RayFrom(p, start, d, 0) + RaysFrom(p, start, d + 1, end);
      if m in RayFrom(p, start, d, 0) {
        assert d <= d < end;
      } else if m in RaysFrom(p, start, d + 1, end) {
        var e :| d + 1 <= e < end && m in RayFrom(p, start, e, 0);
        assert d <= e < end;
      }
      if exists e :: d <= e < end && m in RayFrom(p, start, e, 0) {
        var e :| d <= e < end && m in RayFrom(p, start, e, 0);
        if e != d {
          assert d + 1 <= e < end;
        }
      }
    }
  }

  /**
   * `generate_sliding_moves` emits exactly the squares reached along the
   * piece's directions: the diagonals for a bishop, the straight lines for
   * a rook, all eight for a queen (and for any other piece it is given).
   */
  lemma SlidingMembers(p: Position, start: int, m: Move)
    requires BoardSized(p) && 0 <= start < BoardSize && p.squares[start].Some?
    ensures var piece := p.squares[start].value;
      m in SlidingMoves(p, start) <==>
        m.startingSquare == start &&
        exists e, k :: FirstDirection(piece) <= e < EndDirection(piece) && RayReaches(p, start, e, 0, k)
                       && m.targetSquare == StepTarget(start, e, k)
  {
    var piece := p.squares[start].value;
    RaysFromMembers(p, start, FirstDirection(piece), EndDirection(piece), m);
    forall e | FirstDirection(piece) <= e < EndDirection(piece) {
      RayFromMembers(p, start, e, 0, m);
    }
  }

  /** On one rank or one file, and not the same square. */
  predicate Straight(a: int, b: int)
  {
    (RankOf(a) == RankOf(b)) != (FileOf(a) == FileOf(b))
  }

  /** As many ranks as files apart, and not the same square. */
  predicate Diagonal(a: int, b: int)
  {
    Abs(RankOf(b) - RankOf(a)) == Abs(FileOf(b) - FileOf(a)) != 0
  }

  /** A step along a ray goes straight in the first four directions and diagonally in the last four. */
  lemma StepTargetLine(start: int, d: int, k: int)
    requires 0 <= start < BoardSize && 0 <= d < 8 && 1 <= k <= EdgeRow(start)[d]
    ensures d < 4 ==> Straight(start, StepTarget(start, d, k))
    ensures 4 <= d ==> Diagonal(start, StepTarget(start, d, k))
  {
    DirectionKinds(d);
    var rs, fs := RankStep(d), FileStep(d);
    assert k * rs == if rs == 0 then 0 else if rs == 1 then k else -k;
    assert k * fs == if fs == 0 then 0 else if fs == 1 then k else -k;
  }

  /** Bishops move diagonally, rooks straight, queens either way. */
  lemma SlidingLines(p: Position, start: int, m: Move)
    requires BoardSized(p) && 0 <= start < BoardSize && p.squares[start].Some?
    requires m in SlidingMoves(p, start)
    ensures p.squares[start].value == Bishop ==> Diagonal(start, m.targetSquare)
    ensures p.squares[start].value == Rook ==> Straight(start, m.targetSquare)
    ensures Diagonal(start, m.targetSquare) || Straight(start, m.targetSquare)
  {
    SlidingMembers(p, start, m);
    var piece := p.squares[start].value;
    var e, k :| FirstDirection(piece) <= e < EndDirection(piece) && RayReaches(p, start, e, 0, k)
                && m.targetSquare == StepTarget(start, e, k);
    StepTargetLine(start, e, k);
  }

  // ---------------------------------------------------------------------------
  // Knights
  // ---------------------------------------------------------------------------

  /** A knight's jump: on the board, one rank and two files away or two ranks and one file. */
  predicate KnightJump(start: int, target: int)
  {
    && 0 <= target < BoardSize
    && var ranks, files := Abs(RankOf(target) - RankOf(start)), Abs(FileOf(target) - FileOf(start));
       (ranks == 1 && files == 2) || (ranks == 2 && files == 1)
  }

  /** The rank and file of `rank * 8 + file`, for a file on the board. */
  lemma RankFileOf(t: int, rank: int, file: int)
    requires t == rank * 8 + file && 0 <= file < 8
    ensures RankOf(t) == rank && FileOf(t) == file
  {
  }

  /**
   * Adding `ranks * 8 + files` to a square moves it by `ranks` ranks and
   * `files` files when the file stays on the board, and otherwise wraps
   * around to a file eight away from the intended one.
   */
  lemma OffsetRankFile(start: int, ranks: int, files: int)
    requires 0 <= start < BoardSize && -2 <= files <= 2 && 0 <= start + ranks * 8 + files < BoardSize
    ensures var t, file := start + ranks * 8 + files, FileOf(start);
      && (0 <= file + files < 8 ==> RankOf(t) == RankOf(start) + ranks && FileOf(t) == file + files)
      && (file + files < 0 ==> FileOf(t) == file + files + 8)
      && (8 <= file + files ==> FileOf(t) == file + files - 8)
  {
    var rank, file := RankOf(start), FileOf(start);
    IndexOfFileRank(start);
    var t := start + ranks * 8 + files;
    if 0 <= file + files < 8 {
      RankFileOf(t, rank + ranks, file + files);
    } else if file + files < 0 {
      RankFileOf(t, rank + ranks - 1, file + files + 8);
    } else {
      RankFileOf(t, rank + ranks + 1, file + files - 8);
    }
  }

  /**
   * The guard of `generate_knight_moves` lets an offset through exactly
   * when it is a knight's jump: an offset that would wrap around the a- or
   * h-file lands six or seven files away and is stopped.
   */
  lemma KnightGuardIsJump(start: int, i: int)
    requires 0 <= start < BoardSize && 0 <= i < 8
    ensures KnightGuard(start, KnightOffsets[i]) <==> KnightJump(start, start + KnightOffsets[i])
  {
    var o := KnightOffsets[i];
    // The offset as whole ranks and a file change of at most two.
    var ranks := if o == -17 || o == -15 then -2 else if o == -10 || o == -6 then -1
                 else if o == 6 || o == 10 then 1 else 2;
    var files := o - ranks * 8;
    assert -2 <= files <= 2 && Abs(ranks) + Abs(files) == 3;
    if 0 <= start + o < BoardSize {
      OffsetRankFile(start, ranks, files);
    }
  }

  /** Every knight's jump from a square is one of the eight offsets. */
  lemma KnightJumpIsOffset(start: int, target: int)
    requires 0 <= start < BoardSize && KnightJump(start, target)
    ensures exists i :: 0 <= i < 8 && target == start + KnightOffsets[i]
  {
    IndexOfFileRank(start);
    IndexOfFileRank(target);
    var ranks, files := RankOf(target) - RankOf(start), FileOf(target) - FileOf(start);
    assert target - start == ranks * 8 + files;
    var o := target - start;
    var i := if o == -17 then 0 else if o == -15 then 1 else if o == -10 then 2 else if o == -6 then 3
             else if o == 6 then 4 else if o == 10 then 5 else if o == 15 then 6 else 7;
    assert target == start + KnightOffsets[i];
  }

  /** The jump along one offset is the move to `start + offset`, when it passes the guard and lands on an open square. */
  lemma KnightJumpMovesMembers(p: Position, start: int, offset: int, m: Move)
    requires BoardSized(p) && 0 <= start < BoardSize
    ensures m in KnightJumpMoves(p, start, offset) <==>
      m.startingSquare == start && m.targetSquare == start + offset && KnightGuard(start, offset) && Open(p, m.targetSquare)
  {
  }

  /** The knight's moves from offset index `i` on are the offsets from `i` on that pass the guard and land on an open square. */
  lemma {:induction false} KnightFromMembers(p: Position, start: int, i: int, m: Move)
    requires BoardSized(p) && 0 <= start < BoardSize && 0 <= i <= 8
    ensures m in KnightFrom(p, start, i) <==>
      m.startingSquare == start &&
      exists j :: i <= j < 8 && KnightGuard(start, KnightOffsets[j]) && m.targetSquare == start + KnightOffsets[j]
                  && Open(p, m.targetSquare)
    decreases 8 - i
  {
    if i < 8 {
      KnightFromMembers(p, start, i + 1, m);
      KnightJumpMovesMembers(p, start, KnightOffsets[i], m);
      assert KnightFrom(p, start, i) == KnightJumpMoves(p, start, KnightOffsets[i]) + KnightFrom(p, start, i + 1);
      if exists j :: i <= j < 8 && KnightGuard(start, KnightOffsets[j]) && m.targetSquare == start + KnightOffsets[j]
                     && Open(p, m.targetSquare) {
        var j :| i <= j < 8 && KnightGuard(start, KnightOffsets[j]) && m.targetSquare == start + KnightOffsets[j]
                 && Open(p, m.targetSquare);
        if j != i {
          assert i + 1 <= j < 8;
        }
      }
      if m in KnightFrom(p, start, i + 1) {
        var j :| i + 1 <= j < 8 && KnightGuard(start, KnightOffsets[j]) && m.targetSquare == start + KnightOffsets[j]
                 && Open(p, m.targetSquare);
        assert i <= j < 8;
      }
    }
  }

  /**
   * `generate_knight_moves` emits exactly the knight's jumps from the
   * square that land on an open square.
   */
  lemma KnightMembers(p: Position, start: int, m: Move)
    requires BoardSized(p) && 0 <= start < BoardSize
    ensures m in KnightMoves(p, start) <==>
      m.startingSquare == start && KnightJump(start, m.targetSquare) && Open(p, m.targetSquare)
  {
    KnightFromMembers(p, start, 0, m);
    forall j | 0 <= j < 8 {
      KnightGuardIsJump(start, j);
    }
    if m.startingSquare == start && KnightJump(start, m.targetSquare) && Open(p, m.targetSquare) {
      KnightJumpIsOffset(start, m.targetSquare);
    }
  }

  // ---------------------------------------------------------------------------
  // Pawns
  // ---------------------------------------------------------------------------

  /** The direction the side to move's pawns advance in, in ranks. */
  function Forward(c: Color): int
  {
    if c == White then 1 else -1
  }

  /** A single push: one rank forward on the same file, onto an empty square that is not on the first or last rank. */
  predicate PawnPush(p: Position, start: int, target: int)
    requires BoardSized(p)
  {
    && 0 <= target < BoardSize
    && RankOf(target) == RankOf(start) + Forward(p.toMove) && FileOf(target) == FileOf(start)
    && p.squares[target].None? && RankOf(target) != 0 && RankOf(target) != 7
  }

  /** A capture: one rank forward on a neighbouring file, onto a square of the other side's colour. */
  predicate PawnTake(p: Position, start: int, target: int)
    requires BoardSized(p)
  {
    && 0 <= target < BoardSize
    && RankOf(target) == RankOf(start) + Forward(p.toMove) && Abs(FileOf(target) - FileOf(start)) == 1
    && p.colors[target].Some? && p.colors[target].value != p.toMove
  }

  /** A double push: from the home rank two ranks forward on the same file, over and onto empty squares. */
  predicate PawnDoublePush(p: Position, start: int, target: int)
    requires BoardSized(p) && 0 <= start < BoardSize
  {
    && 0 <= target < BoardSize
    && RankOf(start) == HomeRank(p.toMove)
    && RankOf(target) == RankOf(start) + 2 * Forward(p.toMove) && FileOf(target) == FileOf(start)
    && p.squares[target].None?
    && p.squares[IndexOf(FileOf(start), RankOf(start) + Forward(p.toMove))].None?
  }

  /** The pawn offsets are one rank forward, two ranks forward, and one rank forward with a file to either side. */
  lemma PawnOffsetsForward(c: Color)
    ensures PawnOffsets(c)[0] == 8 * Forward(c) && PawnOffsets(c)[1] == 16 * Forward(c)
    ensures PawnOffsets(c)[2] == 8 * Forward(c) - Forward(c) && PawnOffsets(c)[3] == 8 * Forward(c) + Forward(c)
  {
  }

  /**
   * A capture offset lets through exactly the captures one file to its
   * side: a pawn on the a- or h-file whose offset would wrap lands seven
   * files away and is stopped by the file check.
   */
  lemma PawnCaptureMembers(p: Position, start: int, side: int, m: Move)
    requires BoardSized(p) && 0 <= start < BoardSize && (side == 1 || side == -1)
    requires 0 <= start + 8 * Forward(p.toMove) + side < BoardSize
    ensures m in PawnCapture(p, start, 8 * Forward(p.toMove) + side) <==>
      m.startingSquare == start && m.targetSquare == start + 8 * Forward(p.toMove) + side
      && PawnTake(p, start, m.targetSquare)
  {
    IndexOfFileRank(start);
    var rank, file := RankOf(start), FileOf(start);
    var t := start + 8 * Forward(p.toMove) + side;
    if 0 <= file + side < 8 {
      RankFileOf(t, rank + Forward(p.toMove), file + side);
    } else if file + side < 0 {
      RankFileOf(t, rank + Forward(p.toMove) - 1, 7);
    } else {
      RankFileOf(t, rank + Forward(p.toMove) + 1, 0);
    }
  }

  /** Every capture square of a pawn is one of its two capture offsets. */
  lemma PawnTakeOffset(p: Position, start: int, target: int)
    requires BoardSized(p) && 0 <= start < BoardSize && PawnTake(p, start, target)
    ensures target == start + 8 * Forward(p.toMove) - 1 || target == start + 8 * Forward(p.toMove) + 1
  {
    IndexOfFileRank(start);
    IndexOfFileRank(target);
  }

  /** The single push of `generate_pawn_moves` is the push described on ranks and files. */
  lemma PawnSingleMembers(p: Position, start: int, m: Move)
    requires BoardSized(p) && PawnInBounds(p.toMove, start)
    ensures var oneUp := start + 8 * Forward(p.toMove);
      m == Move(start, oneUp) && p.squares[oneUp].None? && RankOf(oneUp) != 0 && RankOf(oneUp) != 7
      <==> m.startingSquare == start && PawnPush(p, start, m.targetSquare)
  {
    IndexOfFileRank(start);
    var f := Forward(p.toMove);
    var oneUp := start + 8 * f;
    RankFileOf(oneUp, RankOf(start) + f, FileOf(start));
    if m.startingSquare == start && PawnPush(p, start, m.targetSquare) {
      SameSquare(m.targetSquare, oneUp);
    }
  }

  /** Two squares with the same rank and file are the same square. */
  lemma SameSquare(a: int, b: int)
    requires 0 <= a < BoardSize && 0 <= b < BoardSize
    requires RankOf(a) == RankOf(b) && FileOf(a) == FileOf(b)
    ensures a == b
  {
    IndexOfFileRank(a);
    IndexOfFileRank(b);
  }

  /** The double push of `generate_pawn_moves` is the double push described on ranks and files. */
  lemma PawnDoubleMembers(p: Position, start: int, m: Move)
    requires BoardSized(p) && PawnInBounds(p.toMove, start) && RankOf(start) == HomeRank(p.toMove)
    ensures var oneUp, twoUp := start + 8 * Forward(p.toMove), start + 16 * Forward(p.toMove);
      m == Move(start, twoUp) && p.squares[oneUp].None? && p.squares[twoUp].None?
      <==> m.startingSquare == start && PawnDoublePush(p, start, m.targetSquare)
  {
    IndexOfFileRank(start);
    var f := Forward(p.toMove);
    RankFileOf(start + 16 * f, RankOf(start) + 2 * f, FileOf(start));
    assert IndexOf(FileOf(start), RankOf(start) + f) == start + 8 * f;
    if m.startingSquare == start && PawnDoublePush(p, start, m.targetSquare) {
      SameSquare(m.targetSquare, start + 16 * f);
    }
  }

  /**
   * `generate_pawn_moves` emits exactly the pawn's single push, captures
   * and double push, each described on ranks and files.
   */
  lemma PawnMembers(p: Position, start: int, m: Move)
    requires BoardSized(p) && PawnInBounds(p.toMove, start)
    ensures m in PawnMoves(p, start) <==>
      m.startingSquare == start &&
      (PawnPush(p, start, m.targetSquare) || PawnTake(p, start, m.targetSquare) || PawnDoublePush(p, start, m.targetSquare))
  {
    PawnOffsetsForward(p.toMove);
    PawnSingleMembers(p, start, m);
    if RankOf(start) == HomeRank(p.toMove) {
      PawnDoubleMembers(p, start, m);
    }
    var f := Forward(p.toMove);
    PawnCaptureMembers(p, start, -f, m);
    PawnCaptureMembers(p, start, f, m);
    if m.startingSquare == start && PawnTake(p, start, m.targetSquare) {
      PawnTakeOffset(p, start, m.targetSquare);
    }
  }

  // ---------------------------------------------------------------------------
  // The whole position
  // ---------------------------------------------------------------------------

  /**
   * Where the piece of the side to move on `start` may go, by kind: along
   * its rays for a queen, rook or bishop, a jump for a knight, a push or a
   * capture for a pawn, and nowhere for a king.
   */
  ghost predicate Reachable(p: Position, start: int, target: int)
    requires Generatable(p) && 0 <= start < BoardSize && p.colors[start] == Some(p.toMove)
  {
    var piece := p.squares[start].value;
    match piece
    case Knight => KnightJump(start, target) && Open(p, target)
    case Pawn =>
      PawnPush(p, start, target) || PawnTake(p, start, target) || PawnDoublePush(p, start, target)
    case King => false
    case _ =>
      exists e, k :: FirstDirection(piece) <= e < EndDirection(piece) && RayReaches(p, start, e, 0, k)
                     && target == StepTarget(start, e, k)
  }

  /** The moves of one piece are the moves from its square to where it may go. */
  lemma PieceMovesMembers(p: Position, sq: int, m: Move)
    requires Generatable(p) && 0 <= sq < BoardSize && p.colors[sq] == Some(p.toMove)
    ensures m in PieceMoves(p, sq) <==> m.startingSquare == sq && Reachable(p, sq, m.targetSquare)
  {
    match p.squares[sq].value
    case Knight => KnightMembers(p, sq, m);
    case Pawn => PawnMembers(p, sq, m);
    case King =>
    case _ => SlidingMembers(p, sq, m);
  }

  /** The moves of squares `sq` to 63 are the moves of the side to move's pieces on those squares. */
  lemma {:induction false} MovesFromMembers(p: Position, sq: int, m: Move)
    requires Generatable(p) && 0 <= sq <= BoardSize
    ensures m in MovesFrom(p, sq) <==>
      && sq <= m.startingSquare < BoardSize
      && p.colors[m.startingSquare] == Some(p.toMove)
      && Reachable(p, m.startingSquare, m.targetSquare)
    decreases BoardSize - sq
  {
    if sq < BoardSize {
      MovesFromMembers(p, sq + 1, m);
      if p.colors[sq] == Some(p.toMove) {
        PieceMovesMembers(p, sq, m);
      }
    }
  }

  /**
   * One call of `generate_moves` appends exactly the moves of the pieces of
   * the side to move to where they may go; squares of the other colour,
   * empty squares and kings contribute nothing.
   */
  lemma AllMovesMembers(p: Position, m: Move)
    requires Generatable(p)
    ensures m in AllMoves(p) <==>
      && 0 <= m.startingSquare < BoardSize
      && p.colors[m.startingSquare] == Some(p.toMove)
      && Reachable(p, m.startingSquare, m.targetSquare)
  {
    MovesFromMembers(p, 0, m);
  }

  /** The moves come in order of their starting squares, each square's moves together. */
  lemma {:induction false} MovesFromOrdered(p: Position, sq: int)
    requires Generatable(p) && 0 <= sq <= BoardSize
    ensures forall i :: 0 <= i < |MovesFrom(p, sq)| ==> sq <= MovesFrom(p, sq)[i].startingSquare
    ensures forall i, j :: 0 <= i < j < |MovesFrom(p, sq)| ==>
      MovesFrom(p, sq)[i].startingSquare <= MovesFrom(p, sq)[j].startingSquare
    decreases BoardSize - sq
  {
    if sq < BoardSize {
      MovesFromOrdered(p, sq + 1);
      var here, rest := SquareMoves(p, sq), MovesFrom(p, sq + 1);
      assert MovesFrom(p, sq) == here + rest;
      forall i | 0 <= i < |here| ensures here[i].startingSquare == sq {
        if p.colors[sq] == Some(p.toMove) {
          PieceMovesMembers(p, sq, here[i]);
        }
      }
    }
  }

  /** `generate_moves` expands the squares in order 0 to 63. */
  lemma AllMovesOrdered(p: Position)
    requires Generatable(p)
    ensures forall i, j :: 0 <= i < j < |AllMoves(p)| ==> AllMoves(p)[i].startingSquare <= AllMoves(p)[j].startingSquare
  {
    MovesFromOrdered(p, 0);
  }

  /**
   * Every move goes from a square of the side to move holding a piece other
   * than a king to a different square on the board that does not hold the
   * side to move's colour. Pawn pushes check the target's piece rather than
   * its colour, so this needs pieces and colours to be present together.
   */
  lemma AllMovesLand(p: Position, m: Move)
    requires Generatable(p) && Consistent(p) && m in AllMoves(p)
    ensures OnBoard(m) && m.startingSquare != m.targetSquare
    ensures p.colors[m.startingSquare] == Some(p.toMove) && p.squares[m.startingSquare].value != King
    ensures p.colors[m.targetSquare] != Some(p.toMove)
  {
    AllMovesMembers(p, m);
    var start, target := m.startingSquare, m.targetSquare;
    var piece := p.squares[start].value;
    if piece == Queen || piece == Rook || piece == Bishop {
      var e, k :| FirstDirection(piece) <= e < EndDirection(piece) && RayReaches(p, start, e, 0, k)
                  && target == StepTarget(start, e, k);
      StepTargetLine(start, e, k);
    }
  }
}
