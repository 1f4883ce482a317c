/**
 * The pseudo-legal moves the generator emits for a position, as functions
 * on positions. Each follows the loop of the generator method it specifies
 * step for step, in the same order, so that a method appending its moves
 * one by one can be proved to append exactly this sequence.
 *
 * "Friendly" always means "of the side to move": the generator compares a
 * target's colour with `to_move`, not with the colour of the moving piece.
 */
module MoveRules {
  import opened Results
  import opened Pieces
  import opened Squares
  import opened Fen
  import opened Moves
  import opened Geometry

  /** A square a piece of the side to move may land on: empty, or holding the other side's colour. */
  predicate Open(p: Position, t: int)
    requires BoardSized(p) && 0 <= t < BoardSize
  {
    p.colors[t] != Some(p.toMove)
  }

  // ---------------------------------------------------------------------------
  // Sliding pieces
  // ---------------------------------------------------------------------------

  /**
   * The moves along direction `d` from step `n + 1` on: every empty square
   * is emitted and the ray goes on; the first occupied square is emitted
   * when it holds the other side's colour, and the ray stops there.
   */
  function RayFrom(p: Position, start: int, d: int, n: int): seq<Move>
    requires BoardSized(p) && 0 <= start < BoardSize && 0 <= d < 8
    requires 0 <= n <= EdgeRow(start)[d]
    decreases EdgeRow(start)[d] - n
  {
    if n == EdgeRow(start)[d] then
      []
    else
      var target := StepTarget(start, d, n + 1);
      match p.colors[target]
      case Some(color) => if color != p.toMove then [Move(start, target)] else []
      case None => [Move(start, target)] + RayFrom(p, start, d, n + 1)
  }

  /** The rays of directions `d` up to `end`, one after the other. */
  function RaysFrom(p: Position, start: int, d: int, end: int): seq<Move>
    requires BoardSized(p) && 0 <= start < BoardSize && 0 <= d <= end <= 8
    decreases end - d
  {
    if d == end then [] else RayFrom(p, start, d, 0) + RaysFrom(p, start, d + 1, end)
  }

  /** Bishops start at the first diagonal (4); rooks and queens at the first direction. */
  function FirstDirection(piece: Piece): int
  {
    if piece == Bishop then 4 else 0
  }

  /** Rooks stop after the straight directions (4); bishops and queens after all eight. */
  function EndDirection(piece: Piece): int
  {
    if piece == Rook then 4 else 8
  }

  /** `generate_sliding_moves`: the rays of the directions the piece on `start` slides along. */
  function SlidingMoves(p: Position, start: int): seq<Move>
    requires BoardSized(p) && 0 <= start < BoardSize && p.squares[start].Some?
  {
    var piece := p.squares[start].value;
    RaysFrom(p, start, FirstDirection(piece), EndDirection(piece))
  }

  // ---------------------------------------------------------------------------
  // Knights
  // ---------------------------------------------------------------------------

  /** `knight_move_offsets`. */
  const KnightOffsets: seq<int> := [-17, -15, -10, -6, 6, 10, 15, 17]

  function Abs(x: int): int
  {
    if x < 0 then -x else x
  }

  /**
   * The two checks a knight's target passes: it is on the board, and it is
   * at most two ranks and two files away (the guard against a jump that
   * wraps around the edge of the board).
   */
  predicate KnightGuard(start: int, offset: int)
  {
    var target := start + offset;
    && 0 <= target < BoardSize
    && Abs(RankOf(target) - RankOf(start)) <= 2
    && Abs(FileOf(target) - FileOf(start)) <= 2
  }

  /** The jump along one offset, when it passes the guard and lands on an open square. */
  function KnightJumpMoves(p: Position, start: int, offset: int): seq<Move>
    requires BoardSized(p) && 0 <= start < BoardSize
  {
    var target := start + offset;
    if KnightGuard(start, offset) && Open(p, target) then [Move(start, target)] else []
  }

  /** The knight's moves for the offsets from index `i` on. */
  function KnightFrom(p: Position, start: int, i: int): seq<Move>
    requires BoardSized(p) && 0 <= start < BoardSize && 0 <= i <= 8
    decreases 8 - i
  {
    if i == 8 then [] else KnightJumpMoves(p, start, KnightOffsets[i]) + KnightFrom(p, start, i + 1)
  }

  /** `generate_knight_moves`. */
  function KnightMoves(p: Position, start: int): seq<Move>
    requires BoardSized(p) && 0 <= start < BoardSize
  {
    KnightFrom(p, start, 0)
  }

  // ---------------------------------------------------------------------------
  // Pawns
  // ---------------------------------------------------------------------------

  /** `pawn_move_offsets`: one push, two pushes, the two captures; negated for Black. */
  function PawnOffsets(c: Color): seq<int>
  {
    match c
    case White => [8, 16, 7, 9]
    case Black => [-8, -16, -7, -9]
  }

  /**
   * The squares a pawn of the side to move on `start` always looks at (one
   * ahead and the two capture squares) are on the board; otherwise the
   * generator indexes outside the board arrays. A White pawn on h7 or a
   * Black pawn on a2 fails this: its capture square is 64, or -1.
   */
  predicate PawnInBounds(c: Color, start: int)
  {
    var offsets := PawnOffsets(c);
    && 0 <= start < BoardSize
    && 0 <= start + offsets[0] < BoardSize
    && 0 <= start + offsets[2] < BoardSize
    && 0 <= start + offsets[3] < BoardSize
  }

  /** A capture along `offset`: the target holds the other side's colour and lies on a neighbouring file. */
  function PawnCapture(p: Position, start: int, offset: int): seq<Move>
    requires BoardSized(p) && 0 <= start < BoardSize && 0 <= start + offset < BoardSize
  {
    var target := start + offset;
    if p.colors[target].Some? && p.colors[target].value != p.toMove && Abs(FileOf(target) - FileOf(start)) == 1 then
      [Move(start, target)]
    else
      []
  }

  /** The rank a pawn of the side to move starts on: rank 2 (index 1) for White, rank 7 (index 6) for Black. */
  function HomeRank(c: Color): int
  {
    if c == White then 1 else 6
  }

  /** The single push: onto the empty square ahead, unless that is on the first or last rank (promotion is not handled). */
  function PawnSingle(p: Position, start: int): seq<Move>
    requires BoardSized(p) && PawnInBounds(p.toMove, start)
  {
    var oneUp := start + PawnOffsets(p.toMove)[0];
    if p.squares[oneUp].None? && RankOf(oneUp) != 0 && RankOf(oneUp) != 7 then [Move(start, oneUp)] else []
  }

  /** The double push: from the home rank, when the square ahead and the one after it are empty. */
  function PawnDouble(p: Position, start: int): seq<Move>
    requires BoardSized(p) && PawnInBounds(p.toMove, start)
  {
    var offsets := PawnOffsets(p.toMove);
    var oneUp, twoUp := start + offsets[0], start + offsets[1];
    if p.squares[oneUp].None? && RankOf(start) == HomeRank(p.toMove) && p.squares[twoUp].None? then
      [Move(start, twoUp)]
    else
      []
  }

  /**
   * `generate_pawn_moves`, for a pawn of the side to move: the single push,
   * the captures in offset order, then the double push. Emptiness of the
   * squares ahead is read from the pieces, that of the capture squares from
   * the colours.
   */
  function PawnMoves(p: Position, start: int): seq<Move>
    requires BoardSized(p) && PawnInBounds(p.toMove, start)
  {
    var offsets := PawnOffsets(p.toMove);
    PawnSingle(p, start) + (PawnCapture(p, start, offsets[2]) + PawnCapture(p, start, offsets[3])) + PawnDouble(p, start)
  }

  // ---------------------------------------------------------------------------
  // The whole position
  // ---------------------------------------------------------------------------

  /**
   * What `generate_moves` needs of a position: every square of the side to
   * move holds a piece (the generator expects one wherever there is a
   * colour), and every pawn of the side to move is in bounds.
   */
  predicate Generatable(p: Position)
  {
    && BoardSized(p)
    && forall sq :: 0 <= sq < BoardSize && p.colors[sq] == Some(p.toMove) ==>
         p.squares[sq].Some? && (p.squares[sq].value == Pawn ==> PawnInBounds(p.toMove, sq))
  }

  /** The moves of the piece of the side to move on `sq`; kings have none. */
  function PieceMoves(p: Position, sq: int): seq<Move>
    requires Generatable(p) && 0 <= sq < BoardSize && p.colors[sq] == Some(p.toMove)
  {
    match p.squares[sq].value
    case Queen => SlidingMoves(p, sq)
    case Rook => SlidingMoves(p, sq)
    case Bishop => SlidingMoves(p, sq)
    case Knight => KnightMoves(p, sq)
    case Pawn => PawnMoves(p, sq)
    case King => []
  }

  /** Squares without a piece of the side to move are skipped. */
  function SquareMoves(p: Position, sq: int): seq<Move>
    requires Generatable(p) && 0 <= sq < BoardSize
  {
    if p.colors[sq] == Some(p.toMove) then PieceMoves(p, sq) else []
  }

  /** The moves of squares `sq` to 63, in square order. */
  function MovesFrom(p: Position, sq: int): seq<Move>
    requires Generatable(p) && 0 <= sq <= BoardSize
    decreases BoardSize - sq
  {
    if sq == BoardSize then [] else SquareMoves(p, sq) + MovesFrom(p, sq + 1)
  }

  /** Everything one call of `generate_moves` appends to the generator's move list. */
  function AllMoves(p: Position): seq<Move>
    requires Generatable(p)
  {
    MovesFrom(p, 0)
  }
}
