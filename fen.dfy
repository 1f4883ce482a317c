/**
 * The value of a board position and its Forsyth-Edwards Notation (FEN):
 * the pure specification of `Board::from_fen` and `Board::to_fen`
 * (src/board.rs). The imperative versions in module Boards are proved to
 * compute exactly these functions.
 */
module Fen {
  import opened Results
  import opened Pieces
  import opened Squares
  import opened Text

  /** One error class per way `from_fen` can fail. */
  datatype BoardError =
    | InvalidPieceSymbol
    | InvalidActiveColor
    | InvalidCastlingRights
    | InvalidHalfmoveClock
    | InvalidFullmoveNumber
    | InvalidSquare

  /** The fields of a `Board`, as a value. */
  datatype Position = Position(
    squares: seq<Option<Piece>>,
    colors: seq<Option<Color>>,
    toMove: Color,
    canWhiteKingSideCastle: bool,
    canBlackKingSideCastle: bool,
    canWhiteQueenSideCastle: bool,
    canBlackQueenSideCastle: bool,
    enPassantSquare: Option<int>,
    halfMoveClock: nat,
    fullMoveNumber: nat)

  /** Two 64-slot arrays and two u32 clocks, as the Rust types have them. */
  predicate WellFormed(p: Position)
  {
    && |p.squares| == BoardSize
    && |p.colors| == BoardSize
    && p.halfMoveClock < U32Limit
    && p.fullMoveNumber < U32Limit
  }

  /** The co-presence invariant: a square holds a piece exactly when it holds a colour. */
  predicate Consistent(p: Position)
    requires |p.squares| == BoardSize && |p.colors| == BoardSize
  {
    forall i :: 0 <= i < BoardSize ==> (p.squares[i].Some? <==> p.colors[i].Some?)
  }

  /** `n` empty slots. */
  function Nones<T>(n: nat): (r: seq<Option<T>>)
    ensures |r| == n && forall i :: 0 <= i < n ==> r[i] == None
  {
    if n == 0 then [] else [None] + Nones(n - 1)
  }

  const EmptySquares: seq<Option<Piece>> := Nones(BoardSize)
  const EmptyColors: seq<Option<Color>> := Nones(BoardSize)

  /** `Board::default()`: no pieces, White to move, no castling rights, clocks 0 and 1. */
  const DefaultPosition := Position(EmptySquares, EmptyColors, White, false, false, false, false, None, 0, 1)

  // ---------------------------------------------------------------------------
  // Decoding
  // ---------------------------------------------------------------------------

  /** The cursor of the placement scan: the current file and rank and the arrays filled so far. */
  datatype Cursor = Cursor(file: nat, rank: nat, squares: seq<Option<Piece>>, colors: seq<Option<Color>>)

  /**
   * The state of the placement scan: still scanning, stopped by a character
   * that is no piece symbol, or run off the board (where the Rust code
   * panics: a '/' below the first rank, or a piece placed at an index of 64
   * or more).
   */
  datatype Scan = Scanning(cursor: Cursor) | BadSymbol | OffBoard

  predicate Sized(st: Scan)
  {
    st.Scanning? ==> |st.cursor.squares| == BoardSize && |st.cursor.colors| == BoardSize
  }

  /** The co-presence invariant on the arrays being filled. */
  predicate ScanConsistent(st: Scan)
    requires Sized(st)
  {
    st.Scanning? ==>
      forall i :: 0 <= i < BoardSize ==> (st.cursor.squares[i].Some? <==> st.cursor.colors[i].Some?)
  }

  /**
   * One character of the placement field: '/' starts the next rank down
   * at file 0, a digit '1'..'8' skips that many files, a piece symbol
   * stores its piece and colour at `rank * 8 + file` and moves one file on.
   */
  function ScanSymbol(st: Scan, symbol: char): (r: Scan)
    requires Sized(st)
    ensures Sized(r)
    ensures ScanConsistent(st) ==> ScanConsistent(r)
  {
    match st
    case Scanning(c) =>
      if symbol == '/' then
        if c.rank == 0 then OffBoard else Scanning(Cursor(0, c.rank - 1, c.squares, c.colors))
      else if '1' <= symbol <= '8' then
        Scanning(Cursor(c.file + DigitValue(symbol), c.rank, c.squares, c.colors))
      else
        match PieceFromSymbol(symbol) {
          case None => BadSymbol
          case Some(pc) =>
            if c.rank * 8 + c.file < BoardSize then
              Place(c, pc.0, pc.1)
            else
              OffBoard
        }
    case _ => st
  }

  /** Stores a piece and its colour under the cursor and moves one file on. */
  function Place(c: Cursor, piece: Piece, color: Color): (r: Scan)
    requires |c.squares| == BoardSize && |c.colors| == BoardSize
    requires c.rank * 8 + c.file < BoardSize
  {
    var index := c.rank * 8 + c.file;
    Scanning(Cursor(c.file + 1, c.rank, c.squares[index := Some(piece)], c.colors[index := Some(color)]))
  }

  /** The scan of a whole string, one character after the other. */
  function ScanFrom(st: Scan, s: string): (r: Scan)
    requires Sized(st)
    ensures Sized(r)
    ensures ScanConsistent(st) ==> ScanConsistent(r)
  {
    if s == [] then st else ScanSymbol(ScanFrom(st, s[..|s| - 1]), s[|s| - 1])
  }

  /** The scan starts on rank 8 (index 7), file a, with every square empty. */
  const ScanStart := Scanning(Cursor(0, 7, EmptySquares, EmptyColors))

  function ScanPlacement(placement: string): (r: Scan)
    ensures Sized(r) && ScanConsistent(r)
  {
    ScanFrom(ScanStart, placement)
  }

  /** The active-colour field: exactly "w" or "b". */
  function ParseActiveColor(field: string): (r: Option<Color>)
    ensures r == Some(White) <==> field == "w"
    ensures r == Some(Black) <==> field == "b"
  {
    if field == "w" then Some(White) else if field == "b" then Some(Black) else None
  }

  predicate IsCastlingChar(ch: char)
  {
    ch == 'K' || ch == 'Q' || ch == 'k' || ch == 'q' || ch == '-'
  }

  /** The castling field may only use the characters K, Q, k, q and '-'. */
  predicate ValidCastlingField(field: string)
  {
    forall i :: 0 <= i < |field| ==> IsCastlingChar(field[i])
  }

  /** The en-passant field: "-" for none, otherwise the name of a square. */
  function ParseEnPassantSquare(field: string): (r: Result<Option<int>, BoardError>)
    ensures r == Success(None) <==> field == "-"
    ensures r.Success? && r.value.Some? ==> 0 <= r.value.value < BoardSize && SquareName(r.value.value) == field
    ensures r.Failure? ==> r.error == InvalidSquare && field != "-"
    ensures r.Failure? ==> forall sq :: 0 <= sq < BoardSize ==> SquareName(sq) != field
  {
    if field == "-" then
      Success(None)
    else
      match ParseSquare(field)
      case Some(sq) => Success(Some(sq))
      case None => Failure(InvalidSquare)
  }

  /**
   * The en-passant squares of the examples: "a1", "e4", "f7" and "h8" are
   * squares 0, 28, 53 and 63; "-7", "h" and "hh" are not squares.
   */
  lemma EnPassantExamples()
    ensures ParseEnPassantSquare("-") == Success(None)
    ensures ParseEnPassantSquare("a1") == Success(Some(0))
    ensures ParseEnPassantSquare("e4") == Success(Some(28))
    ensures ParseEnPassantSquare("f7") == Success(Some(53))
    ensures ParseEnPassantSquare("h8") == Success(Some(63))
    ensures ParseEnPassantSquare("-7") == Failure(InvalidSquare)
    ensures ParseEnPassantSquare("h") == Failure(InvalidSquare)
    ensures ParseEnPassantSquare("hh") == Failure(InvalidSquare)
  {
  }

  /**
   * What `from_fen` needs of its input not to panic. It reads a field only
   * once the fields before it have been accepted, so a field has to be
   * present only when every earlier check passed: the placement always
   * (and it has to stay on the board up to its first bad symbol), the
   * active colour after a good placement, the castling field after a good
   * colour, the half-move clock after good castling rights, and the
   * full-move number and the en-passant square after a good half-move
   * clock.
   */
  predicate Decodable(fen: string)
  {
    var fields := SplitWhitespace(fen);
    && |fields| >= 1
    && ScanPlacement(fields[0]) != OffBoard
    && (ScanPlacement(fields[0]).Scanning? ==>
         && |fields| >= 2
         && (ParseActiveColor(fields[1]).Some? ==>
              && |fields| >= 3
              && (ValidCastlingField(fields[2]) ==>
                   && |fields| >= 5
                   && (ParseU32(fields[4]).Some? ==> |fields| >= 6))))
  }

  /**
   * `Board::from_fen`. The fields are checked in the order placement,
   * active colour, castling, half-move clock, full-move number, en passant;
   * the first that fails decides the error.
   */
  function DecodeFen(fen: string): (r: Result<Position, BoardError>)
    requires Decodable(fen)
    ensures r.Success? ==> WellFormed(r.value) && Consistent(r.value)
    ensures r.Success? ==> r.value.enPassantSquare.Some? ==> 0 <= r.value.enPassantSquare.value < BoardSize
    ensures r.Success? ==> |SplitWhitespace(fen)| >= 6
    ensures r.Success? ==> ValidCastlingField(SplitWhitespace(fen)[2])
    ensures r.Success? ==> (r.value.canWhiteKingSideCastle <==> 'K' in SplitWhitespace(fen)[2])
    ensures r.Success? ==> (r.value.canWhiteQueenSideCastle <==> 'Q' in SplitWhitespace(fen)[2])
    ensures r.Success? ==> (r.value.canBlackKingSideCastle <==> 'k' in SplitWhitespace(fen)[2])
    ensures r.Success? ==> (r.value.canBlackQueenSideCastle <==> 'q' in SplitWhitespace(fen)[2])
  {
    var fields := SplitWhitespace(fen);
    match ScanPlacement(fields[0])
    case BadSymbol => Failure(InvalidPieceSymbol)
    case Scanning(placed) =>
      match ParseActiveColor(fields[1])
      case None => Failure(InvalidActiveColor)
      case Some(toMove) =>
        if !ValidCastlingField(fields[2]) then
          Failure(InvalidCastlingRights)
        else
          match ParseU32(fields[4])
          case None => Failure(InvalidHalfmoveClock)
          case Some(halfMoveClock) =>
            match ParseU32(fields[5])
            case None => Failure(InvalidFullmoveNumber)
            case Some(fullMoveNumber) =>
              match ParseEnPassantSquare(fields[3])
              case Failure(e) => Failure(e)
              case Success(enPassantSquare) =>
                Success(Position(
                  placed.squares,
                  placed.colors,
                  toMove,
                  'K' in fields[2],
                  'k' in fields[2],
                  'Q' in fields[2],
                  'q' in fields[2],
                  enPassantSquare,
                  halfMoveClock,
                  fullMoveNumber))
  }

  // ---------------------------------------------------------------------------
  // Encoding
  // ---------------------------------------------------------------------------

  /** What `to_fen` sees on a square: a piece only where both slots are filled. */
  function Occupant(p: Position, i: int): Option<(Piece, Color)>
    requires |p.squares| == BoardSize && |p.colors| == BoardSize && 0 <= i < BoardSize
  {
    if p.squares[i].Some? && p.colors[i].Some? then Some((p.squares[i].value, p.colors[i].value)) else None
  }

  /** A pending run of empty squares, written as its count (nothing for no run). */
  function EmptyRun(empty: nat): string
  {
    if empty > 0 then NatToString(empty) else ""
  }

  /**
   * The rest of one rank from `file` on, `empty` being the run of empty
   * squares just before `file` that has not been written yet.
   */
  function EncodeRankFrom(p: Position, rank: int, file: int, empty: nat): string
    requires |p.squares| == BoardSize && |p.colors| == BoardSize
    requires 0 <= rank < 8 && 0 <= file <= 8
    decreases 8 - file
  {
    if file == 8 then
      EmptyRun(empty)
    else
      match Occupant(p, rank * 8 + file)
      case Some((piece, color)) => EmptyRun(empty) + [Symbol(piece, color)] + EncodeRankFrom(p, rank, file + 1, 0)
      case None => EncodeRankFrom(p, rank, file + 1, empty + 1)
  }

  /** Ranks `rank` down to 0 (rank 1 of the board), separated by '/'. */
  function EncodeRanks(p: Position, rank: int): string
    requires |p.squares| == BoardSize && |p.colors| == BoardSize
    requires 0 <= rank < 8
  {
    EncodeRankFrom(p, rank, 0, 0) + (if rank > 0 then "/" + EncodeRanks(p, rank - 1) else "")
  }

  function EncodePlacement(p: Position): string
    requires |p.squares| == BoardSize && |p.colors| == BoardSize
  {
    EncodeRanks(p, 7)
  }

  function ColorField(c: Color): string
  {
    if c == White then "w" else "b"
  }

  /** The letter `ch` when `on` holds, nothing otherwise. */
  function Flag(on: bool, ch: char): (s: string)
    ensures ch in s <==> on
    ensures forall c :: c in s ==> c == ch
  {
    if on then [ch] else []
  }

  /** The castling letters in the fixed order K, Q, k, q, or "-" when there are none. */
  function CastlingField(p: Position): string
  {
    Flag(p.canWhiteKingSideCastle, 'K')
    + Flag(p.canWhiteQueenSideCastle, 'Q')
    + Flag(p.canBlackKingSideCastle, 'k')
    + Flag(p.canBlackQueenSideCastle, 'q')
    + Flag(!(p.canWhiteKingSideCastle || p.canWhiteQueenSideCastle
             || p.canBlackKingSideCastle || p.canBlackQueenSideCastle), '-')
  }

  function EnPassantField(p: Position): string
    requires p.enPassantSquare.Some? ==> 0 <= p.enPassantSquare.value < BoardSize
  {
    match p.enPassantSquare
    case None => "-"
    case Some(sq) => SquareName(sq)
  }

  /** What `to_fen` needs not to panic: an en-passant square that has a name. */
  predicate Encodable(p: Position)
  {
    && |p.squares| == BoardSize
    && |p.colors| == BoardSize
    && (p.enPassantSquare.Some? ==> 0 <= p.enPassantSquare.value < BoardSize)
  }

  /** `Board::to_fen`: the six fields separated by single spaces. */
  function EncodeFen(p: Position): string
    requires Encodable(p)
  {
    EncodePlacement(p) + " " + ColorField(p.toMove) + " " + CastlingField(p) + " "
    + EnPassantField(p) + " " + NatToString(p.halfMoveClock) + " " + NatToString(p.fullMoveNumber)
  }
}
