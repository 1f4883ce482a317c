/**
 * The board of board.rs: two 64-slot arrays (the piece on each square and
 * its colour, indexed rank * 8 + file with a1 = 0 and h8 = 63), the side to
 * move, four castling rights, the en-passant square and two clocks.
 * `Snapshot()` reads the board as a `Position` value; every method is
 * proved against the value-level function of the same operation.
 */
module Boards {
  import opened Results
  import opened Pieces
  import opened Squares
  import opened Text
  import opened Fen
  import opened FenProofs
  import opened Moves
  import opened KnownPositions

  class Board {
    const squares: array<Option<Piece>>
    const colors: array<Option<Color>>
    var toMove: Color
    var canWhiteKingSideCastle: bool
    var canBlackKingSideCastle: bool
    var canWhiteQueenSideCastle: bool
    var canBlackQueenSideCastle: bool
    var enPassantSquare: Option<int>
    var halfMoveClock: nat
    var fullMoveNumber: nat

    /** Both arrays have a slot for each of the 64 squares. */
    ghost predicate Sized()
      reads this
    {
      squares.Length == BoardSize && colors.Length == BoardSize
    }

    /** 64 squares, and both clocks within the range of a `u32`. */
    ghost predicate Valid()
      reads this
    {
      Sized() && halfMoveClock < U32Limit && fullMoveNumber < U32Limit
    }

    /** The board as a value. */
    function Snapshot(): (p: Position)
      reads this, squares, colors
      ensures Valid() ==> WellFormed(p)
    {
      Position(squares[..], colors[..], toMove,
               canWhiteKingSideCastle, canBlackKingSideCastle,
               canWhiteQueenSideCastle, canBlackQueenSideCastle,
               enPassantSquare, halfMoveClock, fullMoveNumber)
    }

    /** `Board::default()`: an empty board, White to move, no castling rights, clocks 0 and 1. */
    constructor ()
      ensures Valid() && Snapshot() == DefaultPosition
      ensures fresh(squares) && fresh(colors)
    {
      squares := new Option<Piece>[BoardSize](_ => None);
      colors := new Option<Color>[BoardSize](_ => None);
      toMove := White;
      canWhiteKingSideCastle := false;
      canWhiteQueenSideCastle := false;
      canBlackKingSideCastle := false;
      canBlackQueenSideCastle := false;
      enPassantSquare := None;
      halfMoveClock := 0;
      fullMoveNumber := 1;
      new;
      assert squares[..] == EmptySquares;
      assert colors[..] == EmptyColors;
    }

    /** The struct literal at the end of `from_fen`. */
    constructor FromParts(squares: array<Option<Piece>>, colors: array<Option<Color>>, toMove: Color,
                          canWhiteKingSideCastle: bool, canBlackKingSideCastle: bool,
                          canWhiteQueenSideCastle: bool, canBlackQueenSideCastle: bool,
                          enPassantSquare: Option<int>, halfMoveClock: nat, fullMoveNumber: nat)
      ensures Snapshot() == Position(squares[..], colors[..], toMove,
                                     canWhiteKingSideCastle, canBlackKingSideCastle,
                                     canWhiteQueenSideCastle, canBlackQueenSideCastle,
                                     enPassantSquare, halfMoveClock, fullMoveNumber)
      ensures this.squares == squares && this.colors == colors
    {
      this.squares := squares;
      this.colors := colors;
      this.toMove := toMove;
      this.canWhiteKingSideCastle := canWhiteKingSideCastle;
      this.canBlackKingSideCastle := canBlackKingSideCastle;
      this.canWhiteQueenSideCastle := canWhiteQueenSideCastle;
      this.canBlackQueenSideCastle := canBlackQueenSideCastle;
      this.enPassantSquare := enPassantSquare;
      this.halfMoveClock := halfMoveClock;
      this.fullMoveNumber := fullMoveNumber;
    }

    /**
     * The placement loop of `from_fen`: a cursor starts on a8 (file 0,
     * rank 7); each symbol is read by `ReadSymbol`, and the first that is
     * neither '/', a digit nor a piece letter stops the loop with the
     * invalid-symbol error.
     */
    static method ReadPlacement(placement: string)
      returns (ok: bool, squares: array<Option<Piece>>, colors: array<Option<Color>>)
      requires ScanPlacement(placement) != OffBoard
      ensures ok <==> ScanPlacement(placement).Scanning?
      ensures ok ==> ScanPlacement(placement).cursor.squares == squares[..]
      ensures ok ==> ScanPlacement(placement).cursor.colors == colors[..]
    {
      squares := new Option<Piece>[BoardSize](_ => None);
      colors := new Option<Color>[BoardSize](_ => None);
      var file: nat := 0;
      var rank: nat := 7;
      assert squares[..] == EmptySquares && colors[..] == EmptyColors;
      assert placement[..0] == [];

      for i := 0 to |placement|
        invariant ScanFrom(ScanStart, placement[..i]) == Scanning(Cursor(file, rank, squares[..], colors[..]))
      {
        var read;
        read, file, rank := ReadSymbol(placement, i, squares, colors, file, rank);
        if !read {
          return false, squares, colors;
        }
      }
      assert placement[..|placement|] == placement;
      ok := true;
    }

    /**
     * One pass of the placement loop: '/' goes to file 0 of the rank below,
     * a digit skips that many files, a piece letter stores the piece and its
     * colour at `rank * 8 + file` and moves one file on; any other symbol is
     * not read, and the whole placement is then rejected.
     */
    static method ReadSymbol(placement: string, i: nat, squares: array<Option<Piece>>, colors: array<Option<Color>>,
                             file: nat, rank: nat)
      returns (read: bool, file': nat, rank': nat)
      requires i < |placement| && ScanPlacement(placement) != OffBoard
      requires ScanFrom(ScanStart, placement[..i]) == Scanning(Cursor(file, rank, squares[..], colors[..]))
      modifies squares, colors
      ensures read ==> ScanFrom(ScanStart, placement[..i + 1]) == Scanning(Cursor(file', rank', squares[..], colors[..]))
      ensures !read ==> ScanPlacement(placement) == BadSymbol
    {
      var symbol := placement[i];
      ghost var before := Cursor(file, rank, squares[..], colors[..]);
      ScanPlacementStep(placement, i, before);
      read, file', rank' := true, file, rank;
      if symbol == '/' {
        file' := 0;
        rank' := rank - 1;
      } else if '1' <= symbol <= '8' {
        file' := file + (symbol as int - '0' as int);
      } else {
        var pieceAndColor := PieceFromSymbol(symbol);
        if pieceAndColor.None? {
          return false, file, rank;
        }
        var (piece, color) := pieceAndColor.value;
        var index := rank * 8 + file;
        squares[index] := Some(piece);
        colors[index] := Some(color);
        file' := file + 1;
        assert squares[..] == before.squares[index := Some(piece)];
        assert colors[..] == before.colors[index := Some(color)];
      }
    }

    /**
     * `Board::from_fen`: the placement is read into two fresh arrays, then
     * the other fields are parsed. The result is the board `DecodeFen`
     * describes, or the error it names.
     */
    static method FromFen(fen: string) returns (r: Result<Board, BoardError>)
      requires Decodable(fen)
      ensures r.Success? <==> DecodeFen(fen).Success?
      ensures r.Success? ==> r.value.Valid() && DecodeFen(fen) == Success(r.value.Snapshot())
      ensures r.Failure? ==> DecodeFen(fen) == Failure(r.error)
    {
      var fields := SplitWhitespace(fen);
      var ok, squares, colors := ReadPlacement(fields[0]);
      if !ok {
        return Failure(InvalidPieceSymbol);
      }

      var toMove: Color;
      match ParseActiveColor(fields[1]) {
        case None => return Failure(InvalidActiveColor);
        case Some(c) => toMove := c;
      }

      var castlingRights := fields[2];
      if !ValidCastlingField(castlingRights) {
        return Failure(InvalidCastlingRights);
      }

      var halfMoveClock: nat;
      match ParseU32(fields[4]) {
        case None => return Failure(InvalidHalfmoveClock);
        case Some(n) => halfMoveClock := n;
      }

      var fullMoveNumber: nat;
      match ParseU32(fields[5]) {
        case None => return Failure(InvalidFullmoveNumber);
        case Some(n) => fullMoveNumber := n;
      }

      var enPassantSquare: Option<int>;
      match ParseEnPassantSquare(fields[3]) {
        case Failure(e) => return Failure(e);
        case Success(sq) => enPassantSquare := sq;
      }

      var board := new Board.FromParts(squares, colors, toMove,
                                       'K' in castlingRights, 'k' in castlingRights,
                                       'Q' in castlingRights, 'q' in castlingRights,
                                       enPassantSquare, halfMoveClock, fullMoveNumber);
      r := Success(board);
    }

    /**
     * `Board::starting_position`: the board `from_fen` reads from the
     * standard starting FEN, which it always accepts.
     */
    static method StartingPosition() returns (board: Board)
      ensures board.Valid() && board.Snapshot() == StartPosition
    {
      StartFenRoundTrip();
      var r := FromFen(StartFen);
      board := r.value;
    }

    /**
     * One rank of the placement part of `to_fen`: piece letters, with each
     * run of empty squares written as its length.
     */
    method WriteRank(rank: int) returns (line: string)
      requires Sized() && 0 <= rank < 8
      ensures line == EncodeRankFrom(Snapshot(), rank, 0, 0)
    {
      line := "";
      var emptySquares: nat := 0;
      for file := 0 to 8
        invariant emptySquares <= file
        invariant line + EncodeRankFrom(Snapshot(), rank, file, emptySquares) == EncodeRankFrom(Snapshot(), rank, 0, 0)
      {
        line, emptySquares := WriteSquare(rank, file, line, emptySquares);
      }
      EncodeRankEnd(Snapshot(), rank, emptySquares);
      if emptySquares > 0 {
        line := line + NatToString(emptySquares);
      } else {
        assert line + EmptyRun(emptySquares) == line;
      }
    }

    /**
     * One pass of the rank loop of `to_fen`: an occupied square writes the
     * pending run of empty squares, then its letter; an empty one only
     * lengthens the run (a square counts as occupied only when both its
     * piece and its colour are present). What is written, followed by the
     * encoding of the rest of the rank, is unchanged.
     */
    method WriteSquare(rank: int, file: int, line: string, emptySquares: nat) returns (line': string, emptySquares': nat)
      requires Sized() && 0 <= rank < 8 && 0 <= file < 8 && emptySquares <= file
      ensures emptySquares' <= file + 1
      ensures line' + EncodeRankFrom(Snapshot(), rank, file + 1, emptySquares')
           == line + EncodeRankFrom(Snapshot(), rank, file, emptySquares)
    {
      ghost var p := Snapshot();
      var index := rank * 8 + file;
      var piece := squares[index];
      var color := colors[index];
      if piece.Some? && color.Some? {
        EncodeRankOccupied(p, rank, file, emptySquares, line);
        ghost var next := line + EmptyRun(emptySquares) + [Symbol(piece.value, color.value)];
        line' := line;
        if emptySquares > 0 {
          line' := line' + NatToString(emptySquares);
        }
        line' := line' + [Symbol(piece.value, color.value)];
        emptySquares' := 0;
        assert line' == next;
      } else {
        assert Occupant(p, index) == None;
        EncodeRankEmpty(p, rank, file, emptySquares);
        line', emptySquares' := line, emptySquares + 1;
      }
    }

    /** The placement part of `to_fen`: ranks 8 down to 1, separated by '/'. */
    method WritePlacement() returns (fen: string)
      requires Sized()
      ensures fen == EncodePlacement(Snapshot())
    {
      ghost var p := Snapshot();
      fen := "";
      for rank := 8 downto 0
        invariant rank > 0 ==> fen + EncodeRanks(p, rank - 1) == EncodePlacement(p)
        invariant rank == 0 ==> fen == EncodePlacement(p)
      {
        var line := WriteRank(rank);
        ghost var before := fen;
        fen := fen + line;
        if rank > 0 {
          EncodeRanksStep(p, rank, before);
          fen := fen + "/";
          assert fen + EncodeRanks(p, rank - 1) == before + EncodeRanks(p, rank);
        } else {
          assert EncodeRanks(p, 0) == line;
        }
      }
    }

    /**
     * `Board::to_fen`: the placement, the side to move, the castling rights
     * (K, Q, k, q, or '-'), the en-passant square and the two clocks,
     * separated by single spaces.
     */
    method ToFen() returns (fen: string)
      requires Valid()
      requires enPassantSquare.Some? ==> 0 <= enPassantSquare.value < BoardSize
      ensures fen == EncodeFen(Snapshot())
    {
      ghost var p := Snapshot();
      fen := WritePlacement();

      fen := fen + " ";
      match toMove {
        case White => fen := fen + "w";
        case Black => fen := fen + "b";
      }
      assert fen == EncodePlacement(p) + " " + ColorField(p.toMove);

      fen := fen + " ";
      fen := WriteCastling(fen);
      assert fen == EncodePlacement(p) + " " + ColorField(p.toMove) + " " + CastlingField(p);

      fen := fen + " ";
      match enPassantSquare {
        case None => fen := fen + "-";
        case Some(square) => fen := fen + SquareName(square);
      }
      assert fen == EncodePlacement(p) + " " + ColorField(p.toMove) + " " + CastlingField(p) + " " + EnPassantField(p);

      fen := fen + " ";
      fen := fen + NatToString(halfMoveClock);

      fen := fen + " ";
      fen := fen + NatToString(fullMoveNumber);
    }

    /** The castling part of `to_fen`: K, Q, k, q for the rights that are set, or '-' for none. */
    method WriteCastling(fen: string) returns (fen': string)
      ensures fen' == fen + CastlingField(Snapshot())
    {
      CastlingFieldAppended(Snapshot(), fen);
      fen' := fen;
      if canWhiteKingSideCastle {
        fen' := fen' + "K";
      }
      if canWhiteQueenSideCastle {
        fen' := fen' + "Q";
      }
      if canBlackKingSideCastle {
        fen' := fen' + "k";
      }
      if canBlackQueenSideCastle {
        fen' := fen' + "q";
      }
      if !(canWhiteKingSideCastle || canWhiteQueenSideCastle || canBlackKingSideCastle || canBlackQueenSideCastle) {
        fen' := fen' + "-";
      }
    }

    /** `Board::is_piece_at_square`: the square holds exactly this piece of this colour. */
    function IsPieceAtSquare(index: int, piece: Piece, color: Color): (r: bool)
      requires Valid() && 0 <= index < BoardSize
      reads this, squares, colors
      ensures r <==> Occupant(Snapshot(), index) == Some((piece, color))
    {
      match (squares[index], colors[index])
      case (Some(s), Some(c)) => s == piece && c == color
      case _ => false
    }

    /** `Board::is_square_empty`: neither a piece nor a colour on the square. */
    function IsSquareEmpty(index: int): (r: bool)
      requires Valid() && 0 <= index < BoardSize
      reads this, squares, colors
      ensures r ==> forall piece, color :: !IsPieceAtSquare(index, piece, color)
      ensures r <==> Snapshot().squares[index] == None && Snapshot().colors[index] == None
    {
      squares[index].None? && colors[index].None?
    }

    /** `Board::move_piece`, proved to have the effect `ApplyMove` describes. */
    method MovePiece(mv: Move)
      requires Valid() && OnBoard(mv)
      modifies this, squares, colors
      ensures Valid()
      ensures Snapshot() == ApplyMove(old(Snapshot()), mv)
      ensures IsSquareEmpty(mv.startingSquare)
    {
      var startingPiece := squares[mv.startingSquare];
      var startingPieceColor := colors[mv.startingSquare];
      squares[mv.targetSquare] := startingPiece;
      colors[mv.targetSquare] := startingPieceColor;
      squares[mv.startingSquare] := None;
      colors[mv.startingSquare] := None;

      if toMove == White {
        toMove := Black;
      } else {
        toMove := White;
      }
    }

    /** `Board::put_piece`, proved to have the effect `PlacePiece` describes. */
    method PutPiece(square: int, piece: Piece, color: Color)
      requires Valid() && 0 <= square < BoardSize
      modifies squares, colors
      ensures Snapshot() == PlacePiece(old(Snapshot()), square, piece, color)
      ensures IsPieceAtSquare(square, piece, color)
    {
      squares[square] := Some(piece);
      colors[square] := Some(color);
    }
  }
}
