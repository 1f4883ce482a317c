/**
 * The two positions whose FEN strings the board is known to reproduce: the
 * starting position of `Board::starting_position` and the empty board of
 * `Board::default`. For each, decoding its FEN gives the position and
 * encoding the position gives the FEN back, character for character.
 * Then short FEN strings that `from_fen` rejects with an error before it
 * looks for the fields they lack.
 */
module KnownPositions {
  import opened Results
  import opened Pieces
  import opened Squares
  import opened Text
  import opened Fen
  import opened FenProofs

  /** The pieces of the first and last ranks, by file. */
  function BackRankPiece(file: int): Piece
  {
    if file == 0 || file == 7 then Rook
    else if file == 1 || file == 6 then Knight
    else if file == 2 || file == 5 then Bishop
    else if file == 3 then Queen
    else King
  }

  function StartPiece(sq: int): Option<Piece>
  {
    if sq < 8 || 56 <= sq then Some(BackRankPiece(sq % 8))
    else if sq < 16 || 48 <= sq then Some(Pawn)
    else None
  }

  function StartColor(sq: int): Option<Color>
  {
    if sq < 16 then Some(White) else if 48 <= sq then Some(Black) else None
  }

  /** The standard starting position: White to move, all castling rights, no en-passant square, clocks 0 and 1. */
  const StartPosition := Position(seq(BoardSize, StartPiece), seq(BoardSize, StartColor), White,
                                  true, true, true, true, None, 0, 1)

  const StartFen := "rnbqkbnr/pppppppp/8/8/8/8/PPPPPPPP/RNBQKBNR w KQkq - 0 1"

  const EmptyFen := "8/8/8/8/8/8/8/8 w - - 0 1"

  /** The first rank holds the white back rank. */
  lemma StartRank0()
    ensures EncodeRanks(StartPosition, 0) == "RNBQKBNR"
  {
    forall f | 0 <= f < 8 ensures RankLetter(StartPosition, 0, f) == Some("RNBQKBNR"[f]) {
      assert f == 0 || f == 1 || f == 2 || f == 3 || f == 4 || f == 5 || f == 6 || f == 7;
    }
    EncodeFullRank(StartPosition, 0, 0, "RNBQKBNR");
  }

  /** The last rank holds the black back rank. */
  lemma StartRank7()
    ensures EncodeRankFrom(StartPosition, 7, 0, 0) == "rnbqkbnr"
  {
    forall f | 0 <= f < 8 ensures RankLetter(StartPosition, 7, f) == Some("rnbqkbnr"[f]) {
      assert f == 0 || f == 1 || f == 2 || f == 3 || f == 4 || f == 5 || f == 6 || f == 7;
    }
    EncodeFullRank(StartPosition, 7, 0, "rnbqkbnr");
  }

  /** The second and seventh ranks hold pawns. */
  lemma StartPawnRanks()
    ensures EncodeRankFrom(StartPosition, 1, 0, 0) == "PPPPPPPP"
    ensures EncodeRankFrom(StartPosition, 6, 0, 0) == "pppppppp"
  {
    EncodeFullRank(StartPosition, 1, 0, "PPPPPPPP");
    EncodeFullRank(StartPosition, 6, 0, "pppppppp");
  }

  /** The four ranks between the pawns are empty. */
  lemma StartEmptyRanks()
    ensures forall rank :: 2 <= rank < 6 ==> EncodeRankFrom(StartPosition, rank, 0, 0) == "8"
  {
    forall rank | 2 <= rank < 6 ensures EncodeRankFrom(StartPosition, rank, 0, 0) == "8" {
      EncodeEmptyRank(StartPosition, rank, 0, 0);
    }
  }

  /** The eight rank texts of the starting position joined by '/', top rank first. */
  lemma JoinStartRanks(r7: string, r6: string, r5: string, r4: string, r3: string, r2: string, r1: string, r0: string)
    requires r7 == "rnbqkbnr" && r6 == "pppppppp" && r5 == "8" && r4 == "8" && r3 == "8" && r2 == "8"
    requires r1 == "PPPPPPPP" && r0 == "RNBQKBNR"
    ensures r7 + ("/" + (r6 + ("/" + (r5 + ("/" + (r4 + ("/" + (r3 + ("/" + (r2 + ("/" + (r1 + ("/" + r0)))))))))))))
         == "rnbqkbnr/pppppppp/8/8/8/8/PPPPPPPP/RNBQKBNR"
  {
  }

  lemma StartPlacement()
    ensures EncodePlacement(StartPosition) == "rnbqkbnr/pppppppp/8/8/8/8/PPPPPPPP/RNBQKBNR"
  {
    var p := StartPosition;
    StartRank0();
    StartRank7();
    StartPawnRanks();
    StartEmptyRanks();
    EncodeRanksSplit(p, 7);
    EncodeRanksSplit(p, 6);
    EncodeRanksSplit(p, 5);
    EncodeRanksSplit(p, 4);
    EncodeRanksSplit(p, 3);
    EncodeRanksSplit(p, 2);
    EncodeRanksSplit(p, 1);
    JoinStartRanks(EncodeRankFrom(p, 7, 0, 0), EncodeRankFrom(p, 6, 0, 0), EncodeRankFrom(p, 5, 0, 0),
                   EncodeRankFrom(p, 4, 0, 0), EncodeRankFrom(p, 3, 0, 0), EncodeRankFrom(p, 2, 0, 0),
                   EncodeRankFrom(p, 1, 0, 0), EncodeRanks(p, 0));
  }

  /** The six fields of a FEN string joined by single spaces, for the starting position's fields. */
  lemma JoinStartFields(placement: string, color: string, castling: string, enPassant: string, half: string, full: string)
    requires placement == "rnbqkbnr/pppppppp/8/8/8/8/PPPPPPPP/RNBQKBNR" && color == "w" && castling == "KQkq"
    requires enPassant == "-" && half == "0" && full == "1"
    ensures placement + " " + color + " " + castling + " " + enPassant + " " + half + " " + full == StartFen
  {
  }

  /** `to_fen` writes the starting position as the standard starting FEN. */
  lemma StartEncodes()
    ensures Encodable(StartPosition) && EncodeFen(StartPosition) == StartFen
  {
    var p := StartPosition;
    StartPlacement();
    assert CastlingField(p) == "KQkq";
    JoinStartFields(EncodePlacement(p), ColorField(p.toMove), CastlingField(p), EnPassantField(p),
                    NatToString(p.halfMoveClock), NatToString(p.fullMoveNumber));
  }

  /**
   * The starting FEN decodes to the starting position, and `to_fen` of
   * what `from_fen` reads from it is the starting FEN again.
   */
  lemma StartFenRoundTrip()
    ensures Decodable(StartFen) && DecodeFen(StartFen) == Success(StartPosition)
    ensures EncodeFen(DecodeFen(StartFen).value) == StartFen
  {
    StartEncodes();
    FenRoundTrip(StartPosition);
  }

  /** A run of eight empty squares is written as "8". */
  lemma EightEmpty()
    ensures EmptyRun(8) == "8"
  {
  }

  /** A rank of the default board is written as "8". */
  lemma EmptyRank(rank: int)
    requires 0 <= rank < 8
    ensures EncodeRankFrom(DefaultPosition, rank, 0, 0) == "8"
  {
    EncodeEmptyRank(DefaultPosition, rank, 0, 0);
    EightEmpty();
  }

  /** Every rank of the default board is written as "8". */
  lemma EmptyRanks()
    ensures forall rank :: 0 <= rank < 8 ==> EncodeRankFrom(DefaultPosition, rank, 0, 0) == "8"
  {
    forall rank | 0 <= rank < 8 ensures EncodeRankFrom(DefaultPosition, rank, 0, 0) == "8" {
      EmptyRank(rank);
    }
  }

  /** Eight empty ranks joined by '/', top rank first. */
  lemma JoinEmptyRanks(r7: string, r6: string, r5: string, r4: string, r3: string, r2: string, r1: string, r0: string)
    requires r7 == "8" && r6 == "8" && r5 == "8" && r4 == "8" && r3 == "8" && r2 == "8" && r1 == "8" && r0 == "8"
    ensures r7 + ("/" + (r6 + ("/" + (r5 + ("/" + (r4 + ("/" + (r3 + ("/" + (r2 + ("/" + (r1 + ("/" + r0)))))))))))))
         == "8/8/8/8/8/8/8/8"
  {
  }

  lemma EmptyPlacement()
    ensures EncodePlacement(DefaultPosition) == "8/8/8/8/8/8/8/8"
  {
    var p := DefaultPosition;
    EmptyRanks();
    EncodeRanksSplit(p, 7);
    EncodeRanksSplit(p, 6);
    EncodeRanksSplit(p, 5);
    EncodeRanksSplit(p, 4);
    EncodeRanksSplit(p, 3);
    EncodeRanksSplit(p, 2);
    EncodeRanksSplit(p, 1);
    assert EncodeRanks(p, 0) == EncodeRankFrom(p, 0, 0, 0);
    JoinEmptyRanks(EncodeRankFrom(p, 7, 0, 0), EncodeRankFrom(p, 6, 0, 0), EncodeRankFrom(p, 5, 0, 0),
                   EncodeRankFrom(p, 4, 0, 0), EncodeRankFrom(p, 3, 0, 0), EncodeRankFrom(p, 2, 0, 0),
                   EncodeRankFrom(p, 1, 0, 0), EncodeRanks(p, 0));
  }

  /** The six fields of a FEN string joined by single spaces, for the empty board's fields. */
  lemma JoinEmptyFields(placement: string, color: string, castling: string, enPassant: string, half: string, full: string)
    requires placement == "8/8/8/8/8/8/8/8" && color == "w" && castling == "-"
    requires enPassant == "-" && half == "0" && full == "1"
    ensures placement + " " + color + " " + castling + " " + enPassant + " " + half + " " + full == EmptyFen
  {
  }

  /** `to_fen` writes the default, empty board as the empty-board FEN. */
  lemma EmptyEncodes()
    ensures Encodable(DefaultPosition) && EncodeFen(DefaultPosition) == EmptyFen
  {
    var p := DefaultPosition;
    EmptyPlacement();
    assert CastlingField(p) == "-";
    JoinEmptyFields(EncodePlacement(p), ColorField(p.toMove), CastlingField(p), EnPassantField(p),
                    NatToString(p.halfMoveClock), NatToString(p.fullMoveNumber));
  }

  /**
   * The empty-board FEN decodes to the default board, and `to_fen` of what
   * `from_fen` reads from it is the empty-board FEN again.
   */
  lemma EmptyFenRoundTrip()
    ensures Decodable(EmptyFen) && DecodeFen(EmptyFen) == Success(DefaultPosition)
    ensures EncodeFen(DecodeFen(EmptyFen).value) == EmptyFen
  {
    EmptyEncodes();
    FenRoundTrip(DefaultPosition);
  }

  // ---------------------------------------------------------------------------
  // Short FEN strings
  // ---------------------------------------------------------------------------

  /** The placement of the empty board. */
  const EmptyPlacementText := "8/8/8/8/8/8/8/8"

  /** Short FEN strings that `from_fen` answers with an error rather than a panic. */
  const BadSymbolFen := "9"
  const BadColorFen := "8/8/8/8/8/8/8/8 x"
  const BadCastlingFen := "8/8/8/8/8/8/8/8 w Z"
  const BadClockFen := "8/8/8/8/8/8/8/8 w - - x"

  /** The empty placement is read without error. */
  lemma EmptyPlacementScans()
    ensures EmptyPlacementText != [] && NoWhitespace(EmptyPlacementText)
    ensures ScanPlacement(EmptyPlacementText).Scanning?
  {
    EmptyPlacement();
    ScanEncodedPlacement(DefaultPosition);
    EmptyPlacementWord(EmptyPlacementText);
  }

  /** A lone bad symbol is answered with the symbol error, without the other fields. */
  lemma LoneBadSymbol()
    ensures Decodable(BadSymbolFen) && DecodeFen(BadSymbolFen) == Failure(InvalidPieceSymbol)
  {
    SplitSingleWord(BadSymbolFen);
    assert ScanPlacement(BadSymbolFen) == ScanSymbol(ScanFrom(ScanStart, ""), '9');
  }

  /** A bad colour is answered before the castling field is looked for. */
  lemma MissingCastlingAfterBadColor()
    ensures Decodable(BadColorFen) && DecodeFen(BadColorFen) == Failure(InvalidActiveColor)
  {
    EmptyPlacementScans();
    JoinedTwo(BadColorFen, EmptyPlacementText, "x");
    JoinTwo(BadColorFen, EmptyPlacementText, "x");
    RejectedAtColor(BadColorFen, EmptyPlacementText, "x");
  }

  /** Bad castling rights are answered before the clocks are looked for. */
  lemma MissingClocksAfterBadCastling()
    ensures Decodable(BadCastlingFen) && DecodeFen(BadCastlingFen) == Failure(InvalidCastlingRights)
  {
    EmptyPlacementScans();
    JoinedThree(BadCastlingFen, EmptyPlacementText, "w", "Z");
    JoinThree(BadCastlingFen, EmptyPlacementText, "w", "Z");
    assert !IsCastlingChar("Z"[0]);
    RejectedAtCastling(BadCastlingFen, EmptyPlacementText, "w", "Z");
  }

  /** A bad half-move clock is answered before the full-move number is looked for. */
  lemma MissingFullMoveAfterBadClock()
    ensures Decodable(BadClockFen) && DecodeFen(BadClockFen) == Failure(InvalidHalfmoveClock)
  {
    EmptyPlacementScans();
    JoinedFive(BadClockFen, EmptyPlacementText, "w", "-", "-", "x");
    JoinFive(BadClockFen, EmptyPlacementText, "w", "-", "-", "x");
    NoCastlingIsValid("-");
    LetterIsNoNumber("x");
    RejectedAtHalfMoveClock(BadClockFen, EmptyPlacementText, "w", "-", "-", "x");
  }

  lemma JoinedTwo(fen: string, a: string, b: string)
    requires fen == "8/8/8/8/8/8/8/8 x" && a == "8/8/8/8/8/8/8/8" && b == "x"
    ensures fen == a + " " + b
  {
  }

  lemma JoinedThree(fen: string, a: string, b: string, c: string)
    requires fen == "8/8/8/8/8/8/8/8 w Z" && a == "8/8/8/8/8/8/8/8" && b == "w" && c == "Z"
    ensures fen == a + " " + b + " " + c
  {
  }

  lemma JoinedFive(fen: string, a: string, b: string, c: string, d: string, e: string)
    requires fen == "8/8/8/8/8/8/8/8 w - - x" && a == "8/8/8/8/8/8/8/8"
    requires b == "w" && c == "-" && d == "-" && e == "x"
    ensures fen == a + " " + b + " " + c + " " + d + " " + e
  {
  }

  /** Two fields, the colour bad: the colour error, although the castling field is missing. */
  lemma RejectedAtColor(fen: string, placement: string, color: string)
    requires SplitWhitespace(fen) == [placement, color]
    requires ScanPlacement(placement).Scanning? && ParseActiveColor(color).None?
    ensures Decodable(fen) && DecodeFen(fen) == Failure(InvalidActiveColor)
  {
  }

  /** Three fields, the castling rights bad: the castling error, although the clocks are missing. */
  lemma RejectedAtCastling(fen: string, placement: string, color: string, castling: string)
    requires SplitWhitespace(fen) == [placement, color, castling]
    requires ScanPlacement(placement).Scanning? && ParseActiveColor(color).Some? && !ValidCastlingField(castling)
    ensures Decodable(fen) && DecodeFen(fen) == Failure(InvalidCastlingRights)
  {
  }

  /** Five fields, the half-move clock bad: the clock error, although the full-move number is missing. */
  lemma RejectedAtHalfMoveClock(fen: string, placement: string, color: string, castling: string, enPassant: string, half: string)
    requires SplitWhitespace(fen) == [placement, color, castling, enPassant, half]
    requires ScanPlacement(placement).Scanning? && ParseActiveColor(color).Some? && ValidCastlingField(castling)
    requires ParseU32(half).None?
    ensures Decodable(fen) && DecodeFen(fen) == Failure(InvalidHalfmoveClock)
  {
  }

  lemma NoCastlingIsValid(field: string)
    requires field == "-"
    ensures ValidCastlingField(field)
  {
  }

  /** Text starting with a letter is not a number. */
  lemma LetterIsNoNumber(s: string)
    requires s == "x"
    ensures ParseU32(s).None?
  {
    assert s[0] != '+' && !IsDecimalDigit(s[0]);
  }

  /** The empty placement holds no whitespace. */
  lemma EmptyPlacementWord(w: string)
    requires w == "8/8/8/8/8/8/8/8"
    ensures w != [] && NoWhitespace(w)
  {
  }

  /** Two words joined by a space. */
  lemma JoinTwo(fen: string, a: string, b: string)
    requires a != [] && NoWhitespace(a) && b != [] && NoWhitespace(b)
    requires fen == a + " " + b
    ensures SplitWhitespace(fen) == [a, b]
  {
    SplitJoinWords([a, b]);
  }

  /** Three words joined by spaces. */
  lemma JoinThree(fen: string, a: string, b: string, c: string)
    requires a != [] && NoWhitespace(a) && b != [] && NoWhitespace(b) && c != [] && NoWhitespace(c)
    requires fen == a + " " + b + " " + c
    ensures SplitWhitespace(fen) == [a, b, c]
  {
    var f := [a, b, c];
    assert f[1..][1..] == [c];
    assert JoinWords(f[1..]) == b + " " + c;
    assert JoinWords(f) == a + " " + JoinWords(f[1..]);
    assert JoinWords(f) == fen;
    SplitJoinWords(f);
  }

  /** Five words joined by spaces. */
  lemma JoinFive(fen: string, a: string, b: string, c: string, d: string, e: string)
    requires a != [] && NoWhitespace(a) && b != [] && NoWhitespace(b) && c != [] && NoWhitespace(c)
    requires d != [] && NoWhitespace(d) && e != [] && NoWhitespace(e)
    requires fen == a + " " + b + " " + c + " " + d + " " + e
    ensures SplitWhitespace(fen) == [a, b, c, d, e]
  {
    var f := [a, b, c, d, e];
    assert f[4..] == [e];
    assert f[3..][1..] == f[4..];
    assert JoinWords(f[3..]) == d + " " + e;
    assert f[2..][1..] == f[3..];
    assert JoinWords(f[2..]) == c + " " + JoinWords(f[3..]);
    assert f[1..][1..] == f[2..];
    assert JoinWords(f[1..]) == b + " " + JoinWords(f[2..]);
    assert JoinWords(f) == a + " " + JoinWords(f[1..]);
    assert JoinWords(f) == fen;
    SplitJoinWords(f);
  }
}
