/**
 * Properties of the FEN codec: the placement scan, the error classes of
 * `from_fen`, and the round trip `from_fen(to_fen(p)) == p` for every
 * position that `from_fen` can produce.
 */
module FenProofs {
  import opened Results
  import opened Pieces
  import opened Squares
  import opened Text
  import opened Fen

  // ---------------------------------------------------------------------------
  // The placement scan
  // ---------------------------------------------------------------------------

  /** Scanning a concatenation scans the first part, then the second from where the first left off. */
  lemma {:induction false} ScanAppend(st: Scan, a: string, b: string)
    requires Sized(st)
    ensures ScanFrom(st, a + b) == ScanFrom(ScanFrom(st, a), b)
    decreases |b|
  {
    if b == [] {
      assert a + b == a;
    } else {
      var b' := b[..|b| - 1];
      assert (a + b)[..|a + b| - 1] == a + b';
      assert (a + b)[|a + b| - 1] == b[|b| - 1];
      ScanAppend(st, a, b');
    }
  }

  /** After a rank that ends above rank 1, '/' and the rest are scanned from file 0 of the rank below. */
  lemma ScanNextRank(c: Cursor, line: string, rest: string, r1: Cursor)
    requires |c.squares| == BoardSize && |c.colors| == BoardSize
    requires ScanFrom(Scanning(c), line) == Scanning(r1) && r1.rank > 0
    ensures ScanFrom(Scanning(c), line + ("/" + rest))
         == ScanFrom(Scanning(Cursor(0, r1.rank - 1, r1.squares, r1.colors)), rest)
  {
    ScanSlash(r1);
    ScanAppend(Scanning(c), line, "/" + rest);
    ScanAppend(Scanning(r1), "/", rest);
  }

  /** '/' moves the cursor to file 0 of the rank below, or off the board from rank 1. */
  lemma ScanSlash(c: Cursor)
    requires |c.squares| == BoardSize && |c.colors| == BoardSize
    ensures ScanFrom(Scanning(c), "/")
         == if c.rank == 0 then OffBoard else Scanning(Cursor(0, c.rank - 1, c.squares, c.colors))
  {
    assert "/"[..0] == [];
  }

  /** Once stopped, by a bad symbol or by running off the board, the scan stays stopped. */
  lemma {:induction false} ScanStopped(st: Scan, s: string)
    requires st.BadSymbol? || st.OffBoard?
    ensures ScanFrom(st, s) == st
    decreases |s|
  {
    if s != [] {
      ScanStopped(st, s[..|s| - 1]);
    }
  }

  /** A prefix that stops the scan decides the outcome of the whole scan. */
  lemma ScanPrefixStopped(st: Scan, s: string, i: nat)
    requires Sized(st) && i <= |s|
    requires ScanFrom(st, s[..i]).BadSymbol? || ScanFrom(st, s[..i]).OffBoard?
    ensures ScanFrom(st, s) == ScanFrom(st, s[..i])
  {
    assert s == s[..i] + s[i..];
    ScanAppend(st, s[..i], s[i..]);
    ScanStopped(ScanFrom(st, s[..i]), s[i..]);
  }

  /** A placement that does not run off the board does not run off it in any prefix either. */
  lemma ScanPrefixNotOffBoard(placement: string, i: nat)
    requires i <= |placement| && ScanPlacement(placement) != OffBoard
    ensures ScanFrom(ScanStart, placement[..i]) != OffBoard
  {
    if ScanFrom(ScanStart, placement[..i]) == OffBoard {
      ScanPrefixStopped(ScanStart, placement, i);
    }
  }

  /** One more character of a prefix is one more step of the scan. */
  lemma ScanPrefixStep(st: Scan, s: string, i: nat)
    requires Sized(st) && i < |s|
    ensures ScanFrom(st, s[..i + 1]) == ScanSymbol(ScanFrom(st, s[..i]), s[i])
  {
    assert s[..i + 1][..i] == s[..i];
  }

  /**
   * One step of reading a placement that does not run off the board: what
   * the symbol at `i` does to the cursor `c` reached before it, or that the
   * whole placement is rejected at that symbol.
   */
  lemma ScanPlacementStep(placement: string, i: nat, c: Cursor)
    requires i < |placement| && ScanPlacement(placement) != OffBoard
    requires ScanFrom(ScanStart, placement[..i]) == Scanning(c)
    ensures placement[i] == '/' ==>
      c.rank > 0 && ScanFrom(ScanStart, placement[..i + 1]) == Scanning(Cursor(0, c.rank - 1, c.squares, c.colors))
    ensures '1' <= placement[i] <= '8' ==>
      ScanFrom(ScanStart, placement[..i + 1])
        == Scanning(Cursor(c.file + (placement[i] as int - '0' as int), c.rank, c.squares, c.colors))
    ensures placement[i] != '/' && !('1' <= placement[i] <= '8') && PieceFromSymbol(placement[i]).None? ==>
      ScanPlacement(placement) == BadSymbol
    ensures placement[i] != '/' && !('1' <= placement[i] <= '8') && PieceFromSymbol(placement[i]).Some? ==>
      var index := c.rank * 8 + c.file;
      && 0 <= index < BoardSize
      && ScanFrom(ScanStart, placement[..i + 1])
         == Scanning(Cursor(c.file + 1, c.rank,
                            c.squares[index := Some(PieceFromSymbol(placement[i]).value.0)],
                            c.colors[index := Some(PieceFromSymbol(placement[i]).value.1)]))
  {
    ScanPrefixFacts(placement, i);
    ScanSymbolStep(c, placement[i], ScanFrom(ScanStart, placement[..i + 1]));
  }

  /** The scan of the first `i + 1` symbols extends that of the first `i`, and a bad symbol there rejects the whole placement. */
  lemma ScanPrefixFacts(placement: string, i: nat)
    requires i < |placement| && ScanPlacement(placement) != OffBoard
    ensures ScanFrom(ScanStart, placement[..i + 1]) == ScanSymbol(ScanFrom(ScanStart, placement[..i]), placement[i])
    ensures ScanFrom(ScanStart, placement[..i + 1]) != OffBoard
    ensures ScanFrom(ScanStart, placement[..i + 1]).BadSymbol? ==> ScanPlacement(placement) == BadSymbol
  {
    ScanPrefixStep(ScanStart, placement, i);
    ScanPrefixNotOffBoard(placement, i + 1);
    if ScanFrom(ScanStart, placement[..i + 1]).BadSymbol? {
      ScanPrefixStopped(ScanStart, placement, i + 1);
    }
  }

  /** What one symbol does to a cursor when it does not run off the board. */
  lemma ScanSymbolStep(c: Cursor, symbol: char, next: Scan)
    requires |c.squares| == BoardSize && |c.colors| == BoardSize
    requires next == ScanSymbol(Scanning(c), symbol) && next != OffBoard
    ensures symbol == '/' ==> c.rank > 0 && next == Scanning(Cursor(0, c.rank - 1, c.squares, c.colors))
    ensures '1' <= symbol <= '8' ==>
      next == Scanning(Cursor(c.file + (symbol as int - '0' as int), c.rank, c.squares, c.colors))
    ensures symbol != '/' && !('1' <= symbol <= '8') && PieceFromSymbol(symbol).None? ==> next == BadSymbol
    ensures symbol != '/' && !('1' <= symbol <= '8') && PieceFromSymbol(symbol).Some? ==>
      var index := c.rank * 8 + c.file;
      && 0 <= index < BoardSize
      && next == Scanning(Cursor(c.file + 1, c.rank,
                                 c.squares[index := Some(PieceFromSymbol(symbol).value.0)],
                                 c.colors[index := Some(PieceFromSymbol(symbol).value.1)]))
  {
    if symbol == '/' {
      ScanSymbolSlash(c);
    } else if '1' <= symbol <= '8' {
      ScanSymbolDigit(c, symbol);
    } else {
      ScanSymbolLetter(c, symbol);
    }
  }

  /** '/' moves to file 0 of the rank below, or off the board from rank 1. */
  lemma ScanSymbolSlash(c: Cursor)
    requires |c.squares| == BoardSize && |c.colors| == BoardSize
    ensures ScanSymbol(Scanning(c), '/')
         == if c.rank == 0 then OffBoard else Scanning(Cursor(0, c.rank - 1, c.squares, c.colors))
  {
  }

  /** A digit skips that many files. */
  lemma ScanSymbolDigit(c: Cursor, symbol: char)
    requires |c.squares| == BoardSize && |c.colors| == BoardSize
    requires '1' <= symbol <= '8'
    ensures ScanSymbol(Scanning(c), symbol)
         == Scanning(Cursor(c.file + (symbol as int - '0' as int), c.rank, c.squares, c.colors))
  {
  }

  /** Any other symbol is a piece letter stored under the cursor, or a bad symbol. */
  lemma ScanSymbolLetter(c: Cursor, symbol: char)
    requires |c.squares| == BoardSize && |c.colors| == BoardSize
    requires symbol != '/' && !('1' <= symbol <= '8')
    ensures PieceFromSymbol(symbol).None? ==> ScanSymbol(Scanning(c), symbol) == BadSymbol
    ensures PieceFromSymbol(symbol).Some? ==>
      ScanSymbol(Scanning(c), symbol)
        == if c.rank * 8 + c.file < BoardSize then Place(c, PieceFromSymbol(symbol).value.0, PieceFromSymbol(symbol).value.1)
           else OffBoard
  {
  }

  /**
   * A character that is neither '/', nor a digit '1'..'8', nor one of the
   * twelve piece letters makes `from_fen` fail with the invalid-symbol
   * error, whatever the other fields hold ('9' is such a character).
   */
  lemma InvalidSymbolRejected(fen: string, i: nat)
    requires Decodable(fen)
    requires i < |SplitWhitespace(fen)[0]|
    requires ScanPlacement(SplitWhitespace(fen)[0][..i]).Scanning?
    requires var ch := SplitWhitespace(fen)[0][i]; ch != '/' && !('1' <= ch <= '8') && !IsPieceLetter(ch)
    ensures DecodeFen(fen) == Failure(InvalidPieceSymbol)
  {
    var placement := SplitWhitespace(fen)[0];
    ScanPrefixStep(ScanStart, placement, i);
    ScanPrefixStopped(ScanStart, placement, i + 1);
  }

  // ---------------------------------------------------------------------------
  // Decoding what was encoded
  // ---------------------------------------------------------------------------

  /** At an occupied square the encoding writes the pending run, then the piece's letter. */
  lemma EncodeRankOccupied(p: Position, rank: int, file: int, empty: nat, written: string)
    requires |p.squares| == BoardSize && |p.colors| == BoardSize
    requires 0 <= rank < 8 && 0 <= file < 8 && Occupant(p, rank * 8 + file).Some?
    ensures written + EncodeRankFrom(p, rank, file, empty)
         == written + EmptyRun(empty) + [Symbol(p.squares[rank * 8 + file].value, p.colors[rank * 8 + file].value)]
            + EncodeRankFrom(p, rank, file + 1, 0)
  {
  }

  /** The ranks from `rank` down: this rank, then '/' and the ranks below it. */
  lemma EncodeRanksStep(p: Position, rank: int, written: string)
    requires |p.squares| == BoardSize && |p.colors| == BoardSize && 0 < rank < 8
    ensures written + EncodeRanks(p, rank) == written + EncodeRankFrom(p, rank, 0, 0) + "/" + EncodeRanks(p, rank - 1)
  {
  }

  /**
   * The cursor `r` holds what scanning the rank `rank` from file `file`
   * on leaves behind, starting from the arrays of `c`: the occupants of the
   * rank from `file` on are stored, every other slot is as in `c`.
   */
  predicate RankStored(p: Position, rank: int, file: int, c: Cursor, r: Cursor)
    requires |p.squares| == BoardSize && |p.colors| == BoardSize
    requires |c.squares| == BoardSize && |c.colors| == BoardSize
    requires |r.squares| == BoardSize && |r.colors| == BoardSize
  {
    Stored(p, rank * 8 + file, rank * 8 + 8, c.squares, c.colors, r.squares, r.colors)
  }

  /**
   * `squares` and `colors` hold the occupants of `p` on the squares `lo`
   * up to `hi` (where there are any), and are as `squares0` and `colors0`
   * everywhere else.
   */
  predicate Stored(p: Position, lo: int, hi: int,
                   squares0: seq<Option<Piece>>, colors0: seq<Option<Color>>,
                   squares: seq<Option<Piece>>, colors: seq<Option<Color>>)
    requires |p.squares| == BoardSize && |p.colors| == BoardSize
    requires |squares0| == BoardSize && |colors0| == BoardSize
    requires |squares| == BoardSize && |colors| == BoardSize
  {
    forall i :: 0 <= i < BoardSize ==>
      if lo <= i < hi && Occupant(p, i).Some? then
        squares[i] == Some(Occupant(p, i).value.0) && colors[i] == Some(Occupant(p, i).value.1)
      else
        squares[i] == squares0[i] && colors[i] == colors0[i]
  }

  /** A run of one to eight empty squares is one digit that moves the cursor that many files on. */
  lemma ScanEmptyRun(c: Cursor, empty: nat)
    requires |c.squares| == BoardSize && |c.colors| == BoardSize && empty <= 8
    ensures ScanFrom(Scanning(c), EmptyRun(empty))
         == Scanning(Cursor(c.file + empty, c.rank, c.squares, c.colors))
  {
    if empty > 0 {
      assert EmptyRun(empty) == [DigitChar(empty)];
      assert EmptyRun(empty)[..0] == [];
    }
  }

  /** A piece letter read at the cursor stores the piece and its colour and moves one file on. */
  lemma ScanPieceSymbol(c: Cursor, piece: Piece, color: Color)
    requires |c.squares| == BoardSize && |c.colors| == BoardSize
    requires c.rank * 8 + c.file < BoardSize
    ensures ScanFrom(Scanning(c), [Symbol(piece, color)])
         == Scanning(Cursor(c.file + 1, c.rank,
                            c.squares[c.rank * 8 + c.file := Some(piece)],
                            c.colors[c.rank * 8 + c.file := Some(color)]))
  {
    SymbolRoundTrip(piece, color);
    SymbolIsLetter(piece, color);
    assert [Symbol(piece, color)][..0] == [];
  }

  /** Storing the occupant of the square at `file` first extends what is stored from `file + 1` on. */
  lemma RankStoredOccupied(p: Position, rank: int, file: int, c: Cursor, c2: Cursor, r: Cursor)
    requires |p.squares| == BoardSize && |p.colors| == BoardSize
    requires |c.squares| == BoardSize && |c.colors| == BoardSize
    requires |r.squares| == BoardSize && |r.colors| == BoardSize
    requires 0 <= rank < 8 && 0 <= file < 8 && Occupant(p, rank * 8 + file).Some?
    requires c2.squares == c.squares[rank * 8 + file := Some(Occupant(p, rank * 8 + file).value.0)]
    requires c2.colors == c.colors[rank * 8 + file := Some(Occupant(p, rank * 8 + file).value.1)]
    requires RankStored(p, rank, file + 1, c2, r)
    ensures RankStored(p, rank, file, c, r)
  {
  }

  /** An empty square at `file` leaves what is stored from `file + 1` on unchanged. */
  lemma RankStoredEmpty(p: Position, rank: int, file: int, c: Cursor, r: Cursor)
    requires |p.squares| == BoardSize && |p.colors| == BoardSize
    requires |c.squares| == BoardSize && |c.colors| == BoardSize
    requires |r.squares| == BoardSize && |r.colors| == BoardSize
    requires 0 <= rank < 8 && 0 <= file < 8 && Occupant(p, rank * 8 + file).None?
    requires RankStored(p, rank, file + 1, c, r)
    ensures RankStored(p, rank, file, c, r)
  {
  }

  /** At the end of the rank the encoding is the pending run. */
  lemma EncodeRankEnd(p: Position, rank: int, empty: nat)
    requires |p.squares| == BoardSize && |p.colors| == BoardSize && 0 <= rank < 8
    ensures EncodeRankFrom(p, rank, 8, empty) == EmptyRun(empty)
  {
  }

  /** An empty square only lengthens the pending run. */
  lemma EncodeRankEmpty(p: Position, rank: int, file: int, empty: nat)
    requires |p.squares| == BoardSize && |p.colors| == BoardSize
    requires 0 <= rank < 8 && 0 <= file < 8 && Occupant(p, rank * 8 + file).None?
    ensures EncodeRankFrom(p, rank, file, empty) == EncodeRankFrom(p, rank, file + 1, empty + 1)
  {
  }

  /** An occupied square: the pending run, the piece's letter, then the rest of the rank. */
  lemma EncodeRankSplit(p: Position, rank: int, file: int, empty: nat)
    requires |p.squares| == BoardSize && |p.colors| == BoardSize
    requires 0 <= rank < 8 && 0 <= file < 8 && Occupant(p, rank * 8 + file).Some?
    ensures EncodeRankFrom(p, rank, file, empty)
         == EmptyRun(empty) + [Symbol(Occupant(p, rank * 8 + file).value.0, Occupant(p, rank * 8 + file).value.1)]
            + EncodeRankFrom(p, rank, file + 1, 0)
  {
  }

  /** Scanning a run, one piece letter and a tail, given what each part does on its own. */
  lemma ScanRunSymbolTail(c: Cursor, run: string, sym: string, tail: string, c1: Cursor, c2: Cursor)
    requires |c.squares| == BoardSize && |c.colors| == BoardSize
    requires ScanFrom(Scanning(c), run) == Scanning(c1)
    requires ScanFrom(Scanning(c1), sym) == Scanning(c2)
    ensures ScanFrom(Scanning(c), run + sym + tail) == ScanFrom(Scanning(c2), tail)
  {
    ScanAppend(Scanning(c), run, sym);
    ScanAppend(Scanning(c), run + sym, tail);
  }

  /** Scanning the encoding of a rank, from file `file` with `empty` squares pending, stores that rank. */
  lemma {:induction false} ScanEncodedRank(p: Position, rank: int, file: int, empty: nat, c: Cursor)
    requires |p.squares| == BoardSize && |p.colors| == BoardSize
    requires |c.squares| == BoardSize && |c.colors| == BoardSize
    requires 0 <= rank < 8 && 0 <= file <= 8 && empty <= file
    requires c.file == file - empty && c.rank == rank
    ensures ScanFrom(Scanning(c), EncodeRankFrom(p, rank, file, empty)).Scanning?
    ensures var r := ScanFrom(Scanning(c), EncodeRankFrom(p, rank, file, empty)).cursor;
      r.file == 8 && r.rank == rank && RankStored(p, rank, file, c, r)
    decreases 8 - file, 1
  {
    if file == 8 {
      ScanEmptyRun(c, empty);
      EncodeRankEnd(p, rank, empty);
    } else if Occupant(p, rank * 8 + file).Some? {
      ScanEncodedRankOccupied(p, rank, file, empty, c);
    } else {
      ScanEncodedRankEmpty(p, rank, file, empty, c);
    }
  }

  /** The step of `ScanEncodedRank` at an empty square: nothing is written until the run ends. */
  lemma {:induction false} ScanEncodedRankEmpty(p: Position, rank: int, file: int, empty: nat, c: Cursor)
    requires |p.squares| == BoardSize && |p.colors| == BoardSize
    requires |c.squares| == BoardSize && |c.colors| == BoardSize
    requires 0 <= rank < 8 && 0 <= file < 8 && empty <= file
    requires c.file == file - empty && c.rank == rank
    requires Occupant(p, rank * 8 + file).None?
    ensures ScanFrom(Scanning(c), EncodeRankFrom(p, rank, file, empty)).Scanning?
    ensures var r := ScanFrom(Scanning(c), EncodeRankFrom(p, rank, file, empty)).cursor;
      r.file == 8 && r.rank == rank && RankStored(p, rank, file, c, r)
    decreases 8 - file, 0
  {
    ScanEncodedRank(p, rank, file + 1, empty + 1, c);
    var r := ScanFrom(Scanning(c), EncodeRankFrom(p, rank, file + 1, empty + 1)).cursor;
    RankStoredEmpty(p, rank, file, c, r);
    EncodeRankEmpty(p, rank, file, empty);
  }

  /** The step of `ScanEncodedRank` at an occupied square: the pending run, then the piece letter. */
  lemma {:induction false} ScanEncodedRankOccupied(p: Position, rank: int, file: int, empty: nat, c: Cursor)
    requires |p.squares| == BoardSize && |p.colors| == BoardSize
    requires |c.squares| == BoardSize && |c.colors| == BoardSize
    requires 0 <= rank < 8 && 0 <= file < 8 && empty <= file
    requires c.file == file - empty && c.rank == rank
    requires Occupant(p, rank * 8 + file).Some?
    ensures ScanFrom(Scanning(c), EncodeRankFrom(p, rank, file, empty)).Scanning?
    ensures var r := ScanFrom(Scanning(c), EncodeRankFrom(p, rank, file, empty)).cursor;
      r.file == 8 && r.rank == rank && RankStored(p, rank, file, c, r)
    decreases 8 - file, 0
  {
    var index := rank * 8 + file;
    var piece := Occupant(p, index).value.0;
    var color := Occupant(p, index).value.1;
    var c1 := Cursor(file, rank, c.squares, c.colors);
    var c2 := Cursor(file + 1, rank, c.squares[index := Some(piece)], c.colors[index := Some(color)]);
    ScanEmptyRun(c, empty);
    ScanPieceSymbol(c1, piece, color);
    ScanRunSymbolTail(c, EmptyRun(empty), [Symbol(piece, color)], EncodeRankFrom(p, rank, file + 1, 0), c1, c2);
    ScanEncodedRank(p, rank, file + 1, 0, c2);
    var r := ScanFrom(Scanning(c2), EncodeRankFrom(p, rank, file + 1, 0)).cursor;
    RankStoredOccupied(p, rank, file, c, c2, r);
    EncodeRankSplit(p, rank, file, empty);
  }

  /**
   * The cursor `r` holds what scanning ranks `rank` down to 0 leaves behind,
   * starting from the arrays of `c`: the occupants of those ranks are
   * stored, every other slot is as in `c`.
   */
  predicate RanksStored(p: Position, rank: int, squares0: seq<Option<Piece>>, colors0: seq<Option<Color>>, r: Cursor)
    requires |p.squares| == BoardSize && |p.colors| == BoardSize
    requires |squares0| == BoardSize && |colors0| == BoardSize
    requires |r.squares| == BoardSize && |r.colors| == BoardSize
  {
    Stored(p, 0, rank * 8 + 8, squares0, colors0, r.squares, r.colors)
  }

  /** Rank 1 on its own. */
  lemma RanksStoredFirst(p: Position, c: Cursor, r: Cursor)
    requires |p.squares| == BoardSize && |p.colors| == BoardSize
    requires |c.squares| == BoardSize && |c.colors| == BoardSize
    requires |r.squares| == BoardSize && |r.colors| == BoardSize
    requires RankStored(p, 0, 0, c, r)
    ensures RanksStored(p, 0, c.squares, c.colors, r)
  {
  }

  /** Rank `rank`, then the ranks below it. */
  lemma RanksStoredStep(p: Position, rank: int, c: Cursor, mid: Cursor, r: Cursor)
    requires |p.squares| == BoardSize && |p.colors| == BoardSize
    requires |c.squares| == BoardSize && |c.colors| == BoardSize
    requires |mid.squares| == BoardSize && |mid.colors| == BoardSize
    requires |r.squares| == BoardSize && |r.colors| == BoardSize
    requires 0 < rank < 8
    requires RankStored(p, rank, 0, c, mid) && RanksStored(p, rank - 1, mid.squares, mid.colors, r)
    ensures RanksStored(p, rank, c.squares, c.colors, r)
  {
    assert (rank - 1) * 8 + 8 == rank * 8 + 0;
  }

  /**
   * Scanning the encodings of ranks `rank` down to 0 from the start of
   * rank `rank` stores all of them.
   */
  lemma {:induction false} ScanEncodedRanks(p: Position, rank: int, c: Cursor)
    requires |p.squares| == BoardSize && |p.colors| == BoardSize
    requires |c.squares| == BoardSize && |c.colors| == BoardSize
    requires 0 <= rank < 8 && c.file == 0 && c.rank == rank
    ensures ScanFrom(Scanning(c), EncodeRanks(p, rank)).Scanning?
    ensures RanksStored(p, rank, c.squares, c.colors, ScanFrom(Scanning(c), EncodeRanks(p, rank)).cursor)
    decreases rank, 1
  {
    if rank == 0 {
      var line := EncodeRankFrom(p, rank, 0, 0);
      ScanEncodedRank(p, rank, 0, 0, c);
      assert EncodeRanks(p, rank) == line;
      RanksStoredFirst(p, c, ScanFrom(Scanning(c), line).cursor);
    } else {
      ScanEncodedRanksAbove(p, rank, c);
    }
  }

  /** The encoding of rank `rank` above rank 1 is that rank, '/', then the ranks below. */
  lemma EncodeRanksSplit(p: Position, rank: int)
    requires |p.squares| == BoardSize && |p.colors| == BoardSize
    requires 0 < rank < 8
    ensures EncodeRanks(p, rank) == EncodeRankFrom(p, rank, 0, 0) + ("/" + EncodeRanks(p, rank - 1))
  {
  }

  /**
   * Scanning a rank, '/', then the ranks below, given what each part
   * stores on its own.
   */
  lemma ScanRankThenRest(p: Position, rank: int, c: Cursor, line: string, rest: string, r1: Cursor)
    requires |p.squares| == BoardSize && |p.colors| == BoardSize
    requires |c.squares| == BoardSize && |c.colors| == BoardSize
    requires |r1.squares| == BoardSize && |r1.colors| == BoardSize
    requires 0 < rank < 8 && r1.rank == rank
    requires ScanFrom(Scanning(c), line) == Scanning(r1) && RankStored(p, rank, 0, c, r1)
    requires ScanFrom(Scanning(Cursor(0, rank - 1, r1.squares, r1.colors)), rest).Scanning?
    requires RanksStored(p, rank - 1, r1.squares, r1.colors,
                         ScanFrom(Scanning(Cursor(0, rank - 1, r1.squares, r1.colors)), rest).cursor)
    ensures ScanFrom(Scanning(c), line + ("/" + rest)).Scanning?
    ensures RanksStored(p, rank, c.squares, c.colors, ScanFrom(Scanning(c), line + ("/" + rest)).cursor)
  {
    ScanNextRank(c, line, rest, r1);
    var r := ScanFrom(Scanning(Cursor(0, rank - 1, r1.squares, r1.colors)), rest).cursor;
    RanksStoredStep(p, rank, c, r1, r);
  }

  /** The step of `ScanEncodedRanks` above rank 1: this rank, '/', then the ranks below. */
  lemma {:induction false} ScanEncodedRanksAbove(p: Position, rank: int, c: Cursor)
    requires |p.squares| == BoardSize && |p.colors| == BoardSize
    requires |c.squares| == BoardSize && |c.colors| == BoardSize
    requires 0 < rank < 8 && c.file == 0 && c.rank == rank
    ensures ScanFrom(Scanning(c), EncodeRanks(p, rank)).Scanning?
    ensures RanksStored(p, rank, c.squares, c.colors, ScanFrom(Scanning(c), EncodeRanks(p, rank)).cursor)
    decreases rank, 0
  {
    ScanEncodedRank(p, rank, 0, 0, c);
    var r1 := ScanFrom(Scanning(c), EncodeRankFrom(p, rank, 0, 0)).cursor;
    ScanEncodedRanks(p, rank - 1, Cursor(0, rank - 1, r1.squares, r1.colors));
    ScanRankThenRest(p, rank, c, EncodeRankFrom(p, rank, 0, 0), EncodeRanks(p, rank - 1), r1);
    EncodeRanksSplit(p, rank);
  }

  /** Scanning the placement that `to_fen` writes gives back the two arrays. */
  lemma ScanEncodedPlacement(p: Position)
    requires |p.squares| == BoardSize && |p.colors| == BoardSize && Consistent(p)
    ensures ScanPlacement(EncodePlacement(p)).Scanning?
    ensures ScanPlacement(EncodePlacement(p)).cursor.squares == p.squares
    ensures ScanPlacement(EncodePlacement(p)).cursor.colors == p.colors
  {
    ScanEncodedRanks(p, 7, ScanStart.cursor);
    var r := ScanPlacement(EncodePlacement(p)).cursor;
    assert RanksStored(p, 7, EmptySquares, EmptyColors, r);
    assert forall i :: 0 <= i < BoardSize ==> r.squares[i] == p.squares[i] && r.colors[i] == p.colors[i];
  }

  // ---------------------------------------------------------------------------
  // The six fields
  // ---------------------------------------------------------------------------

  /** The characters `to_fen` uses in the placement field. */
  predicate PlacementAlphabet(s: string)
  {
    forall i :: 0 <= i < |s| ==> s[i] == '/' || IsDecimalDigit(s[i]) || IsPieceLetter(s[i])
  }

  lemma {:induction false} EncodedRankAlphabet(p: Position, rank: int, file: int, empty: nat)
    requires |p.squares| == BoardSize && |p.colors| == BoardSize
    requires 0 <= rank < 8 && 0 <= file <= 8
    ensures PlacementAlphabet(EncodeRankFrom(p, rank, file, empty))
    decreases 8 - file
  {
    if file < 8 {
      match Occupant(p, rank * 8 + file)
      case Some((piece, color)) =>
        SymbolIsLetter(piece, color);
        EncodedRankAlphabet(p, rank, file + 1, 0);
      case None =>
        EncodedRankAlphabet(p, rank, file + 1, empty + 1);
    }
  }

  lemma {:induction false} EncodedRanksAlphabet(p: Position, rank: int)
    requires |p.squares| == BoardSize && |p.colors| == BoardSize && 0 <= rank < 8
    ensures PlacementAlphabet(EncodeRanks(p, rank))
    decreases rank
  {
    EncodedRankAlphabet(p, rank, 0, 0);
    if rank > 0 {
      EncodedRanksAlphabet(p, rank - 1);
    }
  }

  /** The six fields `to_fen` writes, in order. */
  function FenFields(p: Position): seq<string>
    requires Encodable(p)
  {
    [EncodePlacement(p), ColorField(p.toMove), CastlingField(p), EnPassantField(p),
     NatToString(p.halfMoveClock), NatToString(p.fullMoveNumber)]
  }

  /** Six words joined by single spaces. */
  lemma JoinSix(w0: string, w1: string, w2: string, w3: string, w4: string, w5: string)
    ensures JoinWords([w0, w1, w2, w3, w4, w5])
         == w0 + " " + w1 + " " + w2 + " " + w3 + " " + w4 + " " + w5
  {
    var f := [w0, w1, w2, w3, w4, w5];
    assert f[5..] == [w5];
    assert f[4..][1..] == f[5..];
    assert JoinWords(f[4..]) == w4 + " " + w5;
    assert f[3..][1..] == f[4..];
    assert JoinWords(f[3..]) == w3 + " " + JoinWords(f[4..]);
    assert f[2..][1..] == f[3..];
    assert JoinWords(f[2..]) == w2 + " " + JoinWords(f[3..]);
    assert f[1..][1..] == f[2..];
    assert JoinWords(f[1..]) == w1 + " " + JoinWords(f[2..]);
    assert JoinWords(f) == w0 + " " + JoinWords(f[1..]);
  }

  /** The placement field is non-empty and free of whitespace. */
  lemma EncodedPlacementIsWord(p: Position)
    requires |p.squares| == BoardSize && |p.colors| == BoardSize
    ensures EncodePlacement(p) != [] && NoWhitespace(EncodePlacement(p))
  {
    EncodedRanksAlphabet(p, 7);
    assert EncodePlacement(p)[|EncodeRankFrom(p, 7, 0, 0)|] == '/';
  }

  /** A character of the castling field is one of the letters whose flag is set, or the '-' of none. */
  lemma CastlingFieldMembers(p: Position, ch: char)
    ensures ch in CastlingField(p) <==>
      || (ch == 'K' && p.canWhiteKingSideCastle)
      || (ch == 'Q' && p.canWhiteQueenSideCastle)
      || (ch == 'k' && p.canBlackKingSideCastle)
      || (ch == 'q' && p.canBlackQueenSideCastle)
      || (ch == '-' && !(p.canWhiteKingSideCastle || p.canWhiteQueenSideCastle
                         || p.canBlackKingSideCastle || p.canBlackQueenSideCastle))
  {
    var k := Flag(p.canWhiteKingSideCastle, 'K');
    var q := Flag(p.canWhiteQueenSideCastle, 'Q');
    var k' := Flag(p.canBlackKingSideCastle, 'k');
    var q' := Flag(p.canBlackQueenSideCastle, 'q');
    var none := Flag(!(p.canWhiteKingSideCastle || p.canWhiteQueenSideCastle
                       || p.canBlackKingSideCastle || p.canBlackQueenSideCastle), '-');
    MemberOfConcat(ch, k + q + k' + q', none);
    MemberOfConcat(ch, k + q + k', q');
    MemberOfConcat(ch, k + q, k');
    MemberOfConcat(ch, k, q);
  }

  /** Appending the castling field appends its letters one after the other. */
  lemma CastlingFieldAppended(p: Position, written: string)
    ensures written + CastlingField(p)
         == written + Flag(p.canWhiteKingSideCastle, 'K') + Flag(p.canWhiteQueenSideCastle, 'Q')
            + Flag(p.canBlackKingSideCastle, 'k') + Flag(p.canBlackQueenSideCastle, 'q')
            + Flag(!(p.canWhiteKingSideCastle || p.canWhiteQueenSideCastle
                     || p.canBlackKingSideCastle || p.canBlackQueenSideCastle), '-')
  {
  }

  /** The castling field is one of K, Q, k, q in that order, or '-'. */
  lemma CastlingFieldIsWord(p: Position)
    ensures CastlingField(p) != [] && NoWhitespace(CastlingField(p))
  {
    var field := CastlingField(p);
    forall i | 0 <= i < |field| ensures !IsWhitespace(field[i]) {
      CastlingFieldMembers(p, field[i]);
    }
    if !(p.canWhiteKingSideCastle || p.canWhiteQueenSideCastle || p.canBlackKingSideCastle) {
      CastlingFieldMembers(p, if p.canBlackQueenSideCastle then 'q' else '-');
    } else {
      CastlingFieldMembers(p, if p.canWhiteKingSideCastle then 'K' else if p.canWhiteQueenSideCastle then 'Q' else 'k');
    }
  }

  /** The en-passant field is '-' or a square's name. */
  lemma EnPassantFieldIsWord(p: Position)
    requires Encodable(p)
    ensures EnPassantField(p) != [] && NoWhitespace(EnPassantField(p))
  {
  }

  /** `to_fen` writes six non-empty fields without whitespace, separated by single spaces. */
  lemma EncodeFenFields(p: Position)
    requires Encodable(p)
    ensures EncodeFen(p) == JoinWords(FenFields(p))
    ensures forall i :: 0 <= i < 6 ==> FenFields(p)[i] != [] && NoWhitespace(FenFields(p)[i])
  {
    var f := FenFields(p);
    JoinSix(f[0], f[1], f[2], f[3], f[4], f[5]);
    EncodedPlacementIsWord(p);
    CastlingFieldIsWord(p);
    EnPassantFieldIsWord(p);
    NatToStringNoWhitespace(p.halfMoveClock);
    NatToStringNoWhitespace(p.fullMoveNumber);
  }

  /** The split of what `to_fen` writes is its six fields. */
  lemma SplitEncodedFen(p: Position)
    requires Encodable(p)
    ensures SplitWhitespace(EncodeFen(p)) == FenFields(p)
  {
    EncodeFenFields(p);
    SplitJoinWords(FenFields(p));
  }

  /** The castling field `to_fen` writes is valid and holds exactly the letters of the rights that are set. */
  lemma CastlingFieldRoundTrip(p: Position)
    ensures ValidCastlingField(CastlingField(p))
    ensures 'K' in CastlingField(p) <==> p.canWhiteKingSideCastle
    ensures 'Q' in CastlingField(p) <==> p.canWhiteQueenSideCastle
    ensures 'k' in CastlingField(p) <==> p.canBlackKingSideCastle
    ensures 'q' in CastlingField(p) <==> p.canBlackQueenSideCastle
  {
    forall i | 0 <= i < |CastlingField(p)| ensures IsCastlingChar(CastlingField(p)[i]) {
      CastlingFieldMembers(p, CastlingField(p)[i]);
    }
    CastlingFieldMembers(p, 'K');
    CastlingFieldMembers(p, 'Q');
    CastlingFieldMembers(p, 'k');
    CastlingFieldMembers(p, 'q');
  }

  lemma MemberOfConcat(ch: char, a: string, b: string)
    ensures ch in a + b <==> ch in a || ch in b
  {
    if ch in a {
      var i :| 0 <= i < |a| && a[i] == ch;
      assert (a + b)[i] == ch;
    }
    if ch in b {
      var i :| 0 <= i < |b| && b[i] == ch;
      assert (a + b)[|a| + i] == ch;
    }
  }

  /** The en-passant field `to_fen` writes parses back to the en-passant square. */
  lemma EnPassantFieldRoundTrip(p: Position)
    requires Encodable(p)
    ensures ParseEnPassantSquare(EnPassantField(p)) == Success(p.enPassantSquare)
  {
    if p.enPassantSquare.Some? {
      ParseSquareName(p.enPassantSquare.value);
    }
  }

  /** A string that splits into the six fields of `p` decodes to `p`. */
  lemma DecodeFenFields(fen: string, p: Position)
    requires WellFormed(p) && Consistent(p) && Encodable(p)
    requires SplitWhitespace(fen) == FenFields(p)
    ensures Decodable(fen)
    ensures DecodeFen(fen) == Success(p)
  {
    var fields := SplitWhitespace(fen);
    ScanEncodedPlacement(p);
    var placed := ScanPlacement(fields[0]).cursor;
    assert ParseActiveColor(fields[1]) == Some(p.toMove);
    CastlingFieldRoundTrip(p);
    EnPassantFieldRoundTrip(p);
    ParseNatToString(p.halfMoveClock);
    ParseNatToString(p.fullMoveNumber);
    assert DecodeFen(fen) == Success(Position(
      placed.squares, placed.colors, p.toMove,
      'K' in fields[2], 'k' in fields[2], 'Q' in fields[2], 'q' in fields[2],
      p.enPassantSquare, p.halfMoveClock, p.fullMoveNumber));
  }

  /**
   * The round trip: `from_fen(to_fen(p))` gives back `p` for every well
   * formed position in which pieces and colours are present together.
   */
  lemma FenRoundTrip(p: Position)
    requires WellFormed(p) && Consistent(p) && Encodable(p)
    ensures Decodable(EncodeFen(p))
    ensures DecodeFen(EncodeFen(p)) == Success(p)
  {
    SplitEncodedFen(p);
    DecodeFenFields(EncodeFen(p), p);
  }

  /** Every position `from_fen` produces survives `to_fen` followed by `from_fen`. */
  lemma DecodedRoundTrip(fen: string)
    requires Decodable(fen) && DecodeFen(fen).Success?
    ensures Encodable(DecodeFen(fen).value)
    ensures Decodable(EncodeFen(DecodeFen(fen).value))
    ensures DecodeFen(EncodeFen(DecodeFen(fen).value)) == DecodeFen(fen)
  {
    FenRoundTrip(DecodeFen(fen).value);
  }

  /**
   * The order in which `from_fen` reports errors: placement, active
   * colour, castling, half-move clock, full-move number, en passant. Each
   * error is reported exactly when its field is the first to fail, and
   * the decoding succeeds exactly when none fails.
   */
  lemma DecodeFenErrors(fen: string)
    requires Decodable(fen)
    ensures var fields := SplitWhitespace(fen);
      var placed := ScanPlacement(fields[0]).Scanning?;
      var colored := placed && ParseActiveColor(fields[1]).Some?;
      var castled := colored && ValidCastlingField(fields[2]);
      var halfClocked := castled && ParseU32(fields[4]).Some?;
      var fullClocked := halfClocked && ParseU32(fields[5]).Some?;
      && (DecodeFen(fen) == Failure(InvalidPieceSymbol) <==> !placed)
      && (DecodeFen(fen) == Failure(InvalidActiveColor) <==> placed && !colored)
      && (DecodeFen(fen) == Failure(InvalidCastlingRights) <==> colored && !castled)
      && (DecodeFen(fen) == Failure(InvalidHalfmoveClock) <==> castled && !halfClocked)
      && (DecodeFen(fen) == Failure(InvalidFullmoveNumber) <==> halfClocked && !fullClocked)
      && (DecodeFen(fen) == Failure(InvalidSquare) <==> fullClocked && ParseEnPassantSquare(fields[3]).Failure?)
      && (DecodeFen(fen).Success? <==> fullClocked && ParseEnPassantSquare(fields[3]).Success?)
  {
  }

  // ---------------------------------------------------------------------------
  // Whole ranks
  // ---------------------------------------------------------------------------

  /** The letter `to_fen` writes for a square of a rank, if it is occupied. */
  function RankLetter(p: Position, rank: int, file: int): Option<char>
    requires |p.squares| == BoardSize && |p.colors| == BoardSize && 0 <= rank < 8 && 0 <= file < 8
  {
    match Occupant(p, rank * 8 + file)
    case Some((piece, color)) => Some(Symbol(piece, color))
    case None => None
  }

  /** The empty squares from `file` to the end of a rank all join the pending run. */
  lemma {:induction false} EncodeEmptyRank(p: Position, rank: int, file: int, empty: nat)
    requires |p.squares| == BoardSize && |p.colors| == BoardSize && 0 <= rank < 8 && 0 <= file <= 8
    requires forall f :: file <= f < 8 ==> RankLetter(p, rank, f).None?
    ensures EncodeRankFrom(p, rank, file, empty) == EmptyRun(empty + 8 - file)
    decreases 8 - file
  {
    if file == 8 {
      EncodeRankEnd(p, rank, empty);
    } else {
      assert RankLetter(p, rank, file).None?;
      EncodeRankEmpty(p, rank, file, empty);
      EncodeEmptyRank(p, rank, file + 1, empty + 1);
    }
  }

  /** A rank occupied from `file` on is written as its letters, with no digits. */
  lemma {:induction false} EncodeFullRank(p: Position, rank: int, file: int, letters: string)
    requires |p.squares| == BoardSize && |p.colors| == BoardSize && 0 <= rank < 8 && 0 <= file <= 8
    requires |letters| == 8
    requires forall f :: file <= f < 8 ==> RankLetter(p, rank, f) == Some(letters[f])
    ensures EncodeRankFrom(p, rank, file, 0) == letters[file..]
    decreases 8 - file
  {
    if file == 8 {
      EncodeRankEnd(p, rank, 0);
    } else {
      assert RankLetter(p, rank, file) == Some(letters[file]);
      EncodeRankSplit(p, rank, file, 0);
      EncodeFullRank(p, rank, file + 1, letters);
      assert letters[file..] == [letters[file]] + letters[file + 1..];
    }
  }
}
