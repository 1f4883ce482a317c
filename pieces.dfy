/**
 * The piece and colour vocabulary of the engine, with the mapping to the
 * single-letter symbols of Forsyth-Edwards Notation (upper case for White,
 * lower case for Black).
 */
module Pieces {
  import opened Results

  datatype Piece = Pawn | Knight | Bishop | Rook | Queen | King

  datatype Color = White | Black

  /** The other side. */
  function Opponent(c: Color): (o: Color)
    ensures o != c
  {
    if c == White then Black else White
  }

  /** The FEN symbol of a piece of a colour (`Piece::to_symbol`). */
  function Symbol(p: Piece, c: Color): (ch: char)
    ensures 'A' <= ch <= 'Z' <==> c == White
    ensures 'a' <= ch <= 'z' <==> c == Black
  {
    match (p, c)
    case (Pawn, White) => 'P'
    case (Pawn, Black) => 'p'
    case (Knight, White) => 'N'
    case (Knight, Black) => 'n'
    case (Bishop, White) => 'B'
    case (Bishop, Black) => 'b'
    case (Rook, White) => 'R'
    case (Rook, Black) => 'r'
    case (Queen, White) => 'Q'
    case (Queen, Black) => 'q'
    case (King, White) => 'K'
    case (King, Black) => 'k'
  }

  /** The twelve letters that denote a piece. */
  predicate IsPieceLetter(ch: char)
  {
    ch in "PNBRQKpnbrqk"
  }

  /**
   * The symbol table used when a FEN placement is decoded: every piece
   * letter names a (piece, colour) pair, anything else names nothing.
   */
  function PieceFromSymbol(ch: char): (r: Option<(Piece, Color)>)
    ensures r.Some? <==> IsPieceLetter(ch)
    ensures r.Some? ==> Symbol(r.value.0, r.value.1) == ch
  {
    match ch
    case 'P' => Some((Pawn, White))
    case 'p' => Some((Pawn, Black))
    case 'N' => Some((Knight, White))
    case 'n' => Some((Knight, Black))
    case 'B' => Some((Bishop, White))
    case 'b' => Some((Bishop, Black))
    case 'R' => Some((Rook, White))
    case 'r' => Some((Rook, Black))
    case 'Q' => Some((Queen, White))
    case 'q' => Some((Queen, Black))
    case 'K' => Some((King, White))
    case 'k' => Some((King, Black))
    case _ => None
  }

  /** Decoding the symbol of a piece gives the piece back. */
  lemma SymbolRoundTrip(p: Piece, c: Color)
    ensures PieceFromSymbol(Symbol(p, c)) == Some((p, c))
  {
  }

  /** A piece symbol is never a digit, a slash or a space. */
  lemma SymbolIsLetter(p: Piece, c: Color)
    ensures IsPieceLetter(Symbol(p, c))
    ensures !('0' <= Symbol(p, c) <= '9') && Symbol(p, c) != '/' && Symbol(p, c) != ' '
  {
  }
}
