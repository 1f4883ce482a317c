/**
 * Square indices of the flattened 8x8 board and their algebraic names.
 * Index `rank * 8 + file`; rank 0 is the first rank ("1"), file 0 the
 * a-file. The name of a square is its file letter followed by its rank digit.
 */
module Squares {
  import opened Results

  const BoardSize := 64

  function RankOf(sq: int): int { sq / 8 }

  function FileOf(sq: int): int { sq % 8 }

  /** A square's index from its file and rank, the inverse of FileOf and RankOf. */
  function IndexOf(file: int, rank: int): (sq: int)
    requires 0 <= file < 8 && 0 <= rank < 8
    ensures 0 <= sq < BoardSize
    ensures FileOf(sq) == file && RankOf(sq) == rank
  {
    rank * 8 + file
  }

  /** Every square is the index of its own file and rank. */
  lemma IndexOfFileRank(sq: int)
    requires 0 <= sq < BoardSize
    ensures 0 <= FileOf(sq) < 8 && 0 <= RankOf(sq) < 8
    ensures IndexOf(FileOf(sq), RankOf(sq)) == sq
  {
  }

  /**
   * The algebraic name of a square ("a1" for 0, "h8" for 63): the
   * `square_names` table of the board's FEN writer, computed from file
   * and rank.
   */
  function SquareName(sq: int): (name: string)
    requires 0 <= sq < BoardSize
    ensures |name| == 2
    ensures 'a' <= name[0] <= 'h' && '1' <= name[1] <= '8'
    ensures name[0] == "abcdefgh"[FileOf(sq)] && name[1] == "12345678"[RankOf(sq)]
  {
    [('a' as int + FileOf(sq)) as char, ('1' as int + RankOf(sq)) as char]
  }

  /**
   * `Square::from_algebraic_notation` followed by `as_index`: exactly one
   * file letter 'a'..'h' and one rank digit '1'..'8'; anything else is not
   * a square.
   */
  function ParseSquare(s: string): (r: Option<int>)
    ensures r.Some? ==> 0 <= r.value < BoardSize && SquareName(r.value) == s
    ensures r.None? ==> forall sq :: 0 <= sq < BoardSize ==> SquareName(sq) != s
  {
    if |s| == 2 && 'a' <= s[0] <= 'h' && '1' <= s[1] <= '8' then
      Some(IndexOf(s[0] as int - 'a' as int, s[1] as int - '1' as int))
    else
      None
  }

  /** Parsing the name of a square gives the square back. */
  lemma ParseSquareName(sq: int)
    requires 0 <= sq < BoardSize
    ensures ParseSquare(SquareName(sq)) == Some(sq)
  {
    var name := SquareName(sq);
    assert name[0] as int - 'a' as int == FileOf(sq);
    assert name[1] as int - '1' as int == RankOf(sq);
    IndexOfFileRank(sq);
  }
}
