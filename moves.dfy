/**
 * A move, a (from, to) pair of square indices, and the effect of
 * `move_piece` and `put_piece` on a position, stated on values so that
 * the board's methods and the move generator can share them.
 */
module Moves {
  import opened Results
  import opened Pieces
  import opened Squares
  import opened Fen

  datatype Move = Move(startingSquare: int, targetSquare: int)

  predicate OnBoard(mv: Move)
  {
    0 <= mv.startingSquare < BoardSize && 0 <= mv.targetSquare < BoardSize
  }

  predicate BoardSized(p: Position)
  {
    |p.squares| == BoardSize && |p.colors| == BoardSize
  }

  /**
   * `move_piece`: the contents of the starting square (piece and colour,
   * whatever they are) go to the target square, the starting square is
   * emptied and the side to move changes. Nothing else is looked at or
   * changed: no legality, captures simply overwrite, and a move whose two
   * squares coincide empties that square.
   */
  function ApplyMove(p: Position, mv: Move): (q: Position)
    requires BoardSized(p) && OnBoard(mv)
    ensures BoardSized(q)
    ensures q.squares[mv.startingSquare] == None && q.colors[mv.startingSquare] == None
    ensures mv.startingSquare != mv.targetSquare ==>
      q.squares[mv.targetSquare] == p.squares[mv.startingSquare] &&
      q.colors[mv.targetSquare] == p.colors[mv.startingSquare]
    ensures forall i :: 0 <= i < BoardSize && i != mv.startingSquare && i != mv.targetSquare ==>
      q.squares[i] == p.squares[i] && q.colors[i] == p.colors[i]
    ensures q.toMove == Opponent(p.toMove)
    ensures q.(squares := p.squares, colors := p.colors, toMove := p.toMove) == p
  {
    var piece := p.squares[mv.startingSquare];
    var color := p.colors[mv.startingSquare];
    p.(squares := p.squares[mv.targetSquare := piece][mv.startingSquare := None],
       colors := p.colors[mv.targetSquare := color][mv.startingSquare := None],
       toMove := if p.toMove == White then Black else White)
  }

  /** `put_piece`: the square gets the piece and its colour; nothing else changes. */
  function PlacePiece(p: Position, square: int, piece: Piece, color: Color): (q: Position)
    requires BoardSized(p) && 0 <= square < BoardSize
    ensures BoardSized(q)
    ensures Occupant(q, square) == Some((piece, color))
    ensures forall i :: 0 <= i < BoardSize && i != square ==>
      q.squares[i] == p.squares[i] && q.colors[i] == p.colors[i]
    ensures q.(squares := p.squares, colors := p.colors) == p
  {
    p.(squares := p.squares[square := Some(piece)], colors := p.colors[square := Some(color)])
  }

  /** Moving keeps pieces and colours together. */
  lemma ApplyMoveConsistent(p: Position, mv: Move)
    requires BoardSized(p) && OnBoard(mv) && Consistent(p)
    ensures Consistent(ApplyMove(p, mv))
  {
  }

  /** Placing a piece keeps pieces and colours together. */
  lemma PlacePieceConsistent(p: Position, square: int, piece: Piece, color: Color)
    requires BoardSized(p) && 0 <= square < BoardSize && Consistent(p)
    ensures Consistent(PlacePiece(p, square, piece, color))
  {
  }

  /**
   * A move onto an empty square is undone by the move back: the position,
   * side to move included, is restored.
   */
  lemma MoveBack(p: Position, mv: Move)
    requires BoardSized(p) && OnBoard(mv) && mv.startingSquare != mv.targetSquare
    requires p.squares[mv.targetSquare] == None && p.colors[mv.targetSquare] == None
    ensures ApplyMove(ApplyMove(p, mv), Move(mv.targetSquare, mv.startingSquare)) == p
  {
    var q := ApplyMove(ApplyMove(p, mv), Move(mv.targetSquare, mv.startingSquare));
    assert q.squares == p.squares;
    assert q.colors == p.colors;
  }

  /** A move whose two squares coincide removes the piece standing there. */
  lemma NullMoveRemoves(p: Position, square: int)
    requires BoardSized(p) && 0 <= square < BoardSize
    ensures Occupant(ApplyMove(p, Move(square, square)), square) == None
  {
  }

  /** Two moves give the move back to the side that had it. */
  lemma TwoMovesSameSide(p: Position, m1: Move, m2: Move)
    requires BoardSized(p) && OnBoard(m1) && OnBoard(m2)
    ensures ApplyMove(ApplyMove(p, m1), m2).toMove == p.toMove
  {
  }
}
