/** The knight's movement predicate. */
module KnightMoves {
  import opened Geometry
  import opened Boards
  import RookMoves

  /** The eight displacements (dx, dy) a knight may jump by. */
  const Jumps: set<(int, int)> :=
    {(1, 2), (2, 1), (-1, 2), (-2, 1), (1, -2), (2, -1), (-1, -2), (-2, -1)}

  /** `Knight.confirmLegalMove`: the absolute displacements are (1, 2) or
      (2, 1). The board argument is not consulted. */
  function ConfirmLegalMove(m: Move, board: Board): (r: bool)
    ensures r <==> (Dx(m), Dy(m)) in Jumps
  {
    var xLength := Abs(Dx(m));
    var yLength := Abs(Dy(m));
    (xLength == 1 && yLength == 2) || (xLength == 2 && yLength == 1)
  }

  /** The verdict is the same on every board. */
  lemma IgnoresBoard(m: Move, a: Board, b: Board)
    ensures ConfirmLegalMove(m, a) == ConfirmLegalMove(m, b)
  {
  }

  /** Playing a move backwards does not change the verdict. */
  lemma Symmetric(m: Move, board: Board)
    ensures ConfirmLegalMove(Reversed(m), board) == ConfirmLegalMove(m, board)
  {
  }

  /** Negating either displacement, or exchanging the axes, does not change
      the verdict. */
  lemma SymmetriesPreserve(m: Move, board: Board)
    ensures ConfirmLegalMove(MirroredX(m), board) == ConfirmLegalMove(m, board)
    ensures ConfirmLegalMove(MirroredY(m), board) == ConfirmLegalMove(m, board)
    ensures ConfirmLegalMove(Transposed(m), board) == ConfirmLegalMove(m, board)
  {
  }

  /** Standing still is not a knight move. */
  lemma ZeroMoveRejected(s: Square, board: Board)
    ensures !ConfirmLegalMove(Move(s, s), board)
  {
  }

  /** A knight move never stays on a rank or file, so no move is both a
      knight move and a rook move. */
  lemma DisjointFromRook(m: Move, board: Board)
    ensures ConfirmLegalMove(m, board) ==> m.source.x != m.target.x && m.source.y != m.target.y
    ensures !(ConfirmLegalMove(m, board) && RookMoves.ConfirmLegalMove(m, board))
  {
  }
}
