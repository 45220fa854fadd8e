/** The rook's movement predicate. */
module RookMoves {
  import opened Geometry
  import opened Boards

  /** `Rook.isLegalMove`: source and target share the x or the y coordinate.
      The two tests are joined by a plain "or", so the zero-length move is
      accepted too. */
  predicate IsLegalMove(m: Move)
  {
    m.source.x == m.target.x || m.source.y == m.target.y
  }

  /** `Rook.confirmLegalMove`: delegates to `IsLegalMove` and never looks at
      the board. */
  predicate ConfirmLegalMove(m: Move, board: Board)
  {
    IsLegalMove(m)
  }

  /** Reference definition: `t` lies some whole number of steps from `s`
      along the rank or along the file through `s` (zero steps included). */
  ghost predicate Slides(s: Square, t: Square)
  {
    exists k: int :: t == Translate(s, k, 0) || t == Translate(s, 0, k)
  }

  /** The predicate accepts exactly the moves that slide along one line. */
  lemma {:induction false} LegalIffSlides(m: Move)
    ensures IsLegalMove(m) <==> Slides(m.source, m.target)
  {
    if m.source.y == m.target.y {
      assert m.target == Translate(m.source, Dx(m), 0);
    } else if m.source.x == m.target.x {
      assert m.target == Translate(m.source, 0, Dy(m));
    }
  }

  /** `confirmLegalMove` agrees with `isLegalMove` whatever the board. */
  lemma ConfirmIgnoresBoard(m: Move, board: Board)
    ensures ConfirmLegalMove(m, board) <==> Slides(m.source, m.target)
  {
    LegalIffSlides(m);
  }

  /** Playing a move backwards does not change the verdict. */
  lemma Symmetric(m: Move)
    ensures IsLegalMove(Reversed(m)) == IsLegalMove(m)
  {
  }

  /** The zero-length move is accepted: the code does not demand that exactly
      one coordinate differ. */
  lemma ZeroMoveAccepted(s: Square)
    ensures IsLegalMove(Move(s, s))
  {
  }

  /** A move that changes both coordinates is rejected; this includes every
      diagonal move. */
  lemma RejectsOffLine(m: Move)
    ensures Dx(m) != 0 && Dy(m) != 0 ==> !IsLegalMove(m)
    ensures Abs(Dx(m)) == Abs(Dy(m)) && Dx(m) != 0 ==> !IsLegalMove(m)
  {
  }

  /** Shifting both squares by the same offset does not change the verdict. */
  lemma TranslationInvariant(m: Move, dx: int, dy: int)
    ensures IsLegalMove(Shifted(m, dx, dy)) == IsLegalMove(m)
  {
  }
}
