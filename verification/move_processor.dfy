/** `MoveProcessor.process`: validate a move, apply it speculatively through
    piece mementos, and roll it back if it leaves the king in check.

    The collaborators the processor consults are parameters:
    `isLegalMove` is the rules book's geometry verdict for a piece type,
    `isPathClear` and `isKingInCheck` are the board's queries. */
module MoveProcessor {
  import opened Results
  import opened Geometry
  import opened PieceTypes
  import opened Boards

  /** The board after the piece on `from` has been carried to `to`, whatever
      stood on `to` being gone, described square by square rather than
      through mementos. */
  function Relocated(b: Board, from: Square, to: Square): (r: Board)
    requires from in b
    ensures to in r && r[to] == b[from]
    ensures from != to ==> from !in r
    ensures AgreeOutside(r, b, {from, to})
  {
    map sq | sq in (b.Keys - {from}) + {to} :: if sq == to then b[from] else b[sq]
  }

  /** The board after the speculative apply, with the mementos kept for a
      rollback. */
  datatype Speculation = Speculation(board: Board, sourceMemento: Memento, capturedMemento: Option<Memento>)

  /** The capture-and-move part of `process`: capture whatever stands on the target
      (keeping its memento), then move the source piece there (keeping its
      memento). Only reached once the fellow check has passed, which rules out
      the zero-length move. */
  function Speculate(b: Board, source: Square, target: Square): (s: Speculation)
    requires source in b && source != target
    ensures s.sourceMemento == Memento(b[source], source)
    ensures s.capturedMemento.Some? <==> target in b
    ensures target in b ==> s.capturedMemento == Some(Memento(b[target], target))
  {
    var (afterCapture, captured) :=
      if target in b then
        var (c, m) := Captured(b, target);
        (c, Some(m))
      else (b, None);
    var (afterMove, moved) := MovedTo(afterCapture, source, target);
    Speculation(afterMove, moved, captured)
  }

  /** The rollback: the moved piece, now on `target`, is restored from its
      memento, then the captured piece, if any, from its own. */
  function Rollback(s: Speculation, target: Square): Board
  {
    var restored := RestoredTo(s.board, Some(target), s.sourceMemento);
    match s.capturedMemento
    case None => restored
    case Some(m) => RestoredTo(restored, None, m)
  }

  /** The speculative board is the plain relocation of the source piece. */
  lemma SpeculateRelocates(b: Board, source: Square, target: Square)
    requires source in b && source != target
    ensures Speculate(b, source, target).board == Relocated(b, source, target)
  {
  }

  /** Rolling back a speculation gives back the board it started from,
      captured piece included. */
  lemma RollbackRestores(b: Board, source: Square, target: Square)
    requires source in b && source != target
    ensures Rollback(Speculate(b, source, target), target) == b
  {
  }

  /** `MoveProcessor.process(move, board)`: the verdict, and the board as the
      call leaves it. */
  function Process(
    move: Move,
    board: Board,
    isLegalMove: (PieceType, Square, Square) -> bool,
    isPathClear: (Board, Square, Square) -> bool,
    isKingInCheck: Board -> bool
  ): (r: (bool, Board))
    ensures r.0 <==>
      && move.source in board
      && isLegalMove(board[move.source].kind, move.source, move.target)
      && isPathClear(board, move.source, move.target)
      && !(move.target in board && IsFellow(board[move.source], board[move.target]))
      && !isKingInCheck(Relocated(board, move.source, move.target))
    ensures r.0 ==> move.source != move.target
    ensures r.0 ==> r.1 == Relocated(board, move.source, move.target)
    ensures !r.0 ==> r.1 == board
  {
    var source, target := move.source, move.target;
    if source !in board then (false, board)
    else
      var piece := board[source];
      if !isLegalMove(piece.kind, source, target) then (false, board)
      else if !isPathClear(board, source, target) then (false, board)
      else if target in board && IsFellow(piece, board[target]) then (false, board)
      else
        var s := Speculate(board, source, target);
        SpeculateRelocates(board, source, target);
        if isKingInCheck(s.board) then
          RollbackRestores(board, source, target);
          (false, Rollback(s, target))
        else (true, s.board)
  }

  // The scenarios the processor's unit tests fix, for every choice of
  // collaborators.

  /** Legal geometry, a clear path, an empty target and no check: the move is
      accepted and the source piece now stands on the target. */
  lemma AcceptsClearMove(
    move: Move, board: Board,
    isLegalMove: (PieceType, Square, Square) -> bool,
    isPathClear: (Board, Square, Square) -> bool,
    isKingInCheck: Board -> bool)
    requires move.source in board && move.target !in board
    requires isLegalMove(board[move.source].kind, move.source, move.target)
    requires isPathClear(board, move.source, move.target)
    requires !isKingInCheck(Relocated(board, move.source, move.target))
    ensures var (accepted, after) := Process(move, board, isLegalMove, isPathClear, isKingInCheck);
      && accepted
      && move.target in after && after[move.target] == board[move.source]
      && move.source !in after
      && AgreeOutside(after, board, {move.source, move.target})
  {
  }

  /** An enemy piece on the target is captured: it leaves the board and the
      mover takes its square. */
  lemma CapturesEnemy(
    move: Move, board: Board,
    isLegalMove: (PieceType, Square, Square) -> bool,
    isPathClear: (Board, Square, Square) -> bool,
    isKingInCheck: Board -> bool)
    requires move.source in board && move.target in board
    requires !IsFellow(board[move.source], board[move.target])
    requires isLegalMove(board[move.source].kind, move.source, move.target)
    requires isPathClear(board, move.source, move.target)
    requires !isKingInCheck(Relocated(board, move.source, move.target))
    ensures var (accepted, after) := Process(move, board, isLegalMove, isPathClear, isKingInCheck);
      && accepted
      && after[move.target] == board[move.source]
      && move.source !in after
      && |after| == |board| - 1
  {
  }

  /** No piece on the source square: rejected, board untouched. */
  lemma RejectsMissingSource(
    move: Move, board: Board,
    isLegalMove: (PieceType, Square, Square) -> bool,
    isPathClear: (Board, Square, Square) -> bool,
    isKingInCheck: Board -> bool)
    requires move.source !in board
    ensures Process(move, board, isLegalMove, isPathClear, isKingInCheck) == (false, board)
  {
  }

  /** Geometry the rules book refuses: rejected, board untouched. */
  lemma RejectsIllegalGeometry(
    move: Move, board: Board,
    isLegalMove: (PieceType, Square, Square) -> bool,
    isPathClear: (Board, Square, Square) -> bool,
    isKingInCheck: Board -> bool)
    requires move.source in board
    requires !isLegalMove(board[move.source].kind, move.source, move.target)
    ensures Process(move, board, isLegalMove, isPathClear, isKingInCheck) == (false, board)
  {
  }

  /** A blocked path: rejected, board untouched. */
  lemma RejectsBlockedPath(
    move: Move, board: Board,
    isLegalMove: (PieceType, Square, Square) -> bool,
    isPathClear: (Board, Square, Square) -> bool,
    isKingInCheck: Board -> bool)
    requires move.source in board
    requires !isPathClear(board, move.source, move.target)
    ensures Process(move, board, isLegalMove, isPathClear, isKingInCheck) == (false, board)
  {
  }

  /** A fellow piece on the target: rejected, board untouched, whatever the
      geometry. */
  lemma RejectsFellowTarget(
    move: Move, board: Board,
    isLegalMove: (PieceType, Square, Square) -> bool,
    isPathClear: (Board, Square, Square) -> bool,
    isKingInCheck: Board -> bool)
    requires move.source in board && move.target in board
    requires IsFellow(board[move.source], board[move.target])
    ensures Process(move, board, isLegalMove, isPathClear, isKingInCheck) == (false, board)
  {
  }

  /** The king in check after the speculative move: rejected, and the rollback
      puts the source piece back on its square and any captured piece back on
      the target, so the board is exactly as before. */
  lemma RejectsSelfCheck(
    move: Move, board: Board,
    isLegalMove: (PieceType, Square, Square) -> bool,
    isPathClear: (Board, Square, Square) -> bool,
    isKingInCheck: Board -> bool)
    requires move.source in board
    requires isKingInCheck(Relocated(board, move.source, move.target))
    ensures var (accepted, after) := Process(move, board, isLegalMove, isPathClear, isKingInCheck);
      && !accepted
      && after == board
      // the two restorations the tests verify, spelled out
      && move.source in after && after[move.source] == board[move.source]
      && (move.target in board ==> move.target in after && after[move.target] == board[move.target])
  {
  }

  /** The zero-length move is never processed, even for a piece (such as the
      rook) whose geometry accepts it: the piece on the target is the mover
      itself, a fellow. */
  lemma ZeroMoveRejected(
    s: Square, board: Board,
    isLegalMove: (PieceType, Square, Square) -> bool,
    isPathClear: (Board, Square, Square) -> bool,
    isKingInCheck: Board -> bool)
    ensures Process(Move(s, s), board, isLegalMove, isPathClear, isKingInCheck) == (false, board)
  {
  }
}
