# Chess move processing, modelled in Dafny

This project models the core of a small Java chess engine (package
`org.krloxz.chess`). It covers four pieces of the engine's logic:

- the knight's movement predicate (`Knight.confirmLegalMove`);
- the rook's movement predicates (`Rook.isLegalMove`, `Rook.confirmLegalMove`);
- the piece-type table and its lookup by SAN abbreviation (`PieceType.fromSanAbbreviation`);
- the move-processing transaction `MoveProcessor.process(move, board)`, as its unit tests fix it.

`process` looks up the piece on the source square and asks the rules book
whether the move's geometry is legal. It then asks the board whether the path is
clear and refuses a target held by a fellow piece (one of the same colour). Next
it captures an enemy on the target and moves the source piece, keeping a memento
of each. If the king is then in check, both mementos are restored and the call
returns false; otherwise it returns true.

The model is functional:

- The board is an immutable map from `Square` to `Piece(color, kind)`.
- Each mutation returns the new board together with a memento.
- `Process` returns the verdict paired with the board the call leaves behind.
- The rules book's verdict `isLegalMove(type, source, target)` is a parameter of `Process`.
- The board's queries `isPathClear(board, source, target)` and `isKingInCheck(board)` are parameters too.

Modules, one per file:

- `Results` (results.dfy): `Option` and `Result`.
- `Geometry` (geometry.dfy): `Square`, `Move` and displacement helpers.
- `PieceTypes` (piece_type.dfy): the enum and its lookup.
- `Boards` (board.dfy): colours, pieces, the map board, mementos, capture, move and restore.
- `RookMoves` (rook.dfy) and `KnightMoves` (knight.dfy): the movement predicates.
- `MoveProcessor` (move_processor.dfy): the transaction.

Facts about the code that shape the model:

- `Rook.isLegalMove` joins "same x" and "same y" with `||`, so the zero-length
  move is accepted (`RookMoves.ZeroMoveAccepted`). In the model, `Process` still
  never carries such a move out (`MoveProcessor.ZeroMoveRejected`): fellowship
  is colour equality, so the mover is its own fellow on the target.
- The enum declares only PAWN (""), KNIGHT ("N") and QUEEN ("Q"). Every other
  abbreviation, "R", "B" and "K" included, is a lookup failure.
- The tests call `isKingInCheck()` with no argument. It is modelled as a
  predicate of the board alone.

## Model

| member | source | states |
|---|---|---|
| PieceTypes.ValuesComplete | chess/src/main/java/org/krloxz/chess/PieceType.java:21-25 | every enum constant is among the values the lookup iterates over |
| PieceTypes.Search | chess/src/main/java/org/krloxz/chess/PieceType.java:34-38 | the linear search returns a type from the list whose abbreviation equals the input, returns the first entry when that entry matches, and finds nothing exactly when no entry matches |
| PieceTypes.FromSanAbbreviation | chess/src/main/java/org/krloxz/chess/PieceType.java:33-39 | the lookup succeeds iff some piece type has the input as its abbreviation; on success that type's abbreviation is the input; on failure the error is "Illegal SAN abbreviation: " followed by the input |
| PieceTypes.SanAbbreviation | chess/src/main/java/org/krloxz/chess/PieceType.java:23-25 | definition of each constant's abbreviation; its contract is stated by `PieceTypes.RoundTrip` and `PieceTypes.AbbreviationsDistinct` |
| PieceTypes.RoundTrip | chess/src/main/java/org/krloxz/chess/PieceType.java:23-38 | looking up any type's own abbreviation gives back that type |
| PieceTypes.KnownAbbreviations | chess/src/main/java/org/krloxz/chess/PieceType.java:23-39 | "" gives PAWN, "N" gives KNIGHT, "Q" gives QUEEN; "R" and "K" fail with the exception's message |
| PieceTypes.AcceptedExactlyTable | chess/src/main/java/org/krloxz/chess/PieceType.java:23-39 | a string is accepted iff it is one of "", "N", "Q" |
| PieceTypes.AbbreviationsDistinct | chess/src/main/java/org/krloxz/chess/PieceType.java:23-25 | two types with the same abbreviation are the same type, so at most one table entry matches an input |
| PieceTypes.AbbreviationsShort | chess/src/main/java/org/krloxz/chess/PieceType.java:23-25 | every abbreviation has length at most 1 |
| KnightMoves.ConfirmLegalMove | chess/src/main/java/org/krloxz/chess/Knight.java:36-41 | a move is accepted iff its displacement (dx, dy) is one of the eight knight jumps (±1, ±2) or (±2, ±1) |
| KnightMoves.IgnoresBoard | chess/src/main/java/org/krloxz/chess/Knight.java:36-41 | the verdict is the same on any two boards |
| KnightMoves.Symmetric | chess/src/main/java/org/krloxz/chess/Knight.java:37-38 | swapping source and target keeps the verdict |
| KnightMoves.SymmetriesPreserve | chess/src/main/java/org/krloxz/chess/Knight.java:37-40 | negating dx, negating dy, or exchanging the axes keeps the verdict |
| KnightMoves.ZeroMoveRejected | chess/src/main/java/org/krloxz/chess/Knight.java:39-40 | a move from a square to itself is rejected |
| KnightMoves.DisjointFromRook | chess/src/main/java/org/krloxz/chess/Knight.java:39-40 | an accepted knight move changes both coordinates, so it is never also a rook move |
| RookMoves.IsLegalMove | chess/src/main/java/org/krloxz/chess/Rook.java:44-47 | definition of the rook verdict (same x or same y); its contract is stated by `RookMoves.LegalIffSlides` |
| RookMoves.ConfirmLegalMove | chess/src/main/java/org/krloxz/chess/Rook.java:36-38 | definition of the board-taking rook verdict; its contract is stated by `RookMoves.ConfirmIgnoresBoard` |
| RookMoves.LegalIffSlides | chess/src/main/java/org/krloxz/chess/Rook.java:44-47 | a move is accepted iff the target lies some whole number of steps (zero included) from the source along its rank or its file |
| RookMoves.ConfirmIgnoresBoard | chess/src/main/java/org/krloxz/chess/Rook.java:36-38 | `confirmLegalMove` gives the sliding verdict of `isLegalMove` whatever the board |
| RookMoves.Symmetric | chess/src/main/java/org/krloxz/chess/Rook.java:45-46 | swapping source and target keeps the verdict |
| RookMoves.ZeroMoveAccepted | chess/src/main/java/org/krloxz/chess/Rook.java:45-46 | the zero-length move is accepted |
| RookMoves.RejectsOffLine | chess/src/main/java/org/krloxz/chess/Rook.java:45-46 | a move changing both coordinates, every diagonal move included, is rejected |
| RookMoves.TranslationInvariant | chess/src/main/java/org/krloxz/chess/Rook.java:45-46 | shifting both squares by the same offset keeps the verdict |
| Boards.IsFellow | chess/src/test/java/org/krloxz/chess/MoveProcessorTest.java:157-176 | definition of fellowship as colour equality; its consequences are stated by `MoveProcessor.RejectsFellowTarget` and `MoveProcessor.ZeroMoveRejected` |
| Boards.Captured | chess/src/test/java/org/krloxz/chess/MoveProcessorTest.java:226-241 | capturing takes the target piece off the board, leaves every other square alone, and returns a memento recording the piece and its square |
| Boards.MovedTo | chess/src/test/java/org/krloxz/chess/MoveProcessorTest.java:202-215 | moving puts the source piece on the target, empties the source, leaves every other square alone, and returns a memento recording the piece and its old square |
| Boards.RestoredTo | chess/src/test/java/org/krloxz/chess/MoveProcessorTest.java:202-250 | restoring puts the memento's piece back on its recorded square, empties the square the piece had moved to, and leaves every other square alone |
| Boards.CaptureRoundTrip | chess/src/test/java/org/krloxz/chess/MoveProcessorTest.java:226-250 | restoring a captured piece from its memento gives back the board before the capture |
| Boards.MoveRoundTrip | chess/src/test/java/org/krloxz/chess/MoveProcessorTest.java:202-224 | restoring a piece moved onto an empty square from its memento gives back the board before the move |
| MoveProcessor.Relocated | chess/src/test/java/org/krloxz/chess/MoveProcessorTest.java:72-110 | after relocation the target holds the moved piece, the source is empty, and every other square is unchanged |
| MoveProcessor.Speculate | chess/src/test/java/org/krloxz/chess/MoveProcessorTest.java:91-110 | the speculative apply keeps the source piece's memento, and keeps a capture memento exactly when the target was occupied |
| MoveProcessor.Rollback | chess/src/test/java/org/krloxz/chess/MoveProcessorTest.java:202-250 | definition of the rollback (the two `restoreTo` calls); its contract is stated by `MoveProcessor.RollbackRestores` |
| MoveProcessor.SpeculateRelocates | chess/src/test/java/org/krloxz/chess/MoveProcessorTest.java:72-110 | capture-then-move through mementos yields the board with the source piece carried to the target and the target's former piece gone |
| MoveProcessor.RollbackRestores | chess/src/test/java/org/krloxz/chess/MoveProcessorTest.java:202-250 | restoring both mementos after the speculative apply gives back the original board exactly |
| MoveProcessor.Process | chess/src/test/java/org/krloxz/chess/MoveProcessorTest.java:53-250 | accepted iff the source is occupied, the geometry is legal, the path is clear, the target holds no fellow, and the king is not in check after the relocation; an accepted move leaves the relocated board; a rejected one leaves the board unchanged |
| MoveProcessor.AcceptsClearMove | chess/src/test/java/org/krloxz/chess/MoveProcessorTest.java:53-89 | legal, clear, empty target, no check: accepted, with the source piece on the target and the source empty |
| MoveProcessor.CapturesEnemy | chess/src/test/java/org/krloxz/chess/MoveProcessorTest.java:91-110 | an enemy on the target is removed: the mover takes its square and the board has one piece fewer |
| MoveProcessor.RejectsMissingSource | chess/src/test/java/org/krloxz/chess/MoveProcessorTest.java:112-123 | no piece on the source: rejected, board unchanged |
| MoveProcessor.RejectsIllegalGeometry | chess/src/test/java/org/krloxz/chess/MoveProcessorTest.java:125-138 | geometry the rules book refuses: rejected, board unchanged |
| MoveProcessor.RejectsBlockedPath | chess/src/test/java/org/krloxz/chess/MoveProcessorTest.java:140-155 | blocked path: rejected, board unchanged |
| MoveProcessor.RejectsFellowTarget | chess/src/test/java/org/krloxz/chess/MoveProcessorTest.java:157-176 | a fellow on the target: rejected, board unchanged |
| MoveProcessor.RejectsSelfCheck | chess/src/test/java/org/krloxz/chess/MoveProcessorTest.java:178-250 | king in check after the speculative move: rejected, with the source piece and any captured piece back on their squares |
| MoveProcessor.ZeroMoveRejected | chess/src/test/java/org/krloxz/chess/MoveProcessorTest.java:157-176 | a move from a square to itself is always rejected and leaves the board unchanged |

## Left out

- `MoveProcessor.process`: modelled from what `MoveProcessorTest` asserts. `Board`, `Square` and `PieceMemento` appear only as the map board, the `Square` datatype and `Memento`. `RulesBook.isLegalMove` is the `isLegalMove` parameter of `Process`.
- The internals of the board's path and check queries and of the rules book: not modelled; they are parameters of `Process`.
- Pawn, bishop, queen and king movement rules: not part of this model. The enum has only PAWN, KNIGHT and QUEEN.
- `Rook.castle()`: a stub that always returns false. Castling is not implemented.
- The `Piece` class hierarchy and `PieceBehavior`: `Piece.java`'s constructor takes a `PieceBehavior` and a `Square`, which does not match the `super(color)` calls in `Rook.java:27` and `Knight.java:27`. The knight and rook predicates are therefore free functions.
- `Piece.captured()` in `Piece.java:50-53` is an empty `void` stub. `Boards.Captured` follows instead the memento-returning `captured()` that the tests stub (`MoveProcessorTest.java:240-241`).
- `Piece.isFellow`: modelled as colour equality (`Boards.IsFellow`); the tests only stub it. `MoveProcessor.ZeroMoveRejected` relies on its being reflexive.
- `Piece.move(target, board)` in `Piece.java:40-45` returns a legality verdict and changes nothing. `Boards.MovedTo` follows instead the memento-returning `move(target)` that the tests stub (`MoveProcessorTest.java:192-193` and `214-215`).
- `PlayerTest`: player strategy, draw acceptance and game-over notification are delegation to collaborators with no logic of their own.
- Piece identity: the map board stores values, not objects. The rollback therefore restores the moved piece first and then the captured piece. Restoring them in the other order on a map would drop a piece.
- `isKingInCheck`: modelled with no colour argument, as the tests call it. It sees only the board after the speculative move.
- KnightMoves.ConfirmLegalMove: does not model 32-bit overflow of the coordinate difference or of `Math.abs`, because board coordinates are small.
- Exceptions: the `IllegalArgumentException` of the lookup is a `Failure` value carrying its message.
- `fromSanAbbreviation(null)`: throws `NullPointerException` at `abbreviation.equals` (`PieceType.java:35`). A Dafny `string` cannot be null, so this path is not modelled.
