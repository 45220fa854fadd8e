/** The board as an immutable occupancy map, with the memento-producing
    mutations a move uses and the restore that undoes them. */
module Boards {
  import opened Results
  import opened Geometry
  import opened PieceTypes

  datatype Color = White | Black

  /** A piece's immutable identity: its colour and type. Its position is the
      key it is stored under on the board. */
  datatype Piece = Piece(color: Color, kind: PieceType)

  /** Occupancy: each occupied square maps to the piece standing on it. */
  type Board = map<Square, Piece>

  /** `Piece.isFellow`: the two pieces play for the same side. */
  predicate IsFellow(p: Piece, q: Piece)
  {
    p.color == q.color
  }

  /** A piece's state before a mutation: which piece, and the square it stood
      on. Consumed only by `RestoredTo`. */
  datatype Memento = Memento(piece: Piece, square: Square)

  /** `a` and `b` hold the same piece on every square outside `except`. */
  ghost predicate AgreeOutside(a: Board, b: Board, except: set<Square>)
  {
    forall sq :: sq !in except ==> (sq in a <==> sq in b) && (sq in a ==> a[sq] == b[sq])
  }

  /** `Piece.captured()`: takes the piece at `at` off the board and returns
      the memento that can put it back. */
  function Captured(b: Board, at: Square): (r: (Board, Memento))
    requires at in b
    ensures at !in r.0
    ensures AgreeOutside(r.0, b, {at})
    ensures r.1.piece == b[at] && r.1.square == at
  {
    (b - {at}, Memento(b[at], at))
  }

  /** `Piece.move(target)`: relocates the piece at `from` to `to`, replacing
      whatever stood there, and returns the memento of its old square. */
  function MovedTo(b: Board, from: Square, to: Square): (r: (Board, Memento))
    requires from in b
    ensures to in r.0 && r.0[to] == b[from]
    ensures from != to ==> from !in r.0
    ensures AgreeOutside(r.0, b, {from, to})
    ensures r.1.piece == b[from] && r.1.square == from
  {
    ((b - {from})[to := b[from]], Memento(b[from], from))
  }

  /** `Piece.restoreTo(memento)`: the piece currently at `current` (None when
      it has been captured and is off the board) goes back to the square the
      memento recorded. */
  function RestoredTo(b: Board, current: Option<Square>, m: Memento): (r: Board)
    ensures m.square in r && r[m.square] == m.piece
    ensures current.Some? && current.value != m.square ==> current.value !in r
    ensures current.None? ==> AgreeOutside(r, b, {m.square})
    ensures current.Some? ==> AgreeOutside(r, b, {m.square, current.value})
  {
    var lifted := if current.Some? then b - {current.value} else b;
    lifted[m.square := m.piece]
  }

  /** Restoring a captured piece from its memento undoes the capture. */
  lemma CaptureRoundTrip(b: Board, at: Square)
    requires at in b
    ensures RestoredTo(Captured(b, at).0, None, Captured(b, at).1) == b
  {
  }

  /** Restoring a moved piece from its memento undoes a move onto an empty
      square. */
  lemma MoveRoundTrip(b: Board, from: Square, to: Square)
    requires from in b
    requires to !in b || to == from
    ensures RestoredTo(MovedTo(b, from, to).0, Some(to), MovedTo(b, from, to).1) == b
  {
  }
}
