/** Squares and moves: pure coordinate storage with the displacement helpers
    the movement predicates use. */
module Geometry {

  /** A board square. Coordinates are unbounded integers; the standard board
      uses 0..7 on both axes. */
  datatype Square = Square(x: int, y: int)

  /** A source/target pair (`BasicMovement` / `Move` in the program). */
  datatype Move = Move(source: Square, target: Square)

  function Abs(n: int): nat
  {
    if n < 0 then -n else n
  }

  /** Horizontal displacement, target minus source. */
  function Dx(m: Move): int
  {
    m.target.x - m.source.x
  }

  /** Vertical displacement, target minus source. */
  function Dy(m: Move): int
  {
    m.target.y - m.source.y
  }

  function Translate(s: Square, dx: int, dy: int): Square
  {
    Square(s.x + dx, s.y + dy)
  }

  /** The same move played backwards. */
  function Reversed(m: Move): Move
  {
    Move(m.target, m.source)
  }

  /** Both squares shifted by the same offset. */
  function Shifted(m: Move, dx: int, dy: int): Move
  {
    Move(Translate(m.source, dx, dy), Translate(m.target, dx, dy))
  }

  /** The move with its horizontal displacement negated. */
  function MirroredX(m: Move): Move
  {
    Move(m.source, Square(m.source.x - Dx(m), m.target.y))
  }

  /** The move with its vertical displacement negated. */
  function MirroredY(m: Move): Move
  {
    Move(m.source, Square(m.target.x, m.source.y - Dy(m)))
  }

  /** The move with the two axes exchanged. */
  function Transposed(m: Move): Move
  {
    Move(Square(m.source.y, m.source.x), Square(m.target.y, m.target.x))
  }
}
