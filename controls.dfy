/** The arrow-key handling of the main loop: how a key press changes the snake's direction. */
module Controls {
  import opened Grid

  /** The keys the filter distinguishes; every other key leaves the direction alone. */
  datatype Key = Up | Down | Left | Right | Other

  /** The direction an arrow key asks for (screen y grows downwards). */
  function Heading(k: Key): Cell
    requires k != Other
  {
    match k
    case Up => Cell(0, -1)
    case Down => Cell(0, 1)
    case Left => Cell(-1, 0)
    case Right => Cell(1, 0)
  }

  /** A direction the snake can have: still, or one step along an axis. */
  predicate IsHeading(d: Cell) {
    d == Still || d == Cell(0, -1) || d == Cell(0, 1) || d == Cell(-1, 0) || d == Cell(1, 0)
  }

  /** The direction after key `k`: an arrow is taken unless it points straight back along the
      current direction; the source tests one coordinate of the current direction for this. */
  function Steer(d: Cell, k: Key): (r: Cell)
    ensures k == Other ==> r == d
    ensures k != Other && IsHeading(d) ==> r == (if d == Opposite(Heading(k)) then d else Heading(k))
    ensures k != Other && IsHeading(d) ==> r != Opposite(d)
    ensures IsHeading(d) ==> IsHeading(r)
  {
    match k
    case Up => if d.y != 1 then Cell(0, -1) else d
    case Down => if d.y != -1 then Cell(0, 1) else d
    case Left => if d.x != 1 then Cell(-1, 0) else d
    case Right => if d.x != -1 then Cell(1, 0) else d
    case Other => d
  }

  /** The filter looks at one key at a time: two presses between moves can still turn the snake
      around, here from right to left via up. */
  lemma TwoPressesReverse()
    ensures Steer(Steer(Cell(1, 0), Up), Left) == Opposite(Cell(1, 0))
  {
  }
}
