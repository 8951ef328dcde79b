/** Board geometry shared by every game object: integer cells on a square grid. */
module Grid {

  /** Cells per side of the board (`cell_number`). */
  const CellNumber: int := 20

  /** Number of cells on the board. */
  const CellCount: int := CellNumber * CellNumber

  datatype Option<T> = None | Some(value: T)

  /** A board cell or a step between cells; the source keeps these in whole-number vectors. */
  datatype Cell = Cell(x: int, y: int)

  /** The zero step: the direction of a snake that has not been steered yet. */
  const Still: Cell := Cell(0, 0)

  /** The head of a fresh snake. */
  const InitialHead: Cell := Cell(5, 10)

  /** The body of a fresh snake, head first. */
  const InitialBody: seq<Cell> := [Cell(5, 10), Cell(4, 10), Cell(3, 10)]

  function Plus(a: Cell, b: Cell): Cell {
    Cell(a.x + b.x, a.y + b.y)
  }

  function Opposite(d: Cell): Cell {
    Cell(-d.x, -d.y)
  }

  predicate InGrid(c: Cell) {
    0 <= c.x < CellNumber && 0 <= c.y < CellNumber
  }

  /** A list of cells short enough that a cell of the board lies outside it and one more cell. */
  predicate Roomy(s: seq<Cell>) {
    |s| + 2 <= CellCount
  }

  predicate Distinct(s: seq<Cell>) {
    forall i, j :: 0 <= i < j < |s| ==> s[i] != s[j]
  }

  /** Every cell of the board, row by row. */
  function Board(): (b: seq<Cell>)
    ensures |b| == CellCount
    ensures forall k :: 0 <= k < |b| ==> InGrid(b[k])
  {
    seq(CellCount, k requires 0 <= k < CellCount => Cell(k % CellNumber, k / CellNumber))
  }

  lemma BoardDistinct()
    ensures Distinct(Board())
  {
    var b := Board();
    forall i, j | 0 <= i < j < |b|
      ensures b[i] != b[j]
    {
      assert i == (i / CellNumber) * CellNumber + i % CellNumber;
      assert j == (j / CellNumber) * CellNumber + j % CellNumber;
    }
  }

  /** Every board cell is on the board list. */
  lemma BoardHas(c: Cell)
    requires InGrid(c)
    ensures c in Board()
  {
    var k := c.y * CellNumber + c.x;
    assert Board()[k] == c;
  }

  /** `s` without `x`. */
  function Remove(s: seq<Cell>, x: Cell): (r: seq<Cell>)
    ensures forall c :: c in r <==> c in s && c != x
    ensures x !in s ==> r == s
    ensures Distinct(s) ==> Distinct(r) && |r| + 1 >= |s|
  {
    if s == [] then []
    else if s[0] == x then
      assert Distinct(s) ==> x !in s[1..];
      Remove(s[1..], x)
    else
      var tail := Remove(s[1..], x);
      assert Distinct(s) ==> s[0] !in s[1..];
      assert forall i :: 0 < i < |[s[0]] + tail| ==> ([s[0]] + tail)[i] == tail[i - 1];
      assert x !in s ==> [s[0]] + s[1..] == s;
      [s[0]] + tail
  }

  /** Pigeonhole: fewer forbidden cells than distinct candidates leaves a candidate free. */
  lemma {:induction false} Pigeonhole(cands: seq<Cell>, avoid: seq<Cell>)
    requires Distinct(cands)
    requires |avoid| < |cands|
    ensures exists c :: c in cands && c !in avoid
    decreases |avoid|
  {
    if avoid == [] {
      assert cands[0] in cands;
    } else {
      var rest := Remove(cands, avoid[0]);
      Pigeonhole(rest, avoid[1..]);
      var c :| c in rest && c !in avoid[1..];
      assert avoid == [avoid[0]] + avoid[1..];
      assert c in cands && c !in avoid;
    }
  }

  /** A short enough list of occupied cells, plus one more cell, never fills the board. */
  lemma FreeCell(avoid: seq<Cell>, extra: Cell)
    requires Roomy(avoid)
    ensures exists c :: InGrid(c) && c !in avoid && c != extra
  {
    BoardDistinct();
    Pigeonhole(Board(), avoid + [extra]);
    var c :| c in Board() && c !in avoid + [extra];
    assert InGrid(c);
  }
}
