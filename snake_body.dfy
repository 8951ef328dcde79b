/** The snake (`SNAKE`): its body as a list of cells, head first, and the rules that move and grow it. */
module SnakeBody {
  import opened Grid

  /** The body after one `move_snake`: a new head one step along `dir` in front; the last cell
      is dropped unless a pending block is consumed. */
  function Moved(body: seq<Cell>, dir: Cell, grow: bool): seq<Cell>
    requires |body| >= 2 || (grow && |body| >= 1)
  {
    [Plus(body[0], dir)] + (if grow then body else body[..|body| - 1])
  }

  /** `n` copies of one cell. */
  function Copies(c: Cell, n: nat): (r: seq<Cell>)
    ensures |r| == n && forall i :: 0 <= i < n ==> r[i] == c
  {
    if n == 0 then [] else Copies(c, n - 1) + [c]
  }

  /** The body after `add_block(n)`: the tail cell appended `n` more times. */
  function Grown(body: seq<Cell>, n: nat): seq<Cell>
    requires n == 0 || |body| >= 1
  {
    if n == 0 then body else body + Copies(body[|body| - 1], n)
  }

  /** `check_collision` of the snake: its head is on the given position. */
  predicate HeadOn(body: seq<Cell>, p: Cell)
    requires |body| >= 1
  {
    body[0] == p
  }

  /** `check_self_collision`: the head occurs again further down the body. */
  predicate SelfCollides(body: seq<Cell>)
    requires |body| >= 1
  {
    body[0] in body[1..]
  }

  /** A move keeps the length unless a block is pending, puts the head one step along the
      direction, and shifts the old body (minus its tail) behind it. */
  lemma MoveShifts(body: seq<Cell>, dir: Cell, grow: bool)
    requires |body| >= 2 || (grow && |body| >= 1)
    ensures |Moved(body, dir, grow)| == |body| + (if grow then 1 else 0)
    ensures Moved(body, dir, grow)[0] == Plus(body[0], dir)
    ensures !grow ==> Moved(body, dir, grow)[1..] == body[..|body| - 1]
    ensures grow ==> Moved(body, dir, grow)[1..] == body
  {
  }

  /** After a move the snake is on `p` exactly when `p` was one step ahead of the old head. */
  lemma MovedHeadOn(body: seq<Cell>, dir: Cell, grow: bool, p: Cell)
    requires |body| >= 2 || (grow && |body| >= 1)
    ensures HeadOn(Moved(body, dir, grow), p) <==> Plus(body[0], dir) == p
  {
  }

  /** Growing keeps the body as a prefix and repeats only the old tail cell. */
  lemma GrownExtends(body: seq<Cell>, n: nat)
    requires |body| >= 1
    ensures |Grown(body, n)| == |body| + n
    ensures Grown(body, n)[..|body|] == body
    ensures forall i :: |body| <= i < |body| + n ==> Grown(body, n)[i] == body[|body| - 1]
    ensures Grown(body, 0) == body
  {
  }

  /** Without a pending block, the moved snake bites itself exactly when the cell ahead of the
      head is one of the cells that stay in the body. */
  lemma MoveSelfCollision(body: seq<Cell>, dir: Cell)
    requires |body| >= 2
    ensures SelfCollides(Moved(body, dir, false)) <==> Plus(body[0], dir) in body[..|body| - 1]
  {
    assert Moved(body, dir, false)[1..] == body[..|body| - 1];
  }

  /** Moving with the zero direction puts a copy of the head right behind it, so the snake
      counts as having bitten itself. */
  lemma StillMoveSelfCollides(body: seq<Cell>, grow: bool)
    requires |body| >= 2 || (grow && |body| >= 1)
    ensures SelfCollides(Moved(body, Still, grow))
  {
    var m := Moved(body, Still, grow);
    assert m[1] == body[0] == m[0];
    assert m[1..][0] == m[0];
  }

  /** Appending copies of the tail neither creates nor hides a self-collision, once the body
      has a cell behind the head. */
  lemma GrownSelfCollision(body: seq<Cell>, n: nat)
    requires |body| >= 2
    ensures SelfCollides(Grown(body, n)) <==> SelfCollides(body)
  {
    var g := Grown(body, n);
    GrownExtends(body, n);
    assert g[1..] == body[1..] + g[|body|..];
    if body[0] in g[|body|..] {
      var i :| 0 <= i < |g[|body|..]| && g[|body|..][i] == body[0];
      assert body[0] == body[|body| - 1];
      assert body[|body| - 1] == body[1..][|body| - 2];
    }
  }

  /** Eating the fruit at the start of a game: the body grows by duplicating its tail. */
  lemma FirstFruitGrowth()
    ensures Grown(Moved(InitialBody, Cell(1, 0), false), 1)
         == [Cell(6, 10), Cell(5, 10), Cell(4, 10), Cell(4, 10)]
  {
  }

  class Snake {
    var body: seq<Cell>
    var direction: Cell
    /** `new_block`; nothing in the game ever sets it, so every move drops the tail. */
    var newBlock: bool

    constructor ()
      ensures body == InitialBody && direction == Still && !newBlock
    {
      body := InitialBody;
      direction := Still;
      newBlock := false;
    }

    /** `move_snake`. With fewer cells than it drops and reads, the source raises an error. */
    method MoveSnake()
      requires |body| >= 2 || (newBlock && |body| >= 1)
      modifies this
      ensures body == Moved(old(body), old(direction), old(newBlock))
      ensures direction == old(direction) && !newBlock
    {
      if newBlock {
        var copy := body;
        copy := [Plus(copy[0], direction)] + copy;
        body := copy;
        newBlock := false;
      } else {
        var copy := body[..|body| - 1];
        copy := [Plus(copy[0], direction)] + copy;
        body := copy;
      }
    }

    /** `add_block(n)`: append the current last cell, `n` times. */
    method AddBlock(n: nat)
      requires n == 0 || |body| >= 1
      modifies this`body
      ensures body == Grown(old(body), n)
    {
      var i := 0;
      while i < n
        invariant 0 <= i <= n
        invariant body == old(body) + (if i == 0 then [] else Copies(old(body)[|old(body)| - 1], i))
      {
        body := body + [body[|body| - 1]];
        i := i + 1;
      }
    }

    /** `reset`: back to the three starting cells and the zero direction. */
    method Reset()
      modifies this`body, this`direction
      ensures body == InitialBody && direction == Still
    {
      body := InitialBody;
      direction := Still;
    }
  }
}
