/** Random placement of the fruit, the obstacles and the boom, the big fruit and the power-up.
    Each keeps the snake body it was built with and resamples until a cell avoids it. */
module Placement {
  import opened Grid

  /** The stream of `random.randint(0, cell_number - 1)` pairs. `draw(k)` is the k-th cell drawn;
      `again` witnesses that every board cell is drawn again after any point, which is what makes
      the source's sampling loops end (with probability one, for a uniform generator). */
  class Random {
    const draw: nat -> Cell
    ghost const again: (nat, Cell) -> nat
    /** Index of the next cell to be drawn. */
    var next: nat

    ghost predicate Valid() {
      (forall k: nat :: InGrid(draw(k))) &&
      (forall k: nat, c: Cell :: InGrid(c) ==> k <= again(k, c) && draw(again(k, c)) == c)
    }

    constructor (draw: nat -> Cell, ghost again: (nat, Cell) -> nat)
      requires forall k: nat :: InGrid(draw(k))
      requires forall k: nat, c: Cell :: InGrid(c) ==> k <= again(k, c) && draw(again(k, c)) == c
      ensures Valid() && this.draw == draw && next == 0
    {
      this.draw := draw;
      this.again := again;
      next := 0;
    }

    /** One `x`, `y` pair of `randint` calls. */
    method Sample() returns (c: Cell)
      modifies this`next
      ensures c == draw(old(next)) && next == old(next) + 1
    {
      c := draw(next);
      next := next + 1;
    }

    /** The sampling loop of every `randomize`: draw until the cell is not in `avoid`. The cell
        kept is the first draw from the current index on that lies outside `avoid`. */
    method SampleOutside(avoid: seq<Cell>) returns (c: Cell)
      requires Valid() && exists c :: InGrid(c) && c !in avoid
      modifies this`next
      ensures InGrid(c) && c !in avoid
      ensures next == NextOutside(this, old(next), avoid) + 1 && c == draw(next - 1)
    {
      ghost var free :| InGrid(free) && free !in avoid;
      ghost var bound := again(next, free);
      c := Sample();
      while c in avoid
        invariant old(next) < next <= bound + 1
        invariant c == draw(next - 1)
        invariant forall k :: old(next) <= k < next - 1 ==> draw(k) in avoid
        decreases bound + 1 - next
      {
        c := Sample();
      }
      FirstOutside(this, old(next), avoid, next - 1);
    }
  }

  /** The first index from `k` on whose draw lies outside `avoid`, searching no further than
      `bound`. */
  function Search(rng: Random, k: nat, avoid: seq<Cell>, bound: nat): (r: nat)
    ensures k <= r
    decreases bound - k
  {
    if bound <= k || rng.draw(k) !in avoid then k else Search(rng, k + 1, avoid, bound)
  }

  /** Below a bound whose draw lies outside `avoid`, the search finds the first such index. */
  lemma {:induction false} SearchFinds(rng: Random, k: nat, avoid: seq<Cell>, bound: nat)
    requires k <= bound && rng.draw(bound) !in avoid
    ensures Search(rng, k, avoid, bound) <= bound && rng.draw(Search(rng, k, avoid, bound)) !in avoid
    ensures forall j :: k <= j < Search(rng, k, avoid, bound) ==> rng.draw(j) in avoid
    decreases bound - k
  {
    if k < bound && rng.draw(k) in avoid {
      SearchFinds(rng, k + 1, avoid, bound);
    }
  }

  /** The first cell of `cells` outside `avoid`. */
  function FirstFree(cells: seq<Cell>, avoid: seq<Cell>): (r: Option<Cell>)
    ensures r.Some? ==> r.value in cells && r.value !in avoid
  {
    if cells == [] then None
    else if cells[0] !in avoid then Some(cells[0])
    else FirstFree(cells[1..], avoid)
  }

  lemma {:induction false} FirstFreeFinds(cells: seq<Cell>, avoid: seq<Cell>, c: Cell)
    requires c in cells && c !in avoid
    ensures FirstFree(cells, avoid).Some?
  {
    if cells[0] in avoid {
      FirstFreeFinds(cells[1..], avoid, c);
    }
  }

  /** The index of the draw that a sampling loop started at index `k` keeps: the first one outside
      `avoid`. The search is bounded by the next draw of the first board cell outside `avoid`;
      when there is none the loop never ends and this is just `k`. */
  ghost function NextOutside(rng: Random, k: nat, avoid: seq<Cell>): (r: nat)
    ensures k <= r
  {
    match FirstFree(Board(), avoid)
    case Some(c) => Search(rng, k, avoid, rng.again(k, c))
    case None => k
  }

  /** When a board cell lies outside `avoid`, the loop keeps a board cell outside it, and every
      draw it passed over lies inside. */
  lemma NextOutsideFree(rng: Random, k: nat, avoid: seq<Cell>, c: Cell)
    requires rng.Valid() && InGrid(c) && c !in avoid
    ensures InGrid(rng.draw(NextOutside(rng, k, avoid))) && rng.draw(NextOutside(rng, k, avoid)) !in avoid
    ensures forall j :: k <= j < NextOutside(rng, k, avoid) ==> rng.draw(j) in avoid
  {
    BoardHas(c);
    FirstFreeFinds(Board(), avoid, c);
    var f := FirstFree(Board(), avoid).value;
    SearchFinds(rng, k, avoid, rng.again(k, f));
  }

  /** The first index outside `avoid` is the one the loop keeps. */
  lemma FirstOutside(rng: Random, k: nat, avoid: seq<Cell>, r: nat)
    requires rng.Valid()
    requires k <= r && rng.draw(r) !in avoid && forall j :: k <= j < r ==> rng.draw(j) in avoid
    ensures r == NextOutside(rng, k, avoid)
  {
    NextOutsideFree(rng, k, avoid, rng.draw(r));
  }

  /** The positions of a list of obstacles, in list order. */
  function Positions(os: seq<Obstacle>): (ps: seq<Cell>)
    reads os`pos
    ensures |ps| == |os| && forall i :: 0 <= i < |os| ==> ps[i] == os[i].pos
  {
    if os == [] then [] else Positions(os[..|os| - 1]) + [os[|os| - 1].pos]
  }

  /** `FRUIT`: avoids its stored snake body and the positions of its stored obstacles. */
  class Fruit {
    var pos: Cell
    const obstacles: seq<Obstacle>
    const snakeBody: seq<Cell>

    /** The cells a new position must avoid. */
    function Avoid(): seq<Cell>
      reads obstacles`pos
    {
      snakeBody + Positions(obstacles)
    }

    predicate Allowed(c: Cell)
      reads obstacles`pos
    {
      c !in snakeBody && c !in Positions(obstacles)
    }

    constructor (obstacles: seq<Obstacle>, snakeBody: seq<Cell>, rng: Random)
      requires rng.Valid()
      requires exists c :: InGrid(c) && c !in snakeBody && c !in Positions(obstacles)
      modifies rng`next
      ensures this.obstacles == obstacles && this.snakeBody == snakeBody
      ensures InGrid(pos) && Allowed(pos)
      ensures rng.next == NextOutside(rng, old(rng.next), Avoid()) + 1 && pos == rng.draw(rng.next - 1)
    {
      this.obstacles := obstacles;
      this.snakeBody := snakeBody;
      new;
      Randomize(rng);
    }

    /** `randomize`: draw cells until one is allowed; the first allowed draw is kept. */
    method Randomize(rng: Random)
      requires rng.Valid()
      requires exists c :: InGrid(c) && Allowed(c)
      modifies this`pos, rng`next
      ensures InGrid(pos) && Allowed(pos)
      ensures rng.next == NextOutside(rng, old(rng.next), Avoid()) + 1 && pos == rng.draw(rng.next - 1)
    {
      pos := rng.SampleOutside(snakeBody + Positions(obstacles));
    }
  }

  /** `Obstacle`, and equally `Boom`, whose `randomize` is a copy of this one: avoids its stored
      snake body and the live position of the fruit it refers to. */
  class Obstacle {
    var pos: Cell
    const fruit: Fruit
    const snakeBody: seq<Cell>

    function Avoid(): seq<Cell>
      reads fruit`pos
    {
      snakeBody + [fruit.pos]
    }

    predicate Allowed(c: Cell)
      reads fruit`pos
    {
      c !in snakeBody && c != fruit.pos
    }

    constructor (fruit: Fruit, snakeBody: seq<Cell>, rng: Random)
      requires rng.Valid()
      requires exists c :: InGrid(c) && c !in snakeBody && c != fruit.pos
      modifies rng`next
      ensures this.fruit == fruit && this.snakeBody == snakeBody
      ensures InGrid(pos) && Allowed(pos)
      ensures rng.next == NextOutside(rng, old(rng.next), Avoid()) + 1 && pos == rng.draw(rng.next - 1)
    {
      this.fruit := fruit;
      this.snakeBody := snakeBody;
      new;
      Randomize(rng);
    }

    method Randomize(rng: Random)
      requires rng.Valid()
      requires exists c :: InGrid(c) && Allowed(c)
      modifies this`pos, rng`next
      ensures InGrid(pos) && Allowed(pos)
      ensures rng.next == NextOutside(rng, old(rng.next), Avoid()) + 1 && pos == rng.draw(rng.next - 1)
    {
      pos := rng.SampleOutside(snakeBody + [fruit.pos]);
    }
  }

  /** `BigFruit`: avoids its stored snake body. Its second test compares the drawn position with
      the obstacle objects themselves, which never equal a position, so it rejects nothing. */
  class BigFruit {
    var pos: Cell
    const snakeBody: seq<Cell>

    predicate Allowed(c: Cell) {
      c !in snakeBody
    }

    constructor (snakeBody: seq<Cell>, rng: Random)
      requires rng.Valid()
      requires exists c :: InGrid(c) && c !in snakeBody
      modifies rng`next
      ensures this.snakeBody == snakeBody
      ensures InGrid(pos) && Allowed(pos)
      ensures rng.next == NextOutside(rng, old(rng.next), snakeBody) + 1 && pos == rng.draw(rng.next - 1)
    {
      this.snakeBody := snakeBody;
      new;
      Randomize(rng);
    }

    method Randomize(rng: Random)
      requires rng.Valid()
      requires exists c :: InGrid(c) && Allowed(c)
      modifies this`pos, rng`next
      ensures InGrid(pos) && Allowed(pos)
      ensures rng.next == NextOutside(rng, old(rng.next), snakeBody) + 1 && pos == rng.draw(rng.next - 1)
    {
      pos := rng.SampleOutside(snakeBody);
    }
  }

  /** `PowerUp`: avoids the snake body stored at construction, whatever body it is handed. */
  class PowerUp {
    var pos: Cell
    const snakeBody: seq<Cell>

    predicate Allowed(c: Cell) {
      c !in snakeBody
    }

    constructor (snakeBody: seq<Cell>, rng: Random)
      requires rng.Valid()
      requires exists c :: InGrid(c) && c !in snakeBody
      modifies rng`next
      ensures this.snakeBody == snakeBody
      ensures InGrid(pos) && Allowed(pos)
      ensures rng.next == NextOutside(rng, old(rng.next), snakeBody) + 1 && pos == rng.draw(rng.next - 1)
    {
      this.snakeBody := snakeBody;
      new;
      Randomize(snakeBody, rng);
    }

    /** `randomize(snake_body)`: the argument is not consulted; the stored body is. */
    method Randomize(body: seq<Cell>, rng: Random)
      requires rng.Valid()
      requires exists c :: InGrid(c) && Allowed(c)
      modifies this`pos, rng`next
      ensures InGrid(pos) && Allowed(pos)
      ensures rng.next == NextOutside(rng, old(rng.next), snakeBody) + 1 && pos == rng.draw(rng.next - 1)
    {
      pos := rng.SampleOutside(snakeBody);
    }
  }
}
