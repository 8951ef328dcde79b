/** The contents of the two save files: the game-state record and the top-five score list. */
module Persistence {
  import opened Grid

  /** A JSON list of numbers, as a position is written: `[x, y]`. */
  type Point = seq<int>

  /** The game-state record (keys `snake_body`, `snake_direction`, `fruit_position`,
      `big_fruit_position`, `boom_position`, `power_position`, `score`). */
  datatype GameRecord = GameRecord(
    snakeBody: seq<Point>,
    snakeDirection: Point,
    fruitPosition: Point,
    bigFruitPosition: Option<Point>,
    boomPosition: Option<Point>,
    powerPosition: Option<Point>,
    score: int)

  function EncodeCell(c: Cell): Point {
    [c.x, c.y]
  }

  /** `Vector2(*p)`: no number gives the origin, one number fills both coordinates, two give
      x and y; any other length is an error. */
  function DecodeCell(p: Point): (r: Option<Cell>)
    ensures r.Some? <==> |p| <= 2
    ensures |p| == 2 ==> r == Some(Cell(p[0], p[1]))
  {
    if |p| == 0 then Some(Cell(0, 0))
    else if |p| == 1 then Some(Cell(p[0], p[0]))
    else if |p| == 2 then Some(Cell(p[0], p[1]))
    else None
  }

  function EncodeBody(body: seq<Cell>): (ps: seq<Point>)
    ensures |ps| == |body|
  {
    if body == [] then [] else [EncodeCell(body[0])] + EncodeBody(body[1..])
  }

  /** Decodes every segment; one malformed segment makes the whole list fail. */
  function DecodeBody(ps: seq<Point>): (r: Option<seq<Cell>>)
    ensures r.Some? ==> |r.value| == |ps|
  {
    if ps == [] then Some([])
    else match (DecodeCell(ps[0]), DecodeBody(ps[1..]))
      case (Some(c), Some(rest)) => Some([c] + rest)
      case _ => None
  }

  lemma CellRoundTrip(c: Cell)
    ensures DecodeCell(EncodeCell(c)) == Some(c)
  {
  }

  lemma {:induction false} BodyRoundTrip(body: seq<Cell>)
    ensures DecodeBody(EncodeBody(body)) == Some(body)
  {
    if body != [] {
      BodyRoundTrip(body[1..]);
      CellRoundTrip(body[0]);
      assert EncodeBody(body)[1..] == EncodeBody(body[1..]);
      assert [body[0]] + body[1..] == body;
    }
  }

  predicate Descending(s: seq<int>) {
    forall i, j :: 0 <= i < j < |s| ==> s[i] >= s[j]
  }

  /** A head no smaller than a descending tail keeps the list descending. */
  lemma DescendingCons(h: int, t: seq<int>)
    requires Descending(t) && forall i :: 0 <= i < |t| ==> t[i] <= h
    ensures Descending([h] + t)
  {
    var r := [h] + t;
    forall i, j | 0 <= i < j < |r|
      ensures r[i] >= r[j]
    {
      assert r[j] == t[j - 1];
      if i > 0 { assert r[i] == t[i - 1]; }
    }
  }

  /** Puts `x` into a descending list. */
  function Insert(x: int, s: seq<int>): (r: seq<int>)
    requires Descending(s)
    ensures Descending(r) && multiset(r) == multiset(s) + multiset{x} && |r| == |s| + 1
    ensures forall i :: 0 <= i < |r| ==> r[i] == x || r[i] in s
  {
    if s == [] || x >= s[0] then
      DescendingCons(x, s);
      [x] + s
    else
      assert s == [s[0]] + s[1..];
      var tail := Insert(x, s[1..]);
      assert forall i :: 0 <= i < |tail| ==> tail[i] <= s[0] by {
        forall i | 0 <= i < |tail| ensures tail[i] <= s[0] {
          if tail[i] != x {
            var j :| 0 <= j < |s[1..]| && s[1..][j] == tail[i];
            assert s[j + 1] == tail[i];
          }
        }
      }
      DescendingCons(s[0], tail);
      var r := [s[0]] + tail;
      assert forall i :: 0 < i < |r| ==> r[i] == tail[i - 1];
      r
  }

  /** `sort(reverse=True)`. */
  function SortDescending(s: seq<int>): (r: seq<int>)
    ensures Descending(r) && multiset(r) == multiset(s) && |r| == |s|
  {
    if s == [] then []
    else
      assert s == [s[0]] + s[1..];
      Insert(s[0], SortDescending(s[1..]))
  }

  /** Cutting a list to its first five entries. */
  function TopFive(s: seq<int>): (r: seq<int>)
    ensures |r| == (if |s| <= 5 then |s| else 5) && r <= s
  {
    if |s| <= 5 then s else s[..5]
  }

  /** Cutting a descending list keeps it descending, and every entry kept is at least every
      entry dropped. */
  lemma TopFiveDominates(all: seq<int>)
    requires Descending(all)
    ensures Descending(TopFive(all))
    ensures multiset(TopFive(all)) <= multiset(all)
    ensures forall x, y :: x in TopFive(all) && y in multiset(all) - multiset(TopFive(all)) ==> y <= x
  {
    var k := |TopFive(all)|;
    var kept, dropped := all[..k], all[k..];
    assert TopFive(all) == kept;
    assert all == kept + dropped;
    forall x, y | x in kept && y in multiset(dropped)
      ensures y <= x
    {
      var i :| 0 <= i < |kept| && kept[i] == x;
      var j :| 0 <= j < |dropped| && dropped[j] == y;
      assert all[i] == x && all[k + j] == y;
    }
  }

  /** The list written back by `save_game`: the stored scores plus the current one, sorted from
      high to low, cut to five. It is the five best of those scores. */
  function UpdatedHighScores(stored: seq<int>, score: int): (r: seq<int>)
    ensures Descending(r)
    ensures |r| == if |stored| < 5 then |stored| + 1 else 5
    ensures multiset(r) <= multiset(stored + [score])
    ensures forall x, y :: x in r && y in multiset(stored + [score]) - multiset(r) ==> y <= x
  {
    var all := SortDescending(stored + [score]);
    TopFiveDominates(all);
    TopFive(all)
  }

  /** The head of a descending list is its largest element. */
  lemma HeadIsMax(a: seq<int>, x: int)
    requires Descending(a) && x in multiset(a)
    ensures x <= a[0]
  {
    var i :| 0 <= i < |a| && a[i] == x;
  }

  /** Dropping the head of a descending list leaves a descending list with one element fewer. */
  lemma DropHead(a: seq<int>)
    requires Descending(a) && a != []
    ensures Descending(a[1..]) && multiset(a[1..]) == multiset(a) - multiset{a[0]}
  {
    assert a == [a[0]] + a[1..];
    forall i, j | 0 <= i < j < |a[1..]|
      ensures a[1..][i] >= a[1..][j]
    {
      assert a[1..][i] == a[i + 1] && a[1..][j] == a[j + 1];
    }
  }

  /** A descending list is determined by its elements: sorting has one possible answer. */
  lemma {:induction false} DescendingUnique(a: seq<int>, b: seq<int>)
    requires Descending(a) && Descending(b) && multiset(a) == multiset(b)
    ensures a == b
    decreases |a|
  {
    if a == [] {
      assert |multiset(b)| == 0;
    } else {
      assert a[0] in multiset(b);
      assert b != [];
      HeadIsMax(b, a[0]);
      HeadIsMax(a, b[0]);
      assert a[0] == b[0];
      DropHead(a);
      DropHead(b);
      assert multiset(a[1..]) == multiset(b[1..]);
      DescendingUnique(a[1..], b[1..]);
      assert a == [a[0]] + a[1..] && b == [b[0]] + b[1..];
    }
  }

  /** When the stored list is already descending, as one written by `save_game` is, a save
      puts the new score into place and keeps the best five. */
  lemma SaveInserts(stored: seq<int>, score: int)
    requires Descending(stored)
    ensures UpdatedHighScores(stored, score) == TopFive(Insert(score, stored))
  {
    assert multiset(stored + [score]) == multiset(stored) + multiset{score};
    DescendingUnique(SortDescending(stored + [score]), Insert(score, stored));
  }
}
