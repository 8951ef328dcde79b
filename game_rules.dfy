/** The value-level rules of one game tick: the clock, difficulty, and the loops that can end
    the game several times over. */
module GameRules {
  import opened Grid

  /** Notifications the tick hands to sound and screen: the crunch and crash sounds, and the
      game-over message. */
  datatype Event = Crunch | Crash | GameOver

  function Max(a: int, b: int): int {
    if a >= b then a else b
  }

  /** `get_elapsed_time`: whole seconds since `start`, rounded down as Python's `//` does. */
  function ElapsedSeconds(now: int, start: int): (s: int)
    ensures s * 1000 <= now - start < (s + 1) * 1000
  {
    (now - start) / 1000
  }

  /** The level for a body of the given length: 3 once more than ten cells were gained over the
      starting three, 2 once more than five were, else 1. */
  function Level(bodyLength: int): (level: int)
    ensures 1 <= level <= 3
  {
    var gained := bodyLength - 3;
    if gained > 10 then 3 else if gained > 5 then 2 else 1
  }

  /** Milliseconds between ticks for a body of the given length. */
  function Interval(bodyLength: int): (ms: int)
    ensures ms == [150, 100, 70][Level(bodyLength) - 1]
  {
    var gained := bodyLength - 3;
    if gained > 10 then 70 else if gained > 5 then 100 else 150
  }

  /** Longer bodies never lower the level nor lengthen the tick interval. */
  lemma LevelMonotone(a: int, b: int)
    requires a <= b
    ensures Level(a) <= Level(b) && Interval(a) >= Interval(b)
  {
  }

  /** The level thresholds, stated on the number of cells gained. */
  lemma LevelThresholds(bodyLength: int)
    ensures Level(bodyLength) == 3 <==> bodyLength - 3 > 10
    ensures Level(bodyLength) == 2 <==> 5 < bodyLength - 3 <= 10
    ensures Level(bodyLength) == 1 <==> bodyLength - 3 <= 5
  {
  }

  /** `n` back-to-back copies of `e`. */
  function Repeat(e: seq<Event>, n: nat): seq<Event>
  {
    if n == 0 then [] else Repeat(e, n - 1) + e
  }

  /** A log that already holds `n` copies gains one more. */
  lemma RepeatStep(log: seq<Event>, e: seq<Event>, n: nat)
    ensures log + Repeat(e, n) + e == log + Repeat(e, n + 1)
  {
    assert Repeat(e, n + 1) == Repeat(e, n) + e;
  }

  /** Copies add up. */
  lemma {:induction false} RepeatAdd(e: seq<Event>, a: nat, b: nat)
    ensures Repeat(e, a + b) == Repeat(e, a) + Repeat(e, b)
    decreases b
  {
    if b > 0 {
      RepeatAdd(e, a, b - 1);
      assert Repeat(e, a + b) == Repeat(e, a + b - 1) + e;
    }
  }

  /** A log extended three times holds the three extensions after its old end. */
  lemma LogJoin(log: seq<Event>, d1: seq<Event>, d2: seq<Event>, d3: seq<Event>,
                log1: seq<Event>, log2: seq<Event>, log3: seq<Event>)
    requires log1 == log + d1 && log2 == log1 + d2 && log3 == log2 + d3
    ensures log <= log3 && log3[|log|..] == d1 + d2 + d3
  {
    assert log3 == log + (d1 + d2 + d3);
  }

  /** A log that extends another, extended once more, holds both extensions after the old end. */
  lemma LogExtend(log: seq<Event>, log1: seq<Event>, d: seq<Event>, log2: seq<Event>)
    requires log <= log1 && log2 == log1 + d
    ensures log <= log2 && log2[|log|..] == log1[|log|..] + d
  {
  }

  lemma RepeatHas(e: seq<Event>, n: nat, x: Event)
    requires x in e
    ensures x in Repeat(e, n) <==> n > 0
  {
    if n > 0 {
      assert Repeat(e, n) == Repeat(e, n - 1) + e;
    }
  }

  /** Game-overs raised by a loop that compares each cell with the snake's live head: the first
      hit resets the snake, so every later cell is compared with the starting head instead. */
  function GameOverScan(cells: seq<Cell>, head: Cell): nat
  {
    if cells == [] then 0
    else
      var before := GameOverScan(cells[..|cells| - 1], head);
      before + (if cells[|cells| - 1] == ScanHead(before, head) then 1 else 0)
  }

  /** The live head after `hits` game-overs, starting from `head`. */
  function ScanHead(hits: nat, head: Cell): Cell {
    if hits == 0 then head else InitialHead
  }

  /** One more cell in the scan, as the loop sees it. */
  lemma GameOverScanStep(cells: seq<Cell>, i: nat, head: Cell)
    requires i < |cells|
    ensures GameOverScan(cells[..i + 1], head)
         == GameOverScan(cells[..i], head) + (if cells[i] == ScanHead(GameOverScan(cells[..i], head), head) then 1 else 0)
  {
    assert cells[..i + 1][..i] == cells[..i];
  }

  /** The scan raises at least one game-over exactly when the head occurs among the cells. */
  lemma {:induction false} GameOverScanDetects(cells: seq<Cell>, head: Cell)
    ensures GameOverScan(cells, head) > 0 <==> head in cells
    decreases |cells|
  {
    if cells != [] {
      var init := cells[..|cells| - 1];
      GameOverScanDetects(init, head);
      assert cells == init + [cells[|cells| - 1]];
    }
  }

  /** The starting body never bites itself. */
  lemma InitialScanQuiet()
    ensures GameOverScan(InitialBody[1..], InitialHead) == 0
  {
    GameOverScanDetects(InitialBody[1..], InitialHead);
  }

  /** What `check_fail` emits for a body: a crash and a game-over when the head is off the board
      (the reset snake then passes the self-collision loop), otherwise one game-over for each hit
      of the self-collision scan, without a crash sound. */
  function FailEvents(body: seq<Cell>): seq<Event>
    requires |body| >= 1
  {
    if !InGrid(body[0]) then [Crash, GameOver]
    else Repeat([GameOver], GameOverScan(body[1..], body[0]))
  }

  /** `check_fail` ends the game exactly when the head is off the board or on its own body. */
  lemma FailEventsDetect(body: seq<Cell>)
    requires |body| >= 1
    ensures GameOver in FailEvents(body) <==> !InGrid(body[0]) || body[0] in body[1..]
  {
    if InGrid(body[0]) {
      GameOverScanDetects(body[1..], body[0]);
      RepeatHas([GameOver], GameOverScan(body[1..], body[0]), GameOver);
    }
  }
}
