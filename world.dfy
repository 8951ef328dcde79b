/** The game as a value: everything a tick reads or writes, and each step of the tick as a
    function of it. A random placement keeps the first draw of the stream `rng` from the current
    index on that avoids the item's cells, so each step is determined by the state and the stream. */
module GameWorld {
  import opened Grid
  import opened SnakeBody
  import opened Placement
  import opened GameRules
  import opened Persistence

  /** The snake: its cells head first, its direction, and the pending-block flag. */
  datatype SnakeState = SnakeState(body: seq<Cell>, direction: Cell, newBlock: bool)

  /** Where the items are, and the body each one was placed against. */
  datatype Items = Items(
    fruit: Cell,
    /** The obstacles in list order, and the body each one keeps. */
    obstacles: seq<Cell>,
    obstacleBodies: seq<seq<Cell>>,
    /** `None` while the game has no big fruit object. */
    bigFruit: Option<Cell>,
    bigFruitBody: seq<Cell>,
    boom: Cell,
    powerUp: Cell)

  /** The items that come and go, with the time each last came. */
  datatype Specials = Specials(
    bigFruitActive: bool,
    bigFruitTimer: int,
    boomActive: bool,
    /** In whole seconds of game time, unlike the other two, which are in milliseconds. */
    boomTimer: int,
    powerUpActive: bool,
    powerUpTimer: int)

  datatype Session = Session(
    startTime: int,
    level: int,
    /** Milliseconds between ticks. */
    interval: int,
    firstGameOver: bool,
    /** Set by `game_over`, which then waits for the player. */
    awaitingInput: bool)

  datatype Scores = Scores(
    score: int,
    highScore: int,
    /** Fruits eaten since the program started; never reset. */
    bigScore: int)

  datatype World = World(
    snake: SnakeState,
    items: Items,
    specials: Specials,
    session: Session,
    scores: Scores,
    /** Sounds played and game-over messages shown, oldest first. */
    events: seq<Event>,
    /** Index of the next draw of the random stream. */
    next: nat)

  /** Every item is on the board and off the cells it was placed against (the starting body, for
      the fruit, the boom and the power-up); there are at most ten obstacles; and every stored
      body leaves room for a placement against it and one more cell. */
  predicate Placed(it: Items) {
    InGrid(it.fruit) && it.fruit !in InitialBody
    && |it.obstacleBodies| == |it.obstacles| <= 10
    && (forall i :: 0 <= i < |it.obstacles| ==>
          InGrid(it.obstacles[i]) && it.obstacles[i] !in it.obstacleBodies[i] && Roomy(it.obstacleBodies[i]))
    && (it.bigFruit.Some? ==>
          InGrid(it.bigFruit.value) && it.bigFruit.value !in it.bigFruitBody && Roomy(it.bigFruitBody))
    && InGrid(it.boom) && it.boom !in InitialBody
    && InGrid(it.powerUp) && it.powerUp !in InitialBody
  }

  /** What holds between ticks: the body has the two cells a move needs and no pending block, the
      items are placed, an active big fruit exists, the level is 1 to 3, and the high score is not
      negative. */
  predicate Sound(w: World) {
    |w.snake.body| >= 2 && !w.snake.newBlock
    && Placed(w.items)
    && (w.specials.bigFruitActive ==> w.items.bigFruit.Some?)
    && 1 <= w.session.level <= 3
    && w.scores.highScore >= 0
  }

  // ----- placements -----------------------------------------------------------------------

  /** The cell a sampling loop started at the current index keeps against `avoid`. */
  ghost function Pick(w: World, rng: Random, avoid: seq<Cell>): Cell {
    rng.draw(NextOutside(rng, w.next, avoid))
  }

  /** The index of the stream after that loop. */
  ghost function After(w: World, rng: Random, avoid: seq<Cell>): nat {
    NextOutside(rng, w.next, avoid) + 1
  }

  /** `c` is one of the cells drawn from index `from` of the stream up to, not including, `to`. */
  ghost predicate Drawn(rng: Random, c: Cell, from: nat, to: nat) {
    exists k: nat :: from <= k < to && rng.draw(k) == c
  }

  /** A loop against a list that leaves room keeps a board cell off that list, and off one more
      cell when that cell is added to the list. */
  lemma PickFree(w: World, rng: Random, avoid: seq<Cell>, extra: Cell)
    requires rng.Valid() && Roomy(avoid)
    ensures InGrid(Pick(w, rng, avoid)) && Pick(w, rng, avoid) !in avoid
    ensures InGrid(Pick(w, rng, avoid + [extra])) && Pick(w, rng, avoid + [extra]) !in avoid
            && Pick(w, rng, avoid + [extra]) != extra
  {
    FreeCell(avoid, extra);
    var c :| InGrid(c) && c !in avoid && c != extra;
    NextOutsideFree(rng, w.next, avoid, c);
    assert c !in avoid + [extra];
    NextOutsideFree(rng, w.next, avoid + [extra], c);
  }

  // ----- game over ------------------------------------------------------------------------

  /** `game_over`: the snake back at its start, the clock restarted, the boom off, the score
      folded into the high score and cleared, the message shown, and the game waiting for a key. */
  function Ended(w: World, now: int): World {
    w.(snake := w.snake.(body := InitialBody, direction := Still),
       specials := w.specials.(boomActive := false),
       session := w.session.(startTime := now, firstGameOver := true, awaitingInput := true),
       scores := w.scores.(highScore := Max(w.scores.highScore, w.scores.score), score := 0),
       events := w.events + [GameOver])
  }

  /** The state `Ended` leaves, apart from its message. */
  function Reset(w: World, now: int): World {
    Ended(w, now).(events := w.events)
  }

  /** A game-over right after another leaves the state as one did: the score is already zero. */
  lemma ResetTwice(w: World, e: seq<Event>, now: int)
    requires w.scores.highScore >= 0
    ensures Reset(Reset(w, now).(events := e), now) == Reset(w, now).(events := e)
  {
  }

  /** The state after `n` game-overs within one tick, each one logged as `e`. */
  function Scanned(w: World, e: seq<Event>, n: nat, now: int): World {
    if n == 0 then w else Reset(w, now).(events := w.events + Repeat(e, n))
  }

  /** One game-over more: the state of a single one, and one more `e` in the log. */
  lemma ScannedStep(w: World, e: seq<Event>, n: nat, first: seq<Event>, now: int)
    requires w.scores.highScore >= 0 && e == first + [GameOver]
    ensures Ended(Scanned(w, e, n, now).(events := Scanned(w, e, n, now).events + first), now)
         == Scanned(w, e, n + 1, now)
  {
    var v := Scanned(w, e, n, now);
    RepeatStep(w.events, e, n);
    assert v.events + first + [GameOver] == w.events + Repeat(e, n + 1);
    if n > 0 {
      ResetTwice(w, v.events + first + [GameOver], now);
    }
  }

  // ----- check_collision ------------------------------------------------------------------

  /** The fruit check: a head on the fruit moves the fruit, grows the snake by one cell, plays
      the crunch and scores a point on both counters. */
  ghost function EatFruit(w: World, rng: Random): (v: World)
    requires |w.snake.body| >= 1
    ensures |v.snake.body| >= 1
  {
    if w.items.fruit == w.snake.body[0] then
      w.(items := w.items.(fruit := Pick(w, rng, InitialBody)), next := After(w, rng, InitialBody),
         snake := w.snake.(body := Grown(w.snake.body, 1)), events := w.events + [Crunch],
         scores := w.scores.(score := w.scores.score + 1, bigScore := w.scores.bigScore + 1))
    else w
  }

  /** The power-up check: touching it plays the crunch. */
  function PowerUpSound(w: World): World
    requires |w.snake.body| >= 1
  {
    if w.items.powerUp == w.snake.body[0] then w.(events := w.events + [Crunch]) else w
  }

  /** The hazard test, for the boom (`armed` is whether it is active) and for each obstacle:
      a hazard on the head plays the crash and ends the game, unless the power-up is active. */
  function Hit(w: World, armed: bool, pos: Cell, now: int): (v: World)
    requires |w.snake.body| >= 1
    ensures |v.snake.body| >= 1 && v.items == w.items && w.events <= v.events
  {
    if armed && pos == w.snake.body[0] && !w.specials.powerUpActive then
      Ended(w.(events := w.events + [Crash]), now)
    else w
  }

  /** The obstacle loop over the positions `ps`, each compared with the live head. */
  function HitAll(w: World, ps: seq<Cell>, now: int): (v: World)
    requires |w.snake.body| >= 1
    ensures |v.snake.body| >= 1 && v.items == w.items && w.events <= v.events
    decreases |ps|
  {
    if ps == [] then w else Hit(HitAll(w, ps[..|ps| - 1], now), true, ps[|ps| - 1], now)
  }

  /** The power-up sound, the boom and the obstacles. */
  function Hazards(w: World, now: int): (v: World)
    requires |w.snake.body| >= 1
    ensures |v.snake.body| >= 1 && v.items == w.items && w.events <= v.events
  {
    var w1 := PowerUpSound(w);
    HitAll(Hit(w1, w1.specials.boomActive, w1.items.boom, now), w1.items.obstacles, now)
  }

  /** The obstacle loop of the relocation pass, over the first `j` obstacles: each one on
      `block` is placed again, against its own body and the live fruit. */
  ghost function RelocateObstacles(w: World, rng: Random, block: Cell, j: nat): (v: World)
    requires j <= |w.items.obstacles| <= |w.items.obstacleBodies|
    ensures |v.items.obstacles| == |w.items.obstacles|
    ensures v == w.(items := w.items.(obstacles := v.items.obstacles), next := v.next)
  {
    if j == 0 then w
    else
      var v := RelocateObstacles(w, rng, block, j - 1);
      if block == v.items.obstacles[j - 1] then
        var avoid := v.items.obstacleBodies[j - 1] + [v.items.fruit];
        v.(items := v.items.(obstacles := v.items.obstacles[j - 1 := Pick(v, rng, avoid)]),
           next := After(v, rng, avoid))
      else v
  }

  /** The fruit on `block` is placed again, against the starting body. */
  ghost function RelocateFruit(w: World, rng: Random, block: Cell): World {
    if block == w.items.fruit
    then w.(items := w.items.(fruit := Pick(w, rng, InitialBody)), next := After(w, rng, InitialBody))
    else w
  }

  /** The armed boom on `block` is placed again, against the starting body and the fruit. */
  ghost function RelocateBoom(w: World, rng: Random, block: Cell): World {
    var avoid := InitialBody + [w.items.fruit];
    if w.specials.boomActive && block == w.items.boom
    then w.(items := w.items.(boom := Pick(w, rng, avoid)), next := After(w, rng, avoid))
    else w
  }

  /** The active big fruit on `block` is placed again, against its stored body. */
  ghost function RelocateBigFruit(w: World, rng: Random, block: Cell): World {
    if w.specials.bigFruitActive && w.items.bigFruit.Some? && block == w.items.bigFruit.value then
      w.(items := w.items.(bigFruit := Some(Pick(w, rng, w.items.bigFruitBody))),
         next := After(w, rng, w.items.bigFruitBody))
    else w
  }

  /** The relocation step for one body cell: the fruit, each obstacle, the armed boom and the
      active big fruit are placed again when they lie on `block`. */
  ghost function RelocateAt(w: World, rng: Random, block: Cell): (v: World)
    requires |w.items.obstacles| <= |w.items.obstacleBodies|
    ensures v == w.(items := v.items, next := v.next)
    ensures |v.items.obstacles| == |w.items.obstacles| && v.items.obstacleBodies == w.items.obstacleBodies
  {
    var w1 := RelocateFruit(w, rng, block);
    var w2 := RelocateObstacles(w1, rng, block, |w1.items.obstacles|);
    RelocateBigFruit(RelocateBoom(w2, rng, block), rng, block)
  }

  /** The relocation pass over the body cells `cells`, in order. */
  ghost function Relocate(w: World, rng: Random, cells: seq<Cell>): (v: World)
    requires |w.items.obstacles| <= |w.items.obstacleBodies|
    ensures v == w.(items := v.items, next := v.next)
    ensures |v.items.obstacles| == |w.items.obstacles| && v.items.obstacleBodies == w.items.obstacleBodies
    decreases |cells|
  {
    if cells == [] then w else RelocateAt(Relocate(w, rng, cells[..|cells| - 1]), rng, cells[|cells| - 1])
  }

  /** The big-fruit check: a head on the active big fruit switches it off, places it again,
      plays the crunch and scores three points; `add_block(0)` leaves the body as it is. */
  ghost function EatBigFruit(w: World, rng: Random): (v: World)
    requires |w.snake.body| >= 1
    ensures |v.snake.body| >= 1
  {
    if w.specials.bigFruitActive && w.items.bigFruit.Some? && w.items.bigFruit.value == w.snake.body[0] then
      w.(specials := w.specials.(bigFruitActive := false),
         items := w.items.(bigFruit := Some(Pick(w, rng, w.items.bigFruitBody))),
         next := After(w, rng, w.items.bigFruitBody), snake := w.snake.(body := Grown(w.snake.body, 0)),
         events := w.events + [Crunch], scores := w.scores.(score := w.scores.score + 3))
    else w
  }

  /** The level and tick period at the end of `check_collision`. */
  function SetLevel(w: World): World {
    w.(session := w.session.(level := Level(|w.snake.body|), interval := Interval(|w.snake.body|)))
  }

  /** `check_collision`. After a game-over part way through, the later checks see the starting
      body. */
  ghost function Collision(w: World, rng: Random, now: int): (v: World)
    requires |w.snake.body| >= 1 && |w.items.obstacles| <= |w.items.obstacleBodies|
    ensures |v.snake.body| >= 1
  {
    var w1 := EatFruit(w, rng);
    var w2 := Hazards(w1, now);
    var w3 := Relocate(w2, rng, w2.snake.body[1..]);
    SetLevel(EatBigFruit(w3, rng))
  }

  // ----- check_fail -----------------------------------------------------------------------

  /** One step of the self-collision loop: a body cell on the live head ends the game. */
  function Bite(w: World, pos: Cell, now: int): (v: World)
    requires |w.snake.body| >= 1
    ensures |v.snake.body| >= 1
  {
    if pos == w.snake.body[0] then Ended(w, now) else w
  }

  /** The self-collision loop over `cells`, each compared with the live head. */
  function Bites(w: World, cells: seq<Cell>, now: int): (v: World)
    requires |w.snake.body| >= 1
    ensures |v.snake.body| >= 1
    decreases |cells|
  {
    if cells == [] then w else Bite(Bites(w, cells[..|cells| - 1], now), cells[|cells| - 1], now)
  }

  /** `check_fail`: a head off the board crashes and ends the game; then each later body cell on
      the live head ends it once more. */
  function CheckFail(w: World, now: int): (v: World)
    requires |w.snake.body| >= 1
    ensures |v.snake.body| >= 1
  {
    var w1 := if !InGrid(w.snake.body[0]) then Ended(w.(events := w.events + [Crash]), now) else w;
    Bites(w1, w1.snake.body[1..], now)
  }

  // ----- the rest of update --------------------------------------------------------------

  /** `move_snake`. */
  function Move(w: World): World
    requires |w.snake.body| >= 2 || (w.snake.newBlock && |w.snake.body| >= 1)
  {
    w.(snake := w.snake.(body := Moved(w.snake.body, w.snake.direction, w.snake.newBlock), newBlock := false))
  }

  /** A missing big fruit is created, placed against the live body. */
  ghost function EnsureBigFruit(w: World, rng: Random): World {
    if w.items.bigFruit.None? then
      w.(items := w.items.(bigFruit := Some(Pick(w, rng, w.snake.body)), bigFruitBody := w.snake.body),
         next := After(w, rng, w.snake.body))
    else w
  }

  /** Touching the power-up moves it and makes the snake invincible from now on; invincibility
      ends once more than ten seconds have passed since. */
  ghost function PowerUpPhase(w: World, rng: Random, now: int): World
    requires |w.snake.body| >= 1
  {
    var w1 := if w.items.powerUp == w.snake.body[0]
              then w.(items := w.items.(powerUp := Pick(w, rng, InitialBody)), next := After(w, rng, InitialBody),
                      specials := w.specials.(powerUpActive := true, powerUpTimer := now))
              else w;
    if w1.specials.powerUpActive && now - w1.specials.powerUpTimer > 10000 then
      w1.(specials := w1.specials.(powerUpActive := false))
    else w1
  }

  /** The boom arms itself at a new place once ten whole seconds of game time have passed since
      the time it last did. */
  ghost function BoomAppear(w: World, rng: Random, now: int): World {
    var elapsed := ElapsedSeconds(now, w.session.startTime);
    if elapsed - w.specials.boomTimer >= 10 && !w.specials.boomActive then
      var avoid := InitialBody + [w.items.fruit];
      w.(items := w.items.(boom := Pick(w, rng, avoid)), next := After(w, rng, avoid),
         specials := w.specials.(boomActive := true, boomTimer := elapsed))
    else w
  }

  /** The big fruit appears at a new place while the fruit counter is a nonzero multiple of five. */
  ghost function BigFruitAppear(w: World, rng: Random, now: int): World {
    if w.scores.bigScore % 5 == 0 && w.scores.bigScore != 0 && !w.specials.bigFruitActive
       && w.items.bigFruit.Some?
    then
      w.(items := w.items.(bigFruit := Some(Pick(w, rng, w.items.bigFruitBody))),
         next := After(w, rng, w.items.bigFruitBody),
         specials := w.specials.(bigFruitActive := true, bigFruitTimer := now))
    else w
  }

  /** The big fruit goes after five seconds, the armed boom after three. */
  function Expire(w: World, now: int): World {
    var s := w.specials;
    var s1 := if s.bigFruitActive && now - s.bigFruitTimer >= 5000 then s.(bigFruitActive := false) else s;
    var s2 := if s1.boomActive && ElapsedSeconds(now, w.session.startTime) - s1.boomTimer >= 3
              then s1.(boomActive := false) else s1;
    w.(specials := s2)
  }

  /** `Obstacle(fruit, body)` appended to the list: placed against `body` and the fruit. */
  ghost function AddObstacle(w: World, rng: Random, body: seq<Cell>): World {
    var avoid := body + [w.items.fruit];
    w.(items := w.items.(obstacles := w.items.obstacles + [Pick(w, rng, avoid)],
                         obstacleBodies := w.items.obstacleBodies + [body]),
       next := After(w, rng, avoid))
  }

  /** The tick period from the body length; past ten cells gained, one obstacle more per tick,
      placed against the live body, while there are fewer than ten. */
  ghost function Escalate(w: World, rng: Random): World {
    var w1 := w.(session := w.session.(interval := Interval(|w.snake.body|)));
    if |w.snake.body| - 3 > 10 && |w.items.obstacles| < 10 then AddObstacle(w1, rng, w.snake.body) else w1
  }

  /** The phases of `update` after `check_fail`. */
  ghost function Upkeep(w: World, rng: Random, now: int): World
    requires |w.snake.body| >= 1
  {
    var w1 := PowerUpPhase(EnsureBigFruit(w, rng), rng, now);
    Escalate(Expire(BigFruitAppear(BoomAppear(w1, rng, now), rng, now), now), rng)
  }

  /** `update`: move, `check_collision`, `check_fail`, then the timers and the difficulty. */
  ghost function Tick(w: World, rng: Random, now: int): World
    requires Sound(w)
  {
    Upkeep(CheckFail(Collision(Move(w), rng, now), now), rng, now)
  }

  // ----- reset_game and __init__ ---------------------------------------------------------

  /** The first `n` obstacles of `reset_game`, each placed against the starting body. */
  ghost function AddObstacles(w: World, rng: Random, n: nat): World {
    if n == 0 then w else AddObstacle(AddObstacles(w, rng, n - 1), rng, InitialBody)
  }

  /** `reset_game`: a new snake, then the fruit, five obstacles, the big fruit, the boom and the
      power-up, in that order, all placed against the starting body, and fresh timers. The scores,
      the tick period, the wait and the log are kept. */
  ghost function Restarted(w: World, rng: Random, now: int): World {
    Furnished(AddObstacles(Cleared(w, rng), rng, 5), rng, now)
  }

  /** The start of `reset_game`: the new snake, and the fruit placed before any obstacle. */
  ghost function Cleared(w: World, rng: Random): World {
    w.(snake := SnakeState(InitialBody, Still, false),
       items := w.items.(fruit := Pick(w, rng, InitialBody), obstacles := [], obstacleBodies := []),
       next := After(w, rng, InitialBody))
  }

  /** The rest of `reset_game` after the obstacles: the big fruit, the boom and the power-up,
      each placed against the starting body (the boom also against the fruit), with their
      timers, the level and the clock. */
  ghost function Furnished(w: World, rng: Random, now: int): World {
    PlacePowerUp(PlaceBoom(PlaceBigFruit(w, rng, now), rng), rng)
  }

  /** `BigFruit([], body)`, switched off, with the level and the clock restarted. */
  ghost function PlaceBigFruit(w: World, rng: Random, now: int): World {
    w.(items := w.items.(bigFruit := Some(Pick(w, rng, InitialBody)), bigFruitBody := InitialBody),
       next := After(w, rng, InitialBody),
       specials := w.specials.(bigFruitActive := false, bigFruitTimer := 0),
       session := w.session.(level := 1, startTime := now))
  }

  /** `Boom(fruit, body)`, disarmed, and the first-game-over flag cleared. */
  ghost function PlaceBoom(w: World, rng: Random): World {
    var avoid := InitialBody + [w.items.fruit];
    w.(items := w.items.(boom := Pick(w, rng, avoid)), next := After(w, rng, avoid),
       specials := w.specials.(boomActive := false, boomTimer := 0),
       session := w.session.(firstGameOver := false))
  }

  /** `PowerUp(body)`, switched off. */
  ghost function PlacePowerUp(w: World, rng: Random): World {
    w.(items := w.items.(powerUp := Pick(w, rng, InitialBody)), next := After(w, rng, InitialBody),
       specials := w.specials.(powerUpActive := false, powerUpTimer := 0))
  }

  /** The state `__init__` sets up before `reset_game` fills it in: zero scores, no log and the
      stream at index `k`. */
  function Blank(k: nat, now: int): World {
    World(SnakeState(InitialBody, Still, false),
          Items(InitialHead, [], [], None, [], InitialHead, InitialHead),
          Specials(false, 0, false, 0, false, 0), Session(now, 1, 150, false, false),
          Scores(0, 0, 0), [], k)
  }

  /** `__init__`: zero scores, a `reset_game` drawing from index `k` of the stream on, and then
      the big fruit dropped again; the tick period is the 150 ms set before the game is built. */
  ghost function Initial(rng: Random, k: nat, now: int): World {
    var w := Restarted(Blank(k, now), rng, now);
    w.(items := w.items.(bigFruit := None, bigFruitBody := []))
  }

  // ----- save_game and load_game ---------------------------------------------------------

  /** The record `save_game` writes. The boom and the power-up always exist, so their entries
      are never empty. */
  function Record(w: World): GameRecord {
    var it := w.items;
    GameRecord(EncodeBody(w.snake.body), EncodeCell(w.snake.direction), EncodeCell(it.fruit),
               if it.bigFruit.Some? then Some(EncodeCell(it.bigFruit.value)) else None,
               Some(EncodeCell(it.boom)), Some(EncodeCell(it.powerUp)), w.scores.score)
  }

  /** `load_game`: the body, the direction and the score are taken from the record; the fruit's
      position is decoded before the score is read, but goes to an attribute nothing reads, so the
      fruit stays put. `None` when the body, the direction or the fruit's position does not
      decode, or the body is too short to move. */
  function Loaded(w: World, rec: GameRecord): Option<World> {
    match (DecodeBody(rec.snakeBody), DecodeCell(rec.snakeDirection), DecodeCell(rec.fruitPosition))
    case (Some(body), Some(dir), Some(_)) =>
      if |body| >= 2 then Some(w.(snake := w.snake.(body := body, direction := dir),
                                  scores := w.scores.(score := rec.score)))
      else None
    case _ => None
  }

  /** After a save, a load gives back the same game. */
  lemma SaveLoad(w: World)
    requires |w.snake.body| >= 2
    ensures Loaded(w, Record(w)) == Some(w)
  {
    BodyRoundTrip(w.snake.body);
    CellRoundTrip(w.snake.direction);
    CellRoundTrip(w.items.fruit);
  }

  // ----- what the game-over loops do -------------------------------------------------------

  /** The obstacle loop: one crash and game-over for each hit of the scan while not invincible;
      every hit after the first compares the obstacle with the starting head. */
  lemma {:induction false} HitAllScan(w: World, ps: seq<Cell>, now: int)
    requires |w.snake.body| >= 1 && w.scores.highScore >= 0
    ensures HitAll(w, ps, now) == Scanned(w, [Crash, GameOver],
                                          if w.specials.powerUpActive then 0 else GameOverScan(ps, w.snake.body[0]), now)
    decreases |ps|
  {
    if ps != [] {
      var init, last := ps[..|ps| - 1], ps[|ps| - 1];
      HitAllScan(w, init, now);
      if !w.specials.powerUpActive {
        var n0 := GameOverScan(init, w.snake.body[0]);
        if last == ScanHead(n0, w.snake.body[0]) {
          ScannedStep(w, [Crash, GameOver], n0, [Crash], now);
        }
      }
    }
  }

  /** The log `Scanned` leaves. */
  lemma ScannedEvents(w: World, e: seq<Event>, n: nat, now: int)
    ensures Scanned(w, e, n, now).events == w.events + Repeat(e, n)
  {
    if n == 0 {
      assert w.events + Repeat(e, 0) == w.events;
    }
  }

  /** `a` game-overs and then `b` more are `a + b` game-overs. */
  lemma ScannedAdd(w: World, e: seq<Event>, a: nat, b: nat, now: int)
    requires w.scores.highScore >= 0
    ensures Scanned(Scanned(w, e, a, now), e, b, now) == Scanned(w, e, a + b, now)
  {
    RepeatAdd(e, a, b);
    if a > 0 && b > 0 {
      ResetTwice(w, w.events + Repeat(e, a) + Repeat(e, b), now);
      assert w.events + Repeat(e, a) + Repeat(e, b) == w.events + Repeat(e, a + b);
    }
  }

  /** The power-up sound, the boom and the obstacle loop together: the crunch when touching the
      power-up, then a crash and a game-over for the armed boom and one pair for each obstacle hit
      (against the starting head once the boom has hit), each hit ending the game; no hit while
      invincible. */
  lemma HazardsEffect(w: World, now: int)
    requires |w.snake.body| >= 1 && w.scores.highScore >= 0
    ensures var h := w.snake.body[0];
      var boomHit := w.specials.boomActive && w.items.boom == h && !w.specials.powerUpActive;
      var n := if w.specials.powerUpActive then 0
               else GameOverScan(w.items.obstacles, if boomHit then InitialHead else h);
      Hazards(w, now) == Scanned(w.(events := w.events + (if w.items.powerUp == h then [Crunch] else [])),
                                 [Crash, GameOver], (if boomHit then 1 else 0) + n, now)
  {
    var h := w.snake.body[0];
    var boomHit := w.specials.boomActive && w.items.boom == h && !w.specials.powerUpActive;
    var w1 := PowerUpSound(w);
    assert w1 == w.(events := w.events + (if w.items.powerUp == h then [Crunch] else []));
    var b := if boomHit then 1 else 0;
    var w2 := Hit(w1, w1.specials.boomActive, w1.items.boom, now);
    assert Repeat([Crash, GameOver], 1) == [Crash, GameOver];
    assert w2 == Scanned(w1, [Crash, GameOver], b, now);
    HitAllScan(w2, w.items.obstacles, now);
    var n := if w.specials.powerUpActive then 0 else GameOverScan(w.items.obstacles, if boomHit then InitialHead else h);
    ScannedAdd(w1, [Crash, GameOver], b, n, now);
  }

  /** A head at `h` meets a hazard: the armed boom or an obstacle is there, and the power-up is off. */
  predicate Hazard(w: World, h: Cell) {
    !w.specials.powerUpActive && ((w.specials.boomActive && w.items.boom == h) || h in w.items.obstacles)
  }

  /** The hazards end the game exactly when the head meets one; apart from the log, the state is
      then that of a game-over, and otherwise unchanged. */
  lemma HazardsDoom(w: World, now: int)
    requires |w.snake.body| >= 1 && w.scores.highScore >= 0
    ensures GameOver in Hazards(w, now).events[|w.events|..] <==> Hazard(w, w.snake.body[0])
    ensures Hazards(w, now)
         == (if Hazard(w, w.snake.body[0]) then Reset(w, now) else w).(events := Hazards(w, now).events)
  {
    var h := w.snake.body[0];
    var boomHit := w.specials.boomActive && w.items.boom == h && !w.specials.powerUpActive;
    var pu: seq<Event> := if w.items.powerUp == h then [Crunch] else [];
    var n := if w.specials.powerUpActive then 0 else GameOverScan(w.items.obstacles, if boomHit then InitialHead else h);
    var k := (if boomHit then 1 else 0) + n;
    HazardsEffect(w, now);
    ScannedEvents(w.(events := w.events + pu), [Crash, GameOver], k, now);
    assert Hazards(w, now).events[|w.events|..] == pu + Repeat([Crash, GameOver], k);
    RepeatHas([Crash, GameOver], k, GameOver);
    if !boomHit && !w.specials.powerUpActive {
      GameOverScanDetects(w.items.obstacles, h);
    }
  }

  /** The self-collision loop: one game-over for each hit of the scan, every hit after the first
      against the starting head. */
  lemma {:induction false} BitesScan(w: World, cells: seq<Cell>, now: int)
    requires |w.snake.body| >= 1 && w.scores.highScore >= 0
    ensures Bites(w, cells, now) == Scanned(w, [GameOver], GameOverScan(cells, w.snake.body[0]), now)
    decreases |cells|
  {
    if cells != [] {
      var init, last := cells[..|cells| - 1], cells[|cells| - 1];
      BitesScan(w, init, now);
      var n0 := GameOverScan(init, w.snake.body[0]);
      if last == ScanHead(n0, w.snake.body[0]) {
        var v := Scanned(w, [GameOver], n0, now);
        assert v.(events := v.events + []) == v;
        ScannedStep(w, [GameOver], n0, [], now);
      }
    }
  }

  /** `check_fail` adds exactly the events `FailEvents` lists for the body, and leaves the state
      of one game-over when those include one, the state unchanged otherwise. */
  lemma CheckFailEffect(w: World, now: int)
    requires |w.snake.body| >= 1 && w.scores.highScore >= 0
    ensures CheckFail(w, now)
         == (if GameOver in FailEvents(w.snake.body) then Reset(w, now) else w)
              .(events := w.events + FailEvents(w.snake.body))
  {
    if !InGrid(w.snake.body[0]) {
      var w1 := Ended(w.(events := w.events + [Crash]), now);
      assert w1 == Reset(w, now).(events := w.events + [Crash, GameOver]);
      InitialScanQuiet();
      BitesScan(w1, w1.snake.body[1..], now);
    } else {
      BitesScan(w, w.snake.body[1..], now);
      var n := GameOverScan(w.snake.body[1..], w.snake.body[0]);
      RepeatHas([GameOver], n, GameOver);
      assert n == 0 ==> w.(events := w.events + Repeat([GameOver], n)) == w;
    }
  }
}
