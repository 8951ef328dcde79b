/** `MAIN`, the object that holds a running game: the snake object, the items and the counters,
    updated in place by each tick. Every method is specified by the value-level step of
    `GameWorld` it carries out on the snapshot `State()`. */
module GameMain {
  import opened Grid
  import opened SnakeBody
  import opened Placement
  import opened GameRules
  import opened GameWorld
  import opened WorldFacts
  import opened Persistence
  import Controls

  /** A list that leaves room for a placement still leaves one when a cell is added to it. */
  lemma RoomFor(avoid: seq<Cell>, extra: Cell)
    requires Roomy(avoid)
    ensures exists c :: InGrid(c) && c !in avoid + [extra]
  {
    FreeCell(avoid, extra);
    var c :| InGrid(c) && c !in avoid && c != extra;
    assert c !in avoid + [extra];
  }

  class Game {
    var snake: Snake
    /** Where the fruit, the obstacles, the big fruit, the boom and the power-up are, with the
        bodies they were placed against. */
    var items: Items
    var specials: Specials
    var session: Session
    var scores: Scores
    /** The sounds played and the messages shown, oldest first. */
    var events: seq<Event>
    /** The stream every placement draws from. */
    const rng: Random

    /** The game as a value. */
    ghost function State(): World
      reads this, snake, rng`next
    {
      World(SnakeState(snake.body, snake.direction, snake.newBlock), items, specials, session, scores,
            events, rng.next)
    }

    ghost predicate Valid()
      reads this, snake, rng`next
    {
      rng.Valid() && Sound(State())
    }

    /** `__init__`: zero scores, `reset_game`, and then no big fruit until the first tick. */
    constructor (rng: Random, now: int)
      requires rng.Valid()
      modifies rng`next
      ensures this.rng == rng && Valid() && State() == Initial(rng, old(rng.next), now)
    {
      this.rng := rng;
      snake := new Snake();
      items := Items(InitialHead, [], [], None, [], InitialHead, InitialHead);
      specials := Specials(false, 0, false, 0, false, 0);
      session := Session(now, 1, 150, false, false);
      scores := Scores(0, 0, 0);
      events := [];
      new;
      assert State() == Blank(old(rng.next), now);
      ResetGame(now);
      session := session.(firstGameOver := false);
      items := items.(bigFruit := None, bigFruitBody := []);
      specials := specials.(bigFruitActive := false);
      scores := scores.(bigScore := 0);
      assert State() == Initial(rng, old(rng.next), now);
      InitialSound(rng, old(rng.next), now);
    }

    /** `reset_game`: a new snake, then the fruit, five obstacles, the big fruit, the boom and the
        power-up, each placed as it is built, and the timers cleared. */
    method ResetGame(now: int)
      requires rng.Valid() && scores.highScore >= 0
      modifies this`snake, this`items, this`specials, this`session, rng`next
      ensures Valid() && State() == Restarted(old(State()), rng, now)
    {
      ghost var w := State();
      snake := new Snake();
      FreeCell(InitialBody, InitialHead);
      var f := rng.SampleOutside(snake.body);
      items := items.(fruit := f, obstacles := [], obstacleBodies := []);
      assert State() == Cleared(w, rng);
      PlaceObstacles();
      Furnish(now);
      RestartedSound(w, rng, now);
    }

    /** The big fruit, the boom and the power-up of `reset_game`, with their timers. */
    method Furnish(now: int)
      requires rng.Valid() && snake.body == InitialBody
      modifies this`items, this`specials, this`session, rng`next
      ensures State() == Furnished(old(State()), rng, now)
    {
      NewBigFruit(now);
      NewBoom();
      NewPowerUp();
    }

    method NewBigFruit(now: int)
      requires rng.Valid() && snake.body == InitialBody
      modifies this`items, this`specials, this`session, rng`next
      ensures State() == PlaceBigFruit(old(State()), rng, now)
    {
      FreeCell(InitialBody, InitialHead);
      var b := rng.SampleOutside(snake.body);
      items := items.(bigFruit := Some(b), bigFruitBody := snake.body);
      specials := specials.(bigFruitActive := false, bigFruitTimer := 0);
      session := session.(level := 1, startTime := now);
    }

    method NewBoom()
      requires rng.Valid() && snake.body == InitialBody
      modifies this`items, this`specials, this`session, rng`next
      ensures State() == PlaceBoom(old(State()), rng)
    {
      RoomFor(InitialBody, items.fruit);
      var m := rng.SampleOutside(snake.body + [items.fruit]);
      items := items.(boom := m);
      specials := specials.(boomActive := false, boomTimer := 0);
      session := session.(firstGameOver := false);
    }

    method NewPowerUp()
      requires rng.Valid() && snake.body == InitialBody
      modifies this`items, this`specials, rng`next
      ensures State() == PlacePowerUp(old(State()), rng)
    {
      FreeCell(InitialBody, InitialHead);
      var p := rng.SampleOutside(snake.body);
      items := items.(powerUp := p);
      specials := specials.(powerUpActive := false, powerUpTimer := 0);
    }

    /** The five obstacles of `reset_game`, each placed against the starting body and the fruit. */
    method PlaceObstacles()
      requires rng.Valid()
      modifies this`items, rng`next
      ensures State() == AddObstacles(old(State()), rng, 5)
    {
      ghost var w := State();
      var k := 0;
      while k < 5
        invariant 0 <= k <= 5
        invariant State() == AddObstacles(w, rng, k)
      {
        RoomFor(InitialBody, items.fruit);
        var o := rng.SampleOutside(InitialBody + [items.fruit]);
        items := items.(obstacles := items.obstacles + [o], obstacleBodies := items.obstacleBodies + [InitialBody]);
        k := k + 1;
      }
    }

    /** `game_over` (the message is the `GameOver` event; the wait for a key is the flag). */
    method GameOver(now: int)
      modifies snake`body, snake`direction, this`session, this`specials, this`scores, this`events
      ensures State() == Ended(old(State()), now)
    {
      snake.Reset();
      session := session.(startTime := now);
      specials := specials.(boomActive := false);
      if scores.score > scores.highScore {
        scores := scores.(highScore := scores.score);
      }
      events := events + [Event.GameOver];
      scores := scores.(score := 0);
      snake.Reset();
      session := session.(firstGameOver := true, awaitingInput := true);
    }

    // ----- check_collision ----------------------------------------------------------------

    /** The fruit check: a head on the fruit moves it, grows the snake, plays the crunch and
        scores a point on both counters. */
    method FruitCheck()
      requires rng.Valid() && |snake.body| >= 1
      modifies this`items, this`events, this`scores, snake`body, rng`next
      ensures State() == EatFruit(old(State()), rng)
    {
      if items.fruit == snake.body[0] {
        FreeCell(InitialBody, InitialHead);
        var c := rng.SampleOutside(InitialBody);
        items := items.(fruit := c);
        snake.AddBlock(1);
        events := events + [Crunch];
        scores := scores.(score := scores.score + 1);
        scores := scores.(bigScore := scores.bigScore + 1);
      }
    }

    /** The hazard test, for the boom (`armed` is whether it is active) and for each obstacle. */
    method HitAt(armed: bool, pos: Cell, now: int)
      requires |snake.body| >= 1
      modifies snake`body, snake`direction, this`session, this`specials, this`scores, this`events
      ensures State() == Hit(old(State()), armed, pos, now)
    {
      if armed && pos == snake.body[0] && !specials.powerUpActive {
        events := events + [Crash];
        GameOver(now);
      }
    }

    /** The obstacle loop, each obstacle compared with the live head. */
    method HitObstacles(now: int)
      requires |snake.body| >= 1
      modifies snake`body, snake`direction, this`session, this`specials, this`scores, this`events
      ensures State() == HitAll(old(State()), old(items.obstacles), now)
    {
      ghost var w := State();
      var i := 0;
      while i < |items.obstacles|
        invariant 0 <= i <= |items.obstacles|
        invariant State() == HitAll(w, items.obstacles[..i], now)
      {
        assert items.obstacles[..i + 1][..i] == items.obstacles[..i];
        HitAt(true, items.obstacles[i], now);
        i := i + 1;
      }
      assert items.obstacles[..i] == items.obstacles;
    }

    /** The power-up sound, the boom and the obstacles. */
    method Hazards(now: int)
      requires |snake.body| >= 1
      modifies snake`body, snake`direction, this`session, this`specials, this`scores, this`events
      ensures State() == GameWorld.Hazards(old(State()), now)
    {
      if items.powerUp == snake.body[0] {
        events := events + [Crunch];
      }
      HitAt(specials.boomActive, items.boom, now);
      HitObstacles(now);
    }

    /** The obstacle loop of the relocation pass: each obstacle on `block` is placed again,
        against its own body and the live fruit. */
    method RelocateObstacles(block: Cell)
      requires rng.Valid() && Placed(items)
      modifies this`items, rng`next
      ensures State() == GameWorld.RelocateObstacles(old(State()), rng, block, |old(items.obstacles)|)
    {
      ghost var w := State();
      var i := 0;
      while i < |items.obstacles|
        invariant 0 <= i <= |items.obstacles| == |w.items.obstacles|
        invariant State() == GameWorld.RelocateObstacles(w, rng, block, i)
      {
        ghost var v := State();
        if block == items.obstacles[i] {
          RoomFor(items.obstacleBodies[i], items.fruit);
          var c := rng.SampleOutside(items.obstacleBodies[i] + [items.fruit]);
          items := items.(obstacles := items.obstacles[i := c]);
        }
        assert State() == GameWorld.RelocateObstacles(w, rng, block, i + 1) by {
          assert v == GameWorld.RelocateObstacles(w, rng, block, i);
        }
        i := i + 1;
      }
    }

    /** The relocation step for one body cell: the fruit, the obstacles, the armed boom and the
        active big fruit are placed again when they lie on `block`. */
    method RelocateAt(block: Cell)
      requires rng.Valid() && Placed(items)
      modifies this`items, rng`next
      ensures State() == GameWorld.RelocateAt(old(State()), rng, block) && Placed(items)
    {
      ghost var w := State();
      RelocateFruit(block);
      RelocateObstacles(block);
      RelocateBoom(block);
      RelocateBigFruit(block);
      RelocateAtSound(w, rng, block);
    }

    method RelocateFruit(block: Cell)
      requires rng.Valid() && Placed(items)
      modifies this`items, rng`next
      ensures State() == GameWorld.RelocateFruit(old(State()), rng, block) && Placed(items)
    {
      if block == items.fruit {
        FreeCell(InitialBody, InitialHead);
        var c := rng.SampleOutside(InitialBody);
        items := items.(fruit := c);
      }
    }

    method RelocateBoom(block: Cell)
      requires rng.Valid()
      modifies this`items, rng`next
      ensures State() == GameWorld.RelocateBoom(old(State()), rng, block)
    {
      if specials.boomActive && block == items.boom {
        RoomFor(InitialBody, items.fruit);
        var c := rng.SampleOutside(InitialBody + [items.fruit]);
        items := items.(boom := c);
      }
    }

    method RelocateBigFruit(block: Cell)
      requires rng.Valid() && (items.bigFruit.Some? ==> Roomy(items.bigFruitBody))
      modifies this`items, rng`next
      ensures State() == GameWorld.RelocateBigFruit(old(State()), rng, block)
    {
      if specials.bigFruitActive && items.bigFruit.Some? && block == items.bigFruit.value {
        FreeCell(items.bigFruitBody, InitialHead);
        var c := rng.SampleOutside(items.bigFruitBody);
        items := items.(bigFruit := Some(c));
      }
    }

    /** The relocation pass over the body behind the head. */
    method Relocate()
      requires rng.Valid() && Placed(items) && |snake.body| >= 1
      modifies this`items, rng`next
      ensures State() == GameWorld.Relocate(old(State()), rng, old(snake.body)[1..])
    {
      ghost var w := State();
      var rest := snake.body[1..];
      var i := 0;
      while i < |rest|
        invariant 0 <= i <= |rest|
        invariant State() == GameWorld.Relocate(w, rng, rest[..i])
        invariant Placed(items)
      {
        assert rest[..i + 1][..i] == rest[..i];
        ghost var v := State();
        RelocateAt(rest[i]);
        assert State() == GameWorld.Relocate(w, rng, rest[..i + 1]) by {
          assert State() == GameWorld.RelocateAt(v, rng, rest[i]);
        }
        i := i + 1;
      }
      assert rest[..i] == rest;
    }

    /** The big-fruit check: a head on the active big fruit switches it off, places it again,
        plays the crunch and scores three points. */
    method BigFruitCheck()
      requires rng.Valid() && Placed(items) && |snake.body| >= 1
      modifies this`items, this`specials, this`events, this`scores, snake`body, rng`next
      ensures State() == EatBigFruit(old(State()), rng)
    {
      if specials.bigFruitActive && items.bigFruit.Some? && items.bigFruit.value == snake.body[0] {
        specials := specials.(bigFruitActive := false);
        FreeCell(items.bigFruitBody, InitialHead);
        var c := rng.SampleOutside(items.bigFruitBody);
        items := items.(bigFruit := Some(c));
        snake.AddBlock(0);
        events := events + [Crunch];
        scores := scores.(score := scores.score + 3);
      }
    }

    /** The level and the tick period from the cells gained. */
    method SetLevel()
      modifies this`session
      ensures State() == GameWorld.SetLevel(old(State()))
    {
      var gained := |snake.body| - 3;
      if gained > 10 {
        session := session.(level := 3, interval := 70);
      } else if gained > 5 {
        session := session.(level := 2, interval := 100);
      } else {
        session := session.(level := 1, interval := 150);
      }
    }

    /** `check_collision`. */
    method CheckCollision(now: int)
      requires rng.Valid() && Sound(State())
      modifies this`items, this`specials, this`session, this`scores, this`events
      modifies snake`body, snake`direction, rng`next
      ensures State() == Collision(old(State()), rng, now)
    {
      ghost var w := State();
      FruitCheck();
      EatFruitSound(w, rng);
      Hazards(now);
      Relocate();
      ghost var w2 := GameWorld.Hazards(EatFruit(w, rng), now);
      RelocateSound(w2, rng, w2.snake.body[1..]);
      BigFruitCheck();
      SetLevel();
    }

    // ----- check_fail -----------------------------------------------------------------------

    /** The self-collision loop over the body behind the head, each cell compared with the live
        head. */
    method SelfBites(now: int)
      requires |snake.body| >= 1
      modifies snake`body, snake`direction, this`session, this`specials, this`scores, this`events
      ensures State() == Bites(old(State()), old(snake.body)[1..], now)
    {
      ghost var w := State();
      var rest := snake.body[1..];
      var i := 0;
      while i < |rest|
        invariant 0 <= i <= |rest|
        invariant State() == Bites(w, rest[..i], now)
      {
        assert rest[..i + 1][..i] == rest[..i];
        if rest[i] == snake.body[0] {
          GameOver(now);
        }
        i := i + 1;
      }
      assert rest[..i] == rest;
    }

    /** `check_fail`: off the board, then the bites. */
    method CheckFail(now: int)
      requires |snake.body| >= 1
      modifies snake`body, snake`direction, this`session, this`specials, this`scores, this`events
      ensures State() == GameWorld.CheckFail(old(State()), now)
    {
      if !InGrid(snake.body[0]) {
        events := events + [Crash];
        GameOver(now);
      }
      SelfBites(now);
    }

    // ----- the rest of update -------------------------------------------------------------

    /** A missing big fruit is created against the live body. */
    method EnsureBigFruit()
      requires rng.Valid() && Roomy(snake.body)
      modifies this`items, rng`next
      ensures State() == GameWorld.EnsureBigFruit(old(State()), rng)
    {
      if items.bigFruit.None? {
        FreeCell(snake.body, InitialHead);
        var b := rng.SampleOutside(snake.body);
        items := items.(bigFruit := Some(b), bigFruitBody := snake.body);
      }
    }

    /** The power-up: touching it moves it and starts invincibility, which ends after ten
        seconds. */
    method PowerUpPhase(now: int)
      requires rng.Valid() && |snake.body| >= 1
      modifies this`items, this`specials, rng`next
      ensures State() == GameWorld.PowerUpPhase(old(State()), rng, now)
    {
      if items.powerUp == snake.body[0] {
        FreeCell(InitialBody, InitialHead);
        var p := rng.SampleOutside(InitialBody);
        items := items.(powerUp := p);
        specials := specials.(powerUpActive := true, powerUpTimer := now);
      }
      if specials.powerUpActive && now - specials.powerUpTimer > 10000 {
        specials := specials.(powerUpActive := false);
      }
    }

    /** The boom arms itself at a new place every ten seconds of game time. */
    method BoomAppear(now: int)
      requires rng.Valid()
      modifies this`items, this`specials, rng`next
      ensures State() == GameWorld.BoomAppear(old(State()), rng, now)
    {
      if ElapsedSeconds(now, session.startTime) - specials.boomTimer >= 10 && !specials.boomActive {
        RoomFor(InitialBody, items.fruit);
        var m := rng.SampleOutside(InitialBody + [items.fruit]);
        items := items.(boom := m);
        specials := specials.(boomActive := true, boomTimer := ElapsedSeconds(now, session.startTime));
      }
    }

    /** The big fruit appears at a new place when the fruit counter is a nonzero multiple of
        five. */
    method BigFruitAppear(now: int)
      requires rng.Valid() && Placed(items)
      modifies this`items, this`specials, rng`next
      ensures State() == GameWorld.BigFruitAppear(old(State()), rng, now)
    {
      if scores.bigScore % 5 == 0 && scores.bigScore != 0 && !specials.bigFruitActive && items.bigFruit.Some? {
        FreeCell(items.bigFruitBody, InitialHead);
        var b := rng.SampleOutside(items.bigFruitBody);
        items := items.(bigFruit := Some(b));
        specials := specials.(bigFruitActive := true, bigFruitTimer := now);
      }
    }

    /** The big fruit goes after five seconds, the armed boom after three. */
    method Expire(now: int)
      modifies this`specials
      ensures State() == GameWorld.Expire(old(State()), now)
    {
      if specials.bigFruitActive && now - specials.bigFruitTimer >= 5000 {
        specials := specials.(bigFruitActive := false);
      }
      if specials.boomActive && ElapsedSeconds(now, session.startTime) - specials.boomTimer >= 3 {
        specials := specials.(boomActive := false);
      }
    }

    /** The tick period, and past ten cells gained one more obstacle while there are fewer than
        ten. */
    method Escalate()
      requires rng.Valid() && Roomy(snake.body)
      modifies this`items, this`session, rng`next
      ensures State() == GameWorld.Escalate(old(State()), rng)
    {
      var gained := |snake.body| - 3;
      if gained > 10 {
        session := session.(interval := 70);
        if |items.obstacles| < 10 {
          RoomFor(snake.body, items.fruit);
          var o := rng.SampleOutside(snake.body + [items.fruit]);
          items := items.(obstacles := items.obstacles + [o], obstacleBodies := items.obstacleBodies + [snake.body]);
        }
      } else if gained > 5 {
        session := session.(interval := 100);
      } else {
        session := session.(interval := 150);
      }
    }

    /** The phases of `update` after `check_fail`. */
    method Upkeep(now: int)
      requires rng.Valid() && Sound(State()) && Roomy(snake.body)
      modifies this`items, this`specials, this`session, rng`next
      ensures State() == GameWorld.Upkeep(old(State()), rng, now)
    {
      ghost var w := State();
      EnsureBigFruit();
      EnsureBigFruitSound(w, rng);
      ghost var w1 := State();
      PowerUpPhase(now);
      PowerUpPhaseSound(w1, rng, now);
      ghost var w2 := State();
      BoomAppear(now);
      BoomAppearSound(w2, rng, now);
      BigFruitAppear(now);
      Expire(now);
      Escalate();
    }

    /** `update`: one tick. It keeps the game valid while the grown body still leaves room. */
    method Update(now: int)
      requires Valid() && |snake.body| + 3 <= CellCount
      modifies this, snake, rng`next
      ensures Valid() && State() == Tick(old(State()), rng, now)
    {
      ghost var w := State();
      MoveSound(w);
      snake.MoveSnake();
      CheckCollision(now);
      CollisionSound(Move(w), rng, now);
      ghost var w2 := Collision(Move(w), rng, now);
      CheckFail(now);
      CheckFailSound(w2, now);
      Upkeep(now);
      TickSound(w, rng, now);
    }

    // ----- the main loop's keys, save_game and load_game ----------------------------------

    /** An arrow key turns the snake unless it points straight back; nothing else changes. */
    method Steer(k: Controls.Key)
      modifies snake`direction
      ensures snake.direction == Controls.Steer(old(snake.direction), k)
      ensures State() == old(State()).(snake := old(State()).snake.(direction := snake.direction))
      ensures old(Valid()) ==> Valid()
    {
      match k
      case Up => if snake.direction.y != 1 { snake.direction := Cell(0, -1); }
      case Down => if snake.direction.y != -1 { snake.direction := Cell(0, 1); }
      case Left => if snake.direction.x != 1 { snake.direction := Cell(-1, 0); }
      case Right => if snake.direction.x != -1 { snake.direction := Cell(1, 0); }
      case Other =>
    }

    /** A key read by `wait_for_player_input` after a game-over: an arrow key ends the wait and
        is used up by it, so it does not steer; the direction stays as `game_over` left it. */
    method Resume(k: Controls.Key)
      modifies this`session
      ensures session == old(session).(awaitingInput := old(session.awaitingInput) && k == Controls.Other)
      ensures State() == old(State()).(session := session)
      ensures old(Valid()) ==> Valid()
    {
      if k != Controls.Other {
        session := session.(awaitingInput := false);
      }
    }

    /** `save_game`: the record of the game, and the score list `stored` with the current score
        put in, sorted from high to low and cut to five. */
    method Save(stored: seq<int>) returns (rec: GameRecord, best: seq<int>)
      ensures rec == Record(State())
      ensures Loaded(State(), rec) == (if |snake.body| >= 2 then Some(State()) else None)
      ensures rec.score == scores.score && rec.fruitPosition == EncodeCell(items.fruit)
      ensures rec.bigFruitPosition.Some? == items.bigFruit.Some?
      ensures Descending(best) && multiset(best) <= multiset(stored + [scores.score])
      ensures |best| == if |stored| < 5 then |stored| + 1 else 5
      ensures forall x, y :: x in best && y in multiset(stored + [scores.score]) - multiset(best) ==> y <= x
    {
      rec := GameRecord(EncodeBody(snake.body), EncodeCell(snake.direction), EncodeCell(items.fruit),
                        if items.bigFruit.Some? then Some(EncodeCell(items.bigFruit.value)) else None,
                        Some(EncodeCell(items.boom)), Some(EncodeCell(items.powerUp)), scores.score);
      if |snake.body| >= 2 {
        SaveLoad(State());
      } else {
        BodyRoundTrip(snake.body);
      }
      best := UpdatedHighScores(stored, scores.score);
    }

    /** `load_game`: the body, the direction and the score from the record, when the body, the
        direction and the fruit's position decode and the body can move; otherwise nothing
        changes. */
    method Load(rec: GameRecord) returns (ok: bool)
      modifies snake`body, snake`direction, this`scores
      ensures ok == Loaded(old(State()), rec).Some?
      ensures State() == if ok then Loaded(old(State()), rec).value else old(State())
      ensures old(Valid()) ==> Valid()
    {
      var body := DecodeBody(rec.snakeBody);
      var dir := DecodeCell(rec.snakeDirection);
      var fruit := DecodeCell(rec.fruitPosition);
      if body.Some? && dir.Some? && fruit.Some? && |body.value| >= 2 {
        snake.body := body.value;
        snake.direction := dir.value;
        scores := scores.(score := rec.score);
        ok := true;
      } else {
        ok := false;
      }
    }
  }
}
