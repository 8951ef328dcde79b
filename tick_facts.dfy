/** What one whole tick does: when it ends the game, how the timers stand after it, and how the
    obstacles, the tick period and the scores move. */
module TickFacts {
  import opened Grid
  import opened SnakeBody
  import opened Placement
  import opened GameRules
  import opened GameWorld
  import opened WorldFacts

  /** Within `check_collision` and `check_fail` items only switch off, and no timer moves. */
  predicate Calmer(v: Specials, w: Specials) {
    (v.bigFruitActive ==> w.bigFruitActive) && (v.boomActive ==> w.boomActive)
    && v.powerUpActive == w.powerUpActive
    && v.bigFruitTimer == w.bigFruitTimer && v.boomTimer == w.boomTimer && v.powerUpTimer == w.powerUpTimer
  }

  /** The fruit check keeps the head, the hazards and whether the body bites itself, and ends no
      game. */
  lemma EatFruitKeeps(w: World, rng: Random)
    requires |w.snake.body| >= 2
    ensures var v := EatFruit(w, rng);
      v.specials == w.specials && v.items.obstacles == w.items.obstacles && v.items.boom == w.items.boom
      && v.items.obstacleBodies == w.items.obstacleBodies
      && v.session == w.session && v.scores.highScore == w.scores.highScore
      && v.scores.bigScore >= w.scores.bigScore
      && |v.snake.body| >= 2 && v.snake.body[0] == w.snake.body[0]
      && (SelfCollides(v.snake.body) <==> SelfCollides(w.snake.body))
      && w.events <= v.events && GameOver !in v.events[|w.events|..]
  {
    GrownExtends(w.snake.body, 1);
    GrownSelfCollision(w.snake.body, 1);
    var v := EatFruit(w, rng);
    assert v.events[|w.events|..] == if w.items.fruit == w.snake.body[0] then [Crunch] else [];
  }

  /** The big-fruit check keeps the snake and the hazards and ends no game. */
  lemma EatBigFruitKeeps(w: World, rng: Random)
    requires |w.snake.body| >= 1
    ensures var v := EatBigFruit(w, rng);
      v.snake == w.snake && Calmer(v.specials, w.specials) && v.session == w.session
      && v.scores.highScore == w.scores.highScore && v.scores.bigScore == w.scores.bigScore
      && v.items.obstacles == w.items.obstacles && v.items.obstacleBodies == w.items.obstacleBodies
      && w.events <= v.events && GameOver !in v.events[|w.events|..]
  {
    GrownExtends(w.snake.body, 0);
    var v := EatBigFruit(w, rng);
    assert v.events[|w.events|..] == if v == w then [] else [Crunch];
  }

  /** The steps of `check_collision` after the hazards change neither the snake nor the log's
      game-overs. */
  lemma AfterHazardsKeep(w: World, rng: Random)
    requires |w.snake.body| >= 1 && |w.items.obstacles| <= |w.items.obstacleBodies|
    ensures var v := SetLevel(EatBigFruit(Relocate(w, rng, w.snake.body[1..]), rng));
      v.snake == w.snake && Calmer(v.specials, w.specials)
      && v.scores.highScore == w.scores.highScore && v.scores.bigScore == w.scores.bigScore
      && |v.items.obstacles| == |w.items.obstacles| && v.items.obstacleBodies == w.items.obstacleBodies
      && w.events <= v.events && GameOver !in v.events[|w.events|..]
  {
    EatBigFruitKeeps(Relocate(w, rng, w.snake.body[1..]), rng);
  }

  /** `check_collision` ends the game exactly when the head meets a hazard. */
  lemma CollisionDoom(w: World, rng: Random, now: int)
    requires |w.snake.body| >= 2 && |w.items.obstacles| <= |w.items.obstacleBodies| && w.scores.highScore >= 0
    ensures var v := Collision(w, rng, now);
      w.events <= v.events && (GameOver in v.events[|w.events|..] <==> Hazard(w, w.snake.body[0]))
  {
    EatFruitKeeps(w, rng);
    var w1 := EatFruit(w, rng);
    HazardsDoom(w1, now);
    var w2 := Hazards(w1, now);
    AfterHazardsKeep(w2, rng);
    var v := Collision(w, rng, now);
    assert v == SetLevel(EatBigFruit(Relocate(w2, rng, w2.snake.body[1..]), rng));
    var d1, d2, d3 := w1.events[|w.events|..], w2.events[|w1.events|..], v.events[|w2.events|..];
    LogJoin(w.events, d1, d2, d3, w1.events, w2.events, v.events);
    assert Hazard(w1, w1.snake.body[0]) == Hazard(w, w.snake.body[0]);
  }

  /** After a hazard the snake is the starting one; otherwise the head stays, and so does whether
      the body bites itself. Items only switch off, the high score and the fruit counter do not
      fall, and the obstacles keep their number and their bodies. */
  lemma CollisionKeeps(w: World, rng: Random, now: int)
    requires |w.snake.body| >= 2 && |w.items.obstacles| <= |w.items.obstacleBodies| && w.scores.highScore >= 0
    ensures var v := Collision(w, rng, now);
      (if Hazard(w, w.snake.body[0]) then v.snake.body == InitialBody
       else |v.snake.body| >= 2 && v.snake.body[0] == w.snake.body[0]
            && (SelfCollides(v.snake.body) <==> SelfCollides(w.snake.body)))
      && Calmer(v.specials, w.specials) && v.scores.highScore >= w.scores.highScore
      && v.scores.bigScore >= w.scores.bigScore
      && |v.items.obstacles| == |w.items.obstacles| && v.items.obstacleBodies == w.items.obstacleBodies
  {
    EatFruitKeeps(w, rng);
    var w1 := EatFruit(w, rng);
    HazardsDoom(w1, now);
    AfterHazardsKeep(Hazards(w1, now), rng);
  }

  /** The phases after `check_fail` add nothing to the log and leave the snake, the scores and
      the clock alone. */
  lemma UpkeepKeeps(w: World, rng: Random, now: int)
    requires |w.snake.body| >= 1
    ensures var v := Upkeep(w, rng, now);
      v.events == w.events && v.snake == w.snake && v.scores == w.scores
      && v.session.startTime == w.session.startTime
  {
    var w1 := EnsureBigFruit(w, rng);
    assert w1.events == w.events && w1.snake == w.snake && w1.scores == w.scores && w1.session == w.session;
    var w2 := PowerUpPhase(w1, rng, now);
    assert w2.events == w.events && w2.snake == w.snake && w2.scores == w.scores && w2.session == w.session;
    var w3 := BoomAppear(w2, rng, now);
    assert w3.events == w.events && w3.snake == w.snake && w3.scores == w.scores && w3.session == w.session;
    var w4 := Expire(BigFruitAppear(w3, rng, now), now);
    assert w4.events == w.events && w4.snake == w.snake && w4.scores == w.scores && w4.session == w.session;
  }

  /** A tick logs what `check_collision` logs and then exactly what `check_fail` lists for the
      body `check_collision` leaves. */
  lemma TickLog(w: World, rng: Random, now: int)
    requires Sound(w)
    ensures var u := Collision(Move(w), rng, now);
      Tick(w, rng, now).events == u.events + FailEvents(u.snake.body)
  {
    MoveShifts(w.snake.body, w.snake.direction, false);
    var u := Collision(Move(w), rng, now);
    CollisionKeeps(Move(w), rng, now);
    CheckFailEffect(u, now);
    UpkeepKeeps(CheckFail(u, now), rng, now);
  }

  /** A tick ends the game exactly when the head, one step along the direction, meets a hazard,
      leaves the board, or lands on the body minus its tail. */
  lemma TickDoom(w: World, rng: Random, now: int)
    requires Sound(w)
    ensures var b := w.snake.body; var h := Plus(b[0], w.snake.direction);
      w.events <= Tick(w, rng, now).events
      && (GameOver in Tick(w, rng, now).events[|w.events|..]
          <==> Hazard(w, h) || !InGrid(h) || h in b[..|b| - 1])
  {
    var b := w.snake.body;
    MoveShifts(b, w.snake.direction, false);
    MoveSelfCollision(b, w.snake.direction);
    var w1 := Move(w);
    CollisionDoom(w1, rng, now);
    CollisionKeeps(w1, rng, now);
    var u := Collision(w1, rng, now);
    FailEventsDetect(u.snake.body);
    TickLog(w, rng, now);
    var v := Tick(w, rng, now);
    LogExtend(w.events, u.events, FailEvents(u.snake.body), v.events);
  }

  /** `check_fail` only switches the boom off, keeps the items and the counters, and either keeps
      the body or restores the starting one. */
  lemma CheckFailKeeps(w: World, now: int)
    requires |w.snake.body| >= 1 && w.scores.highScore >= 0
    ensures var v := CheckFail(w, now);
      Calmer(v.specials, w.specials) && v.items == w.items && v.scores.highScore >= w.scores.highScore
      && v.scores.bigScore == w.scores.bigScore && v.snake.body in {w.snake.body, InitialBody}
  {
    CheckFailEffect(w, now);
  }

  /** Touching the power-up starts invincibility now, and only touching it does; afterwards it is
      at most ten seconds old. */
  lemma PowerUpPhaseTimer(w: World, rng: Random, now: int)
    requires |w.snake.body| >= 1
    ensures var v := PowerUpPhase(w, rng, now); var s := v.specials;
      (s.powerUpActive ==> now - s.powerUpTimer <= 10000)
      && (w.items.powerUp == w.snake.body[0] ==> s.powerUpActive && s.powerUpTimer == now)
      && (s.powerUpActive && !w.specials.powerUpActive ==> s.powerUpTimer == now && w.items.powerUp == w.snake.body[0])
      && s.(powerUpActive := w.specials.powerUpActive, powerUpTimer := w.specials.powerUpTimer) == w.specials
      && v.session == w.session && v.scores == w.scores
  {
  }

  /** The boom arms exactly when it is off and ten seconds of game time have passed since it was
      last armed, and its timer is then the elapsed time. */
  lemma BoomAppearTimer(w: World, rng: Random, now: int)
    ensures var v := BoomAppear(w, rng, now); var s := v.specials; var e := ElapsedSeconds(now, w.session.startTime);
      (!w.specials.boomActive && e - w.specials.boomTimer >= 10 ==> s.boomActive && s.boomTimer == e)
      && (s.boomActive && !w.specials.boomActive ==> s.boomTimer == e && e - w.specials.boomTimer >= 10)
      && (s.boomTimer != w.specials.boomTimer ==> s.boomActive && s.boomTimer == e)
      && s.(boomActive := w.specials.boomActive, boomTimer := w.specials.boomTimer) == w.specials
      && v.session == w.session && v.scores == w.scores
  {
  }

  /** The big fruit comes exactly when it is away and the fruit counter is a nonzero multiple of
      five (once the big fruit object exists), and its timer is then now. */
  lemma BigFruitAppearTimer(w: World, rng: Random, now: int)
    ensures var v := BigFruitAppear(w, rng, now); var s := v.specials;
      (w.scores.bigScore % 5 == 0 && w.scores.bigScore != 0 && !w.specials.bigFruitActive && w.items.bigFruit.Some? ==>
         s.bigFruitActive && s.bigFruitTimer == now)
      && (s.bigFruitActive && !w.specials.bigFruitActive ==>
         s.bigFruitTimer == now && w.scores.bigScore % 5 == 0 && w.scores.bigScore != 0)
      && (s.bigFruitTimer != w.specials.bigFruitTimer ==> s.bigFruitActive && s.bigFruitTimer == now)
      && s.(bigFruitActive := w.specials.bigFruitActive, bigFruitTimer := w.specials.bigFruitTimer) == w.specials
      && v.session == w.session && v.scores == w.scores
  {
  }

  /** After the timer phases an armed boom was armed less than three seconds of game time ago; a
      boom that was off for ten seconds since it was last armed is armed there, and a boom newly
      armed there was off that long; its timer is then the elapsed time. */
  lemma UpkeepBoom(w: World, rng: Random, now: int)
    requires |w.snake.body| >= 1
    ensures var s := Upkeep(w, rng, now).specials; var e := ElapsedSeconds(now, w.session.startTime);
      (s.boomActive ==> e - s.boomTimer < 3)
      && (!w.specials.boomActive && e - w.specials.boomTimer >= 10 ==> s.boomActive && s.boomTimer == e)
      && (s.boomActive && !w.specials.boomActive ==> s.boomTimer == e && e - w.specials.boomTimer >= 10)
  {
    var w1 := EnsureBigFruit(w, rng);
    assert w1.specials == w.specials && w1.snake == w.snake && w1.items.powerUp == w.items.powerUp
           && w1.session == w.session && w1.scores == w.scores;
    var w2 := PowerUpPhase(w1, rng, now);
    PowerUpPhaseTimer(w1, rng, now);
    var w3 := BoomAppear(w2, rng, now);
    BoomAppearTimer(w2, rng, now);
    var w4 := BigFruitAppear(w3, rng, now);
    BigFruitAppearTimer(w3, rng, now);
    var w5 := Expire(w4, now);
    assert Escalate(w5, rng).specials == w5.specials;
  }

  /** After the timer phases an active big fruit came less than five seconds ago; a big fruit away
      at a nonzero multiple of five fruits comes there, and one newly active there came at such a
      count; its timer is then now. */
  lemma UpkeepBigFruit(w: World, rng: Random, now: int)
    requires |w.snake.body| >= 1
    ensures var s := Upkeep(w, rng, now).specials;
      (s.bigFruitActive ==> now - s.bigFruitTimer < 5000)
      && (w.scores.bigScore % 5 == 0 && w.scores.bigScore != 0 && !w.specials.bigFruitActive ==>
            s.bigFruitActive && s.bigFruitTimer == now)
      && (s.bigFruitActive && !w.specials.bigFruitActive ==>
            s.bigFruitTimer == now && w.scores.bigScore % 5 == 0 && w.scores.bigScore != 0)
  {
    var w1 := EnsureBigFruit(w, rng);
    assert w1.specials == w.specials && w1.snake == w.snake && w1.items.powerUp == w.items.powerUp
           && w1.session == w.session && w1.scores == w.scores;
    var w2 := PowerUpPhase(w1, rng, now);
    PowerUpPhaseTimer(w1, rng, now);
    var w3 := BoomAppear(w2, rng, now);
    BoomAppearTimer(w2, rng, now);
    var w4 := BigFruitAppear(w3, rng, now);
    BigFruitAppearTimer(w3, rng, now);
    var w5 := Expire(w4, now);
    assert Escalate(w5, rng).specials == w5.specials;
  }

  /** After the timer phases invincibility started at most ten seconds ago; a head on the
      power-up starts it now, and newly started there it began now, with the head on the power-up. */
  lemma UpkeepPowerUp(w: World, rng: Random, now: int)
    requires |w.snake.body| >= 1
    ensures var s := Upkeep(w, rng, now).specials;
      (s.powerUpActive ==> now - s.powerUpTimer <= 10000)
      && (w.items.powerUp == w.snake.body[0] ==> s.powerUpActive && s.powerUpTimer == now)
      && (s.powerUpActive && !w.specials.powerUpActive ==>
            s.powerUpTimer == now && w.items.powerUp == w.snake.body[0])
  {
    var w1 := EnsureBigFruit(w, rng);
    assert w1.specials == w.specials && w1.snake == w.snake && w1.items.powerUp == w.items.powerUp
           && w1.session == w.session && w1.scores == w.scores;
    var w2 := PowerUpPhase(w1, rng, now);
    PowerUpPhaseTimer(w1, rng, now);
    var w3 := BoomAppear(w2, rng, now);
    BoomAppearTimer(w2, rng, now);
    var w4 := BigFruitAppear(w3, rng, now);
    BigFruitAppearTimer(w3, rng, now);
    var w5 := Expire(w4, now);
    assert Escalate(w5, rng).specials == w5.specials;
  }

  /** After a tick: an armed boom was armed less than three seconds of game time ago, an active
      big fruit came less than five seconds ago, and invincibility started at most ten seconds
      ago. Each starts in the tick exactly under its own condition, read in the state `u` that
      `check_fail` leaves: the boom when it is off and ten seconds have passed since its last
      arming, with its timer set to the elapsed time; the big fruit when it is away at a nonzero
      multiple of five fruits, with its timer set to now; invincibility when the head is on the
      power-up, with its timer set to now. */
  lemma TickTimers(w: World, rng: Random, now: int)
    requires Sound(w)
    ensures var v := Tick(w, rng, now); var s := v.specials; var e := ElapsedSeconds(now, v.session.startTime);
      var u := CheckFail(Collision(Move(w), rng, now), now);
      (s.boomActive ==> e - s.boomTimer < 3)
      && (s.bigFruitActive ==> now - s.bigFruitTimer < 5000)
      && (s.powerUpActive ==> now - s.powerUpTimer <= 10000)
      && (!u.specials.boomActive && e - u.specials.boomTimer >= 10 ==> s.boomActive && s.boomTimer == e)
      && (s.boomActive && !w.specials.boomActive ==> s.boomTimer == e && e - w.specials.boomTimer >= 10)
      && (v.scores.bigScore % 5 == 0 && v.scores.bigScore != 0 && !u.specials.bigFruitActive ==>
            s.bigFruitActive && s.bigFruitTimer == now)
      && (s.bigFruitActive && !w.specials.bigFruitActive ==>
            s.bigFruitTimer == now && v.scores.bigScore % 5 == 0 && v.scores.bigScore != 0)
      && (u.items.powerUp == u.snake.body[0] ==> s.powerUpActive && s.powerUpTimer == now)
      && (s.powerUpActive && !w.specials.powerUpActive ==>
            s.powerUpTimer == now && u.items.powerUp == u.snake.body[0])
  {
    MoveShifts(w.snake.body, w.snake.direction, false);
    var w1 := Move(w);
    CollisionKeeps(w1, rng, now);
    var c := Collision(w1, rng, now);
    CheckFailKeeps(c, now);
    var u := CheckFail(c, now);
    UpkeepBoom(u, rng, now);
    UpkeepBigFruit(u, rng, now);
    UpkeepPowerUp(u, rng, now);
    UpkeepKeeps(u, rng, now);
  }

  /** The obstacles of `Escalate`: one more, with the live body, past ten cells gained while there
      are fewer than ten. */
  lemma UpkeepObstacles(w: World, rng: Random, now: int)
    requires |w.snake.body| >= 1
    ensures var v := Upkeep(w, rng, now); var more := |w.snake.body| - 3 > 10 && |w.items.obstacles| < 10;
      |v.items.obstacles| == |w.items.obstacles| + (if more then 1 else 0)
      && v.items.obstacleBodies == w.items.obstacleBodies + (if more then [w.snake.body] else [])
      && v.session.interval == Interval(|w.snake.body|)
  {
    var w1 := EnsureBigFruit(w, rng);
    var w2 := PowerUpPhase(w1, rng, now);
    var w3 := BoomAppear(w2, rng, now);
    var w4 := Expire(BigFruitAppear(w3, rng, now), now);
    assert w4.snake == w.snake && w4.items.obstacles == w.items.obstacles
           && w4.items.obstacleBodies == w.items.obstacleBodies;
  }

  /** A tick adds at most one obstacle, keeps the bodies of those already there, adds one only
      past ten cells gained and never beyond ten; the tick period is that of the body it leaves. */
  lemma TickObstacles(w: World, rng: Random, now: int)
    requires Sound(w)
    ensures var v := Tick(w, rng, now); var k := |w.items.obstacles|;
      k <= |v.items.obstacles| <= k + 1 && |v.items.obstacles| <= 10
      && |v.items.obstacleBodies| == |v.items.obstacles| && v.items.obstacleBodies[..k] == w.items.obstacleBodies
      && (|v.items.obstacles| > k ==> |v.snake.body| - 3 > 10)
      && v.session.interval == Interval(|v.snake.body|)
  {
    MoveShifts(w.snake.body, w.snake.direction, false);
    var w1 := Move(w);
    CollisionKeeps(w1, rng, now);
    var c := Collision(w1, rng, now);
    CheckFailKeeps(c, now);
    var u := CheckFail(c, now);
    UpkeepObstacles(u, rng, now);
    UpkeepKeeps(u, rng, now);
  }

  /** A tick never lowers the high score or the fruit counter. */
  lemma TickScores(w: World, rng: Random, now: int)
    requires Sound(w)
    ensures Tick(w, rng, now).scores.highScore >= w.scores.highScore
    ensures Tick(w, rng, now).scores.bigScore >= w.scores.bigScore
  {
    MoveShifts(w.snake.body, w.snake.direction, false);
    var w1 := Move(w);
    CollisionKeeps(w1, rng, now);
    var c := Collision(w1, rng, now);
    CheckFailKeeps(c, now);
    UpkeepKeeps(CheckFail(c, now), rng, now);
  }
}
