/** What each step of a tick keeps: the game stays sound, so that every later placement has a
    free cell to find and every later move has a body to move. */
module WorldFacts {
  import opened Grid
  import opened SnakeBody
  import opened Placement
  import opened GameRules
  import opened GameWorld

  /** A move keeps the length of the body and the items. */
  lemma MoveSound(w: World)
    requires Sound(w)
    ensures Sound(Move(w)) && |Move(w).snake.body| == |w.snake.body| && Move(w).items == w.items
  {
    MoveShifts(w.snake.body, w.snake.direction, false);
  }

  /** The eaten fruit lands off the starting body, and the body grows by one cell. */
  lemma EatFruitSound(w: World, rng: Random)
    requires Sound(w) && rng.Valid()
    ensures var v := EatFruit(w, rng);
      Sound(v) && v.items.obstacles == w.items.obstacles && v.items.obstacleBodies == w.items.obstacleBodies
      && (v.snake.body == w.snake.body || |v.snake.body| == |w.snake.body| + 1)
  {
    if w.items.fruit == w.snake.body[0] {
      PickFree(w, rng, InitialBody, InitialHead);
      GrownExtends(w.snake.body, 1);
    }
  }

  /** When the head is on the fruit: the tail cell is repeated once, both counters gain a point,
      the crunch plays and the fruit moves to a board cell off the starting body. Otherwise
      nothing changes. */
  lemma EatFruitEffect(w: World, rng: Random)
    requires Sound(w) && rng.Valid()
    ensures var v := EatFruit(w, rng); var b := w.snake.body;
      if w.items.fruit == b[0] then
        v.snake.body == b + [b[|b| - 1]] && v.scores.score == w.scores.score + 1
        && v.scores.bigScore == w.scores.bigScore + 1 && v.events == w.events + [Crunch]
        && InGrid(v.items.fruit) && v.items.fruit !in InitialBody
      else v == w
  {
    if w.items.fruit == w.snake.body[0] {
      PickFree(w, rng, InitialBody, InitialHead);
      assert Copies(w.snake.body[|w.snake.body| - 1], 1) == [w.snake.body[|w.snake.body| - 1]];
    }
  }

  /** A game-over keeps the game sound. */
  lemma ScannedSound(w: World, e: seq<Event>, n: nat, now: int)
    requires Sound(w)
    ensures Sound(Scanned(w, e, n, now)) && Scanned(w, e, n, now).items == w.items
    ensures Scanned(w, e, n, now).snake.body in {w.snake.body, InitialBody}
  {
  }

  /** The hazards keep the game sound and either keep the body or restore the starting one. */
  lemma HazardsSound(w: World, now: int)
    requires Sound(w)
    ensures var v := Hazards(w, now);
      Sound(v) && v.snake.body in {w.snake.body, InitialBody}
      && v.specials.bigFruitActive == w.specials.bigFruitActive
  {
    var h := w.snake.body[0];
    var boomHit := w.specials.boomActive && w.items.boom == h && !w.specials.powerUpActive;
    var n := if w.specials.powerUpActive then 0 else GameOverScan(w.items.obstacles, if boomHit then InitialHead else h);
    HazardsEffect(w, now);
    ScannedSound(w.(events := w.events + (if w.items.powerUp == h then [Crunch] else [])),
                 [Crash, GameOver], (if boomHit then 1 else 0) + n, now);
  }

  /** A relocated obstacle lands off its own body and off the fruit. */
  lemma {:induction false} RelocateObstaclesSound(w: World, rng: Random, block: Cell, j: nat)
    requires Placed(w.items) && rng.Valid() && j <= |w.items.obstacles|
    ensures Placed(RelocateObstacles(w, rng, block, j).items)
  {
    if j > 0 {
      RelocateObstaclesSound(w, rng, block, j - 1);
      var v := RelocateObstacles(w, rng, block, j - 1);
      if block == v.items.obstacles[j - 1] {
        PickFree(v, rng, v.items.obstacleBodies[j - 1], v.items.fruit);
      }
    }
  }

  /** Each relocation lands off the cells its item avoids. */
  lemma RelocateAtSound(w: World, rng: Random, block: Cell)
    requires Placed(w.items) && rng.Valid()
    ensures var v := RelocateAt(w, rng, block);
      Placed(v.items) && v.items.bigFruit.Some? == w.items.bigFruit.Some?
  {
    var w1 := if block == w.items.fruit
              then w.(items := w.items.(fruit := Pick(w, rng, InitialBody)), next := After(w, rng, InitialBody))
              else w;
    PickFree(w, rng, InitialBody, InitialHead);
    assert Placed(w1.items);
    RelocateObstaclesSound(w1, rng, block, |w1.items.obstacles|);
    var w2 := RelocateObstacles(w1, rng, block, |w1.items.obstacles|);
    PickFree(w2, rng, InitialBody, w2.items.fruit);
    var boomAvoid := InitialBody + [w2.items.fruit];
    var w3 := if w2.specials.boomActive && block == w2.items.boom
              then w2.(items := w2.items.(boom := Pick(w2, rng, boomAvoid)), next := After(w2, rng, boomAvoid))
              else w2;
    assert Placed(w3.items);
    if w3.items.bigFruit.Some? {
      PickFree(w3, rng, w3.items.bigFruitBody, InitialHead);
    }
  }

  /** The relocation pass keeps every item placed. */
  lemma {:induction false} RelocateSound(w: World, rng: Random, cells: seq<Cell>)
    requires Placed(w.items) && rng.Valid()
    ensures var v := Relocate(w, rng, cells);
      Placed(v.items) && v.items.bigFruit.Some? == w.items.bigFruit.Some?
    decreases |cells|
  {
    if cells != [] {
      RelocateSound(w, rng, cells[..|cells| - 1]);
      RelocateAtSound(Relocate(w, rng, cells[..|cells| - 1]), rng, cells[|cells| - 1]);
    }
  }

  /** The obstacle loop for one body cell: each of the first `j` obstacles that lies on `block` is
      drawn again, on the board, off its own body and off the fruit; every other obstacle stays.
      The stream moves exactly when some obstacle was on `block`. */
  lemma {:induction false} RelocateObstaclesEffect(w: World, rng: Random, block: Cell, j: nat)
    requires Placed(w.items) && rng.Valid() && j <= |w.items.obstacles|
    ensures var v := RelocateObstacles(w, rng, block, j);
      w.next <= v.next && (v.next == w.next <==> block !in w.items.obstacles[..j])
      && forall i :: 0 <= i < |w.items.obstacles| ==>
           if i < j && w.items.obstacles[i] == block then
             Drawn(rng, v.items.obstacles[i], w.next, v.next) && InGrid(v.items.obstacles[i])
             && v.items.obstacles[i] !in w.items.obstacleBodies[i] && v.items.obstacles[i] != w.items.fruit
           else v.items.obstacles[i] == w.items.obstacles[i]
  {
    if j > 0 {
      RelocateObstaclesEffect(w, rng, block, j - 1);
      var u := RelocateObstacles(w, rng, block, j - 1);
      assert w.items.obstacles[..j] == w.items.obstacles[..j - 1] + [w.items.obstacles[j - 1]];
      if block == u.items.obstacles[j - 1] {
        var avoid := u.items.obstacleBodies[j - 1] + [u.items.fruit];
        PickFree(u, rng, u.items.obstacleBodies[j - 1], u.items.fruit);
        var k := NextOutside(rng, u.next, avoid);
        assert rng.draw(k) == RelocateObstacles(w, rng, block, j).items.obstacles[j - 1];
      }
    }
  }

  /** The fruit on `block` is drawn again, on the board and off the starting body; otherwise it
      stays. Nothing else but the stream changes. */
  lemma RelocateFruitEffect(w: World, rng: Random, block: Cell)
    requires Placed(w.items) && rng.Valid()
    ensures var v := RelocateFruit(w, rng, block);
      Placed(v.items) && w.next <= v.next && v == w.(items := w.items.(fruit := v.items.fruit), next := v.next)
      && (if block == w.items.fruit then Drawn(rng, v.items.fruit, w.next, v.next) && v.items.fruit !in InitialBody
          else v.items.fruit == w.items.fruit)
  {
    PickFree(w, rng, InitialBody, InitialHead);
    assert block == w.items.fruit ==>
      rng.draw(NextOutside(rng, w.next, InitialBody)) == RelocateFruit(w, rng, block).items.fruit;
  }

  /** The armed boom on `block` is drawn again, off the starting body and the fruit; otherwise it
      stays. Nothing else but the stream changes. */
  lemma RelocateBoomEffect(w: World, rng: Random, block: Cell)
    requires rng.Valid()
    ensures var v := RelocateBoom(w, rng, block);
      w.next <= v.next && v == w.(items := w.items.(boom := v.items.boom), next := v.next)
      && (if w.specials.boomActive && block == w.items.boom then
            Drawn(rng, v.items.boom, w.next, v.next) && v.items.boom !in InitialBody && v.items.boom != w.items.fruit
          else v.items.boom == w.items.boom)
  {
    var avoid := InitialBody + [w.items.fruit];
    PickFree(w, rng, InitialBody, w.items.fruit);
    assert w.specials.boomActive && block == w.items.boom ==>
      rng.draw(NextOutside(rng, w.next, avoid)) == RelocateBoom(w, rng, block).items.boom;
  }

  /** The active big fruit on `block` is drawn again, off its stored body; otherwise it stays.
      Nothing else but the stream changes. */
  lemma RelocateBigFruitEffect(w: World, rng: Random, block: Cell)
    requires rng.Valid() && (w.items.bigFruit.Some? ==> Roomy(w.items.bigFruitBody))
    ensures var v := RelocateBigFruit(w, rng, block);
      w.next <= v.next && v == w.(items := w.items.(bigFruit := v.items.bigFruit), next := v.next)
      && (if w.specials.bigFruitActive && w.items.bigFruit == Some(block) then
            v.items.bigFruit.Some? && Drawn(rng, v.items.bigFruit.value, w.next, v.next)
            && v.items.bigFruit.value !in w.items.bigFruitBody
          else v.items.bigFruit == w.items.bigFruit)
  {
    if w.specials.bigFruitActive && w.items.bigFruit == Some(block) {
      PickFree(w, rng, w.items.bigFruitBody, InitialHead);
      assert rng.draw(NextOutside(rng, w.next, w.items.bigFruitBody)) == RelocateBigFruit(w, rng, block).items.bigFruit.value;
    }
  }

  /** The relocation step for one body cell: the fruit on `block` is drawn again off the starting
      body; each obstacle on it is drawn again off its own body and the fruit; the armed boom on
      it is drawn again off the starting body and the fruit; the active big fruit on it is drawn
      again off its stored body. Every other item, and the power-up, stays where it was. */
  lemma RelocateAtEffect(w: World, rng: Random, block: Cell)
    requires Placed(w.items) && rng.Valid()
    ensures var v := RelocateAt(w, rng, block); var it := w.items; var vt := v.items;
      w.next <= v.next
      && (if block == it.fruit then Drawn(rng, vt.fruit, w.next, v.next) && vt.fruit !in InitialBody
          else vt.fruit == it.fruit)
      && (forall i :: 0 <= i < |it.obstacles| ==>
            if it.obstacles[i] == block then
              Drawn(rng, vt.obstacles[i], w.next, v.next)
              && vt.obstacles[i] !in it.obstacleBodies[i] && vt.obstacles[i] != vt.fruit
            else vt.obstacles[i] == it.obstacles[i])
      && (if w.specials.boomActive && block == it.boom then
            Drawn(rng, vt.boom, w.next, v.next) && vt.boom !in InitialBody && vt.boom != vt.fruit
          else vt.boom == it.boom)
      && (if w.specials.bigFruitActive && it.bigFruit == Some(block) then
            vt.bigFruit.Some? && Drawn(rng, vt.bigFruit.value, w.next, v.next) && vt.bigFruit.value !in it.bigFruitBody
          else vt.bigFruit == it.bigFruit)
      && vt.powerUp == it.powerUp
  {
    RelocateFruitEffect(w, rng, block);
    var w1 := RelocateFruit(w, rng, block);
    RelocateObstaclesEffect(w1, rng, block, |w1.items.obstacles|);
    var w2 := RelocateObstacles(w1, rng, block, |w1.items.obstacles|);
    RelocateBoomEffect(w2, rng, block);
    var w3 := RelocateBoom(w2, rng, block);
    RelocateBigFruitEffect(w3, rng, block);
  }

  /** The whole relocation pass over `cells`: an item that lies on none of them stays where it
      was; one that lies on one of them (the boom only while armed, the big fruit only while
      active) ends on a cell drawn from the stream during the pass. */
  lemma {:induction false} RelocateEffect(w: World, rng: Random, cells: seq<Cell>)
    requires Placed(w.items) && rng.Valid()
    ensures var v := Relocate(w, rng, cells); var it := w.items; var vt := v.items;
      w.next <= v.next
      && (if it.fruit in cells then Drawn(rng, vt.fruit, w.next, v.next) else vt.fruit == it.fruit)
      && (forall i :: 0 <= i < |it.obstacles| ==>
            if it.obstacles[i] in cells then Drawn(rng, vt.obstacles[i], w.next, v.next)
            else vt.obstacles[i] == it.obstacles[i])
      && (if w.specials.boomActive && it.boom in cells then Drawn(rng, vt.boom, w.next, v.next)
          else vt.boom == it.boom)
      && (if w.specials.bigFruitActive && it.bigFruit.Some? && it.bigFruit.value in cells then
            vt.bigFruit.Some? && Drawn(rng, vt.bigFruit.value, w.next, v.next)
          else vt.bigFruit == it.bigFruit)
      && vt.powerUp == it.powerUp
    decreases |cells|
  {
    if cells != [] {
      var init, last := cells[..|cells| - 1], cells[|cells| - 1];
      assert cells == init + [last];
      RelocateEffect(w, rng, init);
      RelocateSound(w, rng, init);
      var u := Relocate(w, rng, init);
      RelocateAtEffect(u, rng, last);
    }
  }

  /** The eaten big fruit lands off its stored body; the body does not change. */
  lemma EatBigFruitSound(w: World, rng: Random)
    requires Sound(w) && rng.Valid()
    ensures var v := EatBigFruit(w, rng);
      Sound(v) && v.snake.body == w.snake.body
  {
    GrownExtends(w.snake.body, 0);
    if w.items.bigFruit.Some? {
      PickFree(w, rng, w.items.bigFruitBody, InitialHead);
    }
  }

  /** When the head is on the active big fruit: it is switched off and moved off its stored body,
      the crunch plays and the score gains three points, while the body and the fruit counter stay
      as they are. Otherwise nothing changes. */
  lemma EatBigFruitEffect(w: World, rng: Random)
    requires Sound(w) && rng.Valid()
    ensures var v := EatBigFruit(w, rng);
      if w.specials.bigFruitActive && w.items.bigFruit == Some(w.snake.body[0]) then
        !v.specials.bigFruitActive && v.items.bigFruit.Some? && InGrid(v.items.bigFruit.value)
        && v.items.bigFruit.value !in w.items.bigFruitBody
        && v.scores == w.scores.(score := w.scores.score + 3) && v.events == w.events + [Crunch]
        && v.snake == w.snake
      else v == w
  {
    GrownExtends(w.snake.body, 0);
    if w.items.bigFruit.Some? {
      PickFree(w, rng, w.items.bigFruitBody, InitialHead);
    }
  }

  /** `check_collision` keeps the game sound; the body is restored, or it keeps its length or
      grows by one cell. */
  lemma CollisionSound(w: World, rng: Random, now: int)
    requires Sound(w) && rng.Valid()
    ensures var v := Collision(w, rng, now);
      Sound(v) && (v.snake.body == InitialBody || |w.snake.body| <= |v.snake.body| <= |w.snake.body| + 1)
  {
    EatFruitSound(w, rng);
    var w1 := EatFruit(w, rng);
    HazardsSound(w1, now);
    var w2 := Hazards(w1, now);
    RelocateSound(w2, rng, w2.snake.body[1..]);
    var w3 := Relocate(w2, rng, w2.snake.body[1..]);
    assert Sound(w3);
    EatBigFruitSound(w3, rng);
  }

  /** `check_fail` keeps the game sound and either keeps the body or restores the starting one. */
  lemma CheckFailSound(w: World, now: int)
    requires Sound(w)
    ensures Sound(CheckFail(w, now)) && CheckFail(w, now).snake.body in {w.snake.body, InitialBody}
  {
    CheckFailEffect(w, now);
  }

  /** A big fruit created against a body that leaves room lands off it. */
  lemma EnsureBigFruitSound(w: World, rng: Random)
    requires Sound(w) && rng.Valid() && Roomy(w.snake.body)
    ensures Sound(EnsureBigFruit(w, rng)) && EnsureBigFruit(w, rng).snake == w.snake
  {
    PickFree(w, rng, w.snake.body, InitialHead);
  }

  lemma PowerUpPhaseSound(w: World, rng: Random, now: int)
    requires Sound(w) && rng.Valid()
    ensures Sound(PowerUpPhase(w, rng, now)) && PowerUpPhase(w, rng, now).snake == w.snake
  {
    PickFree(w, rng, InitialBody, InitialHead);
  }

  lemma BoomAppearSound(w: World, rng: Random, now: int)
    requires Sound(w) && rng.Valid()
    ensures Sound(BoomAppear(w, rng, now)) && BoomAppear(w, rng, now).snake == w.snake
  {
    PickFree(w, rng, InitialBody, w.items.fruit);
  }

  lemma BigFruitAppearSound(w: World, rng: Random, now: int)
    requires Sound(w) && rng.Valid()
    ensures Sound(BigFruitAppear(w, rng, now)) && BigFruitAppear(w, rng, now).snake == w.snake
  {
    if w.items.bigFruit.Some? {
      PickFree(w, rng, w.items.bigFruitBody, InitialHead);
    }
  }

  /** A new obstacle, placed against a live body that leaves room, lands off that body and the
      fruit; none is added once there are ten. */
  lemma EscalateSound(w: World, rng: Random)
    requires Sound(w) && rng.Valid() && Roomy(w.snake.body)
    ensures Sound(Escalate(w, rng)) && Escalate(w, rng).snake == w.snake
  {
    PickFree(w, rng, w.snake.body, w.items.fruit);
    var v := Escalate(w, rng);
    if |w.snake.body| - 3 > 10 && |w.items.obstacles| < 10 {
      assert forall i :: 0 <= i < |w.items.obstacles| ==>
        v.items.obstacles[i] == w.items.obstacles[i] && v.items.obstacleBodies[i] == w.items.obstacleBodies[i];
    }
  }

  /** The phases after `check_fail` keep the game sound and leave the snake alone. */
  lemma UpkeepSound(w: World, rng: Random, now: int)
    requires Sound(w) && rng.Valid() && Roomy(w.snake.body)
    ensures Sound(Upkeep(w, rng, now)) && Upkeep(w, rng, now).snake == w.snake
  {
    EnsureBigFruitSound(w, rng);
    var w1 := EnsureBigFruit(w, rng);
    PowerUpPhaseSound(w1, rng, now);
    var w2 := PowerUpPhase(w1, rng, now);
    BoomAppearSound(w2, rng, now);
    var w3 := BoomAppear(w2, rng, now);
    BigFruitAppearSound(w3, rng, now);
    var w4 := Expire(BigFruitAppear(w3, rng, now), now);
    EscalateSound(w4, rng);
  }

  /** A tick keeps the game sound as long as the body, grown by the tick, still leaves room on the
      board; the body is restored to the starting one, or else it never shrinks and grows by at
      most one cell. */
  lemma TickSound(w: World, rng: Random, now: int)
    requires Sound(w) && rng.Valid() && |w.snake.body| + 3 <= CellCount
    ensures var v := Tick(w, rng, now);
      Sound(v) && (v.snake.body == InitialBody || |w.snake.body| <= |v.snake.body| <= |w.snake.body| + 1)
  {
    MoveSound(w);
    var w1 := Move(w);
    CollisionSound(w1, rng, now);
    var w2 := Collision(w1, rng, now);
    CheckFailSound(w2, now);
    UpkeepSound(CheckFail(w2, now), rng, now);
  }

  // ----- reset_game and __init__ ---------------------------------------------------------

  /** Adding the obstacles of `reset_game` changes nothing but the obstacle list. */
  lemma {:induction false} AddObstaclesFrame(w: World, rng: Random, n: nat)
    ensures var v := AddObstacles(w, rng, n);
      v.snake == w.snake && v.specials == w.specials && v.session == w.session && v.scores == w.scores
      && v.events == w.events && v.items.fruit == w.items.fruit
  {
    if n > 0 {
      AddObstaclesFrame(w, rng, n - 1);
    }
  }

  /** A new obstacle is appended with the body it was given, on a board cell off that body and
      off the fruit; the obstacles already there stay. */
  lemma AddObstacleOff(w: World, rng: Random, body: seq<Cell>)
    requires rng.Valid() && Roomy(body)
    ensures var it := AddObstacle(w, rng, body).items; var k := |w.items.obstacles|;
      |it.obstacles| == k + 1 && it.obstacles[..k] == w.items.obstacles
      && it.obstacleBodies == w.items.obstacleBodies + [body]
      && InGrid(it.obstacles[k]) && it.obstacles[k] !in body && it.obstacles[k] != w.items.fruit
  {
    PickFree(w, rng, body, w.items.fruit);
    assert AddObstacle(w, rng, body).items.obstacles[..|w.items.obstacles|] == w.items.obstacles;
  }

  /** The obstacles of `reset_game` land on the board, off the starting body. */
  lemma {:induction false} AddObstaclesPlaced(w: World, rng: Random, n: nat)
    requires rng.Valid() && w.items.obstacles == [] && w.items.obstacleBodies == []
    ensures var it := AddObstacles(w, rng, n).items;
      |it.obstacles| == |it.obstacleBodies| == n
      && forall i :: 0 <= i < n ==>
           it.obstacleBodies[i] == InitialBody && InGrid(it.obstacles[i]) && it.obstacles[i] !in InitialBody
  {
    if n > 0 {
      AddObstaclesPlaced(w, rng, n - 1);
      var v := AddObstacles(w, rng, n - 1);
      AddObstacleOff(v, rng, InitialBody);
      var u := AddObstacles(w, rng, n).items;
      forall i | 0 <= i < n - 1
        ensures u.obstacleBodies[i] == InitialBody && InGrid(u.obstacles[i]) && u.obstacles[i] !in InitialBody
      {
        assert u.obstacles[i] == u.obstacles[..n - 1][i];
      }
    }
  }

  /** `reset_game` leaves a sound game with the starting snake, five obstacles and a big fruit,
      and keeps the scores. */
  lemma RestartedSound(w: World, rng: Random, now: int)
    requires rng.Valid() && w.scores.highScore >= 0
    ensures var v := Restarted(w, rng, now);
      Sound(v) && v.snake == SnakeState(InitialBody, Still, false) && |v.items.obstacles| == 5
      && v.items.bigFruit.Some? && v.scores == w.scores && v.events == w.events && v.session.level == 1
      && v.session.interval == w.session.interval
      && !v.specials.boomActive && !v.specials.bigFruitActive && !v.specials.powerUpActive
  {
    PickFree(w, rng, InitialBody, InitialHead);
    var w1 := Cleared(w, rng);
    AddObstaclesPlaced(w1, rng, 5);
    AddObstaclesFrame(w1, rng, 5);
    var w2 := AddObstacles(w1, rng, 5);
    PickFree(w2, rng, InitialBody, w2.items.fruit);
    var w3 := PlaceBigFruit(w2, rng, now);
    PickFree(w3, rng, InitialBody, w3.items.fruit);
    var w4 := PlaceBoom(w3, rng);
    PickFree(w4, rng, InitialBody, InitialHead);
  }

  /** A new game is sound, with zero scores, five obstacles and no big fruit yet. */
  lemma InitialSound(rng: Random, k: nat, now: int)
    requires rng.Valid()
    ensures var v := Initial(rng, k, now);
      Sound(v) && v.scores == Scores(0, 0, 0) && |v.items.obstacles| == 5 && v.items.bigFruit.None?
      && v.events == [] && v.snake.body == InitialBody
  {
    RestartedSound(Blank(k, now), rng, now);
  }
}
