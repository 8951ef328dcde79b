# Snake: a verified model of the game-state tick

This project models the game logic of `Snake/snake.py` and proves it correct against its own
rules. That logic is a single-player Snake on a 20 by 20 board. The snake eats fruit to grow and
dies on the walls, on itself, on obstacles and on a boom that comes and goes. A power-up makes it
invincible for ten seconds. A big fruit worth three points shows up after every fifth fruit.

The model follows the program's structure:

- `Grid` (`grid.dfy`): cells, the board size (`cell_number` = 20), the starting snake, and the
  pigeonhole argument that a short enough list of cells leaves a board cell free.
- `SnakeBody` (`snake_body.dfy`): the class `Snake` (`SNAKE`) with `move_snake`, `add_block` and
  `reset` as methods. It also holds the pure rules they are proved against: `Moved`, `Grown`, and
  the head and self-collision tests.
- `Placement` (`placement.dfy`): `random.randint` as a stream of cells (the class `Random`), and
  the classes `Fruit`, `Obstacle` (which also stands for `Boom`, whose `randomize` is a copy of
  `Obstacle`'s), `BigFruit` and `PowerUp`.
  - Each class has its rejection-sampling `randomize` loop.
  - Each keeps the snake body it was built with as a constant field. Placement avoids that
    snapshot, not the live body.
  - `NextOutside` names the draw a sampling loop keeps: the first draw from the current index on
    that avoids the forbidden cells.
- `GameRules` (`game_rules.dfy`):
  - the clock (`get_elapsed_time`);
  - the level and the tick period, chosen from the number of cells gained;
  - the scan that counts how often the game-over loops fire.
- `GameWorld` (`world.dfy`): the whole game as one value, `World`, and each phase of `update`,
  `check_collision`, `check_fail`, `game_over` and `reset_game` as a function on it. The save
  record and `load_game` are here too.
- `WorldFacts` (`world_facts.dfy`): every phase keeps the game sound. Sound means:
  - the body has at least two cells;
  - every item is on the board and off the body it was placed against;
  - there are at most ten obstacles;
  - the level is between 1 and 3;
  - so every later placement has a free cell to find.
- `TickFacts` (`tick_facts.dfy`): what a whole tick does. It covers when the game ends, how the
  boom, big-fruit and power-up timers stand, how obstacles are added, and that the scores never
  fall.
- `Controls` (`controls.dfy`): the arrow-key filter of the main loop.
- `Persistence` (`persistence.dfy`): the game-state record of `save_game` and `load_game`, and
  the top-five score list.
- `GameMain` (`game_main.dfy`): the class `Game` (`MAIN`). Its fields are the snake object, the
  items, the timers, the session, the scores, the log of sounds and messages, and the random
  stream.
  - `State()` is a snapshot of these fields as a `World`.
  - Each method that changes state ensures that the new `State()` is the matching `GameWorld`
    function applied to the old one. The lemmas about those functions then carry over to the
    object.

## How the model behaves

These points follow the code rather than an idealised game:

- **Growth.** Nothing ever sets `new_block`, so eating only duplicates the tail in `add_block`.
  Moving right from the start onto a fruit at (6,10) gives `[(6,10),(5,10),(4,10),(4,10)]`.
  See `SnakeBody.FirstFruitGrowth`.
- **Zero direction.** A move with the zero direction puts a copy of the head right behind it,
  which counts as biting itself.
- **Repeated game-over.** `game_over` can run several times in one tick. Each run appends one
  message to the log, and every later check sees the reset snake.
- **Stale forbidden sets.**
  - The fruit, the boom, the power-up and the five starting obstacles avoid the starting body.
  - The big fruit and the obstacles added later avoid the body at the moment they were built.
  - The obstacles and the boom also avoid the live fruit.
  - `BigFruit.randomize` tests a position against the obstacle objects themselves. That test never
    rejects a position, so the model leaves it out.
- **PowerUp argument.** `PowerUp.randomize` ignores its argument and avoids its stored body.
- **Fruit counter.** `big_score` is zeroed only when the game object is built.
- **Load keeps the fruit.** `load_game` writes the fruit's position to an attribute nothing reads,
  so the fruit stays where it is. The position must still decode, or the load fails.
- **Relocation against stale lists.** A relocated item avoids only the cells it was placed
  against, so it can land on another cell of the live body, including one already scanned.

## Model

| member | source | states |
|---|---|---|
| SnakeBody.Snake.constructor | Snake/snake.py:135-142 | a new snake has the body (5,10),(4,10),(3,10), the zero direction and no pending block |
| SnakeBody.Snake.MoveSnake | Snake/snake.py:209-221 | the body becomes the moved body of the old body, direction and flag; the direction is kept and the flag is cleared |
| SnakeBody.MoveShifts | Snake/snake.py:209-221 | a move keeps the length without a pending block and adds one with it; the new head is the old head plus the direction; the cells behind it are the old body minus its tail, or the whole old body when growing |
| SnakeBody.Snake.AddBlock | Snake/snake.py:223-230 | the loop leaves the old body followed by `n` copies of its last cell |
| SnakeBody.GrownExtends | Snake/snake.py:223-230 | growing by `n` adds exactly `n` cells, keeps the old body as a prefix, makes every added cell the old tail, and leaves the body alone when `n` is 0 |
| SnakeBody.Snake.Reset | Snake/snake.py:238-243 | the body is the starting body and the direction is zero |
| SnakeBody.MovedHeadOn | Snake/snake.py:245-253 | after a move the head is on a position exactly when that position was one step ahead of the old head |
| SnakeBody.MoveSelfCollision | Snake/snake.py:255-261 | without a pending block, the moved snake bites itself exactly when the cell ahead of the head is a cell of the old body other than its tail |
| SnakeBody.StillMoveSelfCollides | Snake/snake.py:219-221 | a move with the zero direction always makes the snake bite itself |
| SnakeBody.GrownSelfCollision | Snake/snake.py:229-230 | duplicating the tail neither creates nor removes a self-collision |
| SnakeBody.FirstFruitGrowth | Snake/snake.py:527-529 | moving right from the start and eating gives (6,10),(5,10),(4,10),(4,10) |
| Placement.Random.Sample | Snake/snake.py:69-70 | one pair of `randint` calls yields the next cell of the stream and advances the stream by one |
| Placement.Random.SampleOutside | Snake/snake.py:68-73 | the sampling loop ends, when a free board cell exists, on a board cell outside the forbidden list; that cell is the first such draw from the current index on |
| Placement.NextOutsideFree | Snake/snake.py:68-73 | the draw the loop keeps is on the board and outside the forbidden list, and every draw it passed over is inside the list |
| Placement.Fruit.constructor | Snake/snake.py:268-278 | the fruit keeps the obstacles and body it is given and lands on a board cell off both |
| Placement.Fruit.Randomize | Snake/snake.py:289-298 | the new position is on the board, off the stored body and off every stored obstacle's position, and is the first such draw |
| Placement.Obstacle.constructor | Snake/snake.py:44-54 | the obstacle (or boom) keeps its fruit and body and lands on a board cell off the body and off the fruit |
| Placement.Obstacle.Randomize | Snake/snake.py:64-73 | the new position is on the board, off the stored body and different from the fruit's live position, and is the first such draw; `Boom.randomize` at lines 118-127 is the same loop |
| Placement.BigFruit.constructor | Snake/snake.py:321-332 | the big fruit keeps its body and lands on a board cell off it |
| Placement.BigFruit.Randomize | Snake/snake.py:335-344 | the new position is on the board and off the stored body, and is the first such draw |
| Placement.PowerUp.constructor | Snake/snake.py:370-381 | the power-up keeps its body and lands on a board cell off it |
| Placement.PowerUp.Randomize | Snake/snake.py:384-398 | whatever body is passed in, the new position is on the board and off the stored body, and is the first such draw |
| GameRules.ElapsedSeconds | Snake/snake.py:473-477 | the result is the whole number of seconds in the time since the start, rounded down, also for negative differences |
| GameRules.Level | Snake/snake.py:558-567 | the level is always 1, 2 or 3 |
| GameRules.LevelThresholds | Snake/snake.py:558-567 | level 3 exactly when more than ten cells were gained, level 2 exactly when six to ten were, level 1 otherwise |
| GameRules.Interval | Snake/snake.py:511-519 | the tick period is 150, 100 or 70 ms for level 1, 2 or 3 |
| GameRules.LevelMonotone | Snake/snake.py:558-567 | a longer body never has a lower level or a longer tick period |
| GameRules.GameOverScanDetects | Snake/snake.py:538-541 | a loop that compares each cell with the live head fires at least once exactly when the head is among the cells |
| GameRules.InitialScanQuiet | Snake/snake.py:608-610 | the starting snake never bites itself |
| GameRules.FailEventsDetect | Snake/snake.py:601-610 | `check_fail` ends the game exactly when the head is off the board or on a later body cell |
| GameWorld.ResetTwice | Snake/snake.py:621-628 | a second game-over right after one leaves the same state, since the score is already zero |
| GameWorld.Hit | Snake/snake.py:535-541 | the boom or obstacle test leaves the items alone, keeps a body, and only appends to the log |
| GameWorld.HitAll | Snake/snake.py:538-541 | the obstacle loop leaves the items alone, keeps a body, and only appends to the log |
| GameWorld.Hazards | Snake/snake.py:533-541 | the power-up sound, boom test and obstacle loop leave the items alone and only append to the log |
| GameWorld.HitAllScan | Snake/snake.py:538-541 | the obstacle loop ends the game once for each hit of the scan, with a crash and a game-over each; every hit after the first is counted against the starting head; there is no hit while invincible |
| GameWorld.HazardsEffect | Snake/snake.py:533-541 | touching the power-up gives a crunch; then the armed boom and each obstacle hit each add a crash and a game-over, and the state is that of a game-over when any hit |
| GameWorld.HazardsDoom | Snake/snake.py:535-541 | the hazards end the game exactly when the head is on the armed boom or on an obstacle while not invincible; apart from the log, the state is then a game-over and otherwise unchanged |
| GameWorld.RelocateObstacles | Snake/snake.py:545-547 | frame of the obstacle pass for one body cell: only the obstacle positions and the stream change, and the number of obstacles is kept; which obstacles move is stated by `RelocateObstaclesEffect` |
| GameWorld.RelocateAt | Snake/snake.py:542-551 | frame of the relocation for one body cell: only the items and the stream change, and the obstacle count and bodies are kept; which items move is stated by `RelocateAtEffect` |
| GameWorld.Relocate | Snake/snake.py:542-551 | frame of the whole relocation pass: only the items and the stream change, and the obstacle count and bodies are kept; which items move is stated by `RelocateEffect` |
| GameWorld.BitesScan | Snake/snake.py:608-610 | the self-collision loop ends the game once for each hit of the scan, every hit after the first against the starting head |
| GameWorld.CheckFailEffect | Snake/snake.py:601-610 | `check_fail` adds a crash and a game-over for a head off the board, otherwise one game-over per hit of the scan; the state is a game-over when the game ended and unchanged otherwise |
| GameWorld.SaveLoad | Snake/snake.py:801-842 | loading the record just saved gives back the same game |
| WorldFacts.MoveSound | Snake/snake.py:209-221 | a move keeps the game sound, the body length and the items |
| WorldFacts.EatFruitSound | Snake/snake.py:527-532 | the fruit check keeps the game sound and the obstacles; the body is unchanged or one cell longer |
| WorldFacts.EatFruitEffect | Snake/snake.py:527-532 | a head on the fruit duplicates the tail once, scores a point on both counters, plays the crunch and moves the fruit to a board cell off the starting body; otherwise nothing changes |
| WorldFacts.ScannedSound | Snake/snake.py:612-630 | any number of game-overs keeps the game sound and the items, and leaves either the old body or the starting one |
| WorldFacts.HazardsSound | Snake/snake.py:533-541 | the hazards keep the game sound and leave either the old body or the starting one |
| WorldFacts.RelocateObstaclesSound | Snake/snake.py:545-547 | every relocated obstacle lands on the board off its own body |
| WorldFacts.RelocateAtSound | Snake/snake.py:542-551 | the items relocated for one cell stay placed, and the big fruit still exists exactly when it did |
| WorldFacts.RelocateSound | Snake/snake.py:542-551 | the whole relocation pass keeps every item placed |
| WorldFacts.RelocateObstaclesEffect | Snake/snake.py:545-547 | each obstacle on the body cell is drawn again from the stream, on the board, off its own body and off the live fruit; every other obstacle stays; the stream moves exactly when some obstacle was on the cell |
| WorldFacts.RelocateFruitEffect | Snake/snake.py:543-544 | a fruit on the body cell is drawn again, off the starting body; otherwise it stays; nothing else but the stream changes |
| WorldFacts.RelocateBoomEffect | Snake/snake.py:548-549 | an armed boom on the body cell is drawn again, off the starting body and the live fruit; otherwise it stays; nothing else but the stream changes |
| WorldFacts.RelocateBigFruitEffect | Snake/snake.py:550-551 | an active big fruit on the body cell is drawn again, off its stored body; otherwise it stays; nothing else but the stream changes |
| WorldFacts.RelocateAtEffect | Snake/snake.py:542-551 | for one body cell: the fruit, each obstacle, the armed boom and the active big fruit on it are drawn again against their own lists (obstacles and boom also off the relocated fruit); every other item and the power-up stay |
| WorldFacts.RelocateEffect | Snake/snake.py:542-551 | over the whole pass: an item on none of the cells stays where it was; one on some cell (the boom only while armed, the big fruit only while active) ends on a cell drawn during the pass; the power-up never moves |
| WorldFacts.EatBigFruitSound | Snake/snake.py:552-557 | the big-fruit check keeps the game sound and the body |
| WorldFacts.EatBigFruitEffect | Snake/snake.py:552-557 | a head on the active big fruit switches it off, moves it off its stored body, adds three to the score and nothing to the fruit counter, plays the crunch and keeps the snake; otherwise nothing changes |
| WorldFacts.CollisionSound | Snake/snake.py:521-567 | `check_collision` keeps the game sound; the body is the starting one, or else it keeps its length or is one cell longer |
| WorldFacts.CheckFailSound | Snake/snake.py:601-610 | `check_fail` keeps the game sound and leaves either the old body or the starting one |
| WorldFacts.EnsureBigFruitSound | Snake/snake.py:487-489 | a big fruit created against a live body that leaves room is placed off it |
| WorldFacts.PowerUpPhaseSound | Snake/snake.py:491-496 | the power-up phase keeps the game sound and the snake |
| WorldFacts.BoomAppearSound | Snake/snake.py:498-501 | the boom phase keeps the game sound and the snake |
| WorldFacts.BigFruitAppearSound | Snake/snake.py:502-505 | the big-fruit phase keeps the game sound and the snake |
| WorldFacts.EscalateSound | Snake/snake.py:511-519 | adding an obstacle against a live body that leaves room keeps the game sound |
| WorldFacts.UpkeepSound | Snake/snake.py:487-519 | the phases after `check_fail` keep the game sound and the snake |
| WorldFacts.TickSound | Snake/snake.py:479-519 | a tick keeps the game sound while the body, plus one cell of growth, leaves room on the board; the body after it is the starting one, or else it is no shorter than before and at most one cell longer |
| WorldFacts.AddObstaclesFrame | Snake/snake.py:449-450 | adding the starting obstacles changes nothing but the obstacle list and the stream |
| WorldFacts.AddObstacleOff | Snake/snake.py:515 | a new obstacle is appended with its body, on a board cell off that body and off the fruit |
| WorldFacts.AddObstaclesPlaced | Snake/snake.py:449-450 | the five starting obstacles all land on the board off the starting body |
| WorldFacts.RestartedSound | Snake/snake.py:443-465 | `reset_game` leaves a sound game with the starting snake, five obstacles, a big fruit, level 1 and every special off, and keeps the scores, the tick period and the log |
| WorldFacts.InitialSound | Snake/snake.py:413-441 | a new game is sound, with zero scores, five obstacles, no big fruit, the starting body and an empty log |
| TickFacts.EatFruitKeeps | Snake/snake.py:527-532 | the fruit check keeps the head, the hazards, the timers, the high score and whether the body bites itself, and ends no game |
| TickFacts.EatBigFruitKeeps | Snake/snake.py:552-557 | the big-fruit check keeps the snake, the obstacles and the timers, and ends no game |
| TickFacts.AfterHazardsKeep | Snake/snake.py:542-567 | the relocation pass, the big-fruit check and the level update keep the snake and end no game |
| TickFacts.CollisionDoom | Snake/snake.py:521-567 | `check_collision` ends the game exactly when the moved head is on the armed boom or an obstacle while not invincible |
| TickFacts.CollisionKeeps | Snake/snake.py:521-567 | after a hazard the snake is the starting one; otherwise the head and whether the body bites itself are kept. Items only switch off, the scores do not fall, and the obstacles keep their number and bodies |
| TickFacts.UpkeepKeeps | Snake/snake.py:487-519 | the phases after `check_fail` add nothing to the log and keep the snake, the scores and the clock |
| TickFacts.TickLog | Snake/snake.py:484-486 | a tick's log is that of `check_collision` followed by exactly what `check_fail` lists for the body `check_collision` leaves |
| TickFacts.TickDoom | Snake/snake.py:484-486 | a tick ends the game exactly when the head one step ahead meets a hazard, leaves the board, or lands on the body minus its tail |
| TickFacts.CheckFailKeeps | Snake/snake.py:601-610 | `check_fail` only switches the boom off, keeps the items and the fruit counter, never lowers the high score, and leaves the old body or the starting one |
| TickFacts.PowerUpPhaseTimer | Snake/snake.py:491-496 | a head on the power-up starts invincibility with its timer at now, and nothing else starts it; once the phase is over it is at most ten seconds old |
| TickFacts.BoomAppearTimer | Snake/snake.py:498-501 | the boom arms exactly when it is off and ten seconds of game time have passed since its timer; its timer then becomes the elapsed time |
| TickFacts.BigFruitAppearTimer | Snake/snake.py:502-505 | the big fruit comes exactly when it is away and the fruit counter is a nonzero multiple of five (once the big fruit exists); its timer then becomes now |
| TickFacts.UpkeepBoom | Snake/snake.py:498-509 | after the timer phases an armed boom was armed less than three seconds of game time ago; a boom off for ten seconds is armed with its timer at the elapsed time, and only such a boom is newly armed |
| TickFacts.UpkeepBigFruit | Snake/snake.py:502-507 | after the timer phases an active big fruit came less than five seconds ago; a big fruit away at a nonzero multiple of five fruits is active with its timer at now, and only then is one newly active |
| TickFacts.UpkeepPowerUp | Snake/snake.py:491-496 | after the timer phases invincibility started at most ten seconds ago; a head on the power-up leaves it active with its timer at now, and only that starts it |
| TickFacts.TickTimers | Snake/snake.py:491-509 | after a tick the boom, big-fruit and power-up timers satisfy their three-, five- and ten-second bounds; each starts exactly under its own condition, read in the state `check_fail` leaves (the power-up with the head on it) |
| TickFacts.UpkeepObstacles | Snake/snake.py:511-519 | one obstacle, with the live body, is added exactly when more than ten cells were gained and there are fewer than ten; the tick period follows the body length |
| TickFacts.TickObstacles | Snake/snake.py:511-519 | a tick adds at most one obstacle, only past ten cells gained and never beyond ten, and keeps the bodies of the obstacles already there |
| TickFacts.TickScores | Snake/snake.py:479-519 | a tick never lowers the high score or the fruit counter |
| Controls.Steer | Snake/snake.py:942-953 | for a direction the snake can have, an arrow key sets its direction unless that is the exact opposite of the current one, and the snake never turns straight back; any other key changes nothing |
| Controls.TwoPressesReverse | Snake/snake.py:942-953 | two presses between moves can still turn the snake around |
| Persistence.DecodeCell | Snake/snake.py:838-840 | `Vector2(*p)` accepts lists of up to two numbers and gives x and y for two |
| Persistence.CellRoundTrip | Snake/snake.py:803-840 | a written position reads back as the same cell |
| Persistence.BodyRoundTrip | Snake/snake.py:802-839 | a written body reads back as the same body |
| Persistence.Insert | Snake/snake.py:820-821 | inserting into a descending list keeps it descending and adds exactly that score |
| Persistence.SortDescending | Snake/snake.py:821 | the sorted list is descending and has the same scores |
| Persistence.TopFive | Snake/snake.py:822 | the cut list is a prefix of at most five entries |
| Persistence.TopFiveDominates | Snake/snake.py:821-822 | cutting a descending list keeps it descending, and each kept entry is at least each dropped one |
| Persistence.UpdatedHighScores | Snake/snake.py:814-822 | the written list is descending, has at most five entries, and holds the best of the stored scores plus the current one |
| Persistence.DescendingUnique | Snake/snake.py:821 | two descending lists with the same scores are equal, so the sort has one answer |
| Persistence.SaveInserts | Snake/snake.py:820-822 | for a stored list already descending, the save inserts the score into place and keeps the first five |
| GameMain.Game.constructor | Snake/snake.py:413-441 | a new game is the initial world drawn from the stream, and is valid |
| GameMain.Game.ResetGame | Snake/snake.py:443-465 | the game becomes the restarted world and is valid |
| GameMain.Game.Furnish | Snake/snake.py:451-465 | the big fruit, the boom and the power-up are built in that order with their timers |
| GameMain.Game.NewBigFruit | Snake/snake.py:451-455 | the big fruit is placed off the starting body, switched off, with the level and the clock restarted |
| GameMain.Game.NewBoom | Snake/snake.py:456-462 | the boom is placed off the starting body and the fruit, disarmed |
| GameMain.Game.NewPowerUp | Snake/snake.py:463-465 | the power-up is placed off the starting body, switched off |
| GameMain.Game.PlaceObstacles | Snake/snake.py:449-450 | the loop appends five obstacles, each placed against the starting body and the fruit |
| GameMain.Game.GameOver | Snake/snake.py:612-630 | the state becomes the game-over state: starting snake, clock restarted, boom off, high score the maximum of the old one and the score, score zero, message logged, waiting for the player |
| GameMain.Game.FruitCheck | Snake/snake.py:527-532 | the fruit check on the object matches `EatFruit` |
| GameMain.Game.HitAt | Snake/snake.py:535-537 | one hazard test on the object matches `Hit` |
| GameMain.Game.HitObstacles | Snake/snake.py:538-541 | the obstacle loop on the object matches `HitAll` over the obstacles as they were |
| GameMain.Game.Hazards | Snake/snake.py:533-541 | the power-up sound, boom and obstacles on the object match `Hazards` |
| GameMain.Game.RelocateObstacles | Snake/snake.py:545-547 | the obstacle loop for one body cell matches `RelocateObstacles` over all obstacles |
| GameMain.Game.RelocateAt | Snake/snake.py:543-551 | relocation for one body cell matches `RelocateAt` and keeps the items placed |
| GameMain.Game.RelocateFruit | Snake/snake.py:543-544 | the fruit test for one body cell matches `RelocateFruit` and keeps the items placed |
| GameMain.Game.RelocateBoom | Snake/snake.py:548-549 | the boom test for one body cell matches `RelocateBoom` |
| GameMain.Game.RelocateBigFruit | Snake/snake.py:550-551 | the big-fruit test for one body cell matches `RelocateBigFruit` |
| GameMain.Game.Relocate | Snake/snake.py:542-551 | the loop over the body behind the head matches `Relocate` over the body as it was |
| GameMain.Game.BigFruitCheck | Snake/snake.py:552-557 | the big-fruit check on the object matches `EatBigFruit` |
| GameMain.Game.SetLevel | Snake/snake.py:558-567 | the level and the tick period are set from the body length |
| GameMain.Game.CheckCollision | Snake/snake.py:521-567 | `check_collision` on the object matches `Collision` |
| GameMain.Game.SelfBites | Snake/snake.py:608-610 | the self-collision loop on the object matches `Bites` over the body as it was |
| GameMain.Game.CheckFail | Snake/snake.py:601-610 | `check_fail` on the object matches `CheckFail` |
| GameMain.Game.EnsureBigFruit | Snake/snake.py:487-489 | a missing big fruit is created against the live body |
| GameMain.Game.PowerUpPhase | Snake/snake.py:491-496 | the power-up phase on the object matches `PowerUpPhase` |
| GameMain.Game.BoomAppear | Snake/snake.py:498-501 | the boom phase on the object matches `BoomAppear` |
| GameMain.Game.BigFruitAppear | Snake/snake.py:502-505 | the big-fruit phase on the object matches `BigFruitAppear` |
| GameMain.Game.Expire | Snake/snake.py:506-509 | the expiry tests on the object match `Expire` |
| GameMain.Game.Escalate | Snake/snake.py:511-519 | the difficulty step on the object matches `Escalate` |
| GameMain.Game.Upkeep | Snake/snake.py:487-519 | the phases after `check_fail` on the object match `Upkeep` |
| GameMain.Game.Update | Snake/snake.py:479-519 | `update` on the object matches `Tick` and keeps the game valid, so every lemma about `Tick` holds of the object |
| GameMain.Game.Steer | Snake/snake.py:939-953 | the direction becomes the filtered one, nothing else changes, and validity is kept |
| GameMain.Game.Resume | Snake/snake.py:644-649 | an arrow key read while waiting after a game-over ends the wait and is used up, leaving the direction alone; any other key leaves the game waiting; nothing else changes |
| GameMain.Game.Save | Snake/snake.py:792-825 | the record is that of the game and loads back to the same game when the body can move; the score list written is descending, at most five long, and the best of the stored scores plus the current one |
| GameMain.Game.Load | Snake/snake.py:830-842 | the load succeeds exactly when the body, the direction and the fruit's position decode and the body can move; the game then takes the body, direction and score from the record and otherwise stays as it was, and validity is kept |

## Left out

- Rendering, fonts, images and sprite choice (`draw_*`, `update_head_graphics`, `update_tail_graphics`, `display_message`) are presentation only.
- Sounds are not played. The crunch, the crash and the game-over message are appended to an event log instead.
- The main menu, the help screen, the pause screen, the event pump and `wait_for_player_input` are interactive loops.
  - Waiting for the player becomes the `awaitingInput` flag, which `GameMain.Game.Resume` clears on an arrow key. That key is used up by the wait and does not steer.
  - The path where the player presses 'C' and the game calls `reset_game` is exposed as `GameMain.Game.ResetGame`. No driver loop calls it.
- The JSON files are not modelled. `save_game` returns the record and the new score list. The stored score list is a parameter, empty when the file is missing. `load_game` takes the record.
- The clock is an `int` millisecond parameter. The source reads `pygame.time.get_ticks()` several times in one tick. The model reads one value `now` per call, so the wait inside `game_over` does not move later readings.
- `pygame.time.set_timer` is modelled as the stored tick period.
- `random.randint` is a stream of board cells that returns to every cell infinitely often. What the model does not capture is that the draws are uniform.
- `get_boom_elapsed_time` is never called. `boom_start_time`, `boom_appear` and `boom_disappear` are set but never read.
- The `check_collision` methods of `Obstacle`, `Boom` and `FRUIT`, and `FRUIT.eaten`, are never called. The game compares positions itself.
- GameMain.Game: a `Game` holds the item positions, and the bodies each item was placed against, as values rather than the item objects.
  - The references between objects are reproduced by explicit forbidden lists: the obstacles and the boom avoid the live fruit, and the stored bodies are exact snapshots.
  - Object identity and aliasing between the items are not modelled.
  - The item classes of `Placement` model the objects themselves. They are linked with the `Game` only through `NextOutside`: both keep the first draw outside the avoided cells.
- GameMain.Game.constructor: `big_fruit_timer` starts as `None` in the source and as 0 here. It is never read while the big fruit is off.
- GameMain.Game.Update: requires the body plus three cells to fit on the board. With a fuller board a placement could find no free cell and the source's sampling loop would never end.
- GameMain.Game.Load: refuses a record whose body has fewer than two cells, and refuses the whole record when the body, the direction or the fruit's position fails to decode.
  - With such a body the source crashes on the next move.
  - When the direction fails to decode, the source has already replaced the body.
  - When the fruit's position fails to decode, the source has already replaced the body and the direction, and never sets the score.
  - The source writes whole-valued floats (the `Vector2` components, such as 5.0). The model represents them as integers. Other JSON values (fractions, strings) are not modelled.
- SnakeBody.Snake.MoveSnake: requires the cells that `move_snake` reads and drops. With fewer, the source raises an index error.
- Placement.Random.SampleOutside: requires a free board cell. This is also required of every `randomize` and every constructor that calls it. Without one, the source's loop never ends.
