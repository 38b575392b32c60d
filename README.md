# Flappy Bird core, modelled in Dafny

This project models the simulation core of a Java Flappy Bird clone and proves its behaviour:

- **The bird** (`Bird.java`): a five-state machine. The states are NORMAL, UP, FALL, DEAD_FALL and DEAD. The state lives in integer fields: position, velocity, wing counter, a flap re-arm flag and a collision rectangle.
  - Flapping is edge-triggered.
  - Gravity pulls the bird down every frame while it falls.
  - Touching the ground kills it. Death saves the best score and ends the game.
- **The pipe field** (`GameElementLayer.java`): an ordered list of pipes. Once per frame it does three things in order:
  1. It removes the invisible pipes in place (the `i--` loop) and hands them back to the pipe pool.
  2. It scans for the first pipe whose rectangle hits the bird.
  3. It may append a new pair of pipes and award one point. A pair is either a column pair or a hover pair, either normal or moving.
- **The game** (`Game.java`): the READY / START / OVER phase machine driven by the space key. Each frame, the pipe field runs only outside READY, and then the bird moves.

The mutable classes `Bird`, `GameElementLayer`, `Game`, the score singleton `ScoreCounter` and the pool `PipePool` are Dafny `class`es with the fields the core uses. So is the static phase field, which is held by `StaticGameState`. `Pipe` is the exception: it is a value record. Its `setAttribute` returns an updated value (`SetAttribute`), and drawing a pipe is the pure step `Advance`. A pooled pipe object's identity is therefore not modelled (see "Left out").

Every method is proved against a pure function over a value snapshot of that state:

- `Bird.View()` is specified by `Flapped`, `Gravity`, `Moved` and the other bird functions.
- `GameElementLayer.pipes` is specified by `KeepVisible`, `AdvanceAll`, `ScanOutcome` and `BornLogic`.
- The pool's logs are specified by `Recycled` and the classes of the spawned pairs. The field keeps the books balanced at all times: for each family, the pool has handed out as many pipes as have come back plus those in the list (`Books`, `GameElementLayer.Balanced`).
- `Game.State()` is specified by `OnKey` and `Tick`.

The game-level properties are lemmas about those functions, over whole sequences of key presses and frames.

Modules:

- `Awt`: `java.awt.Rectangle.intersects`.
- `Constants`: the window, sprite and pool sizes, as one `Config` value.
- `Pipes`: a pipe's attributes, and the pool as the field sees it.
- `Score`: `ScoreCounter`.
- `Phases`: the game phase.
- `BirdModel`, `ElementLayer` and `GameModel`: the three core classes.

## Model

| member | source | states |
|---|---|---|
| Awt.IntersectsIffCommonPoint | src/main/java/com/kingyu/flappybird/component/GameElementLayer.java:225 | the collision test holds exactly when some point lies in both the pipe's rectangle and the bird's |
| Awt.IntersectsSymmetric | src/main/java/com/kingyu/flappybird/component/GameElementLayer.java:225 | the collision test does not depend on which rectangle asks |
| Awt.Intersects | src/main/java/com/kingyu/flappybird/component/GameElementLayer.java:225 | when the test holds, the point at the larger left edge and larger top edge lies in both rectangles; when it fails, no point lies in both |
| Pipes.SetAttribute | src/main/java/com/kingyu/flappybird/component/GameElementLayer.java:81-86 | the pipe keeps its pool family and takes exactly the given position, height, type and visibility |
| Pipes.SetAttributeForgetsPast | src/main/java/com/kingyu/flappybird/component/GameElementLayer.java:135-140 | a pipe of a given family, once its attributes are set, no longer depends on what it held before, so a recycled pipe is as good as a new one |
| Pipes.BooksAsMultisets | src/main/java/com/kingyu/flappybird/component/GameElementLayer.java:45-46 | the per-family balance of the pool's books is exactly the multiset identity: families handed out = families given back + families in use |
| Pipes.PipePool.Get | src/main/java/com/kingyu/flappybird/component/GameElementLayer.java:80-84 | a pipe of the requested family; the request is logged |
| Pipes.PipePool.GiveBack | src/main/java/com/kingyu/flappybird/component/GameElementLayer.java:45-46 | the returned pipe is appended to the pool's log |
| Score.ScoreCounter.Score | src/main/java/com/kingyu/flappybird/component/GameElementLayer.java:99 | one more point; the best score is untouched |
| Score.ScoreCounter.SaveScore | src/main/java/com/kingyu/flappybird/component/Bird.java:129 | best becomes the current score when that beats it; best never drops and is at least current |
| Score.ScoreCounter.Reset | src/main/java/com/kingyu/flappybird/component/Bird.java:180 | current score back to 0, best kept |
| Phases.StaticGameState.SetGameState | src/main/java/com/kingyu/flappybird/app/Game.java:160-162 | the phase becomes the given one |
| BirdModel.BirdView.IsDead | src/main/java/com/kingyu/flappybird/component/Bird.java:160-162 | a bird is dead exactly when it is in none of the three living states NORMAL, UP and FALL |
| BirdModel.InitialBird | src/main/java/com/kingyu/flappybird/component/Bird.java:70-80 | a new bird is NORMAL, at rest, at mid-height, flap armed, with its rectangle at the nominal offset |
| BirdModel.Flapped | src/main/java/com/kingyu/flappybird/component/Bird.java:134-145 | a dead or un-re-armed bird is unchanged; otherwise it enters UP and disarms the flap; the impulse and wing reset happen only below the top bar; position and rectangle stay |
| BirdModel.Fallen | src/main/java/com/kingyu/flappybird/component/Bird.java:147-152 | a living bird enters FALL and nothing else changes; a dead one is unchanged |
| BirdModel.DeadFallen | src/main/java/com/kingyu/flappybird/component/Bird.java:154-158 | any bird enters DEAD_FALL with zero velocity, counts as dead, and keeps position, rectangle and flags |
| BirdModel.Gravity | src/main/java/com/kingyu/flappybird/component/Bird.java:120-126 | velocity drops by 2 only below 15; y never passes the bottom boundary; the rectangle moves by the full velocity; the rectangle-to-y offset is kept unless y was clamped and never shrinks |
| BirdModel.Moved | src/main/java/com/kingyu/flappybird/component/Bird.java:104-118 | the wing counter always advances; only FALL and DEAD_FALL move; the bird dies exactly when it moved and its rectangle lies below the bottom boundary |
| BirdModel.ResetView | src/main/java/com/kingyu/flappybird/component/Bird.java:172-181 | back to NORMAL at mid-height and at rest, with the rectangle realigned; the wing counter, flag and rectangle size are kept |
| BirdModel.ImageIndex | src/main/java/com/kingyu/flappybird/component/Bird.java:107 | the animation frame index is always one of the IMG_COUNT images |
| BirdModel.FlapIdempotent | src/main/java/com/kingyu/flappybird/component/Bird.java:134-145 | flapping twice without a release is flapping once |
| BirdModel.DeadIsTerminal | src/main/java/com/kingyu/flappybird/component/Bird.java:134-162 | flap and fall leave a dead bird alone, a frame keeps it dead, and a death fall counts as dead |
| BirdModel.OperationsKeepConsistent | src/main/java/com/kingyu/flappybird/component/Bird.java:104-181 | every bird operation keeps the invariant: rectangle x and size fixed, velocity at most 14, wing counter non-negative, rectangle never above its nominal offset |
| BirdModel.FreeFallUnbounded | src/main/java/com/kingyu/flappybird/component/Bird.java:120-126 | n gravity steps lower the velocity by exactly 2n (there is no terminal velocity), never shrink the rectangle offset, and keep y at or above the ground line |
| BirdModel.Bird.constructor | src/main/java/com/kingyu/flappybird/component/Bird.java:55-81 | the fields equal InitialBird and the invariant holds |
| BirdModel.Bird.UpdateMovement | src/main/java/com/kingyu/flappybird/component/Bird.java:104-118 | the new fields are Moved of the old ones; on death the best score is saved and the phase becomes OVER, otherwise both are untouched |
| BirdModel.Bird.ApplyGravity | src/main/java/com/kingyu/flappybird/component/Bird.java:120-126 | the new fields are Gravity of the old ones |
| BirdModel.Bird.Die | src/main/java/com/kingyu/flappybird/component/Bird.java:128-132 | DEAD, best score saved, phase OVER |
| BirdModel.Bird.Flap | src/main/java/com/kingyu/flappybird/component/Bird.java:134-145 | the new fields are Flapped of the old ones |
| BirdModel.Bird.Fall | src/main/java/com/kingyu/flappybird/component/Bird.java:147-152 | the new fields are Fallen of the old ones |
| BirdModel.Bird.DeadFall | src/main/java/com/kingyu/flappybird/component/Bird.java:154-158 | the new fields are DeadFallen of the old ones |
| BirdModel.Bird.Reset | src/main/java/com/kingyu/flappybird/component/Bird.java:172-181 | the new fields are ResetView of the old ones and the current score is 0 |
| BirdModel.Bird.IsDead | src/main/java/com/kingyu/flappybird/component/Bird.java:160-162 | the object's isDead agrees with IsDead of its value snapshot |
| BirdModel.Bird.KeyIsReleased | src/main/java/com/kingyu/flappybird/component/Bird.java:191-193 | the flap is armed exactly when the snapshot's keyFlag is set |
| BirdModel.Bird.KeyPressed | src/main/java/com/kingyu/flappybird/component/Bird.java:183-185 | only the flap flag changes, to disarmed |
| BirdModel.Bird.KeyReleased | src/main/java/com/kingyu/flappybird/component/Bird.java:187-189 | only the flap flag changes, to armed |
| ElementLayer.VerticalInterval | src/main/java/com/kingyu/flappybird/component/GameElementLayer.java:59 | the truncated fifth of FRAME_HEIGHT: five gaps fit in the frame, with less than five pixels to spare |
| ElementLayer.HorizontalInterval | src/main/java/com/kingyu/flappybird/component/GameElementLayer.java:60 | the truncated quarter of FRAME_HEIGHT: four spacings fit in the frame, with less than four pixels to spare |
| ElementLayer.MinHeight | src/main/java/com/kingyu/flappybird/component/GameElementLayer.java:61 | the truncated eighth of FRAME_HEIGHT: eight minimum heights fit in the frame, with less than eight pixels to spare |
| ElementLayer.MaxHeight | src/main/java/com/kingyu/flappybird/component/GameElementLayer.java:62 | (FRAME_HEIGHT >> 3) * 5: at least MIN_HEIGHT and at most five eighths of the frame; a top pipe of this height still leaves room for the gap above the frame bottom |
| ElementLayer.ColumnPair | src/main/java/com/kingyu/flappybird/component/GameElementLayer.java:130-144 | a top pipe then a bottom pipe at the same x, both visible, with types matching the pool family; the top starts TOP_PIPE_LENGTHENING above the frame; the gap is VERTICAL_INTERVAL; the bottom pipe ends at the frame bottom |
| ElementLayer.HoverPair | src/main/java/com/kingyu/flappybird/component/GameElementLayer.java:151-167 | two hover pieces at the same x; the gap is VERTICAL_INTERVAL; the lower piece ends y above the frame bottom |
| ElementLayer.NextPair | src/main/java/com/kingyu/flappybird/component/GameElementLayer.java:102-120 | the pair lies HORIZONTAL_INTERVAL right of the last pipe; it is from the moving family exactly on a hard draw; it is hover-shaped exactly for hard-and-hover or normal-and-not-column; column pairs reach the bottom and hover pairs stop y short of it |
| ElementLayer.ColumnBottomPositive | src/main/java/com/kingyu/flappybird/component/GameElementLayer.java:131-140 | for every top height in the drawn range the bottom pipe has positive height |
| ElementLayer.HoverPiecesPositive | src/main/java/com/kingyu/flappybird/component/GameElementLayer.java:152-163 | for every offset and height in the drawn ranges both hover pieces have positive height |
| ElementLayer.SpawnedLowerPiecePositive | src/main/java/com/kingyu/flappybird/component/GameElementLayer.java:76-120 | with the draws in their ranges, the lower piece of the first pair and of every later pair has positive height |
| ElementLayer.KeepVisible | src/main/java/com/kingyu/flappybird/component/GameElementLayer.java:40-49 | the pipes kept by the pass are all visible and no more than the list |
| ElementLayer.Recycled | src/main/java/com/kingyu/flappybird/component/GameElementLayer.java:40-49 | the pipes given back by the pass are all invisible and no more than the list |
| ElementLayer.RecyclePartition | src/main/java/com/kingyu/flappybird/component/GameElementLayer.java:40-49 | kept plus given back is exactly the list as a multiset; every visible pipe stays as often as it occurred and every invisible one goes back as often as it occurred |
| ElementLayer.PassStep | src/main/java/com/kingyu/flappybird/component/GameElementLayer.java:41-47 | one iteration of the in-place pass keeps its invariant; a removal leaves the index on the next unprocessed pipe |
| ElementLayer.KeepVisibleAppend | src/main/java/com/kingyu/flappybird/component/GameElementLayer.java:40-49 | the pass distributes over concatenation, so kept pipes keep their relative order |
| ElementLayer.KeepVisibleAllVisible | src/main/java/com/kingyu/flappybird/component/GameElementLayer.java:40-49 | a list of visible pipes passes unchanged and gives nothing back |
| ElementLayer.AdvanceAll | src/main/java/com/kingyu/flappybird/component/GameElementLayer.java:42-43 | drawing moves each pipe in place: same length and order, and each pipe takes the x and visibility its draw gives it, keeping family, y, height and type |
| ElementLayer.AdvanceAllCount | src/main/java/com/kingyu/flappybird/component/GameElementLayer.java:42-43 | drawing never changes how many pipes of each family the list holds |
| ElementLayer.CountRecycle | src/main/java/com/kingyu/flappybird/component/GameElementLayer.java:40-49 | per family, the kept pipes and the pipes given back add up to the list |
| ElementLayer.HiddenPipeGoesBack | src/main/java/com/kingyu/flappybird/component/GameElementLayer.java:40-49 | a pipe that its draw makes invisible stays in the list for the rest of that frame and is among the pipes the next frame's pass over the kept list gives back |
| ElementLayer.BalanceAfterRecycle | src/main/java/com/kingyu/flappybird/component/GameElementLayer.java:40-49 | the recycling pass, with the drawing it does, keeps the pool's books balanced |
| ElementLayer.BalanceAfterSpawn | src/main/java/com/kingyu/flappybird/component/GameElementLayer.java:76-120 | handing out a pair's pipes and appending them keeps the pool's books balanced |
| ElementLayer.BalanceAfterReset | src/main/java/com/kingyu/flappybird/component/GameElementLayer.java:235-240 | giving the whole list back and clearing it keeps the pool's books balanced |
| ElementLayer.FirstHit | src/main/java/com/kingyu/flappybird/component/GameElementLayer.java:224-229 | the index found hits the bird and no earlier pipe does; none is found exactly when no pipe hits |
| ElementLayer.ScanOutcome | src/main/java/com/kingyu/flappybird/component/GameElementLayer.java:218-230 | a dead bird is left alone; a living bird starts its death fall exactly when some pipe hits it |
| ElementLayer.BornLogic | src/main/java/com/kingyu/flappybird/component/GameElementLayer.java:70-123 | see the list after this table |
| ElementLayer.GameElementLayer.constructor | src/main/java/com/kingyu/flappybird/component/GameElementLayer.java:28-30 | an empty list, with the pool's books balanced |
| ElementLayer.GameElementLayer.Draw | src/main/java/com/kingyu/flappybird/component/GameElementLayer.java:38-54 | recycling with drawing, then scan, then spawn: the new bird, list, pool logs and scores are the composition of KeepVisible, AdvanceAll, Recycled, ScanOutcome and BornLogic; the books stay balanced; a pair appended this frame ends in a lower piece of positive height |
| ElementLayer.GameElementLayer.RecycleInvisible | src/main/java/com/kingyu/flappybird/component/GameElementLayer.java:40-49 | the in-place loop leaves the visible pipes, each moved by its draw, and hands Recycled of the list to the pool, in list order |
| ElementLayer.GameElementLayer.VisitPipe | src/main/java/com/kingyu/flappybird/component/GameElementLayer.java:41-47 | one turn of the loop: a visible pipe is moved in place and the index advances; an invisible one is removed, given back, and the index stays |
| ElementLayer.GameElementLayer.IsCollideBird | src/main/java/com/kingyu/flappybird/component/GameElementLayer.java:218-230 | the bird afterwards is ScanOutcome of the bird before |
| ElementLayer.GameElementLayer.PipeBornLogic | src/main/java/com/kingyu/flappybird/component/GameElementLayer.java:70-123 | the list grows by BornLogic's pair, the pool hands out its classes, and the score grows by one exactly when BornLogic scores; the books stay balanced and a new last pipe has positive height |
| ElementLayer.GameElementLayer.AddFirstPair | src/main/java/com/kingyu/flappybird/component/GameElementLayer.java:76-89 | the list grows by the initial column pair at the right edge and the pool hands out two plain pipes; the books stay balanced |
| ElementLayer.GameElementLayer.AddNextPair | src/main/java/com/kingyu/flappybird/component/GameElementLayer.java:102-120 | the list grows by NextPair and the pool hands out its two classes; the books stay balanced and the new lower piece has positive height |
| ElementLayer.GameElementLayer.AddNormalPipe | src/main/java/com/kingyu/flappybird/component/GameElementLayer.java:130-144 | the list grows by a plain column pair and two plain pipes are requested |
| ElementLayer.GameElementLayer.AddHoverPipe | src/main/java/com/kingyu/flappybird/component/GameElementLayer.java:151-167 | the list grows by a plain hover pair and two plain pipes are requested |
| ElementLayer.GameElementLayer.AddMovingHoverPipe | src/main/java/com/kingyu/flappybird/component/GameElementLayer.java:174-190 | the list grows by a moving hover pair and two moving pipes are requested |
| ElementLayer.GameElementLayer.AddMovingNormalPipe | src/main/java/com/kingyu/flappybird/component/GameElementLayer.java:197-211 | the list grows by a moving column pair and two moving pipes are requested |
| ElementLayer.GameElementLayer.Reset | src/main/java/com/kingyu/flappybird/component/GameElementLayer.java:235-240 | every pipe goes back to the pool in list order, the list empties, and the books stay balanced |
| GameModel.InitialWorld | src/main/java/com/kingyu/flappybird/app/Game.java:124-130 | a new game is READY with no pipes, score 0, the saved best, and a living, armed NORMAL bird |
| GameModel.OnKey | src/main/java/com/kingyu/flappybird/app/Game.java:79-117 | non-space keys change nothing; see the list after this table for space |
| GameModel.SpacePressIdempotent | src/main/java/com/kingyu/flappybird/app/Game.java:82-94 | outside OVER, a second space press without a release changes nothing |
| GameModel.HeldSpaceRepeats | src/main/java/com/kingyu/flappybird/app/Game.java:82-94 | outside OVER, any number of space presses with no release has the effect of one |
| GameModel.DeadBirdIgnoresKeys | src/main/java/com/kingyu/flappybird/app/Game.java:79-117 | in START with a dying bird, no key sequence changes the phase, pipes, score or bird, except the flap flag |
| GameModel.FirstPressLeavesBirdFalling | src/main/java/com/kingyu/flappybird/app/Game.java:82-88 | the first space press of a fresh game gives START with the bird in FALL (not UP) carrying the flap impulse |
| GameModel.RestartRestoresInitialBird | src/main/java/com/kingyu/flappybird/app/Game.java:95-109 | a restart from OVER gives back a fresh game's bird, except for the wing counter and flap flag |
| GameModel.Tick | src/main/java/com/kingyu/flappybird/app/Game.java:147-158 | see the list after this table |
| GameModel.FramesMonotone | src/main/java/com/kingyu/flappybird/app/Game.java:147-158 | over any run of frames the phase stays or ends in OVER, a dead bird stays dead, and neither score drops |
| GameModel.DeadBirdScoresNothing | src/main/java/com/kingyu/flappybird/app/Game.java:147-158 | once the bird is dying or dead, no frame awards a point |
| GameModel.WelcomeScreenIdle | src/main/java/com/kingyu/flappybird/app/Game.java:151-156 | in READY with a NORMAL bird, any run of frames only advances the wing counter: no pipes, no movement, no score |
| GameModel.BestNeverDrops | src/main/java/com/kingyu/flappybird/app/Game.java:79-162 | across any mix of key events and frames, restarts included, the best score never drops |
| GameModel.Game.constructor | src/main/java/com/kingyu/flappybird/app/Game.java:124-130 | the game equals InitialWorld, its bird, score counter, phase holder, pipe field and pool are newly allocated, and the pool logs are empty |
| GameModel.Game.KeyPressed | src/main/java/com/kingyu/flappybird/app/Game.java:79-103 | the new game is OnKey of a press; only a restart returns pipes to the pool |
| GameModel.Game.ResetGame | src/main/java/com/kingyu/flappybird/app/Game.java:105-109 | READY, every pipe back to the pool, bird reset, current score 0 |
| GameModel.Game.KeyReleased | src/main/java/com/kingyu/flappybird/app/Game.java:111-117 | the new game is OnKey of a release |
| GameModel.Game.Update | src/main/java/com/kingyu/flappybird/app/Game.java:147-158 | the new game is Tick of the old one; the pool's books stay balanced; in READY the pool is untouched; outside READY the pool gets the recycled pipes and hands out exactly the classes of the pipes appended after the kept ones |

What the longer contracts state:

- **`ElementLayer.BornLogic`**:
  - A dead bird spawns nothing and scores nothing.
  - An empty list gets the initial column pair at the right edge.
  - Otherwise a pair is added exactly when the last pipe is in frame, and that pair is NextPair.
  - A point is given exactly when all of these hold: the bird is alive, the last pipe is in frame, the list holds at least FULL_PIPE − 2 pipes, and the last pipe is within the score distance.
- **`GameModel.OnKey`**, for the space key:
  - Outside OVER, a press gives START, and a living bird is left in FALL with the flap disarmed.
  - In OVER, a press restarts: READY, no pipes, score 0, a NORMAL bird at rest.
  - A release re-arms only the flap.
  - The best score is never touched.
- **`GameModel.Tick`**:
  - In READY, the pipes and score stay.
  - Outside READY, the kept pipes, each moved by its draw (`AdvanceAll`), are a prefix of the new list, which is 0 or 2 pipes longer.
  - The score grows by at most one, and only outside READY for a living bird.
  - The best score never drops, and it changes only to the current score.
  - The phase changes only to OVER with a DEAD bird.
  - A dead bird stays dead.

### Behaviour as the code has it

In these places the code does something other than what one would expect from the game's description. The model follows the code.

- **Fall speed has no floor.** `applyGravity` lowers the velocity only while it is below MAX_VEL_Y (15). Reachable velocities never exceed 14, so the velocity keeps dropping by 2 every frame (`FreeFallUnbounded`). There is no terminal velocity.
- **The first press leaves the bird in FALL.** On the welcome screen, space calls `flap` and then `fall`, so the bird ends in FALL, not UP (`FirstPressLeavesBirdFalling`).
- **The collision rectangle is not clamped.** `y` is clamped to the bottom boundary but the rectangle is not. So the distance from `y` down to the rectangle can only grow: it is at least its nominal value, not equal to it.
- **There is no once-per-pair scoring guard.** A point is given on every frame in which all of these hold: the bird is alive, the last pipe is in frame, the list holds at least FULL_PIPE − 2 pipes, and the last pipe is within the score distance. `BornLogic` states exactly that condition. The same frame also appends a new pair, and that pair becomes the last pipe the next frame measures. So whether the next frame scores again depends on how the in-frame test treats the new pair, which is a parameter here.
- **Hover pairs do not fill the frame.** The top piece starts `y` below the top and the lower piece ends `y` above the bottom (`HoverPair`).
- **Releases read the key's character.** `keyReleased` compares `getKeyChar` with `VK_SPACE`, while presses compare `getKeyCode`.

## Left out

- Drawing, images, fonts, the welcome and game-over animations, the background and foreground layers, clouds and sound (`MusicUtil`): output only.
- The repaint thread, its frame delay, window setup and `System.exit`: these become the caller's sequence of `Update`, `KeyPressed` and `KeyReleased` calls.
- `Pipe.draw`, `Pipe.isInFrame` and `Pipe.getPipeRect`: `Pipe.java` is not part of this model.
  - The effect of a pipe's draw on its attributes is a parameter (`Motion`, in `TickInput`): the new x and visibility. It is applied in place to each visible pipe during the pass (`AdvanceAll`), so a pipe can leave the frame and is recycled on the next frame (`HiddenPipeGoesBack`).
  - The vertical oscillation of moving pipes changes only their rectangle, which is the `pipeRect` parameter.
  - In-frame tests and rectangles are parameters too.
- `PipePool`'s storage, capacity and instance identity: `PipePool.java` is not part of this model.
  - A pipe is a value carrying its class.
  - The pool is two logs, of pipes given back and families requested.
  - The balance of those logs against the list is counted per family. It does not say that the very object handed out is the one given back.
  - FULL_PIPE is a configuration value.
- `GameUtil.getRandomNumber` and `GameUtil.isInProbability`: `GameUtil.java` is not part of this model.
  - Each spawn takes its draws as a parameter (`Draws`), limited to the ranges the calls pass.
  - The score-dependent probability of a hard pair is abstracted into a boolean.
- The `try`/`catch` around the pair choice: no modelled operation throws.
- `ScoreCounter`'s file persistence, and the bird argument of `score`: `ScoreCounter.java` is not part of this model. The saved best score is a constructor argument.
- Concrete values of FRAME_WIDTH, FRAME_HEIGHT, TOP_BAR_HEIGHT, TOP_PIPE_LENGTHENING, GROUND_HEIGHT, the bird sprite size and PIPE_WIDTH: `Constant.java`, `GameBackground.java` and the sprites are not part of this model. They are one `Config` value, required positive so that Java's `/` and `>>` agree with Dafny's `/`.
- 32-bit overflow: the wing counter grows by one every frame, and it and the other fields are unbounded integers here. A Java `int` would wrap after about 2^31 frames.
- BirdModel.Gravity: does not model the fall velocity wrapping around at the 32-bit minimum, since it is an unbounded integer here.
- Awt.Intersects: written without the overflow guards of `Rectangle.intersects`; they agree wherever no coordinate sum overflows.
