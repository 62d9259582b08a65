# Flappy Bird: game rules and bird progress, in Dafny

This project models the two pieces of sequential logic of the Flappy Bird
clone (`main.py`, `bird_manager.py`) and proves properties of them.

**The game (`main.py`).** The model covers:
- the bird's vertical physics with the clamp at the top of the screen;
- the flap, which only works during play;
- pipe pairs built around a randomly drawn gap centre;
- pipes moving left and being removed once off screen;
- the one-shot `passed` flag that scores each bottom pipe once;
- the collision test;
- the `start_screen` → `game_active` → `game_over` → `game_active` state machine of the main loop, including `reset_game`.

Modules:
- `Geometry` (`geometry.dfy`) holds integer pygame rectangles and Python's truncating `int()` on quarter pixels.
- `GameRules` (`rules.dfy`) states the rules as functions on values (`World`, `BirdState`, `PipeState`) and proves the properties.
- `Game` (`game.dfy`) holds the imperative model. Its classes `Bird`, `Pipe` and `Game` keep the game's variables in fields that their methods update in place. The pipe group is a sequence of `Pipe` objects, and every method is proved against `GameRules` through the objects' `State()` (for the pipe group, `StatesOf`) and the game's `Snapshot()`.

Velocities are whole quarter pixels per tick:
- gravity 0.25 is 1;
- the flap strength −6 is −24;
- `int(velocity)` is `TruncQuarter`, which rounds toward zero.

The float arithmetic of the source is exact on these values. `random.randint` is a nondeterministic choice (`:|`) inside `Game.CreatePipePair`. The rule functions take the drawn value as a parameter.

**Bird progress (`bird_manager.py`).** The model covers:
- the achievement table (red 50 "Speed Demon", yellow 30 "Heavy Lifter", blue 40 "Graceful Glider");
- the unlocked-bird map and the high-score map;
- loading, saving, raising a score, unlocking, and the lookups.

Modules:
- `BirdProgress` (`progress.dfy`) states these rules on the value `Progress` and proves the properties.
- `Manager` (`manager.dfy`) holds the class `BirdManager`. Its map fields are updated by its methods. The progress file is an object `ProgressFile` whose `contents` is the stored record:
  - `Missing`;
  - `Unreadable`, which covers bad JSON, an I/O error and any other exception while loading;
  - `Present`, a record with an optional unlocked map and an optional score map.

  `save_progress` replaces that record with both maps.

**Behaviour of the code worth knowing:**
- The progress file is written only when a bird is unlocked; a new high score alone is not saved (`bird_manager.py:91-100`).
- An unlock also needs the score to beat the bird's best, because `check_achievements` is only called from `update_score` on a new high score.
- When there is no file, `load_progress` resets only the unlocked map and keeps the current high scores (`bird_manager.py:45-50`). Only the error paths zero the scores.

**Scoring in the crash frame.** In the frame in which the run ends, the high score is recorded before the scoring loop runs (`main.py:363-378`). A pipe passed in that frame can therefore leave the score one above the high score until `reset_game` takes the maximum again. `GameRules.ScoreCanPassHighScoreAtGameOver` exhibits this from a world that satisfies the invariant `Playable`: two pairs spawned one frame apart, with the bird flying into the later pair as the earlier one passes behind it.

## Model

| member | source | states |
|---|---|---|
| Geometry.CenteredAt | main.py:137 | the rectangle placed with `center=` has the given size and centre |
| Geometry.WithBottomLeft | main.py:199 | the rectangle placed with `bottomleft=` has the given size, left edge and bottom edge |
| Geometry.TruncQuarter | main.py:152-153 | `int(v/4)` rounds toward zero: for v ≥ 0, 0 ≤ 4q ≤ v < 4q+4; for v < 0, 4q−4 < v ≤ 4q ≤ 0 |
| GameRules.StartBird | main.py:137-138 | the bird starts centred on (50, screen_height // 2) with velocity 0 |
| GameRules.BirdStep | main.py:151-158 | gravity is added and the bird moves by the truncated velocity; if its top would go above 0 it is put at 0 with velocity 0; its x is kept and its top is never negative |
| GameRules.Flapped | main.py:164-166 | a flap sets the velocity to the flap strength in game_active and changes nothing in any other state |
| GameRules.TopPipeAt | main.py:196-199 | the top pipe's left edge is x and its bottom edge is gap centre − 150 // 2; it starts unpassed |
| GameRules.BottomPipeAt | main.py:200-203 | the bottom pipe's left edge is x and its top edge is gap centre + 150 // 2; it starts unpassed |
| GameRules.PipePair | main.py:305-308 | create_pipe_pair adds a top and then a bottom pipe at the right screen edge, unpassed, the top pipe ending 75 pixels above the drawn gap centre and the bottom pipe starting 75 pixels below it |
| GameRules.GapRange | main.py:298-303 | the gap centre is drawn from [100, height − 100 − gap], or is height // 2 when that range is degenerate |
| GameRules.ShippedGap | main.py:298-306 | with the shipped sizes the centre lies in [100, 262] and the whole gap is on screen |
| GameRules.Moved | main.py:205-206 | Pipe.update moves a pipe exactly 3 pixels left and changes nothing else |
| GameRules.MoveAndCull | main.py:205-208 | after all pipes update, every remaining pipe is on screen and none was added |
| GameRules.MoveAndCullKeepsAll | main.py:205-208 | when no pipe goes off screen, the updated group is every pipe moved 3 pixels left, in order |
| GameRules.MoveAndCullMembership | main.py:205-208 | a pipe is in the updated group exactly when it is on screen and is the 3-pixel move of a pipe of the old group |
| GameRules.Scored | main.py:373-375 | after the scoring loop a pipe is passed exactly when it was passed before or its right edge is left of the bird's left edge; position and kind are unchanged |
| GameRules.Points | main.py:373-378 | the points of one scoring loop are a natural number at most the number of pipes |
| GameRules.ScoringConservation | main.py:373-378 | the points awarded equal the unscored bottom pipes used up, so no pipe scores twice and every point comes from a newly passed bottom pipe |
| GameRules.ScoringIdempotent | main.py:373-378 | running the scoring loop again at the same bird position changes nothing and scores nothing |
| GameRules.CullKeepsUnpassed | main.py:205-208 | when every pipe behind the bird is already passed, removing off-screen pipes never drops an unscored bottom pipe |
| GameRules.InitialWorld | main.py:211-214 | the program starts on the start screen with score 0, the saved high score, the bird at its start and no pipes |
| GameRules.BeginRun | main.py:322-334 | starting a run gives game_active, score 0, the bird back at its start at rest, and exactly one fresh pipe pair |
| GameRules.ResetGame | main.py:266-278 | reset_game sets the high score to the larger of high score and score, then starts a run |
| GameRules.EventTransitions | main.py:314-356 | SPACE or a click starts a run from the start screen, flaps during play and does nothing after game over; R after game over is reset_game; the spawn event adds a pair only during play; R outside game over and any other key change nothing; quit only clears `running`; no event ends a run |
| GameRules.TickTransitions | main.py:358-370 | outside play a tick changes nothing; during play the run ends exactly when the moved bird hits a pipe, the bottom or the top, and the high score becomes max(high score, score); a tick without a crash leaves the high score unchanged; the score never drops |
| GameRules.TopClampEndsRun | main.py:156-158 | a bird clamped at the top of the screen ends the run in the same tick |
| GameRules.ScoreCanPassHighScoreAtGameOver | main.py:363-378 | from a world satisfying `Playable`, a crash tick ends with score 1 above the recorded high score 0, and a following R restores high score ≥ score |
| GameRules.HighScoreNeverDecreases | main.py:266-270 | no event and no tick lowers the high score |
| GameRules.FrameKeepsHighScore | main.py:314-379 | over a whole frame (its events, then the tick) the high score does not go down |
| GameRules.InitialPlayable | main.py:211-214 | the starting game satisfies the invariant `Playable` |
| GameRules.SpawnPlayable | main.py:295-310 | adding a pipe pair keeps `Playable` |
| GameRules.OnEventPlayable | main.py:315-356 | every event keeps `Playable`: the bird stays in its column, the score is not negative, and during play the bird is inside the screen and every pipe behind it is passed |
| GameRules.TickPlayable | main.py:358-379 | every tick keeps `Playable` |
| GameRules.FramePlayable | main.py:314-379 | every frame keeps `Playable`, whatever its events and random draws |
| GameRules.TickAccounting | main.py:358-378 | during play, score plus unscored bottom pipes is unchanged by a tick |
| GameRules.BeginRunAccounting | main.py:327-334 | a run starts with score 0 and exactly one unscored bottom pipe |
| GameRules.SpawnAccounting | main.py:355-356 | each spawned pair adds exactly one unscored bottom pipe and no points |
| GameRules.EventAccounting | main.py:315-356 | during play no event ends the run or changes the score, and only a pipe spawn adds an unscored bottom pipe, exactly one |
| GameRules.FrameAccounting | main.py:314-378 | over a frame of play, score plus unscored bottom pipes grows by exactly the number of pipe spawns in it, so a pair scores at most once and none leaves the screen unscored |
| Game.Bird.constructor | main.py:137-138 | a new bird is the starting bird |
| Game.Bird.Update | main.py:151-158 | the bird's fields after update are its physics step |
| Game.Bird.Flap | main.py:164-166 | the bird's fields after flap are the flapped state |
| Game.Pipe.constructor | main.py:175-203 | a new pipe is the top or bottom pipe of the pair around the gap centre |
| Game.Pipe.Update | main.py:205-208 | the pipe moves 3 pixels left, and it reports itself killed exactly when it is off screen |
| Game.Game.constructor | main.py:211-214 | the game starts in the initial world with the saved high score |
| Game.Game.CreatePipePair | main.py:295-310 | the drawn centre is in range and the group grows by exactly that pair |
| Game.Game.StartRun | main.py:322-334 | the objects afterwards hold the started run |
| Game.Game.ResetGame | main.py:266-278 | the objects afterwards hold the state of reset_game |
| Game.Game.PrimaryInput | main.py:319-334 | the objects afterwards hold the result of SPACE or a click |
| Game.Game.HandleEvent | main.py:315-356 | the objects afterwards hold the result of one event |
| Game.Game.UpdateSprites | main.py:360 | all_sprites.update leaves the bird stepped and the group moved and culled, with only old pipes in it |
| Game.Game.MovePipes | main.py:205-208 | updating each pipe in order and keeping the live ones gives the moved-and-culled group, of distinct pipes all from the old group |
| Game.Game.UpdateOne | main.py:205-208 | one pipe moves 3 pixels left and joins the kept pipes exactly when it is still on screen; the kept pipes' states do not change |
| Game.Game.CollidesWithPipes | main.py:363 | the collision test answers whether the bird's rectangle overlaps some pipe's |
| Game.Game.AwardPoints | main.py:373-378 | the scoring loop marks the pipes as `Scored` and adds `Points` to the score |
| Game.Game.PassPipes | main.py:373-378 | every pipe of the group ends as `Pass` of its state before, and the count returned is `Points` of the states before |
| Game.Pipe.PassBy | main.py:374-375 | the pipe is marked passed exactly when it was not yet passed and its right edge is left of the bird's left edge, and it reports whether it was |
| Game.Game.DetectCrash | main.py:363-370 | on a crash the state is game_over and the high score is max(high score, score); otherwise neither changes |
| Game.Game.Tick | main.py:358-379 | the objects after the rules part of a frame hold `GameRules.Tick` of the state before |
| Game.Game.Frame | main.py:314-379 | the objects after one loop pass hold `GameRules.Frame` of the state before, for the random draws made |
| BirdProgress.InitialIsDefault | bird_manager.py:8-19 | the constructor's maps are the defaults that loading falls back to: blue only unlocked, zero scores for every bird and "default" |
| BirdProgress.LoadKnowsEveryBird | bird_manager.py:24-42 | after any load the unlocked map holds exactly the table's bird types |
| BirdProgress.LoadUnlocks | bird_manager.py:24-42 | after a load a bird is unlocked exactly when it is in the table and the saved flag says so, or it has no saved flag and is blue |
| BirdProgress.LoadHighScores | bird_manager.py:44-71 | after a load the scores are kept when there is no file, zeroed on an error, replaced wholesale by a saved map, and kept when the file has none |
| BirdProgress.LoadErrorGivesDefaults | bird_manager.py:52-71 | any load error gives the default unlocked map and all-zero scores including "default" |
| BirdProgress.FreshManagerWithoutFile | bird_manager.py:45-50 | a fresh manager without a file has blue unlocked, red and yellow locked, and all four scores 0 |
| BirdProgress.SaveLoadRoundTrip | bird_manager.py:74-80 | saving and then loading into any manager reproduces both maps |
| BirdProgress.MissingEntriesDefault | bird_manager.py:34-44 | a file without unlocked birds loads the default unlocked map; a file without scores keeps the manager's scores |
| BirdProgress.LoadIgnoresUnknownBirds | bird_manager.py:40-42 | saved flags for bird types outside the table are ignored |
| BirdProgress.UpdateScoreRaises | bird_manager.py:86-92 | the bird's score becomes the larger of its old value (0 when absent) and the new score; the entry exists afterwards; no other entry changes; no score decreases |
| BirdProgress.CheckAchievementsUnlocks | bird_manager.py:95-99 | a bird is unlocked exactly when it is in the table, not yet unlocked and the score meets its requirement; otherwise both maps are unchanged |
| BirdProgress.UpdateScoreUnlocks | bird_manager.py:86-99 | update_score unlocks exactly the scored bird, and only on a new high score that meets the requirement |
| BirdProgress.UnlockingIsMonotone | bird_manager.py:91-99 | neither update ever locks a bird again |
| BirdProgress.UpdatesKnowEveryBird | bird_manager.py:95-99 | both updates keep the unlocked map holding exactly the table's bird types |
| BirdProgress.LowerScoreChangesNothing | bird_manager.py:88-92 | a score that does not beat the recorded best changes nothing, except that a missing score entry is seeded with 0 |
| BirdProgress.UnlockSurvivesRestart | bird_manager.py:86-100 | red scoring 55 on a fresh manager unlocks red and saves; a manager loaded from that file gets exactly the same maps: red unlocked with best 55, yellow locked, blue unlocked |
| BirdProgress.NewHighScoreWithoutUnlock | bird_manager.py:86-99 | yellow scoring 25 records 25 but stays locked and nothing is saved |
| Manager.BirdManager.constructor | bird_manager.py:5-20 | a new manager holds the constructor's maps loaded from the file, and the unlocked map knows every bird |
| Manager.BirdManager.LoadProgress | bird_manager.py:22-71 | the maps afterwards are `Load` of the file and the maps before, built by merging the saved flags one entry at a time |
| Manager.BirdManager.MergeSaved | bird_manager.py:40-42 | the merged map has the keys of the defaults; each key found in the saved map takes the saved flag and every other key keeps its default |
| Manager.BirdManager.SaveProgress | bird_manager.py:74-80 | the file afterwards holds both maps |
| Manager.BirdManager.UpdateScore | bird_manager.py:86-93 | the maps afterwards are `UpdateScore` of the maps before; the file is written exactly when a bird is unlocked |
| Manager.BirdManager.CheckAchievements | bird_manager.py:95-100 | the maps afterwards are `CheckAchievements` of the maps before; the file is written exactly when the bird is unlocked |
| Manager.BirdManager.IsBirdUnlocked | bird_manager.py:102-104 | true exactly when the map holds the bird as unlocked; false for a bird missing from the map |
| Manager.BirdManager.GetAvailableBirds | bird_manager.py:106-108 | the list holds each bird type of the table exactly once and nothing else |
| Manager.BirdManager.GetBirdAchievementInfo | bird_manager.py:110-113 | the table's entry for a known bird type, None for any other |
| Manager.UnlockPersistsAcrossManagers | bird_manager.py:86-100 | red scoring 55 unlocks red, and a second manager on the same file sees red unlocked with best 55, yellow locked and blue unlocked |

## Left out

- Rendering, fonts, background scrolling, the bird's animation timer, and all audio are left out. They do not affect the rules.
- `load_high_score` and `save_high_score`, the high-score text file, are left out. The saved high score is a parameter of `Game.Game.constructor`, and the writes are dropped.
- JSON encoding and decoding are left out. The progress file is the abstract record `StoredFile`.
- A write failure in `save_progress` is not modelled: the save always succeeds.
- Saved values of other JSON types are left out. This covers a non-boolean unlocked flag, non-integer scores and a `null` `high_scores` entry. A file that is not a JSON object is part of `Unreadable`, which matches the exception path.
- The outer `while running` loop and `clock.tick(60)` are left out. `Game.Game.Frame` is one pass of the loop, and its events are its input.
- The pipe-spawn timer is left out. Its firings are `PipeSpawn` events.
- Sprites loaded from image files are left out. The sizes are those of the placeholder surfaces: bird 34×24, pipe 52×320.
- `pygame.sprite.spritecollide` is modelled as pygame's rectangle overlap test on these sizes. Pixel masks are not used by the source.
- Game.Bird.Update: float velocity is modelled exactly in quarter pixels. Precision loss at velocities beyond 2^53 is not modelled; the game cannot reach those values.
