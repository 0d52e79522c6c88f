# Flappy Bird gameplay core in Dafny

This project models the gameplay state machine of *Enigma 3D – Flappy Bird*,
a small Rust game. On every tick the game runs four update functions in a
fixed order:

- `player_update` makes the bird fall and tilt, and blinks it while it is invulnerable.
- `update_pipes` scrolls and recycles the pipe gates and their coins.
- `check_collision` scans the actor registry against the bird. It then settles
  lives, score, high score, audio and the three 120-tick timers.
- `update_ui_timers` counts the timers down.

Space makes the bird jump and Escape toggles the pause. The high score is kept
in a text file as a decimal integer. The UI decides from the scalars whether to
show the "Well Done!" or "Try Again" banner, the pause label, and how many
hearts to draw.

The model follows the code's own form:

- The engine's `AppState` is a class (`AppStateModel.AppState`).
  - One `Option` field per key of its scalar store. A missing key changes what
    the game does.
  - An `array<Actor>` registry that the update functions change in place.
  - An append-only log of audio calls.
- The high-score file is a second class, `GameUtils.HighscoreFile`. It holds the
  optional file text and a log of every save.
- Each Rust function that mutates state is a method, except `spawn_pipes`. That
  one is the function `GameUtils.SpawnPipes` over the actor list, and
  `GameUtils.SetupScene` appends its result to the registry. Each method's
  contract ties the new state to a specification function of the old state: `PlayerTicked`,
  `PipesScrolled`, `ScannedActors`, `Resolve`, `TimersTicked`, `Jumped`,
  `Toggled`. The promised properties are lemmas about these functions.
- The collision loop keeps its `continue`/`break` form (`GameUpdate.Scan`). It
  is proved against a declarative description: `FirstPipeHit`, `ScanResult` and
  `CoinsCollected`.
- `GameMain.Tick` composes the four update methods, so the properties of whole
  ticks are proved against that composition. Examples: the invariant a running
  game keeps, a timer armed during a tick ends it at 119, and the banner after
  a game over.

Lengths, angles and scales are integers in hundredths: 0.05 is 5, 40.0 is 4000,
and 35 degrees is 3500. Every constant in the code is therefore exact.

The engine's bounding-box test is not visible to the model, so it is an input:
`collides(j)` says whether actor `j` intersects the player's box. That box is
taken once, before the scan. The random vertical offsets of the eight gates are
also an input, the sequence `ys`.

## Model

| member | source | states |
|---|---|---|
| AppStateModel.AppState.constructor | src/main.rs:14 | A new application state has no scalar keys, no actors and an empty audio log. |
| AppStateModel.FindObject | src/game_update.rs:15 | The player lookup returns the index of the first actor with exactly that name, or nothing when no actor has it. |
| AppStateModel.FindObjectNamesOnly | src/game_update.rs:99-105 | The lookup depends only on names, so the player found again after coins were hidden is the one the scan used. |
| GameUtils.CollisionState | src/game_utils.rs:8-13 | The three outcomes of a scan: a coin was collected, a pipe was hit, or nothing was touched. The source's `None` is `NoCollision`. |
| GameUtils.SpawnPipes | src/game_utils.rs:63-96 | One `spawn_pipes` call on the actor list; what it appends is stated by `SpawnPipesAppendsGate`. |
| GameUtils.SpawnPipesAppendsGate | src/game_utils.rs:63-96 | `spawn_pipes` only appends. The old actors stay, and a coin, the upper and the lower pipe follow, all at x = 5.0 + xOffset with rotation zero. The coin is at the drawn height and the pipes 7.0 above and below it. |
| GameUtils.SceneActors | src/game_utils.rs:15-96 | The spawned registry has 26 actors: the background, the player, then eight gates of coin, upper pipe and lower pipe. Gate k sits at x = 5.0 + 5.0·k with its drawn vertical offset. |
| GameUtils.SpawnedGates | src/game_utils.rs:53-60 | After the background, the player and n `spawn_pipes` calls, the registry holds 2 + 3n actors: gate k at x = 5.0 + 5.0·k with offset ys[k], as coin, upper pipe, lower pipe. |
| GameUtils.SetupScene | src/game_utils.rs:15-61 | Setup appends exactly that layout to the registry, after the actors it already held. |
| GameUtils.SceneLayout | src/game_utils.rs:53-60 | Every spawned pipe and coin starts with x in [5.0, 40.0], inside the band scrolling keeps. In scan order each gate's coin comes before its two pipes. |
| GameUtils.GroupedLayoutBands | src/game_utils.rs:63-96 | Actor j of gate k lies at x in [5.0, 40.0]. It is a coin when j = 0 and a pipe otherwise. |
| GameUtils.GroupedLayoutRoles | src/game_utils.rs:63-96 | For any registry laid out gate by gate, the layout's x band and role order hold at every position. |
| GameUtils.BackgroundNotCoin | src/game_utils.rs:28 | "BACKGROUND" does not contain "COIN", so the background is never collected or scrolled as a coin. |
| GameUtils.BackgroundNotPipe | src/game_utils.rs:28 | "BACKGROUND" does not contain "PIPE", so the background is never scrolled or hit as a pipe. |
| GameUtils.PlayerName | src/game_utils.rs:42 | "PLAYER" contains neither "COIN" nor "PIPE". |
| GameUtils.CoinName | src/game_utils.rs:86 | "COIN" contains "COIN" and not "PIPE". |
| GameUtils.PipeNames | src/game_utils.rs:74-80 | "PIPE1" and "PIPE2" contain "PIPE" and not "COIN". |
| GameUtils.Contains | src/game_update.rs:44 | Rust's `str::contains`, used for every PIPE and COIN role test; its meaning is stated by `ContainsOccurs`. |
| GameUtils.ContainsOccurs | src/game_update.rs:44 | `Contains(s, part)` holds exactly when `part` occurs in `s` at some index. |
| GameUtils.MissingCharNotContained | src/game_update.rs:44 | A name that lacks some character of a pattern does not contain the pattern. |
| GameUtils.HighscoreFile.constructor | src/game_utils.rs:98-101 | The file starts with the given text, or none, and no save has been made. |
| GameUtils.SaveHighscore | src/game_utils.rs:110-114 | A save overwrites the whole file with the decimal text of the score and logs the score. |
| GameUtils.NatToDecimal | src/game_utils.rs:112 | The decimal text of a natural number is non-empty and all digits. |
| GameUtils.IntToDecimal | src/game_utils.rs:112 | `to_string` of an i32 is non-empty. It starts with '-' exactly when the number is negative, and the rest is digits. |
| GameUtils.Trim | src/game_utils.rs:103 | Trimmed text is no longer than the input and neither starts nor ends with whitespace. |
| GameUtils.ParseI32 | src/game_utils.rs:103 | A successful parse gives an i32. A negative result needs a leading '-', and unsigned text must be all digits. Empty text and a lone sign fail. |
| GameUtils.LoadHighscore | src/game_utils.rs:98-108 | `load_highscore` always returns an i32, and 0 when the file cannot be read. |
| GameUtils.NatToDecimalDigits | src/game_utils.rs:112 | The decimal text of n is a non-empty string of digits whose value is n. |
| GameUtils.TrimStartNoop | src/game_utils.rs:103 | Trimming does not change text that starts with a non-whitespace character. |
| GameUtils.TrimEndNoop | src/game_utils.rs:103 | Trimming does not change text that ends with a non-whitespace character. |
| GameUtils.ParseIntToDecimal | src/game_utils.rs:103 | For every i32 n, the text a save writes is already trimmed and parses back to n. |
| GameUtils.SaveLoadRoundTrip | src/game_utils.rs:98-114 | Loading after save(n) returns n for every i32 n, negatives included. |
| GameUtils.TrimStartPadding | src/game_utils.rs:103 | Leading whitespace of any amount is removed by trimming. |
| GameUtils.TrimEndPadding | src/game_utils.rs:103 | Trailing whitespace of any amount is removed by trimming. |
| GameUtils.LoadIgnoresSurroundingWhitespace | src/game_utils.rs:103 | A saved value surrounded by whitespace still loads as that value. |
| GameUtils.LoadDefaults | src/game_utils.rs:98-108 | A missing or unreadable file, empty text, non-numeric text and a lone sign load as 0. |
| GameUtils.LoadTrimsNewline | src/game_utils.rs:103 | " 42\n" loads as 42: the space and the newline are trimmed before parsing. |
| GameUtils.OutOfRangeLoadsZero | src/game_utils.rs:103 | Digits whose value exceeds the i32 range do not parse, so they load as 0. |
| GameUpdate.PlayerUpdate | src/game_update.rs:4-32 | The registry after `player_update` is `PlayerTicked` of the old one. It does nothing when paused, and otherwise steps only the first actor named PLAYER. |
| GameUpdate.BlinkPhase | src/game_update.rs:13-24 | While SAFE_TIMER t > 0 the player is drawn at scale 2 exactly when t mod 10 < 5, and at scale 0 otherwise. When t ≤ 0 the scale is untouched. |
| GameUpdate.BlinkAlternates | src/game_update.rs:18-24 | The blink flips between shown and hidden every five ticks. |
| GameUpdate.PlayerFall | src/game_update.rs:25-28 | The player falls 0.05 and tilts −0.7 degrees only while y > −5.0. x, z, the name and the other axes never change. |
| GameUpdate.FallKeepsBand | src/game_update.rs:25-28 | Falling keeps y inside (−5.05, 6.0). |
| GameUpdate.UpdatePipes | src/game_update.rs:34-61 | The registry after `update_pipes` is `PipeStep` applied to every actor, or the same registry when paused. |
| GameUpdate.ScrollMovesOnlyPipesAndCoins | src/game_update.rs:43-55 | Only actors whose name contains PIPE or COIN move. Their x drops by 0.05, plus 40.0 exactly when it falls below −20.0. A pipe that is not a coin changes only its x. All other actors are unchanged. |
| GameUpdate.ScrollKeepsBand | src/game_update.rs:45-47 | A pipe or coin with x in [−20.0, 40.0] stays in that band. |
| GameUpdate.CoinsSpin | src/game_update.rs:57-59 | Every coin turns 5 degrees about y on each unpaused tick, and a non-coin never rotates. |
| GameUpdate.CoinRecycleRoundTrip | src/game_update.rs:48-52 | A collected coin from a lane at y in (−5.0, 5.0] that wraps on the very next tick is back at its original height, at scale 0.5. |
| GameUpdate.HiddenCoinStaysHidden | src/game_update.rs:81-82 | On a tick without a wrap, a collected coin stays at scale 0 and parked 10.0 higher. |
| GameUpdate.HiddenCoinDrifts | src/game_update.rs:43-59 | On a tick without a wrap, stepping a collected coin gives the hidden form of the stepped coin. |
| GameUpdate.HiddenUntilWrap | src/game_update.rs:43-59 | For n ticks without a wrap a collected coin stays hidden. It is the hidden form of the uncollected coin, which has only moved left by n·0.05. |
| GameUpdate.CoinRecycleAfterDrift | src/game_update.rs:43-59 | A coin collected from a lane at y in (−5.0, 5.0] drifts hidden for n ticks. On the tick that wraps it, it is back at its original height, 40.0 further right, at scale 0.5. |
| GameUpdate.FirstPipeHit | src/game_update.rs:87-92 | The scan stops at the first actor that is a pipe hit: a pipe, not taken as a coin, not safe, intersecting. If there is none, it runs to the end. |
| GameUpdate.FirstPipeHitIs | src/game_update.rs:87-92 | A pipe hit with none before it is where the scan stops. |
| GameUpdate.CoinsCollected | src/game_update.rs:78-85 | The scan's registry has the same length, with a coin hidden exactly when it was reached and hit. |
| GameUpdate.PlayerMovesAlone | src/game_update.rs:4-61 | The player found before `player_update` and `update_pipes` is still found at the same index. Only the fall step changes it. |
| GameUpdate.ScanKeepsPlayer | src/game_update.rs:63-105 | The scan keeps the player at its index, and either leaves it alone or respawns it. |
| GameUpdate.PipeHitRespawnsPlayer | src/game_update.rs:99-105 | On a pipe hit the player is still found after the scan and stands at the origin with zero rotation. Its size is unchanged. |
| GameUpdate.Scan | src/game_update.rs:71-97 | The loop with `continue`/`break` returns `ScanResult` and leaves `CoinsCollected` in the array. |
| GameUpdate.RespawnOnHit | src/game_update.rs:99-105 | On a pipe hit the first PLAYER actor is put at the origin with zero rotation; nothing else in the registry changes. |
| GameUpdate.HandleLives | src/game_update.rs:108-115 | A pipe hit takes one life from a present LIVES key. `live_tracker` is the lives left, or the old value (0 when absent) without a hit. |
| GameUpdate.HandleScore | src/game_update.rs:117-129 | A coin adds one to a present SCORE and a game over resets it to 0. `current_score` is the result, or 0 without SCORE. |
| GameUpdate.HandleHighscore | src/game_update.rs:131-139 | After a coin, a score above a present HIGHSCORE becomes the high score and is saved; otherwise neither the high score nor the file changes. |
| GameUpdate.ResetLives | src/game_update.rs:141-146 | On game over a present LIVES key is set back to 3. |
| GameUpdate.CueAndArm | src/game_update.rs:148-171 | The cue is "game-over", "hit", "collect-ten" or "collect", or none without a collision, and only the timer of that case is armed to 120. |
| GameUpdate.ApplyOutcome | src/game_update.rs:99-171 | The outcome respawns the player on Pipe. The new scalars are `Resolve`'s, its audio cue is appended, and the file is saved exactly when `Resolve` says so. |
| GameUpdate.CheckCollision | src/game_update.rs:63-171 | `check_collision` leaves `ScannedActors` in the registry and `Resolve` of the tick's `Outcome` in the scalars, audio and file. |
| GameUpdate.SafeIgnoresPipes | src/game_update.rs:68 | While SAFE_TIMER > 0 the outcome is never Pipe: only coins are collected and no life is lost. |
| GameUpdate.NoContactNoChange | src/game_update.rs:78-89 | When no pipe or coin intersects the player, the outcome is no collision and nothing changes: registry, scalars, audio and file. Other actors, the player included, may intersect. |
| GameUpdate.NoCollisionChangesNothing | src/game_update.rs:100-171 | Whenever the outcome is no collision, the scan leaves the registry alone and nothing else changes. |
| GameUpdate.CoinBeforePipe | src/game_update.rs:78-92 | A coin hit before a pipe hit is hidden, but the outcome is Pipe, so no point is scored. |
| GameUpdate.PipeBeforeCoin | src/game_update.rs:87-92 | The first pipe hit stops the scan, so a coin after it is not collected. |
| GameUpdate.SeveralCoinsOnePoint | src/game_update.rs:78-85 | Without a pipe hit, any number of coin hits give outcome Coin. All of them are hidden and the score rises by exactly one. |
| GameUpdate.ScannedActorsKeepNames | src/game_update.rs:77-105 | The scan and the respawn keep the registry's length and every actor's name. |
| GameUpdate.NonFatalHit | src/game_update.rs:108-160 | A pipe hit that leaves lives > 0 costs one life. The score is kept, SAFE_TIMER becomes 120, "hit" plays, TRY_AGAIN_TIMER is untouched and nothing is saved. |
| GameUpdate.FatalHit | src/game_update.rs:108-154 | A pipe hit that takes the last life sets lives to 3 and score to 0, sets TRY_AGAIN_TIMER to 120 and plays "game-over". SAFE_TIMER is untouched. A missing LIVES key counts as no lives. |
| GameUpdate.CoinScored | src/game_update.rs:117-171 | A coin scores one point. The high score is raised, and exactly that value saved, iff the new score beats it. "collect-ten" plays and WELL_DONE_TIMER becomes 120 iff the score is a positive multiple of ten; otherwise "collect" plays. |
| GameUi.UpdateUiTimers | src/game_ui.rs:201-225 | The scalars after `update_ui_timers` are `TimersTicked` of the old ones: only the three timers change. |
| GameUi.TickTimerBounds | src/game_ui.rs:210-224 | A present timer > 0 loses exactly 1 and one ≤ 0 is unchanged, so a non-negative timer stays non-negative. A timer never appears or disappears. |
| GameUi.PausedTimersFrozen | src/game_ui.rs:202-209 | When paused, the timers do not move. |
| GameUi.TimersIndependent | src/game_ui.rs:210-224 | Each timer's new value depends only on its own old value. Removing or changing one affects neither of the others, nor any other scalar. |
| GameUi.Countdown | src/game_ui.rs:211-213 | After n unpaused ticks a non-negative timer v reads max(v − n, 0). |
| GameUi.ArmedTimerExpires | src/game_ui.rs:211-213 | A timer armed to 120 is still positive for fewer than 120 ticks, then reaches 0 and stays there. |
| GameUi.PopupShown | src/game_ui.rs:161-198 | "Well Done!" shows iff well-done > 0 and score > 0. "Try Again" shows iff try-again > 0 and score = 0. Absent values read as 0 and never both banners show. |
| GameUi.PauseLabelShown | src/game_ui.rs:121-125 | The pause label shows iff PAUSE is present and true. |
| GameUi.HeartsDrawn | src/game_ui.rs:49-94 | The header reads LIVES, absent as 0 (lines 49-51), and its loop (lines 90-94) draws max(lives, 0) hearts. |
| GameEvents.PlayerJump | src/game_events.rs:3-23 | When paused, neither the audio nor the player changes. Otherwise "wush" is logged exactly once, even without a player, and the first PLAYER actor jumps. |
| GameEvents.JumpEffect | src/game_events.rs:16-19 | Below y = 5.0 a jump adds 1.0 to y and sets the rotation to (0, 0, 35). Otherwise the player is unchanged. x, z, scale and name always stay. |
| GameEvents.JumpKeepsBand | src/game_events.rs:16-17 | Jumping keeps y inside (−5.05, 6.0). |
| GameEvents.JumpKeepsPlayerInBand | src/game_events.rs:3-23 | A Space press keeps the player at its index and its y inside (−5.05, 6.0). |
| GameEvents.TogglePause | src/game_events.rs:25-33 | PAUSE is flipped and one music pause-toggle is logged. With PAUSE absent nothing happens. |
| GameEvents.ToggleTwiceRestores | src/game_events.rs:26-28 | Toggling twice restores PAUSE. Toggling a present flag always flips it, so the toggle is never blocked by the pause. |
| GameMain.InsertScalars | src/main.rs:18-25 | The seven inserted keys give SCORE 0, the loaded HIGHSCORE, all timers 0, LIVES 3 and PAUSE false. |
| GameMain.NewGame | src/main.rs:16-59 | A new game has SCORE 0, HIGHSCORE as loaded, all timers 0, LIVES 3 and PAUSE false. It has the spawned scene and music looping. |
| GameMain.Tick | src/main.rs:32-35 | One tick is `player_update`, `update_pipes`, `check_collision` and `update_ui_timers` in this order, each reading what the previous one left. |
| GameMain.OnKeyPress | src/main.rs:37-38 | Space runs the jump, Escape the pause toggle, and any other key nothing. |
| GameMain.InitialInvariant | src/main.rs:19-25 | A start from a non-negative high score satisfies the game invariant and is not paused. A missing file starts from high score 0. |
| GameMain.SavedScoreStartsValid | src/main.rs:16 | A saved non-negative score loads back and starts a valid game with that high score. |
| GameMain.ResolveKeepsInvariant | src/game_update.rs:108-171 | Every outcome keeps all keys present, 1 ≤ lives ≤ 3, 0 ≤ score ≤ highscore ≤ i32 max and timers in [0, 120]. Any saved value is positive. |
| GameMain.TimersKeepInvariant | src/game_ui.rs:201-225 | Ticking the timers keeps the invariant. |
| GameMain.ToggleKeepsInvariant | src/game_events.rs:25-33 | Escape keeps the invariant and flips whether the game is paused. |
| GameMain.TickKeepsInvariant | src/main.rs:32-35 | A whole tick keeps the invariant, as long as the score is below the i32 maximum. The lives precondition of `Tick` then holds. |
| GameMain.PausedTickChangesNothing | src/main.rs:32-35 | A paused tick changes no actor, scalar, sound or save. |
| GameMain.HitArmsSafeTimer | src/main.rs:34-35 | A non-fatal hit costs one life, plays "hit" and puts the player back at the origin. It arms SAFE_TIMER to 120, and the same tick ends with it at 119. |
| GameMain.GameOverShowsTryAgain | src/main.rs:34-35 | After losing the last life the tick ends with lives 3, score 0 and try-again at 119, and "Try Again" is on screen. |
| GameMain.MilestoneShowsWellDone | src/main.rs:34-35 | A coin that makes the score a multiple of ten ends the tick with well-done at 119, and "Well Done!" is on screen. |
| GameMain.BlinkReadsTimerBeforeTick | src/main.rs:32-35 | The blink reads SAFE_TIMER before this tick decrements it, so a timer at 1 still draws the player at full size. |
| GameMain.SafeTimerRunsOut | src/main.rs:32-35 | Without a pipe hit, a SAFE_TIMER at 1 ends the tick at 0. |
| GameMain.TickKeepsPlayerInBand | src/main.rs:32-35 | A whole tick keeps the player at its index and its y inside (−5.05, 6.0). With `JumpKeepsPlayerInBand`, a player that starts at y = 0 stays in the band through any ticks and jumps. |

## Left out

- Floating point: positions, rotations and scales are exact hundredths. The
  f32 rounding drift of repeated ±0.05 steps is not modelled.
- Bounding boxes and `collision_world::is_colliding` belong to the engine and
  are not visible here. Intersection is the input predicate `collides`.
  `transform.rotate` is taken as additive and every `set_*` as absolute.
- `transform.move_dir_array` is taken to add its vector to the position in
  world coordinates. Every translation in the model relies on this: fall,
  scroll, wrap, coin parking, hiding and jump.
- The background keeps the loaded model's default rotation and scale. The model
  assumes zero rotation and unit scale; only its name and whether it moves matter.
  Pipes and coins also keep the loaded model's default rotation, because
  `spawn_pipes` never sets one. The model assumes rotation zero for them.
- `get_object_mut("PLAYER")` is an engine call. It is modelled as the first
  actor whose name is exactly "PLAYER".
- Rendering: fonts, panels, texture decoding and drawing in src/game_ui.rs. Only
  the show/don't-show decisions and the heart count are modelled. The header's
  score and high-score labels are plain `unwrap_or(0)` reads with nothing to decide.
- Scene setup: camera, lights, materials, skybox and glTF loading. The random
  y-offsets of the gates are the input `ys`. The game draws them from [−2.0, 2.0),
  but the model accepts any values.
- Audio: only the calls on the audio device are logged. Playback and the clips
  registered in src/main.rs:47-58 are not modelled.
- File system: a missing, unopenable or unreadable high-score file is `None`.
- GameUtils.SaveHighscore: a failed `File::create` or write is not modelled; the
  save always succeeds.
- Runtime wiring: the event loop, fps and buffer settings, post-processing, GUI
  registration and the Arc/Mutex conversion in src/main.rs.
- src/game_resources.rs holds only embedded asset bytes and the high-score file
  name, and is not part of this model.
- GameUpdate.CheckCollision: does not model i32 overflow. It requires a score
  below the i32 maximum and lives above the i32 minimum whenever the game is
  not paused. Overflow is unreachable in play, and Rust would panic in a debug build.
- GameUpdate.ApplyOutcome: the same overflow precondition, stated for the
  outcome being applied.
- GameMain.Tick: the same overflow precondition, inherited from `check_collision`.
- In play the saved high score is never negative. The code parses any i32,
  negatives included, and the model follows the code.
- The third value of `CollisionState`, `None` in the source, is `NoCollision`
  here, so that it does not clash with `Option.None`.
