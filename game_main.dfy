/** The program's wiring: the initial scalars, the order in which the four
    update functions run on each tick, and the two key bindings. */
module GameMain {
  import opened Wrappers
  import opened AppStateModel
  import opened GameUtils
  import opened GameUpdate
  import opened GameUi
  import opened GameEvents

  /** The scalars a new game starts with, given the loaded high score. */
  function InitialStore(highscore: int): Store {
    Store(score := Some(0), highscore := Some(highscore), lives := Some(3), pause := Some(false),
          wellDoneTimer := Some(0), tryAgainTimer := Some(0), safeTimer := Some(0))
  }

  /** What every tick and key press keeps, once the game has started with a
      non-negative high score: every key is present, 1 to 3 lives, a score
      between 0 and the high score, which fits an i32, and timers that never go
      below 0 or above the armed value. */
  predicate GameInvariant(st: Store) {
    && st.score.Some? && st.highscore.Some? && st.lives.Some? && st.pause.Some?
    && st.wellDoneTimer.Some? && st.tryAgainTimer.Some? && st.safeTimer.Some?
    && 1 <= st.lives.value <= 3
    && 0 <= st.score.value <= st.highscore.value <= I32_MAX
    && 0 <= st.wellDoneTimer.value <= ARM_TICKS
    && 0 <= st.tryAgainTimer.value <= ARM_TICKS
    && 0 <= st.safeTimer.value <= ARM_TICKS
  }

  /** The seven `add_state_data` calls of `main`, in the source's order. */
  method InsertScalars(app: AppState, highscore: int)
    modifies app`score, app`highscore, app`lives, app`pause, app`wellDoneTimer, app`tryAgainTimer, app`safeTimer
    ensures app.Scalars() == InitialStore(highscore)
  {
    app.score := Some(0);
    app.highscore := Some(highscore);
    app.wellDoneTimer := Some(0);
    app.tryAgainTimer := Some(0);
    app.safeTimer := Some(0);
    app.lives := Some(3);
    app.pause := Some(false);
  }

  /** `main` up to the event loop: the scalars are inserted first, with the
      high score read from the file, then the scene is built (`ys` are the
      eight random heights of the pipe groups), then the music loops. */
  method NewGame(file: Option<string>, ys: seq<int>) returns (app: AppState)
    requires |ys| == GROUPS
    ensures fresh(app) && fresh(app.objects)
    ensures app.Scalars() == InitialStore(LoadHighscore(file))
    ensures app.objects[..] == SceneActors(ys)
    ensures app.audio == [PlayLoop("music")]
  {
    app := new AppState();
    InsertScalars(app, LoadHighscore(file));
    SetupScene(app, ys);
    app.audio := app.audio + [PlayLoop("music")];
  }

  /** The registry after the first two update functions of a tick. */
  function Moved(objs: seq<Actor>, st: Store): seq<Actor> {
    PipesScrolled(PlayerTicked(objs, st), st.pause)
  }

  /** What the collision scan of a tick does to the scalars, the audio and the file. */
  function TickEffects(objs: seq<Actor>, collides: nat -> bool, st: Store): Effects {
    Resolve(st, Outcome(Moved(objs, st), collides, st))
  }

  /** The scalars at the end of a tick: the timers tick after the scan. */
  function TickStore(objs: seq<Actor>, collides: nat -> bool, st: Store): Store {
    TimersTicked(TickEffects(objs, collides, st).store)
  }

  /** One tick: `player_update`, `update_pipes`, `check_collision` and
      `update_ui_timers`, in that order, each seeing what the previous one left. */
  method Tick(app: AppState, disk: HighscoreFile, collides: nat -> bool)
    requires !Paused(app.pause) && app.score.Some? ==> app.score.value < I32_MAX
    requires !Paused(app.pause) && app.lives.Some? ==> app.lives.value > I32_MIN
    modifies app, app.objects, disk
    ensures app.objects == old(app.objects)
    ensures app.objects[..] == ScannedActors(Moved(old(app.objects[..]), old(app.Scalars())), collides, old(app.Scalars()))
    ensures app.Scalars() == TickStore(old(app.objects[..]), collides, old(app.Scalars()))
    ensures var e := TickEffects(old(app.objects[..]), collides, old(app.Scalars()));
      && app.audio == old(app.audio) + CueEvents(e.cue)
      && (e.saved.Some? ==> disk.contents == Some(IntToDecimal(e.saved.value))
                            && disk.saves == old(disk.saves) + [e.saved.value])
      && (e.saved.None? ==> disk.contents == old(disk.contents) && disk.saves == old(disk.saves))
  {
    PlayerUpdate(app);
    UpdatePipes(app);
    CheckCollision(app, disk, collides);
    UpdateUiTimers(app);
  }

  /** The keys the game reacts to; every other key is ignored. */
  datatype Key = Space | Escape | OtherKey

  /** The key bindings: Space jumps, Escape toggles the pause. */
  method OnKeyPress(app: AppState, key: Key)
    modifies app`pause, app`audio, app.objects
    ensures app.Scalars() == if key == Escape then old(app.Scalars()).(pause := Toggled(old(app.pause)))
                             else old(app.Scalars())
    ensures key == Space && !Paused(old(app.pause)) ==>
      app.audio == old(app.audio) + [PlayOnce("wush")] && app.objects[..] == Jumped(old(app.objects[..]))
    ensures key == Escape ==>
      app.audio == old(app.audio) + (if old(app.pause).Some? then [TogglePauseAudio("music")] else [])
    ensures key != Escape && (key == OtherKey || Paused(old(app.pause))) ==> app.audio == old(app.audio)
    ensures key != Space || Paused(old(app.pause)) ==> app.objects[..] == old(app.objects[..])
  {
    match key {
      case Space => PlayerJump(app);
      case Escape => TogglePause(app);
      case OtherKey =>
    }
  }

  // ---------------------------------------------------------------------------
  // Properties of a running game

  /** A game started from a non-negative high score satisfies the invariant,
      and one whose high-score file is missing or unreadable starts at 0. */
  lemma InitialInvariant(file: Option<string>)
    requires 0 <= LoadHighscore(file)
    ensures GameInvariant(InitialStore(LoadHighscore(file)))
    ensures !Paused(InitialStore(LoadHighscore(file)).pause)
    ensures file.None? ==> InitialStore(LoadHighscore(file)).highscore == Some(0)
  {
  }

  /** A saved non-negative score loads back as a valid starting state. */
  lemma SavedScoreStartsValid(n: int)
    requires 0 <= n <= I32_MAX
    ensures GameInvariant(InitialStore(LoadHighscore(Some(IntToDecimal(n)))))
    ensures InitialStore(LoadHighscore(Some(IntToDecimal(n)))).highscore == Some(n)
  {
    SaveLoadRoundTrip(n);
  }

  /** Resolving any outcome keeps the invariant, provided the score can still
      grow without leaving the i32 range. */
  lemma ResolveKeepsInvariant(st: Store, outcome: CollisionState)
    requires GameInvariant(st)
    requires outcome == Coin ==> st.score.value < I32_MAX
    ensures GameInvariant(Resolve(st, outcome).store)
    ensures Resolve(st, outcome).saved.Some? ==> 0 < Resolve(st, outcome).saved.value <= I32_MAX
  {
  }

  /** The timers keep the invariant, paused or not. */
  lemma TimersKeepInvariant(st: Store)
    requires GameInvariant(st)
    ensures GameInvariant(TimersTicked(st))
  {
  }

  /** Escape keeps the invariant and flips the pause. */
  lemma ToggleKeepsInvariant(st: Store)
    requires GameInvariant(st)
    ensures GameInvariant(st.(pause := Toggled(st.pause)))
    ensures Paused(st.(pause := Toggled(st.pause)).pause) <==> !Paused(st.pause)
  {
  }

  /** A whole tick keeps the invariant, and the preconditions of `Tick` hold
      in every state the invariant describes but the one where the score
      already reached the largest i32. */
  lemma TickKeepsInvariant(objs: seq<Actor>, collides: nat -> bool, st: Store)
    requires GameInvariant(st)
    requires st.score.value < I32_MAX
    ensures st.lives.value > I32_MIN
    ensures GameInvariant(TickStore(objs, collides, st))
  {
    var outcome := Outcome(Moved(objs, st), collides, st);
    ResolveKeepsInvariant(st, outcome);
    TimersKeepInvariant(TickEffects(objs, collides, st).store);
  }

  /** A paused tick changes nothing: no actor, scalar, sound or save. */
  lemma PausedTickChangesNothing(objs: seq<Actor>, collides: nat -> bool, st: Store)
    requires Paused(st.pause)
    ensures Moved(objs, st) == objs
    ensures ScannedActors(Moved(objs, st), collides, st) == objs
    ensures TickEffects(objs, collides, st) == Effects(st, None, None)
    ensures TickStore(objs, collides, st) == st
  {
  }

  /** A non-fatal pipe hit arms the safe timer to 120 in the scan, so the tick
      ends with it at 119; the player is respawned at the origin. */
  lemma HitArmsSafeTimer(objs: seq<Actor>, collides: nat -> bool, st: Store)
    requires GameInvariant(st)
    requires Outcome(Moved(objs, st), collides, st) == Pipe
    requires st.lives.value > 1
    ensures TickStore(objs, collides, st).safeTimer == Some(ARM_TICKS - 1)
    ensures TickStore(objs, collides, st).lives == Some(st.lives.value - 1)
    ensures TickEffects(objs, collides, st).cue == Some("hit")
    ensures var m := Moved(objs, st);
      && FindObject(m, PLAYER).Some?
      && ScannedActors(m, collides, st)[FindObject(m, PLAYER).value].position == Origin
  {
    PipeHitRespawnsPlayer(Moved(objs, st), collides, st);
  }

  /** Losing the last life resets lives and score, plays "game-over", and the
      tick ends with the try-again timer at 119 and "Try Again" on screen. */
  lemma GameOverShowsTryAgain(objs: seq<Actor>, collides: nat -> bool, st: Store)
    requires GameInvariant(st)
    requires Outcome(Moved(objs, st), collides, st) == Pipe
    requires st.lives.value == 1
    ensures var end := TickStore(objs, collides, st);
      && end.lives == Some(3) && end.score == Some(0) && end.highscore == st.highscore
      && end.tryAgainTimer == Some(ARM_TICKS - 1)
      && PopupShown(end) == TryAgainBanner
    ensures TickEffects(objs, collides, st).cue == Some("game-over")
  {
  }

  /** A coin that brings the score to a multiple of ten plays "collect-ten",
      and the tick ends with the well-done timer at 119 and "Well Done!" on screen. */
  lemma MilestoneShowsWellDone(objs: seq<Actor>, collides: nat -> bool, st: Store)
    requires GameInvariant(st)
    requires Outcome(Moved(objs, st), collides, st) == Coin
    requires (st.score.value + 1) % 10 == 0
    ensures var end := TickStore(objs, collides, st);
      && end.score == Some(st.score.value + 1)
      && end.wellDoneTimer == Some(ARM_TICKS - 1)
      && PopupShown(end) == WellDoneBanner
    ensures TickEffects(objs, collides, st).cue == Some("collect-ten")
  {
  }

  /** The blink reads the safe timer before this tick decrements it: a timer
      at 1 still shows the player at full size ... */
  lemma BlinkReadsTimerBeforeTick(objs: seq<Actor>, st: Store)
    requires !Paused(st.pause) && st.safeTimer == Some(1)
    requires FindObject(objs, PLAYER).Some?
    ensures PlayerTicked(objs, st)[FindObject(objs, PLAYER).value].scale == Uniform(PLAYER_SIZE)
  {
  }

  /** ... and, unless a pipe hit re-arms it, the tick ends with it at 0, so the
      next tick shows the player at its last blink scale. */
  lemma SafeTimerRunsOut(objs: seq<Actor>, collides: nat -> bool, st: Store)
    requires !Paused(st.pause) && st.safeTimer == Some(1)
    requires Outcome(Moved(objs, st), collides, st) != Pipe
    ensures TickStore(objs, collides, st).safeTimer == Some(0)
  {
    var outcome := Outcome(Moved(objs, st), collides, st);
    assert Resolve(st, outcome).store.safeTimer == Some(1);
  }

  /** A whole tick keeps the player in the vertical band (-5.05, 6.0): the
      actor found as the player before the tick is still the player after
      falling, scrolling and the scan, and is still inside the band. */
  lemma TickKeepsPlayerInBand(objs: seq<Actor>, collides: nat -> bool, st: Store, p: nat)
    requires FindObject(objs, PLAYER) == Some(p)
    requires FLOOR - FALL < objs[p].position.y < JUMP_CEILING + JUMP_HEIGHT
    ensures var r := ScannedActors(Moved(objs, st), collides, st);
      && FindObject(r, PLAYER) == Some(p)
      && FLOOR - FALL < r[p].position.y < JUMP_CEILING + JUMP_HEIGHT
  {
    FallKeepsBand(objs[p], st.safeTimer.GetOr(0));
    PlayerMovesAlone(objs, st, p);
    ScanKeepsPlayer(Moved(objs, st), collides, st, p);
  }
}
