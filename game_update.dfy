/** The three per-tick update functions: the player's fall and invulnerability
    blink, the scrolling and recycling of pipes and coins, and the collision
    scan with its score, lives, high-score, timer and audio bookkeeping. */
module GameUpdate {
  import opened Wrappers
  import opened AppStateModel
  import opened GameUtils

  /** The player falls only while y > -5.0 ... */
  const FLOOR: int := -500
  /** ... by 0.05 per tick, tipping forward by 0.7 degrees. */
  const FALL: int := 5
  const TIP: int := 70
  /** Pipes and coins scroll left by 0.05 per tick ... */
  const SCROLL: int := 5
  /** ... and once x < -20.0 they jump forward by one cycle of 40.0. */
  const WRAP_EDGE: int := -2000
  const CYCLE: int := 4000
  /** A collected coin is lifted by 10.0; on recycle a coin above 5.0 is lowered by 10.0. */
  const COIN_LIFT: int := 1000
  const COIN_CEILING: int := 500
  /** Coins spin by 5 degrees per tick. */
  const COIN_SPIN: int := 500
  /** Every timer the resolver arms is set to 120 ticks (2 seconds at 60 ticks per second). */
  const ARM_TICKS: int := 120

  // ---------------------------------------------------------------------------
  // player_update

  /** The blink: while the invulnerability timer runs the player is shown at
      full size for five ticks and hidden for the next five. */
  function BlinkScale(scale: Vec3, safeTimer: int): Vec3 {
    if safeTimer > 0 then
      (if (safeTimer / 5) % 2 == 0 then Uniform(PLAYER_SIZE) else Uniform(0))
    else scale
  }

  /** The player's transform after one unpaused tick. */
  function PlayerStep(a: Actor, safeTimer: int): Actor {
    var blinked := a.(scale := BlinkScale(a.scale, safeTimer));
    if a.position.y > FLOOR then
      blinked.(position := a.position.(y := a.position.y - FALL),
               rotation := a.rotation.(z := a.rotation.z - TIP))
    else blinked
  }

  /** The registry after `player_update`, given the scalars it reads. */
  function PlayerTicked(objs: seq<Actor>, st: Store): seq<Actor> {
    if Paused(st.pause) then objs
    else match FindObject(objs, PLAYER)
      case None => objs
      case Some(i) => objs[i := PlayerStep(objs[i], st.safeTimer.GetOr(0))]
  }

  method PlayerUpdate(app: AppState)
    modifies app.objects
    ensures app.objects[..] == PlayerTicked(old(app.objects[..]), app.Scalars())
  {
    match app.pause {
      case Some(p) => if p { return; }
      case None =>
    }
    var timerValue := app.safeTimer.GetOr(0);
    var isSafe := timerValue > 0;
    var playerOption := FindObject(app.objects[..], PLAYER);
    match playerOption {
      case Some(i) =>
        var player := app.objects[i];
        if isSafe {
          if (timerValue / 5) % 2 == 0 {
            player := player.(scale := Uniform(PLAYER_SIZE));
          } else {
            player := player.(scale := Uniform(0));
          }
        }
        if player.position.y > FLOOR {
          player := player.(position := player.position.(y := player.position.y - FALL));
          player := player.(rotation := player.rotation.(z := player.rotation.z - TIP));
        }
        app.objects[i] := player;
      case None =>
    }
  }

  // ---------------------------------------------------------------------------
  // update_pipes

  /** A pipe or coin after one unpaused tick; every other actor keeps its transform. */
  function PipeStep(a: Actor): Actor {
    var moved := if IsPipe(a) || IsCoin(a) then Scrolled(a) else a;
    if IsCoin(moved) then moved.(rotation := moved.rotation.(y := moved.rotation.y + COIN_SPIN))
    else moved
  }

  /** `n` unpaused ticks of `update_pipes` applied to one actor. */
  function Steps(a: Actor, n: nat): Actor {
    if n == 0 then a else PipeStep(Steps(a, n - 1))
  }

  function Scrolled(a: Actor): Actor {
    var p := a.position.(x := a.position.x - SCROLL);
    if p.x < WRAP_EDGE then Recycled(a.(position := p)) else a.(position := p)
  }

  /** Recycling: one cycle forward; a coin also gets its size back and, if it
      still hangs above 5.0, is lowered by 10.0. */
  function Recycled(a: Actor): Actor {
    var p := a.position.(x := a.position.x + CYCLE);
    if IsCoin(a) then
      a.(position := if p.y > COIN_CEILING then p.(y := p.y - COIN_LIFT) else p,
         scale := Uniform(COIN_SIZE))
    else a.(position := p)
  }

  function PipesScrolled(objs: seq<Actor>, pause: Option<bool>): (r: seq<Actor>)
    ensures |r| == |objs|
  {
    if Paused(pause) then objs
    else seq(|objs|, j requires 0 <= j < |objs| => PipeStep(objs[j]))
  }

  method UpdatePipes(app: AppState)
    modifies app.objects
    ensures app.objects[..] == PipesScrolled(old(app.objects[..]), app.pause)
  {
    match app.pause {
      case Some(p) => if p { return; }
      case None =>
    }
    for i := 0 to app.objects.Length
      invariant forall j :: 0 <= j < i ==> app.objects[j] == PipeStep(old(app.objects[j]))
      invariant forall j :: i <= j < app.objects.Length ==> app.objects[j] == old(app.objects[j])
    {
      var actor := app.objects[i];
      if IsPipe(actor) || IsCoin(actor) {
        actor := actor.(position := actor.position.(x := actor.position.x - SCROLL));
        if actor.position.x < WRAP_EDGE {
          actor := actor.(position := actor.position.(x := actor.position.x + CYCLE));
          if IsCoin(actor) {
            actor := actor.(scale := Uniform(COIN_SIZE));
            if actor.position.y > COIN_CEILING {
              actor := actor.(position := actor.position.(y := actor.position.y - COIN_LIFT));
            }
          }
        }
      }
      if IsCoin(actor) {
        actor := actor.(rotation := actor.rotation.(y := actor.rotation.y + COIN_SPIN));
      }
      app.objects[i] := actor;
    }
  }

  // ---------------------------------------------------------------------------
  // check_collision: the scan

  /** `is_safe`: a present SAFE_TIMER above zero. */
  predicate IsSafe(st: Store) {
    st.safeTimer.GetOr(0) > 0
  }

  /** The scan runs only when the game is not paused and the player exists. */
  predicate ScanRuns(objs: seq<Actor>, st: Store) {
    !Paused(st.pause) && FindObject(objs, PLAYER).Some?
  }

  /** Actor j is a coin that intersects the player: it is collected and the scan goes on. */
  predicate CoinHitAt(objs: seq<Actor>, collides: nat -> bool, j: nat)
    requires j < |objs|
  {
    IsCoin(objs[j]) && collides(j)
  }

  /** Actor j is, when not safe, a pipe that intersects the player and was not
      taken as a coin: the scan stops there. */
  predicate PipeHitAt(objs: seq<Actor>, collides: nat -> bool, safe: bool, j: nat)
    requires j < |objs|
  {
    !CoinHitAt(objs, collides, j) && !safe && IsPipe(objs[j]) && collides(j)
  }

  /** Where a scan starting at `from` stops: the first pipe hit, or the end of the registry. */
  function FirstPipeHit(objs: seq<Actor>, collides: nat -> bool, safe: bool, from: nat): (k: nat)
    requires from <= |objs|
    ensures from <= k <= |objs|
    ensures forall j :: from <= j < k ==> !PipeHitAt(objs, collides, safe, j)
    ensures k < |objs| ==> PipeHitAt(objs, collides, safe, k)
    decreases |objs| - from
  {
    if from == |objs| then from
    else if PipeHitAt(objs, collides, safe, from) then from
    else FirstPipeHit(objs, collides, safe, from + 1)
  }

  /** The scan stops at k exactly when k is a pipe hit and none comes before it. */
  lemma FirstPipeHitIs(objs: seq<Actor>, collides: nat -> bool, safe: bool, k: nat)
    requires k < |objs| && PipeHitAt(objs, collides, safe, k)
    requires forall j :: 0 <= j < k ==> !PipeHitAt(objs, collides, safe, j)
    ensures FirstPipeHit(objs, collides, safe, 0) == k
  {
  }

  /** A coin is collected when the scan reaches it before stopping. */
  predicate Collected(objs: seq<Actor>, collides: nat -> bool, safe: bool, j: nat)
    requires j < |objs|
  {
    j < FirstPipeHit(objs, collides, safe, 0) && CoinHitAt(objs, collides, j)
  }

  /** The scan's verdict: Pipe if it met a pipe hit; otherwise Coin if it
      collected at least one coin; otherwise no collision. */
  function ScanResult(objs: seq<Actor>, collides: nat -> bool, safe: bool): CollisionState {
    if FirstPipeHit(objs, collides, safe, 0) < |objs| then Pipe
    else if exists j :: 0 <= j < |objs| && CoinHitAt(objs, collides, j) then Coin
    else NoCollision
  }

  /** A collected coin shrinks to nothing and is parked 10.0 above its lane. */
  function Hide(a: Actor): Actor {
    a.(scale := Uniform(0), position := a.position.(y := a.position.y + COIN_LIFT))
  }

  /** The registry after the scan: collected coins hidden, everything else as it was. */
  function CoinsCollected(objs: seq<Actor>, collides: nat -> bool, safe: bool): (r: seq<Actor>)
    ensures |r| == |objs|
  {
    seq(|objs|, j requires 0 <= j < |objs| =>
      if Collected(objs, collides, safe, j) then Hide(objs[j]) else objs[j])
  }

  /** The scan loop of `check_collision`, run once the player has been found. */
  method Scan(objects: array<Actor>, collides: nat -> bool, safe: bool) returns (colliding: CollisionState)
    modifies objects
    ensures colliding == ScanResult(old(objects[..]), collides, safe)
    ensures objects[..] == CoinsCollected(old(objects[..]), collides, safe)
  {
    ghost var objs := objects[..];
    ghost var stop := |objs|;
    colliding := NoCollision;
    for i := 0 to objects.Length
      invariant colliding != Pipe
      invariant forall j :: 0 <= j < i ==> !PipeHitAt(objs, collides, safe, j)
      invariant colliding == Coin <==> exists j :: 0 <= j < i && CoinHitAt(objs, collides, j)
      invariant forall j :: 0 <= j < i ==>
        objects[j] == if CoinHitAt(objs, collides, j) then Hide(objs[j]) else objs[j]
      invariant forall j :: i <= j < objects.Length ==> objects[j] == objs[j]
    {
      var actor := objects[i];
      if IsCoin(actor) {
        if collides(i) {
          assert CoinHitAt(objs, collides, i);
          objects[i] := Hide(actor);
          colliding := Coin;
          continue;
        }
      }
      if !safe && IsPipe(actor) {
        if collides(i) {
          colliding := Pipe;
          stop := i;
          FirstPipeHitIs(objs, collides, safe, i);
          break;
        }
      }
    }
    assert colliding == Pipe ==> stop == FirstPipeHit(objs, collides, safe, 0) < |objs|;
    assert colliding != Pipe ==> FirstPipeHit(objs, collides, safe, 0) == |objs|;
  }

  /** The tick's outcome: that of the scan, or no collision when it does not run. */
  function Outcome(objs: seq<Actor>, collides: nat -> bool, st: Store): CollisionState {
    if ScanRuns(objs, st) then ScanResult(objs, collides, IsSafe(st)) else NoCollision
  }

  /** A pipe hit puts the player back at the origin, upright. */
  function Respawn(a: Actor): Actor {
    a.(position := Origin, rotation := Origin)
  }

  function RespawnPlayer(objs: seq<Actor>): seq<Actor> {
    match FindObject(objs, PLAYER)
    case None => objs
    case Some(p) => objs[p := Respawn(objs[p])]
  }

  /** The registry after `check_collision`: collected coins hidden, and on a
      pipe hit the player respawned. */
  function ScannedActors(objs: seq<Actor>, collides: nat -> bool, st: Store): (r: seq<Actor>)
  {
    if !ScanRuns(objs, st) then objs
    else
      var hidden := CoinsCollected(objs, collides, IsSafe(st));
      if ScanResult(objs, collides, IsSafe(st)) == Pipe then RespawnPlayer(hidden) else hidden
  }

  // ---------------------------------------------------------------------------
  // check_collision: the bookkeeping

  /** The scalars after the outcome is applied, the audio cue played, and the
      value handed to `save_highscore`, if any. */
  datatype Effects = Effects(store: Store, cue: Option<string>, saved: Option<int>)

  /** Overwrites a present key; an absent key stays absent. */
  function Replace(v: Option<int>, x: int): Option<int> {
    if v.Some? then Some(x) else None
  }

  /** `live_tracker` after a pipe hit: the decremented lives, or 0 without LIVES. */
  function LivesLeft(lives: Option<int>): int {
    if lives.Some? then lives.value - 1 else 0
  }

  /** `current_score` after a coin: the incremented score, or 0 without SCORE. */
  function ScoreAfterCoin(score: Option<int>): int {
    if score.Some? then score.value + 1 else 0
  }

  predicate Milestone(score: int) {
    score > 0 && score % 10 == 0
  }

  predicate NewRecord(st: Store) {
    st.highscore.Some? && ScoreAfterCoin(st.score) > st.highscore.value
  }

  /** How one outcome changes the scalars, per case. */
  function Resolve(st: Store, outcome: CollisionState): Effects {
    match outcome
    case NoCollision => Effects(st, None, None)
    case Pipe =>
      var left := LivesLeft(st.lives);
      if left > 0 then
        Effects(st.(lives := Some(left), safeTimer := Replace(st.safeTimer, ARM_TICKS)),
                Some("hit"), None)
      else
        Effects(st.(lives := Replace(st.lives, 3), score := Replace(st.score, 0),
                    tryAgainTimer := Replace(st.tryAgainTimer, ARM_TICKS)),
                Some("game-over"), None)
    case Coin =>
      var scored := ScoreAfterCoin(st.score);
      Effects(st.(score := Replace(st.score, scored),
                  highscore := if NewRecord(st) then Some(scored) else st.highscore,
                  wellDoneTimer := if Milestone(scored) then Replace(st.wellDoneTimer, ARM_TICKS)
                                   else st.wellDoneTimer),
              Some(if Milestone(scored) then "collect-ten" else "collect"),
              if NewRecord(st) then Some(scored) else None)
  }

  function CueEvents(cue: Option<string>): seq<AudioEvent> {
    match cue
    case None => []
    case Some(name) => [PlayOnce(name)]
  }

  /** The player reset of `check_collision`: a pipe hit puts the first PLAYER actor back at the origin. */
  method RespawnOnHit(objects: array<Actor>, colliding: CollisionState)
    modifies objects
    ensures objects[..] == if colliding == Pipe then RespawnPlayer(old(objects[..])) else old(objects[..])
  {
    if colliding == Pipe {
      var found := FindObject(objects[..], PLAYER);
      if found.Some? {
        objects[found.value] := Respawn(objects[found.value]);
      }
    }
  }

  /** The lives bookkeeping of `check_collision`: a pipe hit costs a present LIVES key one life; `live_tracker`
      is the lives left, or the old value (0 when absent) without a hit. */
  method HandleLives(app: AppState, colliding: CollisionState) returns (liveTracker: int)
    requires colliding == Pipe && app.lives.Some? ==> app.lives.value > I32_MIN
    modifies app`lives
    ensures liveTracker == if colliding == Pipe then LivesLeft(old(app.lives)) else old(app.lives).GetOr(0)
    ensures app.lives == if colliding == Pipe && old(app.lives).Some? then Some(liveTracker) else old(app.lives)
  {
    liveTracker := app.lives.GetOr(0);
    if colliding == Pipe {
      if app.lives.Some? {
        app.lives := Some(app.lives.value - 1);
        liveTracker := app.lives.value;
      }
    }
  }

  /** The score bookkeeping of `check_collision`: a coin adds a point to a present SCORE; a pipe hit that leaves
      no lives resets it to 0. `current_score` is the resulting score (0 when absent). */
  method HandleScore(app: AppState, colliding: CollisionState, liveTracker: int) returns (currentScore: int)
    requires colliding == Coin && app.score.Some? ==> app.score.value < I32_MAX
    modifies app`score
    ensures old(app.score).None? ==> app.score == None && currentScore == 0
    ensures old(app.score).Some? ==> app.score == Some(currentScore)
    ensures old(app.score).Some? && colliding == Coin ==> currentScore == old(app.score).value + 1
    ensures old(app.score).Some? && colliding == Pipe && liveTracker <= 0 ==> currentScore == 0
    ensures old(app.score).Some? && colliding != Coin && !(colliding == Pipe && liveTracker <= 0) ==>
      currentScore == old(app.score).value
  {
    currentScore := app.score.GetOr(0);
    if app.score.Some? {
      if colliding == Coin {
        app.score := Some(app.score.value + 1);
        currentScore := app.score.value;
      } else if colliding == Pipe {
        if liveTracker <= 0 {
          app.score := Some(0);
          currentScore := 0;
        }
      }
    }
  }

  /** The high-score bookkeeping of `check_collision`: after a coin, a score above a present HIGHSCORE becomes the new
      high score and is saved. */
  method HandleHighscore(app: AppState, disk: HighscoreFile, colliding: CollisionState, currentScore: int)
    modifies app`highscore, disk
    ensures var raised := colliding == Coin && old(app.highscore).Some? && currentScore > old(app.highscore).value;
      && app.highscore == (if raised then Some(currentScore) else old(app.highscore))
      && (raised ==> disk.contents == Some(IntToDecimal(currentScore)) && disk.saves == old(disk.saves) + [currentScore])
      && (!raised ==> disk.contents == old(disk.contents) && disk.saves == old(disk.saves))
  {
    if colliding == Coin {
      if app.highscore.Some? {
        if currentScore > app.highscore.value {
          app.highscore := Some(currentScore);
          SaveHighscore(disk, app.highscore.value);
        }
      }
    }
  }

  /** The game-over lives reset of `check_collision`: on game over a present LIVES key goes back to 3. */
  method ResetLives(app: AppState, colliding: CollisionState, liveTracker: int)
    modifies app`lives
    ensures app.lives == if colliding == Pipe && liveTracker <= 0 then Replace(old(app.lives), 3) else old(app.lives)
  {
    if colliding == Pipe && liveTracker <= 0 {
      if app.lives.Some? {
        app.lives := Some(3);
      }
    }
  }

  /** The audio cue and timer arming of `check_collision`: the audio cue of the outcome, and the timer it arms. */
  method CueAndArm(app: AppState, colliding: CollisionState, liveTracker: int, currentScore: int)
    modifies app`audio, app`tryAgainTimer, app`safeTimer, app`wellDoneTimer
    ensures var fatal := colliding == Pipe && liveTracker <= 0;
      var hit := colliding == Pipe && liveTracker > 0;
      var milestone := colliding == Coin && Milestone(currentScore);
      && app.audio == old(app.audio) + CueEvents(
           if colliding == Pipe then Some(if fatal then "game-over" else "hit")
           else if colliding == Coin then Some(if milestone then "collect-ten" else "collect")
           else None)
      && app.tryAgainTimer == (if fatal then Replace(old(app.tryAgainTimer), ARM_TICKS) else old(app.tryAgainTimer))
      && app.safeTimer == (if hit then Replace(old(app.safeTimer), ARM_TICKS) else old(app.safeTimer))
      && app.wellDoneTimer == (if milestone then Replace(old(app.wellDoneTimer), ARM_TICKS) else old(app.wellDoneTimer))
  {
    if colliding == Pipe {
      if liveTracker <= 0 {
        app.audio := app.audio + [PlayOnce("game-over")];
        if app.tryAgainTimer.Some? {
          app.tryAgainTimer := Some(ARM_TICKS);
        }
      } else {
        app.audio := app.audio + [PlayOnce("hit")];
        if app.safeTimer.Some? {
          app.safeTimer := Some(ARM_TICKS);
        }
      }
    } else if colliding == Coin {
      if currentScore > 0 && currentScore % 10 == 0 {
        app.audio := app.audio + [PlayOnce("collect-ten")];
        if app.wellDoneTimer.Some? {
          app.wellDoneTimer := Some(ARM_TICKS);
        }
      } else {
        app.audio := app.audio + [PlayOnce("collect")];
      }
    }
  }

  /** What the outcome of the scan does in `check_collision`: what it does to the player,
      the scalars, the audio log and the high-score file, in the source's order. */
  method ApplyOutcome(app: AppState, disk: HighscoreFile, colliding: CollisionState)
    requires colliding == Coin && app.score.Some? ==> app.score.value < I32_MAX
    requires colliding == Pipe && app.lives.Some? ==> app.lives.value > I32_MIN
    modifies app, app.objects, disk
    ensures app.objects == old(app.objects)
    ensures app.objects[..] == if colliding == Pipe then RespawnPlayer(old(app.objects[..])) else old(app.objects[..])
    ensures var e := Resolve(old(app.Scalars()), colliding);
      && app.Scalars() == e.store
      && app.audio == old(app.audio) + CueEvents(e.cue)
      && (e.saved.Some? ==> disk.contents == Some(IntToDecimal(e.saved.value))
                            && disk.saves == old(disk.saves) + [e.saved.value])
      && (e.saved.None? ==> disk.contents == old(disk.contents) && disk.saves == old(disk.saves))
  {
    RespawnOnHit(app.objects, colliding);
    var liveTracker := HandleLives(app, colliding);
    var currentScore := HandleScore(app, colliding, liveTracker);
    HandleHighscore(app, disk, colliding, currentScore);
    ResetLives(app, colliding, liveTracker);
    CueAndArm(app, colliding, liveTracker, currentScore);
  }

  /** `check_collision`. The engine's bounding-box test of each actor against
      the player's box (taken once, before the scan) is the input `collides`. */
  method CheckCollision(app: AppState, disk: HighscoreFile, collides: nat -> bool)
    requires !Paused(app.pause) && app.score.Some? ==> app.score.value < I32_MAX
    requires !Paused(app.pause) && app.lives.Some? ==> app.lives.value > I32_MIN
    modifies app, app.objects, disk
    ensures app.objects == old(app.objects)
    ensures app.objects[..] == ScannedActors(old(app.objects[..]), collides, old(app.Scalars()))
    ensures var e := Resolve(old(app.Scalars()), Outcome(old(app.objects[..]), collides, old(app.Scalars())));
      && app.Scalars() == e.store
      && app.audio == old(app.audio) + CueEvents(e.cue)
      && (e.saved.Some? ==> disk.contents == Some(IntToDecimal(e.saved.value))
                            && disk.saves == old(disk.saves) + [e.saved.value])
      && (e.saved.None? ==> disk.contents == old(disk.contents) && disk.saves == old(disk.saves))
  {
    match app.pause {
      case Some(p) => if p { return; }
      case None =>
    }
    var isSafe := match app.safeTimer case Some(t) => t > 0 case None => false;
    var playerOption := FindObject(app.objects[..], PLAYER);
    var colliding := NoCollision;
    match playerOption {
      case Some(_) =>
        colliding := Scan(app.objects, collides, isSafe);
      case None =>
    }
    ApplyOutcome(app, disk, colliding);
  }

  // ---------------------------------------------------------------------------
  // Lemmas: player motion

  /** While SAFE_TIMER t is positive the player is drawn at full size exactly
      when t % 10 < 5, and hidden otherwise; with t <= 0 the scale is untouched. */
  lemma BlinkPhase(scale: Vec3, t: int)
    ensures t <= 0 ==> BlinkScale(scale, t) == scale
    ensures t > 0 ==> BlinkScale(scale, t) == if t % 10 < 5 then Uniform(PLAYER_SIZE) else Uniform(0)
  {
    if t > 0 {
      var q, r := t / 10, t % 10;
      assert t == 10 * q + r && 0 <= r < 10;
      assert t / 5 == 2 * q + r / 5;
      assert (t / 5) % 2 == r / 5;
    }
  }

  /** The blink alternates every five ticks: as the timer counts down, the
      player's scale flips between shown and hidden each time 5 ticks pass. */
  lemma BlinkAlternates(scale: Vec3, t: int)
    requires t > 5
    ensures BlinkScale(scale, t) != BlinkScale(scale, t - 5)
    ensures BlinkScale(scale, t) == Uniform(PLAYER_SIZE) || BlinkScale(scale, t) == Uniform(0)
  {
    BlinkPhase(scale, t);
    BlinkPhase(scale, t - 5);
    assert (t - 5) % 10 < 5 <==> !(t % 10 < 5);
  }

  /** The player falls by 0.05 and tips by -0.7 degrees only while above -5.0;
      x, z, the name and the other rotation axes never change. */
  lemma PlayerFall(a: Actor, t: int)
    ensures var r := PlayerStep(a, t);
      && r.name == a.name
      && r.position.x == a.position.x && r.position.z == a.position.z
      && r.rotation.x == a.rotation.x && r.rotation.y == a.rotation.y
      && (a.position.y > FLOOR ==> r.position.y == a.position.y - FALL && r.rotation.z == a.rotation.z - TIP)
      && (a.position.y <= FLOOR ==> r.position == a.position && r.rotation == a.rotation)
  {
  }

  /** The vertical band (-5.05, 6.0) is kept by falling (the matching half for
      jumping is `GameEvents.JumpKeepsBand`). */
  lemma FallKeepsBand(a: Actor, t: int)
    requires FLOOR - FALL < a.position.y < 600
    ensures FLOOR - FALL < PlayerStep(a, t).position.y < 600
  {
  }

  // ---------------------------------------------------------------------------
  // Lemmas: scrolling

  /** Only pipes and coins are moved; every other actor is left exactly as it was. */
  lemma ScrollMovesOnlyPipesAndCoins(a: Actor)
    ensures PipeStep(a).name == a.name
    ensures !IsPipe(a) && !IsCoin(a) ==> PipeStep(a) == a
    ensures IsPipe(a) || IsCoin(a) ==>
      PipeStep(a).position.x ==
        if a.position.x - SCROLL < WRAP_EDGE then a.position.x - SCROLL + CYCLE else a.position.x - SCROLL
    ensures IsPipe(a) && !IsCoin(a) ==>
      PipeStep(a).position.(x := a.position.x) == a.position && PipeStep(a).scale == a.scale
  {
  }

  /** A pipe or coin with x in [-20.0, 40.0] stays in that band. */
  lemma ScrollKeepsBand(a: Actor)
    requires IsPipe(a) || IsCoin(a)
    requires WRAP_EDGE <= a.position.x <= CYCLE
    ensures WRAP_EDGE <= PipeStep(a).position.x <= CYCLE
  {
  }

  /** Every coin spins by 5 degrees about y on every unpaused tick, whether or
      not it wraps; a pipe that is not a coin never rotates. */
  lemma CoinsSpin(a: Actor)
    ensures IsCoin(a) ==> PipeStep(a).rotation == a.rotation.(y := a.rotation.y + COIN_SPIN)
    ensures !IsCoin(a) ==> PipeStep(a).rotation == a.rotation
  {
  }

  /** One tick of the collect-and-recycle round trip: a coin collected from a
      lane with -5.0 < y <= 5.0 that wraps on the very next tick comes back at
      its original height and at its canonical size (`CoinRecycleAfterDrift`
      covers any number of ticks before the wrap). */
  lemma CoinRecycleRoundTrip(c: Actor)
    requires IsCoin(c)
    requires FLOOR < c.position.y <= COIN_CEILING
    requires c.position.x - SCROLL < WRAP_EDGE
    ensures PipeStep(Hide(c)).position == c.position.(x := c.position.x - SCROLL + CYCLE)
    ensures PipeStep(Hide(c)).scale == Uniform(COIN_SIZE)
  {
  }

  /** On one tick without a wrap a collected coin stays invisible while it
      drifts (`HiddenUntilWrap` covers any number of such ticks). */
  lemma HiddenCoinStaysHidden(c: Actor)
    requires IsCoin(c)
    requires c.position.x - SCROLL >= WRAP_EDGE
    ensures PipeStep(Hide(c)).scale == Uniform(0)
    ensures PipeStep(Hide(c)).position.y == c.position.y + COIN_LIFT
  {
  }

  /** A collected coin that does not wrap on this tick moves exactly like the
      coin it hides: hiding and stepping commute. */
  lemma HiddenCoinDrifts(c: Actor)
    requires IsCoin(c)
    requires c.position.x - SCROLL >= WRAP_EDGE
    ensures PipeStep(Hide(c)) == Hide(PipeStep(c))
  {
  }

  /** Over `n` ticks without a wrap a collected coin stays hidden: it is the
      hidden form of the coin that was never collected, which has only moved
      left by `n` scroll steps. */
  lemma {:induction false} HiddenUntilWrap(c: Actor, n: nat)
    requires IsCoin(c)
    requires c.position.x - SCROLL * n >= WRAP_EDGE
    ensures Steps(c, n).name == c.name
    ensures Steps(c, n).position == c.position.(x := c.position.x - SCROLL * n)
    ensures Steps(Hide(c), n) == Hide(Steps(c, n))
    ensures Steps(Hide(c), n).scale == Uniform(0)
  {
    if n > 0 {
      HiddenUntilWrap(c, n - 1);
      HiddenCoinDrifts(Steps(c, n - 1));
    }
  }

  /** The whole collect-and-recycle round trip: a coin collected from a lane
      with -5.0 < y <= 5.0 drifts hidden for `n` ticks and, on the tick that
      wraps it, is back at its original height and canonical size. */
  lemma {:induction false} CoinRecycleAfterDrift(c: Actor, n: nat)
    requires IsCoin(c)
    requires FLOOR < c.position.y <= COIN_CEILING
    requires c.position.x - SCROLL * n >= WRAP_EDGE > c.position.x - SCROLL * (n + 1)
    ensures Steps(Hide(c), n + 1).position == c.position.(x := c.position.x - SCROLL * (n + 1) + CYCLE)
    ensures Steps(Hide(c), n + 1).scale == Uniform(COIN_SIZE)
  {
    HiddenUntilWrap(c, n);
    CoinRecycleRoundTrip(Steps(c, n));
  }

  // ---------------------------------------------------------------------------
  // Lemmas: the scan

  /** While invulnerable the scan never reports a pipe, so the player is not
      respawned and no life is lost. */
  lemma SafeIgnoresPipes(objs: seq<Actor>, collides: nat -> bool, st: Store)
    requires IsSafe(st)
    ensures Outcome(objs, collides, st) != Pipe
    ensures ScannedActors(objs, collides, st) ==
      if ScanRuns(objs, st) then CoinsCollected(objs, collides, true) else objs
    ensures Resolve(st, Outcome(objs, collides, st)).store.lives == st.lives
  {
    var k := FirstPipeHit(objs, collides, true, 0);
  }

  /** With no pipe or coin touching the player (the only actors the scan
      tests), `check_collision` changes nothing at all: registry, scalars,
      audio and the high-score file. */
  lemma NoContactNoChange(objs: seq<Actor>, collides: nat -> bool, st: Store)
    requires forall j :: 0 <= j < |objs| && (IsPipe(objs[j]) || IsCoin(objs[j])) ==> !collides(j)
    ensures Outcome(objs, collides, st) == NoCollision
    ensures ScannedActors(objs, collides, st) == objs
    ensures Resolve(st, Outcome(objs, collides, st)) == Effects(st, None, None)
  {
    if ScanRuns(objs, st) {
      var safe := IsSafe(st);
      var k := FirstPipeHit(objs, collides, safe, 0);
      assert CoinsCollected(objs, collides, safe) == objs;
    }
  }

  /** Whatever the actors and the intersections, an outcome of no collision
      means the scan left the registry alone and the outcome changes nothing. */
  lemma NoCollisionChangesNothing(objs: seq<Actor>, collides: nat -> bool, st: Store)
    requires Outcome(objs, collides, st) == NoCollision
    ensures ScannedActors(objs, collides, st) == objs
    ensures Resolve(st, Outcome(objs, collides, st)) == Effects(st, None, None)
  {
    if ScanRuns(objs, st) {
      var safe := IsSafe(st);
      forall j | 0 <= j < |objs|
        ensures CoinsCollected(objs, collides, safe)[j] == objs[j]
      {
        assert !CoinHitAt(objs, collides, j);
      }
    }
  }

  /** A coin hit stops nothing: it is collected even when a pipe hit comes later
      in the scan, and the tick's outcome is then Pipe, so no point is scored. */
  lemma CoinBeforePipe(objs: seq<Actor>, collides: nat -> bool, st: Store, c: nat, p: nat)
    requires ScanRuns(objs, st) && !IsSafe(st)
    requires c < p < |objs|
    requires forall j :: 0 <= j < c ==> !PipeHitAt(objs, collides, false, j)
    requires CoinHitAt(objs, collides, c)
    requires IsPipe(objs[p]) && !IsCoin(objs[p]) && collides(p)
    ensures Outcome(objs, collides, st) == Pipe
    ensures ScannedActors(objs, collides, st)[c] == Hide(objs[c])
    ensures Resolve(st, Pipe).store.score == if LivesLeft(st.lives) > 0 then st.score else Replace(st.score, 0)
  {
    var k := FirstPipeHit(objs, collides, false, 0);
    assert PipeHitAt(objs, collides, false, p);
    assert c < k;
    var hidden := CoinsCollected(objs, collides, false);
    assert hidden[c] == Hide(objs[c]);
    PlayerName();
    FindObjectNamesOnly(objs, hidden, PLAYER);
  }

  /** A pipe hit stops the scan: a coin after it that touches the player is
      not collected that tick. */
  lemma PipeBeforeCoin(objs: seq<Actor>, collides: nat -> bool, st: Store, p: nat, c: nat)
    requires ScanRuns(objs, st) && !IsSafe(st)
    requires p < c < |objs|
    requires PipeHitAt(objs, collides, false, p)
    requires CoinHitAt(objs, collides, c)
    ensures Outcome(objs, collides, st) == Pipe
    ensures ScannedActors(objs, collides, st)[c] == objs[c]
  {
    var k := FirstPipeHit(objs, collides, false, 0);
    assert k <= p;
    var hidden := CoinsCollected(objs, collides, false);
    assert hidden[c] == objs[c];
    PlayerName();
  }

  /** Without a pipe hit, any number of coins touched in one tick give outcome
      Coin once: all of them are collected and the score rises by exactly one. */
  lemma SeveralCoinsOnePoint(objs: seq<Actor>, collides: nat -> bool, st: Store)
    requires ScanRuns(objs, st)
    requires forall j :: 0 <= j < |objs| ==> !PipeHitAt(objs, collides, IsSafe(st), j)
    requires exists j :: 0 <= j < |objs| && CoinHitAt(objs, collides, j)
    ensures Outcome(objs, collides, st) == Coin
    ensures forall j :: 0 <= j < |objs| && CoinHitAt(objs, collides, j) ==>
      ScannedActors(objs, collides, st)[j] == Hide(objs[j])
    ensures st.score.Some? ==> Resolve(st, Coin).store.score == Some(st.score.value + 1)
  {
    var k := FirstPipeHit(objs, collides, IsSafe(st), 0);
  }

  /** The scan and the respawn move no actor in the registry and rename none. */
  lemma ScannedActorsKeepNames(objs: seq<Actor>, collides: nat -> bool, st: Store)
    ensures |ScannedActors(objs, collides, st)| == |objs|
    ensures forall j :: 0 <= j < |objs| ==> ScannedActors(objs, collides, st)[j].name == objs[j].name
  {
  }

  /** On a pipe hit the player, found by name before the scan, is still found
      after it, and stands at the origin, upright; its size is untouched. */
  lemma PipeHitRespawnsPlayer(objs: seq<Actor>, collides: nat -> bool, st: Store)
    requires Outcome(objs, collides, st) == Pipe
    ensures FindObject(objs, PLAYER).Some?
    ensures var p := FindObject(objs, PLAYER).value;
      && FindObject(ScannedActors(objs, collides, st), PLAYER) == Some(p)
      && ScannedActors(objs, collides, st)[p] == objs[p].(position := Origin, rotation := Origin)
  {
    var hidden := CoinsCollected(objs, collides, IsSafe(st));
    FindObjectNamesOnly(objs, hidden, PLAYER);
    var p := FindObject(objs, PLAYER).value;
    assert !IsCoin(objs[p]) by { PlayerName(); }
    assert hidden[p] == objs[p];
    FindObjectNamesOnly(hidden, RespawnPlayer(hidden), PLAYER);
  }

  /** Falling and scrolling keep the player where it was found; of the two,
      only the fall moves it. */
  lemma PlayerMovesAlone(objs: seq<Actor>, st: Store, p: nat)
    requires FindObject(objs, PLAYER) == Some(p)
    ensures var m := PipesScrolled(PlayerTicked(objs, st), st.pause);
      && FindObject(m, PLAYER) == Some(p)
      && m[p] == if Paused(st.pause) then objs[p] else PlayerStep(objs[p], st.safeTimer.GetOr(0))
  {
    if !Paused(st.pause) {
      var t := objs[p := PlayerStep(objs[p], st.safeTimer.GetOr(0))];
      assert t == PlayerTicked(objs, st);
      FindObjectNamesOnly(objs, t, PLAYER);
      var m := PipesScrolled(t, st.pause);
      assert forall j :: 0 <= j < |t| ==> m[j] == PipeStep(t[j]);
      forall j | 0 <= j < |t|
        ensures m[j].name == t[j].name
      {
        ScrollMovesOnlyPipesAndCoins(t[j]);
      }
      FindObjectNamesOnly(t, m, PLAYER);
      PlayerName();
      ScrollMovesOnlyPipesAndCoins(t[p]);
    }
  }

  /** The scan keeps the player where it was found, and either leaves it
      alone or respawns it. */
  lemma ScanKeepsPlayer(objs: seq<Actor>, collides: nat -> bool, st: Store, p: nat)
    requires FindObject(objs, PLAYER) == Some(p)
    ensures var r := ScannedActors(objs, collides, st);
      && FindObject(r, PLAYER) == Some(p)
      && (r[p] == objs[p] || r[p] == objs[p].(position := Origin, rotation := Origin))
  {
    if Outcome(objs, collides, st) == Pipe {
      PipeHitRespawnsPlayer(objs, collides, st);
    } else if ScanRuns(objs, st) {
      var hidden := CoinsCollected(objs, collides, IsSafe(st));
      FindObjectNamesOnly(objs, hidden, PLAYER);
      assert !IsCoin(objs[p]) by { PlayerName(); }
      assert hidden[p] == objs[p];
    }
  }

  // ---------------------------------------------------------------------------
  // Lemmas: the bookkeeping

  /** A pipe hit that leaves lives above zero costs one life and nothing else:
      the score stays, the player is invulnerable for 120 ticks, "hit" plays,
      and the try-again banner timer is untouched. */
  lemma NonFatalHit(st: Store)
    requires st.lives.Some? && st.lives.value - 1 > 0
    ensures var e := Resolve(st, Pipe);
      && e.store.lives == Some(st.lives.value - 1)
      && e.store.score == st.score && e.store.highscore == st.highscore
      && e.store.safeTimer == Replace(st.safeTimer, ARM_TICKS)
      && e.store.tryAgainTimer == st.tryAgainTimer && e.store.wellDoneTimer == st.wellDoneTimer
      && e.store.pause == st.pause
      && e.cue == Some("hit") && e.saved == None
  {
  }

  /** A pipe hit that takes the last life is game over: lives back to 3, score
      to 0, the try-again banner armed, "game-over" plays; SAFE_TIMER is
      untouched. A missing LIVES key counts as no lives left. */
  lemma FatalHit(st: Store)
    requires LivesLeft(st.lives) <= 0
    ensures var e := Resolve(st, Pipe);
      && e.store.lives == Replace(st.lives, 3)
      && e.store.score == Replace(st.score, 0) && e.store.highscore == st.highscore
      && e.store.tryAgainTimer == Replace(st.tryAgainTimer, ARM_TICKS)
      && e.store.safeTimer == st.safeTimer && e.store.wellDoneTimer == st.wellDoneTimer
      && e.store.pause == st.pause
      && e.cue == Some("game-over") && e.saved == None
  {
  }

  /** A coin scores one point. The high score is raised, and exactly that new
      value is saved, if and only if the new score beats it. Every tenth point
      plays "collect-ten" and arms the well-done banner; any other plays "collect". */
  lemma CoinScored(st: Store)
    ensures var e := Resolve(st, Coin); var s := ScoreAfterCoin(st.score);
      && e.store.score == Replace(st.score, s)
      && (e.saved.Some? <==> st.highscore.Some? && s > st.highscore.value)
      && (e.saved.Some? ==> e.saved.value == s && e.store.highscore == Some(s))
      && (e.saved.None? ==> e.store.highscore == st.highscore)
      && (e.cue == Some("collect-ten") <==> s > 0 && s % 10 == 0)
      && (e.cue == Some("collect") <==> !(s > 0 && s % 10 == 0))
      && e.store.wellDoneTimer == (if s > 0 && s % 10 == 0 then Replace(st.wellDoneTimer, ARM_TICKS) else st.wellDoneTimer)
      && e.store.lives == st.lives && e.store.safeTimer == st.safeTimer
      && e.store.tryAgainTimer == st.tryAgainTimer && e.store.pause == st.pause
  {
  }
}
