/** The two key reactions: the jump and the pause toggle. */
module GameEvents {
  import opened Wrappers
  import opened AppStateModel
  import opened GameUtils

  /** A jump starts only below 5.0, lifts the player by 1.0 and tilts it to 35 degrees. */
  const JUMP_CEILING: int := 500
  const JUMP_HEIGHT: int := 100
  const JUMP_TILT: int := 3500

  function JumpStep(a: Actor): Actor {
    if a.position.y < JUMP_CEILING then
      a.(position := a.position.(y := a.position.y + JUMP_HEIGHT), rotation := Vec3(0, 0, JUMP_TILT))
    else a
  }

  /** The registry after an unpaused jump. */
  function Jumped(objs: seq<Actor>): seq<Actor> {
    match FindObject(objs, PLAYER)
    case None => objs
    case Some(i) => objs[i := JumpStep(objs[i])]
  }

  /** `player_jump`: when not paused, "wush" plays whether or not the player
      exists or can jump, and then the player jumps. */
  method PlayerJump(app: AppState)
    modifies app`audio, app.objects
    ensures Paused(app.pause) ==> app.audio == old(app.audio) && app.objects[..] == old(app.objects[..])
    ensures !Paused(app.pause) ==>
      app.audio == old(app.audio) + [PlayOnce("wush")] && app.objects[..] == Jumped(old(app.objects[..]))
  {
    match app.pause {
      case Some(p) => if p { return; }
      case None =>
    }
    app.audio := app.audio + [PlayOnce("wush")];
    var playerOption := FindObject(app.objects[..], PLAYER);
    match playerOption {
      case Some(i) =>
        var player := app.objects[i];
        if player.position.y < JUMP_CEILING {
          player := player.(position := player.position.(y := player.position.y + JUMP_HEIGHT));
          player := player.(rotation := Vec3(0, 0, JUMP_TILT));
        }
        app.objects[i] := player;
      case None =>
    }
  }

  function Toggled(pause: Option<bool>): Option<bool> {
    match pause
    case Some(p) => Some(!p)
    case None => None
  }

  /** `toggle_pause`: never blocked by the flag it flips; a missing PAUSE key
      makes it do nothing, not even toggle the music. */
  method TogglePause(app: AppState)
    modifies app`pause, app`audio
    ensures app.pause == Toggled(old(app.pause))
    ensures app.audio == old(app.audio) + if old(app.pause).Some? then [TogglePauseAudio("music")] else []
  {
    match app.pause {
      case Some(p) =>
        app.pause := Some(!p);
        app.audio := app.audio + [TogglePauseAudio("music")];
      case None =>
    }
  }

  /** A jump from below 5.0 lifts the player by 1.0 and sets its rotation to
      (0, 0, 35); from 5.0 or above it leaves the player unchanged. x, z and
      the name never change. */
  lemma JumpEffect(a: Actor)
    ensures var r := JumpStep(a);
      && r.name == a.name && r.scale == a.scale
      && r.position.x == a.position.x && r.position.z == a.position.z
      && (a.position.y < JUMP_CEILING ==> r.position.y == a.position.y + JUMP_HEIGHT && r.rotation == Vec3(0, 0, JUMP_TILT))
      && (a.position.y >= JUMP_CEILING ==> r == a)
  {
  }

  /** Jumps start only below 5.0, so the player stays below 6.0; the lower half
      of the band (-5.05, 6.0) is untouched by a jump. */
  lemma JumpKeepsBand(a: Actor)
    requires -505 < a.position.y < JUMP_CEILING + JUMP_HEIGHT
    ensures -505 < JumpStep(a).position.y < JUMP_CEILING + JUMP_HEIGHT
  {
  }

  /** A Space press keeps the player in the vertical band (-5.05, 6.0): the
      actor found as the player is still the player after the jump, and is
      still inside the band. */
  lemma JumpKeepsPlayerInBand(objs: seq<Actor>, p: nat)
    requires FindObject(objs, PLAYER) == Some(p)
    requires -505 < objs[p].position.y < JUMP_CEILING + JUMP_HEIGHT
    ensures FindObject(Jumped(objs), PLAYER) == Some(p)
    ensures -505 < Jumped(objs)[p].position.y < JUMP_CEILING + JUMP_HEIGHT
  {
    JumpKeepsBand(objs[p]);
    FindObjectNamesOnly(objs, Jumped(objs), PLAYER);
  }

  /** Toggling twice restores PAUSE, and toggling a present flag always flips it. */
  lemma ToggleTwiceRestores(pause: Option<bool>)
    ensures Toggled(Toggled(pause)) == pause
    ensures pause.Some? ==> Toggled(pause) == Some(!pause.value)
    ensures Paused(pause) ==> !Paused(Toggled(pause))
  {
  }
}
