/** The engine-side collaborator the gameplay code runs against: a registry of
    named actors with transforms, a store of named scalars (each of which may
    be absent) and an audio device that is only ever triggered by name.

    Lengths and angles are integers in hundredths of the engine's unit
    (0.05 is 5, 40.0 is 4000, 35 degrees is 3500), so every constant the game
    uses is exact. */
module AppStateModel {
  import opened Wrappers

  /** A position, rotation or scale triple, in hundredths. */
  datatype Vec3 = Vec3(x: int, y: int, z: int)

  const Origin: Vec3 := Vec3(0, 0, 0)

  function Uniform(v: int): Vec3 {
    Vec3(v, v, v)
  }

  /** One object of the scene: its name (which decides its role) and its transform. */
  datatype Actor = Actor(name: string, position: Vec3, rotation: Vec3, scale: Vec3)

  /** The calls the game makes on the audio device, in the order it makes them. */
  datatype AudioEvent =
    | PlayOnce(clip: string)
    | PlayLoop(clip: string)
    | TogglePauseAudio(clip: string)

  /** A snapshot of the seven named scalars of the state store: SCORE, HIGHSCORE,
      LIVES, PAUSE, WELL_DONE_TIMER, TRY_AGAIN_TIMER and SAFE_TIMER. */
  datatype Store = Store(
    score: Option<int>,
    highscore: Option<int>,
    lives: Option<int>,
    pause: Option<bool>,
    wellDoneTimer: Option<int>,
    tryAgainTimer: Option<int>,
    safeTimer: Option<int>)

  /** Every update function returns early when PAUSE is present and true;
      an absent PAUSE does not stop anything. */
  predicate Paused(pause: Option<bool>) {
    pause == Some(true)
  }

  /** The engine's application state: the scalar store as one field per key,
      the actor registry as an array updated in place, and the log of audio calls. */
  class AppState {
    var score: Option<int>
    var highscore: Option<int>
    var lives: Option<int>
    var pause: Option<bool>
    var wellDoneTimer: Option<int>
    var tryAgainTimer: Option<int>
    var safeTimer: Option<int>
    var objects: array<Actor>
    var audio: seq<AudioEvent>

    /** A fresh state: no scalars, no actors, no audio played. */
    constructor ()
      ensures Scalars() == Store(None, None, None, None, None, None, None)
      ensures objects.Length == 0 && fresh(objects)
      ensures audio == []
    {
      score, highscore, lives, pause := None, None, None, None;
      wellDoneTimer, tryAgainTimer, safeTimer := None, None, None;
      objects := new Actor[0];
      audio := [];
    }

    /** The seven scalars as one value; neither the registry nor the audio log is read. */
    function Scalars(): Store
      reads this`score, this`highscore, this`lives, this`pause
      reads this`wellDoneTimer, this`tryAgainTimer, this`safeTimer
    {
      Store(score, highscore, lives, pause, wellDoneTimer, tryAgainTimer, safeTimer)
    }
  }

  /** The registry's lookup by name: the first actor whose name is `name`, if any. */
  function FindObject(objs: seq<Actor>, name: string): (r: Option<nat>)
    ensures r.Some? ==> r.value < |objs| && objs[r.value].name == name
    ensures r.Some? ==> forall j :: 0 <= j < r.value ==> objs[j].name != name
    ensures r.None? ==> forall j :: 0 <= j < |objs| ==> objs[j].name != name
    decreases |objs|
  {
    if |objs| == 0 then None
    else if objs[0].name == name then Some(0)
    else match FindObject(objs[1..], name)
      case None => None
      case Some(k) => Some(k + 1)
  }

  /** A lookup by name gives the same answer on any registry with the same names
      in the same order: moving, rotating or scaling actors never changes who is found. */
  lemma FindObjectNamesOnly(objs: seq<Actor>, objs': seq<Actor>, name: string)
    requires |objs| == |objs'|
    requires forall j :: 0 <= j < |objs| ==> objs[j].name == objs'[j].name
    ensures FindObject(objs, name) == FindObject(objs', name)
  {
  }
}
