/** Shared game definitions: the collision outcome, the roles that actor names
    give, the layout of the scene as it is spawned, and the high-score file. */
module GameUtils {
  import opened Wrappers
  import opened AppStateModel

  /** The outcome of one collision scan. Only equality is ever asked of it.
      The source's third value is `None`; it is `NoCollision` here so that it
      does not clash with `Option.None`. */
  datatype CollisionState = Coin | Pipe | NoCollision

  // ---------------------------------------------------------------------------
  // Roles by name

  const PLAYER: string := "PLAYER"

  /** Substring test, as Rust's `str::contains`. */
  predicate Contains(s: string, part: string)
    decreases |s|
  {
    part <= s || (|s| > 0 && Contains(s[1..], part))
  }

  predicate IsCoin(a: Actor) {
    Contains(a.name, "COIN")
  }

  predicate IsPipe(a: Actor) {
    Contains(a.name, "PIPE")
  }

  // ---------------------------------------------------------------------------
  // Scene layout

  /** Number of gates spawned, one every 5.0 units. */
  const GROUPS: nat := 8
  const GROUP_SPACING: int := 500
  /** Vertical distance of each pipe half from the gate's centre. */
  const PIPE_SPACING: int := 700
  const PLAYER_SIZE: int := 200
  const COIN_SIZE: int := 50

  const Background: Actor := Actor("BACKGROUND", Vec3(0, 0, -800), Origin, Uniform(100))
  const SpawnedPlayer: Actor := Actor(PLAYER, Origin, Origin, Uniform(PLAYER_SIZE))

  /** One gate centred at (x, y): a coin in the gap, then the upper and the lower pipe. */
  function Group(x: int, y: int): seq<Actor> {
    [ Actor("COIN", Vec3(x, y, 0), Origin, Uniform(COIN_SIZE)),
      Actor("PIPE1", Vec3(x, PIPE_SPACING + y, 0), Origin, Vec3(100, 100, 50)),
      Actor("PIPE2", Vec3(x, -PIPE_SPACING + y, 0), Origin, Vec3(100, 100, 50)) ]
  }

  /** One `spawn_pipes` call: appends a gate at 5.0 + xOffset with the drawn
      vertical offset `yOffset` (a random value in [-2.0, 2.0) in the game). */
  function SpawnPipes(objs: seq<Actor>, xOffset: int, yOffset: int): seq<Actor>
  {
    objs + Group(500 + xOffset, yOffset)
  }

  /** The registry position of actor j (0 coin, 1 upper pipe, 2 lower pipe)
      of gate k, after the background and the player. */
  function Slot(k: int, j: int): int {
    2 + 3 * k + j
  }

  /** Registry positions 2, 5, 8, ... hold one gate each, 5.0 units apart. */
  predicate GroupedLayout(r: seq<Actor>, ys: seq<int>)
    requires |ys| == GROUPS
  {
    |r| == Slot(GROUPS, 0) &&
    forall k, j :: 0 <= k < GROUPS && 0 <= j < 3 ==>
      r[Slot(k, j)] == Group(500 + GROUP_SPACING * k, ys[k])[j]
  }

  /** The background, the player, then the first n `spawn_pipes` calls of
      `setup_scene`, at x offsets 0, 5.0, 10.0, ... with the drawn offsets ys. */
  function SpawnedGates(ys: seq<int>, n: nat): (r: seq<Actor>)
    requires n <= |ys|
    ensures |r| == Slot(n, 0)
    ensures r[0] == Background && r[1] == SpawnedPlayer
    ensures forall k, j :: 0 <= k < n && 0 <= j < 3 ==>
      r[Slot(k, j)] == Group(500 + GROUP_SPACING * k, ys[k])[j]
    decreases n
  {
    if n == 0 then [Background, SpawnedPlayer]
    else SpawnPipes(SpawnedGates(ys, n - 1), GROUP_SPACING * (n - 1), ys[n - 1])
  }

  /** The actors `setup_scene` adds, in registry order, given the eight random
      vertical offsets: the background, the player, then eight gates 5.0 apart. */
  function SceneActors(ys: seq<int>): (r: seq<Actor>)
    requires |ys| == GROUPS
    ensures |r| == 2 + 3 * GROUPS
    ensures r[0] == Background && r[1] == SpawnedPlayer
    ensures GroupedLayout(r, ys)
  {
    SpawnedGates(ys, |ys|)
  }

  /** The scene part of `setup_scene`: the spawned actors are appended to the
      registry, after whatever it already held. */
  method SetupScene(app: AppState, ys: seq<int>)
    requires |ys| == GROUPS
    modifies app`objects
    ensures fresh(app.objects)
    ensures app.objects[..] == old(app.objects[..]) + SceneActors(ys)
  {
    var actors := app.objects[..] + SceneActors(ys);
    app.objects := new Actor[|actors|](i requires 0 <= i < |actors| => actors[i]);
  }

  // ---------------------------------------------------------------------------
  // High-score file

  const I32_MIN: int := -0x8000_0000
  const I32_MAX: int := 0x7FFF_FFFF

  predicate IsI32(n: int) {
    I32_MIN <= n <= I32_MAX
  }

  predicate IsDigit(c: char) {
    '0' <= c <= '9'
  }

  function DigitChar(d: int): char
    requires 0 <= d < 10
  {
    (('0' as int) + d) as char
  }

  /** Decimal digits of n without leading zeros ("0" for zero). */
  function NatToDecimal(n: nat): (r: string)
    ensures |r| > 0 && AllDigits(r)
    decreases n
  {
    if n < 10 then [DigitChar(n)] else NatToDecimal(n / 10) + [DigitChar(n % 10)]
  }

  /** Rust's `i32::to_string`: an optional '-' followed by the decimal digits. */
  function IntToDecimal(n: int): (r: string)
    ensures |r| > 0
    ensures n < 0 <==> r[0] == '-'
    ensures AllDigits(if n < 0 then r[1..] else r)
  {
    if n < 0 then "-" + NatToDecimal(-n) else NatToDecimal(n)
  }

  /** The characters with Unicode's White_Space property, which `str::trim` removes. */
  predicate IsWhitespace(c: char) {
    c == ' ' || ('\t' <= c <= '\r') || c == '\U{85}' || c == '\U{A0}' || c == '\U{1680}'
    || ('\U{2000}' <= c <= '\U{200A}') || c == '\U{2028}' || c == '\U{2029}' || c == '\U{202F}'
    || c == '\U{205F}' || c == '\U{3000}'
  }

  function TrimStart(s: string): (r: string)
    ensures |r| <= |s|
    ensures |r| > 0 ==> !IsWhitespace(r[0])
    decreases |s|
  {
    if |s| > 0 && IsWhitespace(s[0]) then TrimStart(s[1..]) else s
  }

  function TrimEnd(s: string): (r: string)
    ensures |r| <= |s| && r == s[..|r|]
    ensures |r| > 0 ==> !IsWhitespace(r[|r| - 1])
    decreases |s|
  {
    if |s| > 0 && IsWhitespace(s[|s| - 1]) then TrimEnd(s[..|s| - 1]) else s
  }

  function Trim(s: string): (r: string)
    ensures |r| <= |s|
    ensures |r| > 0 ==> !IsWhitespace(r[0]) && !IsWhitespace(r[|r| - 1])
  {
    TrimEnd(TrimStart(s))
  }

  predicate AllDigits(s: string) {
    forall i :: 0 <= i < |s| ==> IsDigit(s[i])
  }

  function DigitsValue(s: string): nat
    requires AllDigits(s)
    decreases |s|
  {
    if s == [] then 0
    else DigitsValue(s[..|s| - 1]) * 10 + (s[|s| - 1] as int - '0' as int)
  }

  /** Rust's `str::parse::<i32>`: an optional sign that must be followed by at
      least one digit, then ASCII digits only, and the value must fit in an i32. */
  function ParseI32(s: string): (r: Option<int>)
    ensures r.Some? ==> IsI32(r.value) && |s| > 0
    ensures r.Some? && r.value < 0 ==> s[0] == '-'
    ensures r.Some? && s[0] != '+' && s[0] != '-' ==> AllDigits(s)
    ensures s == "" || s == "+" || s == "-" ==> r.None?
  {
    if |s| == 0 then None
    else if (s[0] == '+' || s[0] == '-') && |s| == 1 then None
    else
      var digits := if s[0] == '+' || s[0] == '-' then s[1..] else s;
      if !AllDigits(digits) then None
      else
        var v: int := if s[0] == '-' then 0 - DigitsValue(digits) else DigitsValue(digits);
        if IsI32(v) then Some(v) else None
  }

  /** `load_highscore` on the file's text: `None` stands for a file that is
      missing, cannot be opened or is not valid UTF-8; each of these, and text
      that does not parse once trimmed, gives 0. */
  function LoadHighscore(file: Option<string>): (r: int)
    ensures IsI32(r)
    ensures file.None? ==> r == 0
  {
    match file
    case None => 0
    case Some(text) => ParseI32(Trim(text)).GetOr(0)
  }

  /** The high-score file on disk, with the log of every `save_highscore` call. */
  class HighscoreFile {
    var contents: Option<string>
    var saves: seq<int>

    constructor (contents: Option<string>)
      ensures this.contents == contents && saves == []
    {
      this.contents := contents;
      saves := [];
    }
  }

  /** `save_highscore`: truncates the file and writes the decimal text of `score`. */
  method SaveHighscore(disk: HighscoreFile, score: int)
    modifies disk
    ensures disk.contents == Some(IntToDecimal(score))
    ensures disk.saves == old(disk.saves) + [score]
  {
    disk.contents := Some(IntToDecimal(score));
    disk.saves := disk.saves + [score];
  }

  // ---------------------------------------------------------------------------
  // Lemmas: roles of the spawned names

  /** `part` occurs in `s` starting at index i. */
  predicate OccursAt(s: string, part: string, i: nat) {
    i + |part| <= |s| && s[i..i + |part|] == part
  }

  /** An occurrence of `part` at index i makes `Contains` true. */
  lemma {:induction false} OccurrenceContained(s: string, part: string, i: nat)
    requires OccursAt(s, part, i)
    ensures Contains(s, part)
    decreases i
  {
    if i == 0 {
      assert part <= s;
    } else {
      assert s[1..][i - 1..i - 1 + |part|] == s[i..i + |part|];
      OccurrenceContained(s[1..], part, i - 1);
    }
  }

  /** `Contains` is true only where `part` occurs at some index. */
  lemma {:induction false} ContainedOccurs(s: string, part: string) returns (i: nat)
    requires Contains(s, part)
    ensures OccursAt(s, part, i)
    decreases |s|
  {
    if part <= s {
      i := 0;
    } else {
      var k := ContainedOccurs(s[1..], part);
      assert s[1..][k..k + |part|] == s[k + 1..k + 1 + |part|];
      i := k + 1;
    }
  }

  /** `Contains` is the substring test: `part` occurs in `s` at some index. */
  lemma {:induction false} ContainsOccurs(s: string, part: string)
    ensures Contains(s, part) <==> exists i: nat :: OccursAt(s, part, i)
  {
    if Contains(s, part) {
      var i := ContainedOccurs(s, part);
    }
    forall i: nat | OccursAt(s, part, i)
      ensures Contains(s, part)
    {
      OccurrenceContained(s, part, i);
    }
  }

  lemma {:induction false} MissingCharNotContained(s: string, part: string, k: nat)
    requires k < |part|
    requires forall i :: 0 <= i < |s| ==> s[i] != part[k]
    ensures !Contains(s, part)
    decreases |s|
  {
    if |s| > 0 {
      MissingCharNotContained(s[1..], part, k);
    }
    if k < |s| {
      assert s[k] != part[k];
    }
  }

  // The names the scene uses have the roles their spelling suggests, and no
  // name has two roles.

  /** Neither the background nor the player is scrolled or collected. */
  lemma BackgroundNotCoin()
    ensures !IsCoin(Background)
  {
    MissingCharNotContained("BACKGROUND", "COIN", 2);
  }

  lemma BackgroundNotPipe()
    ensures !IsPipe(Background)
  {
    MissingCharNotContained("BACKGROUND", "PIPE", 0);
  }

  lemma PlayerName()
    ensures !Contains(PLAYER, "COIN") && !Contains(PLAYER, "PIPE")
  {
    MissingCharNotContained(PLAYER, "COIN", 0);
    MissingCharNotContained(PLAYER, "PIPE", 1);
  }

  lemma CoinName()
    ensures Contains("COIN", "COIN") && !Contains("COIN", "PIPE")
  {
    MissingCharNotContained("COIN", "PIPE", 0);
    assert "COIN" <= "COIN";
  }

  lemma PipeNames()
    ensures Contains("PIPE1", "PIPE") && !Contains("PIPE1", "COIN")
    ensures Contains("PIPE2", "PIPE") && !Contains("PIPE2", "COIN")
  {
    MissingCharNotContained("PIPE1", "COIN", 0);
    MissingCharNotContained("PIPE2", "COIN", 0);
    assert "PIPE" <= "PIPE1" && "PIPE" <= "PIPE2";
  }

  lemma GroupedLayoutBands(r: seq<Actor>, ys: seq<int>, k: int, j: int)
    requires |ys| == GROUPS && GroupedLayout(r, ys)
    requires 0 <= k < GROUPS && 0 <= j < 3
    ensures 500 <= r[Slot(k, j)].position.x <= 4000
    ensures j == 0 ==> IsCoin(r[Slot(k, j)])
    ensures j != 0 ==> IsPipe(r[Slot(k, j)])
  {
    var g := Group(500 + GROUP_SPACING * k, ys[k]);
    assert r[Slot(k, j)] == g[j];
    if j == 0 {
      CoinName();
    } else {
      PipeNames();
    }
  }

  /** In a registry laid out gate by gate, every pipe and coin has x in
      [5.0, 40.0], and each gate's coin comes before its two pipes. */
  lemma GroupedLayoutRoles(r: seq<Actor>, ys: seq<int>)
    requires |ys| == GROUPS && GroupedLayout(r, ys)
    ensures forall i :: 2 <= i < |r| ==> 500 <= r[i].position.x <= 4000
    ensures forall k :: 0 <= k < GROUPS ==>
      IsCoin(r[2 + 3 * k]) && IsPipe(r[3 + 3 * k]) && IsPipe(r[4 + 3 * k])
  {
    forall i | 2 <= i < |r| ensures 500 <= r[i].position.x <= 4000 {
      var k, j := (i - 2) / 3, (i - 2) % 3;
      assert i == Slot(k, j);
      GroupedLayoutBands(r, ys, k, j);
    }
    forall k | 0 <= k < GROUPS
      ensures IsCoin(r[2 + 3 * k]) && IsPipe(r[3 + 3 * k]) && IsPipe(r[4 + 3 * k])
    {
      GroupedLayoutBands(r, ys, k, 0);
      GroupedLayoutBands(r, ys, k, 1);
      GroupedLayoutBands(r, ys, k, 2);
    }
  }

  /** `spawn_pipes` only appends: the registry keeps its actors and gains a
      coin, then the upper and the lower pipe, all at 5.0 + xOffset, the coin
      at the drawn height and the pipes 7.0 above and below it. */
  lemma SpawnPipesAppendsGate(objs: seq<Actor>, xOffset: int, yOffset: int)
    ensures var r := SpawnPipes(objs, xOffset, yOffset);
      && |r| == |objs| + 3 && r[..|objs|] == objs
      && r[|objs|].name == "COIN" && r[|objs| + 1].name == "PIPE1" && r[|objs| + 2].name == "PIPE2"
      && r[|objs|].position.y == yOffset
      && r[|objs| + 1].position.y == yOffset + PIPE_SPACING && r[|objs| + 2].position.y == yOffset - PIPE_SPACING
      && (forall j :: |objs| <= j < |r| ==> r[j].position.x == 500 + xOffset && r[j].rotation == Origin)
  {
  }

  /** The spawned scene: every pipe and coin starts with x in [5.0, 40.0],
      inside the band [-20.0, 40.0] that scrolling keeps them in, and each
      gate's coin comes before its two pipes in scan order. */
  lemma SceneLayout(ys: seq<int>)
    requires |ys| == GROUPS
    ensures var r := SceneActors(ys);
      forall i :: 2 <= i < |r| ==> 500 <= r[i].position.x <= 4000
    ensures var r := SceneActors(ys);
      forall k :: 0 <= k < GROUPS ==>
        IsCoin(r[2 + 3 * k]) && IsPipe(r[3 + 3 * k]) && IsPipe(r[4 + 3 * k])
  {
    GroupedLayoutRoles(SceneActors(ys), ys);
  }

  // ---------------------------------------------------------------------------
  // Lemmas: the high-score text format

  lemma {:induction false} NatToDecimalDigits(n: nat)
    ensures |NatToDecimal(n)| > 0 && AllDigits(NatToDecimal(n))
    ensures DigitsValue(NatToDecimal(n)) == n
    decreases n
  {
    if n >= 10 {
      NatToDecimalDigits(n / 10);
      var s := NatToDecimal(n);
      assert s[..|s| - 1] == NatToDecimal(n / 10);
    }
  }

  lemma TrimStartNoop(s: string)
    requires |s| > 0 && !IsWhitespace(s[0])
    ensures TrimStart(s) == s
  {
  }

  lemma TrimEndNoop(s: string)
    requires |s| > 0 && !IsWhitespace(s[|s| - 1])
    ensures TrimEnd(s) == s
  {
  }

  /** The decimal text of every i32 is left alone by trimming and parses back to it. */
  lemma ParseIntToDecimal(n: int)
    requires IsI32(n)
    ensures Trim(IntToDecimal(n)) == IntToDecimal(n)
    ensures ParseI32(IntToDecimal(n)) == Some(n)
  {
    var s := IntToDecimal(n);
    var m: nat := if n < 0 then -n else n;
    NatToDecimalDigits(m);
    var d := NatToDecimal(m);
    assert IsDigit(d[0]) && IsDigit(d[|d| - 1]);
    if n < 0 {
      assert s[1..] == d;
    }
    TrimStartNoop(s);
    TrimEndNoop(s);
  }

  /** Save-then-load round trip: `load_highscore` reads back exactly the value the
      last `save_highscore` wrote, for every i32 including negative ones. */
  lemma SaveLoadRoundTrip(n: int)
    requires IsI32(n)
    ensures LoadHighscore(Some(IntToDecimal(n))) == n
  {
    ParseIntToDecimal(n);
  }

  lemma {:induction false} TrimStartPadding(pad: string, s: string)
    requires forall i :: 0 <= i < |pad| ==> IsWhitespace(pad[i])
    ensures TrimStart(pad + s) == TrimStart(s)
    decreases |pad|
  {
    if |pad| > 0 {
      assert (pad + s)[0] == pad[0];
      assert (pad + s)[1..] == pad[1..] + s;
      assert forall i :: 0 <= i < |pad[1..]| ==> IsWhitespace(pad[1..][i]) by {
        forall i | 0 <= i < |pad[1..]| ensures IsWhitespace(pad[1..][i]) {
          assert pad[1..][i] == pad[i + 1];
        }
      }
      TrimStartPadding(pad[1..], s);
    } else {
      assert pad + s == s;
    }
  }

  lemma {:induction false} TrimEndPadding(s: string, pad: string)
    requires forall i :: 0 <= i < |pad| ==> IsWhitespace(pad[i])
    ensures TrimEnd(s + pad) == TrimEnd(s)
    decreases |pad|
  {
    if |pad| > 0 {
      assert (s + pad)[..|s + pad| - 1] == s + pad[..|pad| - 1];
      TrimEndPadding(s, pad[..|pad| - 1]);
    } else {
      assert s + pad == s;
    }
  }

  /** Whitespace around the number (a trailing newline left by an editor, say)
      does not change what is loaded. */
  lemma LoadIgnoresSurroundingWhitespace(before: string, n: int, after: string)
    requires IsI32(n)
    requires forall i :: 0 <= i < |before| ==> IsWhitespace(before[i])
    requires forall i :: 0 <= i < |after| ==> IsWhitespace(after[i])
    ensures LoadHighscore(Some(before + IntToDecimal(n) + after)) == n
  {
    var s := IntToDecimal(n);
    ParseIntToDecimal(n);
    assert before + s + after == before + (s + after);
    TrimStartPadding(before, s + after);
    var d := NatToDecimal(if n < 0 then -n else n);
    NatToDecimalDigits(if n < 0 then -n else n);
    assert !IsWhitespace(s[0]) by {
      if n >= 0 { assert s[0] == d[0]; }
    }
    assert (s + after)[0] == s[0];
    TrimStartNoop(s + after);
    TrimEndPadding(s, after);
  }

  /** A missing or unreadable file, an empty file, text that is not a number
      and a lone sign all load as 0. */
  lemma LoadDefaults()
    ensures LoadHighscore(None) == 0
    ensures LoadHighscore(Some("")) == 0
    ensures LoadHighscore(Some("abc")) == 0
    ensures LoadHighscore(Some("-")) == 0
  {
    assert Trim("abc") == "abc";
    assert !AllDigits("abc") by { assert !IsDigit("abc"[0]); }
    assert Trim("-") == "-";
  }

  /** A file an editor saved with a leading space and a trailing newline still loads. */
  lemma LoadTrimsNewline()
    ensures LoadHighscore(Some(" 42\n")) == 42
  {
    assert TrimStart(" 42\n") == "42\n";
    assert TrimEnd("42\n") == "42";
    assert DigitsValue("42") == 42;
  }

  /** A number too large for an i32 loads as 0: the parse fails rather than wrapping. */
  lemma OutOfRangeLoadsZero(m: nat)
    requires m > I32_MAX
    ensures LoadHighscore(Some(NatToDecimal(m))) == 0
  {
    NatToDecimalDigits(m);
    var d := NatToDecimal(m);
    assert IsDigit(d[0]) && IsDigit(d[|d| - 1]);
    TrimStartNoop(d);
    TrimEndNoop(d);
  }
}
