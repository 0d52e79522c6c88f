/** The countdown timers and the show/don't-show decisions of the overlay:
    which banner pops up, whether the pause label is drawn, how many hearts. */
module GameUi {
  import opened Wrappers
  import opened AppStateModel

  // ---------------------------------------------------------------------------
  // update_ui_timers

  /** One countdown step: a present timer above zero loses one; an absent or
      non-positive timer is left as it is. */
  function TickTimer(t: Option<int>): Option<int> {
    match t
    case Some(v) => if v > 0 then Some(v - 1) else t
    case None => None
  }

  /** The scalars after `update_ui_timers`. */
  function TimersTicked(st: Store): Store {
    if Paused(st.pause) then st
    else st.(wellDoneTimer := TickTimer(st.wellDoneTimer),
             tryAgainTimer := TickTimer(st.tryAgainTimer),
             safeTimer := TickTimer(st.safeTimer))
  }

  method UpdateUiTimers(app: AppState)
    modifies app`wellDoneTimer, app`tryAgainTimer, app`safeTimer
    ensures app.Scalars() == TimersTicked(old(app.Scalars()))
  {
    match app.pause {
      case Some(p) => if p { return; }
      case None =>
    }
    if app.wellDoneTimer.Some? {
      if app.wellDoneTimer.value > 0 {
        app.wellDoneTimer := Some(app.wellDoneTimer.value - 1);
      }
    }
    if app.tryAgainTimer.Some? {
      if app.tryAgainTimer.value > 0 {
        app.tryAgainTimer := Some(app.tryAgainTimer.value - 1);
      }
    }
    if app.safeTimer.Some? {
      if app.safeTimer.value > 0 {
        app.safeTimer := Some(app.safeTimer.value - 1);
      }
    }
  }

  /** The timer after n unpaused ticks. */
  function TickTimerTimes(t: Option<int>, n: nat): Option<int>
    decreases n
  {
    if n == 0 then t else TickTimerTimes(TickTimer(t), n - 1)
  }

  /** A timer is never driven below zero, never appears or disappears, and a
      positive one loses exactly one per tick. */
  lemma TickTimerBounds(t: Option<int>)
    ensures TickTimer(t).Some? <==> t.Some?
    ensures t.Some? && t.value > 0 ==> TickTimer(t).value == t.value - 1
    ensures t.Some? && t.value <= 0 ==> TickTimer(t) == t
    ensures t.Some? && t.value >= 0 ==> TickTimer(t).value >= 0
  {
  }

  /** A paused tick leaves every timer as it is. */
  lemma PausedTimersFrozen(st: Store)
    requires Paused(st.pause)
    ensures TimersTicked(st) == st
  {
  }

  /** The three timers are independent: changing one of them (or removing it)
      changes nothing in what the other two become, and only timers change. */
  lemma TimersIndependent(st: Store, t: Option<int>)
    ensures TimersTicked(st.(safeTimer := t)).wellDoneTimer == TimersTicked(st).wellDoneTimer
    ensures TimersTicked(st.(safeTimer := t)).tryAgainTimer == TimersTicked(st).tryAgainTimer
    ensures TimersTicked(st.(wellDoneTimer := t)).safeTimer == TimersTicked(st).safeTimer
    ensures TimersTicked(st.(wellDoneTimer := t)).tryAgainTimer == TimersTicked(st).tryAgainTimer
    ensures TimersTicked(st.(tryAgainTimer := t)).safeTimer == TimersTicked(st).safeTimer
    ensures TimersTicked(st.(tryAgainTimer := t)).wellDoneTimer == TimersTicked(st).wellDoneTimer
    ensures var r := TimersTicked(st);
      r.score == st.score && r.highscore == st.highscore && r.lives == st.lives && r.pause == st.pause
  {
  }

  /** After n unpaused ticks a non-negative timer v reads max(v - n, 0). */
  lemma {:induction false} Countdown(v: int, n: nat)
    requires v >= 0
    ensures TickTimerTimes(Some(v), n) == Some(if n <= v then v - n else 0)
    decreases n
  {
    if n > 0 {
      Countdown(if v > 0 then v - 1 else 0, n - 1);
    }
  }

  /** A timer armed to 120 is still running after fewer than 120 unpaused
      ticks, reaches 0 at exactly the 120th, and then stays at 0. */
  lemma ArmedTimerExpires(n: nat)
    ensures n < 120 ==> TickTimerTimes(Some(120), n) == Some(120 - n) && 120 - n > 0
    ensures n >= 120 ==> TickTimerTimes(Some(120), n) == Some(0)
  {
    Countdown(120, n);
  }

  // ---------------------------------------------------------------------------
  // The decisions of ui_popups, ui_pause and ui_header

  datatype Banner = WellDoneBanner | TryAgainBanner | NoBanner

  /** Which banner `ui_popups` draws; absent values read as 0. "Well Done!"
      needs a running well-done timer and a positive score; otherwise
      "Try Again" needs a running try-again timer and a score of 0. */
  function PopupShown(st: Store): (b: Banner)
    ensures b == WellDoneBanner <==> st.wellDoneTimer.GetOr(0) > 0 && st.score.GetOr(0) > 0
    ensures b == TryAgainBanner <==> st.tryAgainTimer.GetOr(0) > 0 && st.score.GetOr(0) == 0
  {
    var score := st.score.GetOr(0);
    var wellDone := st.wellDoneTimer.GetOr(0);
    var tryAgain := st.tryAgainTimer.GetOr(0);
    if wellDone > 0 && score > 0 then WellDoneBanner
    else if tryAgain > 0 && score == 0 then TryAgainBanner
    else NoBanner
  }

  /** Whether `ui_pause` draws the "Pause" label. */
  function PauseLabelShown(pause: Option<bool>): (shown: bool)
    ensures shown <==> pause == Some(true)
  {
    pause.GetOr(false)
  }

  /** The hearts `ui_header` draws, one per pass of its `for _ in 0..lives` loop. */
  method HeartsDrawn(lives: Option<int>) returns (hearts: nat)
    ensures hearts == if lives.GetOr(0) > 0 then lives.GetOr(0) else 0
  {
    var n := lives.GetOr(0);
    hearts := 0;
    var i := 0;
    while i < n
      invariant hearts == i
      invariant n > 0 ==> i <= n
      invariant n <= 0 ==> i == 0
    {
      hearts := hearts + 1;
      i := i + 1;
    }
  }
}
