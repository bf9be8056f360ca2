/** The world-loading progress bar of js/loading-screen.js: a target
    percentage set by the generator, a displayed percentage that an interval
    timer eases towards it, and a status line. One firing of the interval is
    one `Tick`; whether the page's elements exist is a parameter. */
module LoadingScreen {
  import opened JsMath

  /** `currentProgress`, `targetProgress`, the status text and whether the
      interval timer is set. */
  datatype Bar = Bar(current: real, target: real, status: string, running: bool)

  /** Both percentages are in [0, 100]. */
  predicate InRange(b: Bar)
  {
    0.0 <= b.current <= 100.0 && 0.0 <= b.target <= 100.0
  }

  /** `updateProgress`: clamp the percentage into [0, 100] as the new
      target, replace the status only by a non-empty text, and (re)start the
      animation. Nothing happens when the bar's elements are missing. */
  function UpdateProgress(b: Bar, present: bool, percentage: real, text: string): (b': Bar)
    ensures !present ==> b' == b
    ensures present ==> 0.0 <= b'.target <= 100.0 && b'.running && b'.current == b.current
    ensures present && 0.0 <= percentage <= 100.0 ==> b'.target == percentage
    ensures present && percentage < 0.0 ==> b'.target == 0.0
    ensures present && percentage > 100.0 ==> b'.target == 100.0
    ensures b'.status == (if present && text != "" then text else b.status)
  {
    if !present then b
    else Bar(b.current, Clamp(0.0, 100.0, percentage), if text != "" then text else b.status, true)
  }

  /** One firing of the interval: with the elements gone the timer clears
      itself; otherwise the bar snaps to the target once within 0.1 of it
      and stops, or else moves a tenth of the way and stops if that brought
      it within 0.1. */
  function Tick(b: Bar, present: bool): Bar
  {
    if !b.running then b
    else if !present then b.(running := false)
    else
      var diff := b.target - b.current;
      if Abs(diff) < 0.1 then b.(current := b.target, running := false)
      else
        var c := b.current + diff * 0.1;
        b.(current := c, running := !(Abs(c - b.target) < 0.1))
  }

  /** The percentage shown: `Math.round(currentProgress)`. */
  function Shown(b: Bar): (n: int)
    requires InRange(b)
    ensures 0 <= n <= 100
    ensures b.current - 0.5 < n as real <= b.current + 0.5
  {
    Round(b.current)
  }

  const InitialStatus := "Initializing world generation..."

  /** `showLoadingScreen`: both percentages back to 0 and the bar started
      from there with the initial status. Nothing happens when the screen
      element is missing. */
  function Show(b: Bar, screen: bool, present: bool): (b': Bar)
    ensures !screen ==> b' == b
    ensures screen ==> b'.current == 0.0 && b'.target == 0.0
    ensures screen && present ==> b'.status == InitialStatus && b'.running
    ensures screen && !present ==> b'.status == b.status && b'.running == b.running
  {
    if !screen then b
    else UpdateProgress(b.(current := 0.0, target := 0.0), present, 0.0, InitialStatus)
  }

  /** `hideLoadingScreen`: the animation stops; the reset to 0 comes later
      from a timeout (`ResetAfterHide`). */
  function Hide(b: Bar, screen: bool): (b': Bar)
    ensures screen ==> b' == b.(running := false)
    ensures !screen ==> b' == b
  {
    if screen then b.(running := false) else b
  }

  /** The timeout `hideLoadingScreen` schedules. */
  function ResetAfterHide(b: Bar): (b': Bar)
    ensures b'.current == 0.0 && b'.target == 0.0
    ensures b'.status == b.status && b'.running == b.running
  {
    b.(current := 0.0, target := 0.0)
  }

  /** The animation never overshoots: the new percentage lies between the
      old one and the target, the target stays, and the distance to the
      target at least shrinks by a tenth (or to 0). When the bar stops with
      its elements present it is within 0.1 of the target. */
  lemma TickApproaches(b: Bar, present: bool)
    ensures var b' := Tick(b, present);
      && b'.target == b.target && b'.status == b.status
      && (b.current <= b.target ==> b.current <= b'.current <= b.target)
      && (b.target <= b.current ==> b.target <= b'.current <= b.current)
      && Abs(b.target - b'.current) <= Abs(b.target - b.current)
      && (b.running && present ==> Abs(b.target - b'.current) <= 0.9 * Abs(b.target - b.current))
      && (b.running && present && !b'.running ==> Abs(b.target - b'.current) < 0.1)
  {
    if b.running && present {
      var diff := b.target - b.current;
      if Abs(diff) >= 0.1 {
        var c := b.current + diff * 0.1;
        assert b.target - c == 0.9 * diff;
        if diff >= 0.0 {
          assert b.current <= c <= b.target;
        } else {
          assert b.target <= c <= b.current;
        }
      }
    }
  }

  /** Updates and ticks keep both percentages in [0, 100], so the shown
      percentage is always 0..100. */
  lemma StaysInRange(b: Bar, present: bool, percentage: real, text: string)
    requires InRange(b)
    ensures InRange(UpdateProgress(b, present, percentage, text))
    ensures InRange(Tick(b, present))
    ensures InRange(Show(b, true, present))
    ensures InRange(ResetAfterHide(b))
  {
    TickApproaches(b, present);
  }

  /** n firings of the interval. */
  function Run(b: Bar, present: bool, n: nat): Bar
    decreases n
  {
    if n == 0 then b else Run(Tick(b, present), present, n - 1)
  }

  /** A stopped bar stays as it is. */
  lemma {:induction false} StoppedStays(b: Bar, present: bool, n: nat)
    requires !b.running
    ensures Run(b, present, n) == b
    decreases n
  {
    if n > 0 {
      StoppedStays(b, present, n - 1);
    }
  }

  /** The animation ends: within 100 times the distance to the target, plus
      one, firings the timer has cleared itself. */
  lemma {:induction false} AnimationStops(b: Bar, present: bool, n: nat)
    requires n as real >= 100.0 * Abs(b.target - b.current) + 1.0
    ensures !Run(b, present, n).running
    decreases n
  {
    var b' := Tick(b, present);
    if !b'.running {
      StoppedStays(b', present, n - 1);
    } else {
      TickApproaches(b, present);
      var d, d' := Abs(b.target - b.current), Abs(b.target - b'.current);
      assert d >= 0.1;
      assert d' <= d - 0.01;
      AnimationStops(b', present, n - 1);
    }
  }
}
