/** The launch countdown of the loading screen and the tab-visibility rule
  * of js/main.js. The countdown's module-level variables and the page
  * elements its interval callback writes are the fields of `LaunchScreen`;
  * one call of `Tick` is one run of that callback. */
module Launch {
  import opened Common
  import opened Scene
  import opened Ui

  /** What the countdown number element shows: the page's own markup, a
    * number, or "LIFTOFF!". */
  datatype Shown = Markup | Number(n: int) | LiftoffText

  /** What the status element shows: the page's own markup or a text. */
  datatype Status = StatusMarkup | Status(text: string)

  /** `missionStatuses[n]`. */
  function MissionStatus(n: int): string
  {
    match n
    case 9 => "SYSTEMS CHECK"
    case 8 => "FUEL PRESSURE NOMINAL"
    case 7 => "GUIDANCE ONLINE"
    case 6 => "ENGINES ARMED"
    case 5 => "FINAL COUNTDOWN"
    case 4 => "IGNITION SEQUENCE"
    case 3 => "MAIN ENGINES START"
    case 2 => "FULL THRUST"
    case 1 => "ALL SYSTEMS GO"
    case 0 => "LIFTOFF!"
    case _ => ""
  }

  /** What the loading screen shows: the number and status elements, the
    * progress width (`None` before the first tick), the `warning` and `go`
    * classes of the status, the exhaust flames and smoke trail, and the
    * launch classes of the number, the shuttle and the scene. */
  datatype Page = Page(
    shown: Shown, status: Status, width: Option<real>,
    warning: bool, go: bool, flames: bool, smoke: bool,
    liftoffClass: bool, shuttleLaunching: bool, launchStarted: bool)

  /** The countdown variables (the number, whether the launch began, whether
    * the interval still runs) and the page. */
  datatype Countdown = Countdown(number: int, launching: bool, running: bool, page: Page)

  /** The page as loaded, before any tick. */
  const LoadedPage: Page := Page(Markup, StatusMarkup, None, false, false, false, false, false, false, false)

  /** The state `startCountdown` begins from: 9, not launching, the interval
    * running, and the page as loaded (no classes yet). */
  function Initial(): Countdown
  {
    Countdown(9, false, true, LoadedPage)
  }

  /** The progress width `((9 - n) / 9) * 100` of a displayed number. */
  function ProgressAt(n: int): real
  {
    (9 - n) as real / 9.0 * 100.0
  }

  /** One run of the interval callback. */
  function Step(s: Countdown): Countdown
  {
    if s.number > 0 then
      var n := s.number;
      var p := s.page;
      s.(number := n - 1,
         page := p.(shown := Number(n), status := Status(MissionStatus(n)), width := Some(ProgressAt(n)),
                    warning := p.warning || n <= 3, go := p.go && n > 3,
                    flames := p.flames || n == 3, smoke := p.smoke || n == 3))
    else if s.number == 0 && !s.launching then
      s.(launching := true, running := false, page := LiftoffPage(s.page))
    else s
  }

  /** The page after liftoff: "LIFTOFF!", the status turned from warning to
    * go, a full bar, and the shuttle and scene launching. */
  function LiftoffPage(p: Page): Page
  {
    p.(shown := LiftoffText, liftoffClass := true, status := Status("WE HAVE LIFTOFF!"),
       warning := false, go := true, width := Some(100.0), shuttleLaunching := true, launchStarted := true)
  }

  /** The callback with liftoff about to happen. */
  predicate LiftsOff(s: Countdown)
  {
    s.number == 0 && !s.launching
  }

  /** `n` ticks. */
  function Run(s: Countdown, n: nat): Countdown
    decreases n
  {
    if n == 0 then s else Run(Step(s), n - 1)
  }

  /** The width as a number, 0 before the first tick. */
  function Width(s: Countdown): real
  {
    if s.page.width.Some? then s.page.width.value else 0.0
  }

  /** The countdown after `k` of its first nine ticks: the number is 9 - k,
    * the last number shown is 10 - k, and the warning, flames and smoke are
    * on from the seventh tick (number 3) on. */
  function AfterTicks(k: int): Countdown
    requires 0 <= k <= 9
  {
    Countdown(9 - k, false, true,
              Page(if k == 0 then Markup else Number(10 - k),
                   if k == 0 then StatusMarkup else Status(MissionStatus(10 - k)),
                   if k == 0 then None else Some(ProgressAt(10 - k)),
                   k >= 7, false, k >= 7, k >= 7, false, false, false))
  }

  lemma {:induction false} RunSnoc(s: Countdown, n: nat)
    ensures Run(s, n + 1) == Step(Run(s, n))
    decreases n
  {
    if n > 0 {
      RunSnoc(Step(s), n - 1);
    }
  }

  /** The first nine ticks follow `AfterTicks`. */
  lemma {:induction false} FirstNineTicks(k: nat)
    requires k <= 9
    ensures Run(Initial(), k) == AfterTicks(k)
    decreases k
  {
    if k > 0 {
      FirstNineTicks(k - 1);
      RunSnoc(Initial(), k - 1);
    }
  }

  /** Ticks 1 to 9 show 9, 8, ..., 1 with their mission status. */
  lemma CountsDown(k: nat)
    requires 1 <= k <= 9
    ensures Run(Initial(), k).page.shown == Number(10 - k)
    ensures Run(Initial(), k).page.status == Status(MissionStatus(10 - k))
    ensures !Run(Initial(), k).launching
  {
    FirstNineTicks(k);
  }

  /** The tenth tick lifts off: "LIFTOFF!", the `go` class, a full bar and
    * the interval cleared; no earlier tick launched. */
  lemma TenthTickLiftsOff()
    ensures LiftsOff(Run(Initial(), 9))
    ensures var s := Run(Initial(), 10);
            s.launching && !s.running && s.page.shown == LiftoffText && s.page.go && !s.page.warning &&
            s.page.width == Some(100.0) && s.page.shuttleLaunching && s.page.launchStarted
  {
    FirstNineTicks(9);
    RunSnoc(Initial(), 9);
  }

  /** Once launching, the countdown stays launching. */
  lemma {:induction false} LaunchingStays(s: Countdown, n: nat)
    requires s.launching
    ensures Run(s, n).launching
    decreases n
  {
    if n > 0 {
      LaunchingStays(Step(s), n - 1);
    }
  }

  /** Liftoff happens at most once: after the tick that lifts off, no
    * later tick lifts off again. */
  lemma LiftoffAtMostOnce(s: Countdown, n: nat)
    requires LiftsOff(s)
    ensures !LiftsOff(Run(Step(s), n))
  {
    LaunchingStays(Step(s), n);
  }

  /** The number is decremented only while positive, so from a number that
    * is not negative it never drops below 0, and it never rises. */
  lemma {:induction false} NeverBelowZero(s: Countdown, n: nat)
    requires s.number >= 0
    ensures 0 <= Run(s, n).number <= s.number
    decreases n
  {
    if n > 0 {
      NeverBelowZero(Step(s), n - 1);
    }
  }

  /** After liftoff nothing changes any more. */
  lemma {:induction false} Settled(k: nat)
    requires k >= 10
    ensures Run(Initial(), k) == Run(Initial(), 10)
    decreases k
  {
    if k > 10 {
      Settled(k - 1);
      RunSnoc(Initial(), k - 1);
    }
  }

  /** The width read after `k` ticks: 0, then (k - 1) / 9 · 100 up to the
    * ninth tick, then 100. */
  lemma WidthAfter(k: nat)
    ensures Width(Run(Initial(), k)) ==
              if k == 0 then 0.0 else if k <= 9 then (k - 1) as real / 9.0 * 100.0 else 100.0
  {
    if k <= 9 {
      FirstNineTicks(k);
    } else {
      Settled(k);
      TenthTickLiftsOff();
    }
  }

  /** The progress bar rises monotonically from 0 to 100. */
  lemma ProgressRises(j: nat, k: nat)
    requires j <= k
    ensures 0.0 <= Width(Run(Initial(), j)) <= Width(Run(Initial(), k)) <= 100.0
  {
    WidthAfter(j);
    WidthAfter(k);
  }

  /** Per tick: the warning class goes on (and `go` off) on every tick
    * showing 3 or less, and the flames and smoke turn on exactly on the
    * tick showing 3. */
  lemma WarningAndExhaust(s: Countdown)
    requires s.number > 0
    ensures s.number <= 3 ==> Step(s).page.warning && !Step(s).page.go
    ensures s.number > 3 ==> Step(s).page.warning == s.page.warning && Step(s).page.go == s.page.go
    ensures Step(s).page.flames == (s.page.flames || s.number == 3)
    ensures Step(s).page.smoke == (s.page.smoke || s.number == 3)
  {
  }

  /** Along the countdown the flames burn from the seventh tick on, and
    * never before. */
  lemma FlamesFromSeventhTick(k: nat)
    requires k <= 10
    ensures Run(Initial(), k).page.flames <==> k >= 7
  {
    if k <= 9 {
      FirstNineTicks(k);
    } else {
      FirstNineTicks(9);
      RunSnoc(Initial(), 9);
    }
  }

  /** The variables of the loading screen and what its page shows. */
  class LaunchScreen {
    var countdownNumber: int
    var isLaunching: bool
    var intervalRunning: bool
    var page: Page

    function State(): Countdown
      reads this
    {
      Countdown(countdownNumber, isLaunching, intervalRunning, page)
    }

    /** The page as loaded and `startCountdown` called. */
    constructor()
      ensures State() == Initial()
    {
      countdownNumber, isLaunching, intervalRunning := 9, false, true;
      page := LoadedPage;
    }

    /** One run of the interval callback. */
    method Tick()
      modifies this
      ensures State() == Step(old(State()))
    {
      if countdownNumber > 0 {
        var n := countdownNumber;
        page := page.(shown := Number(n), status := Status(MissionStatus(n)), width := Some(ProgressAt(n)));
        if n <= 3 {
          page := page.(warning := true, go := false);
        }
        if n == 3 {
          page := page.(flames := true, smoke := true);
        }
        countdownNumber := n - 1;
      } else if countdownNumber == 0 && !isLaunching {
        isLaunching := true;
        page := LiftoffPage(page);
        intervalRunning := false;
      }
    }
  }

  // ---------------------------------------------------------------- tab visibility

  /** Whether the scene plays after a `visibilitychange`: hiding pauses;
    * showing resumes only when the play button's icon reads "pause". */
  function AfterVisibility(playing: bool, pauseIcon: bool, hidden: bool): bool
  {
    if hidden then false else if pauseIcon then true else playing
  }

  /** With the icon matching the clock, hiding the tab and showing it again
    * restores whether the scene played; hiding alone always pauses. */
  lemma HideThenShow(playing: bool, pauseIcon: bool)
    ensures !AfterVisibility(playing, pauseIcon, true)
    ensures AfterVisibility(AfterVisibility(playing, playing, true), playing, false) == playing
  {
  }

  /** The `visibilitychange` handler, with `ui` the controller whose
    * play/pause icon the handler reads. */
  method OnVisibilityChange(ui: UiController, hidden: bool)
    modifies ui.system`isPlaying
    ensures ui.system.isPlaying == AfterVisibility(old(ui.system.isPlaying), ui.playIconPause, hidden)
  {
    if hidden {
      ui.system.SetPlaying(false);
    } else if ui.playIconPause {
      ui.system.SetPlaying(true);
    }
  }

  /** While the icon matches the clock (as `togglePlayPause` keeps it),
    * hiding and then showing the tab leaves the scene playing or paused as
    * it was. */
  method HideAndShow(ui: UiController)
    requires ui.IconMatches()
    modifies ui.system`isPlaying
    ensures ui.system.isPlaying == old(ui.system.isPlaying)
  {
    ghost var playing := ui.system.isPlaying;
    OnVisibilityChange(ui, true);
    OnVisibilityChange(ui, false);
    HideThenShow(playing, ui.playIconPause);
  }
}
