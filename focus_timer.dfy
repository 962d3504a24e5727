/** The focus timer: a countdown over focus, short-break and long-break sessions with three run
    states. It reconciles wall-clock time on every tick and when the app becomes active, counts
    completed focus sessions, and chains into the next session when the auto-start settings ask
    for it.

    The clock is an integer number of seconds passed in as `now`; the repeating platform timer is
    the `timerScheduled` flag plus the `Tick` method the environment calls; a completion
    notification request is a counter. Durations are whole seconds, so `TimeInterval` values are
    integers here. */
module FocusTimer {
  import opened Seqs
  import opened Text
  import Settings

  datatype TimerState = Idle | Running | Paused
  datatype SessionType = Focus | ShortBreak | LongBreak
  datatype ScenePhase = Active | Inactive | Background

  /** The settings the timer reads, at the moment it reads them. */
  datatype Timing = Timing(
    focusDuration: int,
    breakDuration: int,
    longBreakDuration: int,
    sessionsBeforeLongBreak: int,
    autoStartBreaks: bool,
    autoStartFocus: bool)

  function TimingOf(s: Settings.Snapshot): Timing
  {
    Timing(Settings.FocusDuration(s), Settings.BreakDuration(s), Settings.LongBreakDuration(s),
           s.sessionsBeforeLongBreak, s.autoStartBreaks, s.autoStartFocus)
  }

  /** The state of the manager. `scheduled` says whether a repeating timer is installed, and
      `notified` counts completion notification requests. */
  datatype Timer = Timer(
    state: TimerState,
    session: SessionType,
    remaining: int,
    total: int,
    completed: int,
    lastTick: Option<int>,
    scheduled: bool,
    notified: nat)

  function Duration(cfg: Timing, k: SessionType): int
  {
    match k
    case Focus => cfg.focusDuration
    case ShortBreak => cfg.breakDuration
    case LongBreak => cfg.longBreakDuration
  }

  function Min(a: int, b: int): int { if a < b then a else b }
  function Max(a: int, b: int): int { if a > b then a else b }

  /** The long-break cadence is only evaluated when breaks start on their own; Swift traps on a
      remainder by zero, so callers must not reach that with a zero cadence. */
  predicate CadenceDefined(cfg: Timing)
  {
    cfg.autoStartBreaks ==> cfg.sessionsBeforeLongBreak != 0
  }

  predicate NonNegative(cfg: Timing)
  {
    cfg.focusDuration >= 0 && cfg.breakDuration >= 0 && cfg.longBreakDuration >= 0
  }

  /** A timer is installed exactly while running, and a last-tick instant is kept exactly while
      not idle. */
  predicate Inv(m: Timer)
  {
    (m.scheduled <==> m.state == Running) && (m.lastTick.Some? <==> m.state != Idle)
  }

  predicate Bounded(m: Timer)
  {
    0 <= m.remaining <= m.total
  }

  /** `setupInitialTime(resetRemaining:)`. */
  function WithInitialTime(m: Timer, cfg: Timing, resetRemaining: bool): Timer
  {
    var total := Duration(cfg, m.session);
    m.(total := total, remaining := if resetRemaining then total else Min(m.remaining, total))
  }

  /** The state `init(userSettings:)` leaves. */
  function Initial(cfg: Timing): Timer
  {
    WithInitialTime(Timer(Idle, Focus, 0, 0, 0, None, false, 0), cfg, true)
  }

  /** `start()` at instant `now`. */
  function AfterStart(m: Timer, cfg: Timing, now: int): Timer
  {
    if m.state == Running then m
    else
      var m1 := if m.total <= 0 || m.remaining <= 0 then WithInitialTime(m, cfg, true) else m;
      m1.(state := Running, lastTick := Some(now), scheduled := true)
  }

  /** `pause()`. */
  function AfterPause(m: Timer): Timer
  {
    if m.state == Running then m.(state := Paused, scheduled := false) else m
  }

  /** `reset()`. */
  function AfterReset(m: Timer): Timer
  {
    m.(state := Idle, scheduled := false, lastTick := None, remaining := m.total)
  }

  /** `switchSession(_:)`. */
  function AfterSwitch(m: Timer, cfg: Timing, k: SessionType): Timer
  {
    WithInitialTime(m.(scheduled := false, lastTick := None, state := Idle, session := k), cfg, true)
  }

  /** `timerCompleted()` at instant `now`. */
  function AfterCompletion(m: Timer, cfg: Timing, now: int): Timer
    requires CadenceDefined(cfg)
  {
    var m1 := m.(scheduled := false, lastTick := None, state := Idle, notified := m.notified + 1);
    if m.session == Focus then
      var m2 := m1.(completed := m1.completed + 1);
      if cfg.autoStartBreaks then
        // A zero remainder means the same under Swift's truncating `%` and Dafny's `%`.
        var next := if m2.completed % cfg.sessionsBeforeLongBreak == 0 then LongBreak else ShortBreak;
        AfterStart(AfterSwitch(m2, cfg, next), cfg, now)
      else m2
    else if cfg.autoStartFocus then AfterStart(AfterSwitch(m1, cfg, Focus), cfg, now)
    else m1
  }

  /** `catchUpIfNeeded()` at instant `now`: debits the whole seconds since the last tick. */
  function AfterCatchUp(m: Timer, cfg: Timing, now: int): Timer
    requires CadenceDefined(cfg)
  {
    match m.lastTick
    case None => m.(lastTick := Some(now))
    case Some(last) =>
      var elapsed := now - last;
      if elapsed <= 0 then m
      else
        var m1 := m.(remaining := Max(0, m.remaining - elapsed), lastTick := Some(now));
        if m1.remaining <= 0 then AfterCompletion(m1, cfg, now) else m1
  }

  /** `tick()` at instant `now`, as written: catch up, then debit one more second, then complete
      if nothing is left, whether or not the catch-up already completed. */
  function AfterTick(m: Timer, cfg: Timing, now: int): Timer
    requires CadenceDefined(cfg)
  {
    if m.state != Running then m
    else
      var m1 := AfterCatchUp(m, cfg, now);
      var m2 := if m1.remaining > 0 then m1.(remaining := Max(0, m1.remaining - 1), lastTick := Some(now)) else m1;
      if m2.remaining <= 0 then AfterCompletion(m2, cfg, now) else m2
  }

  /** `handleScenePhase(_:)` at instant `now`. */
  function AfterScenePhase(m: Timer, cfg: Timing, phase: ScenePhase, now: int): Timer
    requires CadenceDefined(cfg)
  {
    if m.state != Running then m
    else if phase == Active then
      var m1 := AfterCatchUp(m, cfg, now);
      if !m1.scheduled then AfterStart(m1, cfg, now) else m1
    else if m.lastTick.None? then m.(lastTick := Some(now))
    else m
  }

  /** `configureForUserSettings(_:)`: the new duration, keeping the remaining time when a session
      is under way unless it no longer fits. */
  function AfterConfigure(m: Timer, cfg: Timing): Timer
  {
    WithInitialTime(m, cfg, m.state == Idle)
  }

  /** `formattedTime`: `%02d:%02d` of whole minutes and seconds. */
  function ClockText(m: Timer): string
  {
    FormatClock(m.remaining)
  }

  /** `menuBarTitle`. */
  function TitleText(m: Timer): string
  {
    if m.state == Idle then "OneFocus" else ClockText(m)
  }

  // ---------------------------------------------------------------------------------------------
  // Properties of single operations

  /** The menu bar shows the app name exactly when idle, and otherwise the clock. */
  lemma MenuBarTitleSpec(m: Timer)
    ensures TitleText(m) == "OneFocus" <==> m.state == Idle
    ensures m.state != Idle ==> TitleText(m) == ClockText(m)
  {
    if m.state != Idle {
      var s := ClockText(m);
      FormatClockHasColon(m.remaining);
      assert ':' in s;
      assert ':' !in "OneFocus";
    }
  }

  /** The clock's fields read back as the whole minutes and seconds left. */
  lemma ClockTextSpec(m: Timer)
    requires m.remaining >= 0
    ensures var s := ClockText(m); var k := |s| - 3;
            |s| >= 5 && s[k] == ':' && ParseNat(s[..k]) == m.remaining / 60 &&
            ParseNat(s[k + 1..]) == m.remaining % 60
  {
    FormatClockRoundTrip(m.remaining);
  }

  /** The timer starts idle on a focus session with the full focus duration and no completions. */
  lemma InitialSpec(cfg: Timing)
    ensures var m := Initial(cfg);
            m.state == Idle && m.session == Focus && m.remaining == m.total == cfg.focusDuration &&
            m.completed == 0 && Inv(m) && (NonNegative(cfg) ==> Bounded(m))
  {
  }

  /** Starting does nothing while running. Otherwise it runs the session, reloading the full
      duration only when nothing is left, and stamps the start instant as the last tick, so time
      spent paused is never debited. */
  lemma StartSpec(m: Timer, cfg: Timing, now: int)
    ensures m.state == Running ==> AfterStart(m, cfg, now) == m
    ensures m.state != Running ==>
              var r := AfterStart(m, cfg, now);
              r.state == Running && r.scheduled && r.lastTick == Some(now) &&
              r.session == m.session && r.completed == m.completed && r.notified == m.notified &&
              (m.total > 0 && m.remaining > 0 ==> r.remaining == m.remaining && r.total == m.total) &&
              (m.total <= 0 || m.remaining <= 0 ==> r.remaining == r.total == Duration(cfg, m.session))
  {
  }

  /** Pausing acts only while running and keeps the last tick; resetting idles with the full time;
      switching idles on the new session with its full time. None of them touches the counter. */
  lemma PauseResetSwitchSpec(m: Timer, cfg: Timing, k: SessionType)
    ensures m.state != Running ==> AfterPause(m) == m
    ensures m.state == Running ==>
              AfterPause(m).state == Paused && !AfterPause(m).scheduled &&
              AfterPause(m).lastTick == m.lastTick && AfterPause(m).remaining == m.remaining
    ensures var r := AfterReset(m);
            r.state == Idle && r.lastTick.None? && r.remaining == r.total == m.total && r.session == m.session
    ensures var r := AfterSwitch(m, cfg, k);
            r.state == Idle && r.lastTick.None? && !r.scheduled && r.session == k &&
            r.remaining == r.total == Duration(cfg, k)
    ensures AfterPause(m).completed == AfterReset(m).completed == AfterSwitch(m, cfg, k).completed == m.completed
  {
  }

  /** Completion requests one notification and ends idle with no last tick, unless it chains into
      the next session. A focus completion counts once; with automatic breaks the next session is
      a long break exactly when the new count is a multiple of the cadence, and it is started at
      its full duration. A break completion with automatic focus starts a full focus session.
      Otherwise the session type and times are left as they were. */
  lemma CompletionSpec(m: Timer, cfg: Timing, now: int)
    requires CadenceDefined(cfg)
    ensures var r := AfterCompletion(m, cfg, now);
            r.notified == m.notified + 1 &&
            r.completed == m.completed + (if m.session == Focus then 1 else 0)
    ensures m.session == Focus && cfg.autoStartBreaks ==>
              var r := AfterCompletion(m, cfg, now);
              var n := m.completed + 1;
              r.state == Running && r.lastTick == Some(now) && r.scheduled &&
              (r.session == LongBreak <==> n % cfg.sessionsBeforeLongBreak == 0) &&
              r.session != Focus && r.remaining == r.total == Duration(cfg, r.session)
    ensures m.session != Focus && cfg.autoStartFocus ==>
              var r := AfterCompletion(m, cfg, now);
              r.state == Running && r.lastTick == Some(now) && r.session == Focus &&
              r.remaining == r.total == cfg.focusDuration
    ensures !(m.session == Focus && cfg.autoStartBreaks) && !(m.session != Focus && cfg.autoStartFocus) ==>
              var r := AfterCompletion(m, cfg, now);
              r.state == Idle && r.lastTick.None? && !r.scheduled && r.session == m.session &&
              r.remaining == m.remaining && r.total == m.total
  {
  }

  /** Catching up with no last tick only records the instant; otherwise it debits the whole
      seconds elapsed, floored at zero, is a no-op when none have elapsed, and completes on
      reaching zero. */
  lemma CatchUpSpec(m: Timer, cfg: Timing, now: int)
    requires CadenceDefined(cfg)
    ensures m.lastTick.None? ==> AfterCatchUp(m, cfg, now) == m.(lastTick := Some(now))
    ensures m.lastTick.Some? && now <= m.lastTick.value ==> AfterCatchUp(m, cfg, now) == m
    ensures m.lastTick.Some? && now > m.lastTick.value && m.remaining > now - m.lastTick.value ==>
              AfterCatchUp(m, cfg, now) == m.(remaining := m.remaining - (now - m.lastTick.value), lastTick := Some(now))
    ensures m.lastTick.Some? && now > m.lastTick.value && m.remaining <= now - m.lastTick.value ==>
              AfterCatchUp(m, cfg, now) == AfterCompletion(m.(remaining := 0, lastTick := Some(now)), cfg, now)
  {
  }

  /** Configuring while idle reloads the full duration; while a session is under way the remaining
      time is kept, or cut down to the new duration. */
  lemma ConfigureSpec(m: Timer, cfg: Timing)
    ensures var r := AfterConfigure(m, cfg);
            r.total == Duration(cfg, m.session) && r.state == m.state && r.completed == m.completed &&
            (m.state == Idle ==> r.remaining == r.total) &&
            (m.state != Idle ==> r.remaining == Min(m.remaining, r.total) && r.remaining <= m.remaining)
  {
  }

  /** A tick that does not finish the session debits the elapsed seconds and then one more. */
  lemma TickDebitsExtraSecond(m: Timer, cfg: Timing, now: int)
    requires CadenceDefined(cfg) && m.state == Running && m.lastTick.Some?
    requires now > m.lastTick.value && m.remaining - (now - m.lastTick.value) > 1
    ensures var r := AfterTick(m, cfg, now);
            r.remaining == m.remaining - (now - m.lastTick.value) - 1 &&
            r.state == Running && r.lastTick == Some(now) && r.completed == m.completed
  {
  }

  /** With a whole-second clock a tick one second after the last one debits two seconds: a full
      focus session of 1500 seconds has 1498 left after its first tick. */
  lemma TickDebitsTwoSecondsPerSecond(cfg: Timing)
    requires CadenceDefined(cfg)
    ensures AfterTick(Timer(Running, Focus, 1500, 1500, 0, Some(0), true, 0), cfg, 1).remaining == 1498
  {
  }

  /** When the catch-up inside a tick reaches zero and nothing starts automatically, completion
      runs twice: two notifications, and a focus session is counted twice. */
  lemma TickCompletesTwice(m: Timer, cfg: Timing, now: int)
    requires CadenceDefined(cfg) && m.state == Running && m.lastTick.Some?
    requires 0 < m.remaining <= now - m.lastTick.value
    requires m.session == Focus ==> !cfg.autoStartBreaks
    requires m.session != Focus ==> !cfg.autoStartFocus
    ensures var r := AfterTick(m, cfg, now);
            r.notified == m.notified + 2 &&
            r.completed == m.completed + (if m.session == Focus then 2 else 0) &&
            r.state == Idle && r.remaining == 0
  {
  }

  /** When the catch-up inside a tick completes a focus session and a break starts on its own, the
      tick then takes a second off the new break at once. */
  lemma TickAutoStartLosesSecond(m: Timer, cfg: Timing, now: int)
    requires CadenceDefined(cfg) && m.state == Running && m.session == Focus && cfg.autoStartBreaks
    requires m.lastTick.Some? && 0 < m.remaining <= now - m.lastTick.value
    requires cfg.breakDuration > 1 && cfg.longBreakDuration > 1
    ensures var r := AfterTick(m, cfg, now);
            r.state == Running && r.session != Focus && r.completed == m.completed + 1 &&
            r.remaining == Duration(cfg, r.session) - 1 == r.total - 1
  {
  }

  /** Resuming a paused session keeps its remaining time and re-stamps the last tick, so the pause
      is never debited. */
  lemma ResumeDoesNotDebitPause(m: Timer, cfg: Timing, now: int)
    requires m.state == Paused && m.total > 0 && m.remaining > 0
    ensures var r := AfterStart(m, cfg, now);
            r.state == Running && r.remaining == m.remaining && r.lastTick == Some(now)
  {
  }

  /** Becoming active after the session ran out in the background, with nothing set to start on
      its own, completes it and then restarts the same session type at its full duration. */
  lemma SceneActiveRestartsSession(m: Timer, cfg: Timing, now: int)
    requires CadenceDefined(cfg) && m.state == Running && m.lastTick.Some?
    requires 0 < m.remaining <= now - m.lastTick.value
    requires m.session == Focus ==> !cfg.autoStartBreaks
    requires m.session != Focus ==> !cfg.autoStartFocus
    ensures var r := AfterScenePhase(m, cfg, Active, now);
            r.state == Running && r.session == m.session && r.remaining == r.total == Duration(cfg, m.session) &&
            r.completed == m.completed + (if m.session == Focus then 1 else 0) &&
            r.notified == m.notified + 1 && r.lastTick == Some(now)
  {
  }

  /** Under the invariant a running timer always has a last tick, so going inactive or to the
      background changes nothing; and nothing at all happens unless the timer is running. */
  lemma SceneBackgroundNoOp(m: Timer, cfg: Timing, phase: ScenePhase, now: int)
    requires CadenceDefined(cfg) && Inv(m)
    ensures phase != Active ==> AfterScenePhase(m, cfg, phase, now) == m
    ensures m.state != Running ==> AfterScenePhase(m, cfg, phase, now) == m
  {
  }

  // ---------------------------------------------------------------------------------------------
  // Invariants over every operation

  /** The operations the manager exposes, as events with their instants. */
  datatype Event =
    | Start(startAt: int)
    | Pause
    | Reset
    | Switch(kind: SessionType)
    | Scene(phase: ScenePhase, sceneAt: int)
    | Tick(tickAt: int)
    | Configure

  function Step(m: Timer, cfg: Timing, e: Event): Timer
    requires CadenceDefined(cfg)
  {
    match e
    case Start(now) => AfterStart(m, cfg, now)
    case Pause => AfterPause(m)
    case Reset => AfterReset(m)
    case Switch(k) => AfterSwitch(m, cfg, k)
    case Scene(phase, now) => AfterScenePhase(m, cfg, phase, now)
    case Tick(now) => AfterTick(m, cfg, now)
    case Configure => AfterConfigure(m, cfg)
  }

  function Run(m: Timer, cfg: Timing, es: seq<Event>): Timer
    requires CadenceDefined(cfg)
    decreases |es|
  {
    if es == [] then m else Run(Step(m, cfg, es[0]), cfg, es[1..])
  }

  lemma StartPreserves(m: Timer, cfg: Timing, now: int)
    requires NonNegative(cfg) && Inv(m) && Bounded(m)
    ensures var r := AfterStart(m, cfg, now);
            Inv(r) && Bounded(r) && r.completed == m.completed
  {
  }

  lemma CompletionPreserves(m: Timer, cfg: Timing, now: int)
    requires CadenceDefined(cfg) && NonNegative(cfg) && Bounded(m)
    ensures var r := AfterCompletion(m, cfg, now);
            Inv(r) && Bounded(r) && m.completed <= r.completed <= m.completed + 1 &&
            (r.state != Running ==> r.remaining == m.remaining)
  {
  }

  lemma CatchUpPreserves(m: Timer, cfg: Timing, now: int)
    requires CadenceDefined(cfg) && NonNegative(cfg) && Inv(m) && Bounded(m) && m.state == Running
    ensures var r := AfterCatchUp(m, cfg, now);
            Inv(r) && Bounded(r) && m.completed <= r.completed <= m.completed + 1 &&
            (r.state != Running ==> r.remaining == 0)
  {
    match m.lastTick
    case None =>
    case Some(last) =>
      if now - last > 0 && Max(0, m.remaining - (now - last)) <= 0 {
        CompletionPreserves(m.(remaining := 0, lastTick := Some(now)), cfg, now);
      }
  }

  lemma TickPreserves(m: Timer, cfg: Timing, now: int)
    requires CadenceDefined(cfg) && NonNegative(cfg) && Inv(m) && Bounded(m)
    ensures var r := AfterTick(m, cfg, now);
            Inv(r) && Bounded(r) && m.completed <= r.completed <= m.completed + 2
  {
    if m.state == Running {
      var m1 := AfterCatchUp(m, cfg, now);
      CatchUpPreserves(m, cfg, now);
      var m2 := if m1.remaining > 0 then m1.(remaining := Max(0, m1.remaining - 1), lastTick := Some(now)) else m1;
      assert Inv(m2) && Bounded(m2);
      if m2.remaining <= 0 {
        CompletionPreserves(m2, cfg, now);
      }
    }
  }

  lemma ScenePreserves(m: Timer, cfg: Timing, phase: ScenePhase, now: int)
    requires CadenceDefined(cfg) && NonNegative(cfg) && Inv(m) && Bounded(m)
    ensures var r := AfterScenePhase(m, cfg, phase, now);
            Inv(r) && Bounded(r) && m.completed <= r.completed <= m.completed + 1
  {
    if m.state == Running && phase == Active {
      CatchUpPreserves(m, cfg, now);
      StartPreserves(AfterCatchUp(m, cfg, now), cfg, now);
    }
  }

  /** Every operation keeps the invariant and `0 <= timeRemaining <= totalTime` (given
      non-negative durations), and never lowers the completed-focus counter; only a tick can raise
      it by two. */
  lemma StepPreserves(m: Timer, cfg: Timing, e: Event)
    requires CadenceDefined(cfg) && NonNegative(cfg) && Inv(m) && Bounded(m)
    ensures var r := Step(m, cfg, e);
            Inv(r) && Bounded(r) && m.completed <= r.completed <= m.completed + (if e.Tick? then 2 else 1)
  {
    match e
    case Start(now) => StartPreserves(m, cfg, now);
    case Pause =>
    case Reset =>
    case Switch(k) =>
    case Scene(phase, now) => ScenePreserves(m, cfg, phase, now);
    case Tick(now) => TickPreserves(m, cfg, now);
    case Configure =>
  }

  /** From the initial state, any sequence of operations keeps the invariant and the bounds, and
      the counter only grows. */
  lemma {:induction false} RunPreserves(m: Timer, cfg: Timing, es: seq<Event>)
    requires CadenceDefined(cfg) && NonNegative(cfg) && Inv(m) && Bounded(m)
    ensures var r := Run(m, cfg, es);
            Inv(r) && Bounded(r) && r.completed >= m.completed
    decreases |es|
  {
    if es != [] {
      StepPreserves(m, cfg, es[0]);
      RunPreserves(Step(m, cfg, es[0]), cfg, es[1..]);
    }
  }

  // ---------------------------------------------------------------------------------------------
  // The tick as evidently intended

  /** A tick that debits the wall-clock time since the last tick once, completing at most once. */
  function CorrectedTick(m: Timer, cfg: Timing, now: int): Timer
    requires CadenceDefined(cfg)
  {
    if m.state != Running then m else AfterCatchUp(m, cfg, now)
  }

  /** The corrected tick debits exactly the seconds elapsed, so ticks one second apart count down
      one second each. */
  lemma CorrectedTickTracksClock(m: Timer, cfg: Timing, now: int)
    requires CadenceDefined(cfg) && m.state == Running && m.lastTick.Some?
    requires now > m.lastTick.value && m.remaining > now - m.lastTick.value
    ensures var r := CorrectedTick(m, cfg, now);
            r.remaining == m.remaining - (now - m.lastTick.value) &&
            r.state == Running && r.lastTick == Some(now) && r.completed == m.completed
    ensures CorrectedTick(Timer(Running, Focus, 1500, 1500, 0, Some(0), true, 0), cfg, 1).remaining == 1499
  {
  }

  /** When the corrected tick runs the session out, completion runs exactly once. */
  lemma CorrectedTickCompletesOnce(m: Timer, cfg: Timing, now: int)
    requires CadenceDefined(cfg) && m.state == Running && m.lastTick.Some?
    requires 0 < m.remaining <= now - m.lastTick.value
    ensures var r := CorrectedTick(m, cfg, now);
            r.notified == m.notified + 1 &&
            r.completed == m.completed + (if m.session == Focus then 1 else 0)
  {
  }

  // ---------------------------------------------------------------------------------------------
  // The manager object

  class FocusTimerManager {
    const userSettings: Settings.UserSettings
    var timerState: TimerState
    var currentSessionType: SessionType
    var timeRemaining: int
    var totalTime: int
    var completedFocusSessions: int
    var lastTickDate: Option<int>
    var timerScheduled: bool
    var notificationsRequested: nat

    function Model(): Timer
      reads this
    {
      Timer(timerState, currentSessionType, timeRemaining, totalTime, completedFocusSessions,
            lastTickDate, timerScheduled, notificationsRequested)
    }

    /** The settings as they are now. */
    function Config(): Timing
      reads userSettings
    {
      TimingOf(userSettings.Model())
    }

    constructor(userSettings: Settings.UserSettings)
      ensures this.userSettings == userSettings
      ensures Model() == Initial(Config())
    {
      this.userSettings := userSettings;
      timerState := Idle;
      currentSessionType := Focus;
      timeRemaining := 0;
      totalTime := 0;
      completedFocusSessions := 0;
      lastTickDate := None;
      timerScheduled := false;
      notificationsRequested := 0;
      new;
      SetupInitialTime(true);
    }

    method SetupInitialTime(resetRemaining: bool)
      modifies this
      ensures Model() == WithInitialTime(old(Model()), Config(), resetRemaining)
    {
      var s := userSettings.Model();
      match currentSessionType {
        case Focus => totalTime := Settings.FocusDuration(s);
        case ShortBreak => totalTime := Settings.BreakDuration(s);
        case LongBreak => totalTime := Settings.LongBreakDuration(s);
      }
      if resetRemaining {
        timeRemaining := totalTime;
      } else {
        timeRemaining := Min(timeRemaining, totalTime);
      }
    }

    method ConfigureForUserSettings()
      modifies this
      ensures Model() == AfterConfigure(old(Model()), Config())
    {
      SetupInitialTime(timerState == Idle);
    }

    method Start(now: int)
      modifies this
      ensures Model() == AfterStart(old(Model()), Config(), now)
    {
      if timerState == Running {
        return;
      }
      if totalTime <= 0 || timeRemaining <= 0 {
        SetupInitialTime(true);
      }
      timerState := Running;
      lastTickDate := Some(now);
      timerScheduled := true;
    }

    method Pause()
      modifies this
      ensures Model() == AfterPause(old(Model()))
    {
      if timerState != Running {
        return;
      }
      timerState := Paused;
      timerScheduled := false;
    }

    method Reset()
      modifies this
      ensures Model() == AfterReset(old(Model()))
    {
      timerState := Idle;
      timerScheduled := false;
      lastTickDate := None;
      timeRemaining := totalTime;
    }

    method SwitchSession(kind: SessionType)
      modifies this
      ensures Model() == AfterSwitch(old(Model()), Config(), kind)
    {
      timerScheduled := false;
      lastTickDate := None;
      timerState := Idle;
      currentSessionType := kind;
      SetupInitialTime(true);
    }

    method HandleScenePhase(phase: ScenePhase, now: int)
      requires CadenceDefined(Config())
      modifies this
      ensures Model() == AfterScenePhase(old(Model()), Config(), phase, now)
    {
      if timerState != Running {
        return;
      }
      match phase {
        case Active =>
          CatchUpIfNeeded(now);
          if !timerScheduled {
            Start(now);
          }
        case _ =>
          if lastTickDate.None? {
            lastTickDate := Some(now);
          }
      }
    }

    method CatchUpIfNeeded(now: int)
      requires CadenceDefined(Config())
      modifies this
      ensures Model() == AfterCatchUp(old(Model()), Config(), now)
    {
      if lastTickDate.None? {
        lastTickDate := Some(now);
        return;
      }
      var elapsed := now - lastTickDate.value;
      if elapsed <= 0 {
        return;
      }
      timeRemaining := Max(0, timeRemaining - elapsed);
      lastTickDate := Some(now);
      if timeRemaining <= 0 {
        TimerCompleted(now);
      }
    }

    /** What the repeating timer calls every second. */
    method Tick(now: int)
      requires CadenceDefined(Config())
      modifies this
      ensures Model() == AfterTick(old(Model()), Config(), now)
    {
      if timerState != Running {
        return;
      }
      CatchUpIfNeeded(now);
      if timeRemaining > 0 {
        timeRemaining := Max(0, timeRemaining - 1);
        lastTickDate := Some(now);
      }
      if timeRemaining <= 0 {
        TimerCompleted(now);
      }
    }

    method TimerCompleted(now: int)
      requires CadenceDefined(Config())
      modifies this
      ensures Model() == AfterCompletion(old(Model()), Config(), now)
    {
      timerScheduled := false;
      lastTickDate := None;
      timerState := Idle;
      notificationsRequested := notificationsRequested + 1;
      if currentSessionType == Focus {
        completedFocusSessions := completedFocusSessions + 1;
        if userSettings.autoStartBreaks {
          if completedFocusSessions % userSettings.sessionsBeforeLongBreak == 0 {
            SwitchSession(LongBreak);
          } else {
            SwitchSession(ShortBreak);
          }
          Start(now);
        }
      } else if userSettings.autoStartFocus {
        SwitchSession(Focus);
        Start(now);
      }
    }

    function FormattedTime(): (r: string)
      reads this
      ensures r == ClockText(Model())
    {
      FormatClock(timeRemaining)
    }

    function MenuBarTitle(): (r: string)
      reads this
      ensures r == "OneFocus" <==> timerState == Idle
      ensures timerState != Idle ==> r == FormattedTime()
    {
      MenuBarTitleSpec(Model());
      TitleText(Model())
    }
  }
}
