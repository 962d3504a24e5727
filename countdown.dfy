/** The timer service: a second, simpler countdown anchored on a start instant. Each tick sets the
    remaining time to the duration minus the time since the anchor; pausing records the remaining
    time and resuming moves the anchor so that exactly that much is left. The repeating platform
    timer is the `timerScheduled` flag, the clock is the `now` parameter, and the completion
    broadcast is a counter. */
module Countdown {
  import opened Seqs
  import opened Text

  datatype Countdown = Countdown(
    isRunning: bool,
    isPaused: bool,
    timeRemaining: int,
    totalDuration: int,
    startTime: Option<int>,
    pausedTime: int,
    scheduled: bool,
    completions: nat)

  /** The state after `stop()`. */
  function Stopped(c: Countdown): Countdown
  {
    c.(isRunning := false, isPaused := false, timeRemaining := 0, totalDuration := 0,
       startTime := None, pausedTime := 0, scheduled := false)
  }

  /** `start(duration:)` at instant `now`. */
  function Started(c: Countdown, duration: int, now: int): Countdown
  {
    Stopped(c).(totalDuration := duration, timeRemaining := duration, startTime := Some(now),
                isRunning := true, isPaused := false, pausedTime := 0, scheduled := true)
  }

  /** `pause()`. */
  function AfterPause(c: Countdown): Countdown
  {
    if !c.isRunning || c.isPaused then c
    else c.(isPaused := true, pausedTime := c.timeRemaining, scheduled := false)
  }

  /** `resume()` at instant `now`: the anchor moves back by the time already used. */
  function AfterResume(c: Countdown, now: int): Countdown
  {
    if !c.isRunning || !c.isPaused then c
    else c.(isPaused := false, startTime := Some(now - (c.totalDuration - c.pausedTime)), scheduled := true)
  }

  /** `complete()`: stop and broadcast. */
  function AfterComplete(c: Countdown): Countdown
  {
    Stopped(c).(completions := c.completions + 1)
  }

  /** `tick()` at instant `now`. */
  function AfterTick(c: Countdown, now: int): Countdown
  {
    match c.startTime
    case None => c
    case Some(start) =>
      var elapsed := now - start;
      var remaining := if c.totalDuration - elapsed > 0 then c.totalDuration - elapsed else 0;
      var c1 := c.(timeRemaining := remaining);
      if c1.timeRemaining <= 0 then AfterComplete(c1) else c1
  }

  function ElapsedTime(c: Countdown): int { c.totalDuration - c.timeRemaining }

  predicate CanStart(c: Countdown) { !c.isRunning }
  predicate CanPause(c: Countdown) { c.isRunning && !c.isPaused }
  predicate CanResume(c: Countdown) { c.isRunning && c.isPaused }
  predicate CanStop(c: Countdown) { c.isRunning }

  /** `formattedTime(_:)`. */
  function FormattedTime(t: int): string { FormatClock(t) }

  /** An anchor exists exactly while running, a pause only happens while running, and the
      repeating timer is installed exactly while running and not paused. */
  predicate Inv(c: Countdown)
  {
    (c.startTime.Some? <==> c.isRunning) && (c.isPaused ==> c.isRunning) &&
    (c.scheduled <==> c.isRunning && !c.isPaused)
  }

  /** Starting always stops first and then runs the full duration from `now`, whatever state the
      service was in. */
  lemma StartSpec(c: Countdown, duration: int, now: int)
    ensures var r := Started(c, duration, now);
            r.totalDuration == r.timeRemaining == duration && r.isRunning && !r.isPaused &&
            r.pausedTime == 0 && r.startTime == Some(now) && Inv(r) && ElapsedTime(r) == 0
    ensures Started(c, duration, now) == Started(Stopped(c), duration, now)
  {
  }

  /** Pausing and resuming act exactly when `canPause` and `canResume` say so; a pause records the
      remaining time. */
  lemma ControlsSpec(c: Countdown, now: int)
    ensures AfterPause(c) != c ==> CanPause(c)
    ensures CanPause(c) ==> AfterPause(c).isPaused && AfterPause(c).pausedTime == c.timeRemaining &&
                            !CanPause(AfterPause(c)) && CanResume(AfterPause(c))
    ensures !CanPause(c) ==> AfterPause(c) == c
    ensures !CanResume(c) ==> AfterResume(c, now) == c
    ensures CanResume(c) ==> !AfterResume(c, now).isPaused && CanPause(AfterResume(c, now))
    ensures CanStop(c) <==> !CanStart(c)
  {
  }

  /** A tick right at the resume instant leaves exactly the time recorded by the pause, and a
      tick `d` seconds later leaves `d` seconds less: the pause itself is never counted. */
  lemma ResumeRestoresPausedTime(c: Countdown, now: int, d: int)
    requires CanResume(c) && 0 <= d < c.pausedTime
    ensures AfterTick(AfterResume(c, now), now).timeRemaining == c.pausedTime
    ensures AfterTick(AfterResume(c, now), now + d).timeRemaining == c.pausedTime - d
  {
  }

  /** A tick leaves a non-negative remaining time, equal to the duration minus the time since the
      anchor while some is left, so `elapsedTime` is the time since the anchor. Reaching zero
      stops the service and broadcasts once. */
  lemma TickSpec(c: Countdown, now: int)
    requires c.startTime.Some?
    ensures var r := AfterTick(c, now);
            r.timeRemaining >= 0 && ElapsedTime(r) + r.timeRemaining == r.totalDuration
    ensures var start := c.startTime.value;
            c.totalDuration - (now - start) > 0 ==>
              AfterTick(c, now).timeRemaining == c.totalDuration - (now - start) &&
              ElapsedTime(AfterTick(c, now)) == now - start && AfterTick(c, now).isRunning == c.isRunning
    ensures var start := c.startTime.value;
            c.totalDuration - (now - start) <= 0 ==>
              var r := AfterTick(c, now);
              !r.isRunning && !r.isPaused && r.timeRemaining == 0 && r.totalDuration == 0 &&
              r.pausedTime == 0 && r.startTime.None? && r.completions == c.completions + 1
  {
  }

  /** With a clock that does not go backwards the remaining time never grows from one tick to the
      next. */
  lemma TickMonotone(c: Countdown, t1: int, t2: int)
    requires c.startTime.Some? && t1 <= t2
    ensures AfterTick(AfterTick(c, t1), t2).timeRemaining <= AfterTick(c, t1).timeRemaining
  {
  }

  /** The service's operations; the platform timer only delivers ticks while it is installed. */
  datatype Event = Start(duration: int, startAt: int) | Pause | Resume(resumeAt: int) | Stop | Tick(tickAt: int)

  function Step(c: Countdown, e: Event): Countdown
  {
    match e
    case Start(d, now) => Started(c, d, now)
    case Pause => AfterPause(c)
    case Resume(now) => AfterResume(c, now)
    case Stop => Stopped(c)
    case Tick(now) => if c.scheduled then AfterTick(c, now) else c
  }

  /** Every operation keeps the invariant, and the completion count only grows. */
  lemma StepPreserves(c: Countdown, e: Event)
    requires Inv(c)
    ensures Inv(Step(c, e)) && Step(c, e).completions >= c.completions
  {
  }

  class TimerService {
    var isRunning: bool
    var isPaused: bool
    var timeRemaining: int
    var totalDuration: int
    var startTime: Option<int>
    var pausedTime: int
    var timerScheduled: bool
    var completions: nat

    function Model(): Countdown
      reads this
    {
      Countdown(isRunning, isPaused, timeRemaining, totalDuration, startTime, pausedTime,
                timerScheduled, completions)
    }

    constructor()
      ensures Model() == Countdown(false, false, 0, 0, None, 0, false, 0) && Inv(Model())
    {
      isRunning := false;
      isPaused := false;
      timeRemaining := 0;
      totalDuration := 0;
      startTime := None;
      pausedTime := 0;
      timerScheduled := false;
      completions := 0;
    }

    method Start(duration: int, now: int)
      modifies this
      ensures Model() == Started(old(Model()), duration, now)
    {
      Stop();
      totalDuration := duration;
      timeRemaining := duration;
      startTime := Some(now);
      isRunning := true;
      isPaused := false;
      pausedTime := 0;
      timerScheduled := true;
    }

    method Pause()
      modifies this
      ensures Model() == AfterPause(old(Model()))
    {
      if !isRunning || isPaused {
        return;
      }
      isPaused := true;
      pausedTime := timeRemaining;
      timerScheduled := false;
    }

    method Resume(now: int)
      modifies this
      ensures Model() == AfterResume(old(Model()), now)
    {
      if !isRunning || !isPaused {
        return;
      }
      isPaused := false;
      startTime := Some(now - (totalDuration - pausedTime));
      timerScheduled := true;
    }

    method Stop()
      modifies this
      ensures Model() == Stopped(old(Model()))
    {
      isRunning := false;
      isPaused := false;
      timeRemaining := 0;
      totalDuration := 0;
      startTime := None;
      pausedTime := 0;
      timerScheduled := false;
    }

    method Tick(now: int)
      modifies this
      ensures Model() == AfterTick(old(Model()), now)
    {
      if startTime.None? {
        return;
      }
      var elapsed := now - startTime.value;
      timeRemaining := if totalDuration - elapsed > 0 then totalDuration - elapsed else 0;
      if timeRemaining <= 0 {
        Complete();
      }
    }

    method Complete()
      modifies this
      ensures Model() == AfterComplete(old(Model()))
    {
      Stop();
      completions := completions + 1;
    }
  }
}
