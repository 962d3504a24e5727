/** A recorded focus or break period. Durations are whole seconds; `TimeInterval` fractions are
    outside the model, so `Int(duration)` is the duration itself. */
module Sessions {
  import opened Seqs
  import opened Text
  import Calendar
  import Sorting

  datatype SessionKind = Focus | ShortBreak | LongBreak

  function KindRaw(k: SessionKind): string
  {
    match k
    case Focus => "Focus"
    case ShortBreak => "Short Break"
    case LongBreak => "Long Break"
  }

  datatype FocusSession = FocusSession(
    id: Uuid,
    startTime: int,
    endTime: Option<int>,
    duration: int,
    actualDuration: int,
    associatedTaskID: Option<Uuid>,
    sessionType: SessionKind,
    wasCompleted: bool,
    notes: Option<string>)

  predicate IsActive(s: FocusSession) { s.endTime.None? }

  /** `complete()` at instant `now`. */
  function Completed(s: FocusSession, now: int): FocusSession
  {
    s.(endTime := Some(now), wasCompleted := true)
  }

  /** `end()` at instant `now`. */
  function Ended(s: FocusSession, now: int): FocusSession
  {
    s.(endTime := Some(now))
  }

  /** `associateTask(_:)`. */
  function Associated(s: FocusSession, taskID: Uuid): FocusSession
  {
    s.(associatedTaskID := Some(taskID))
  }

  /** Completing marks the session completed and inactive; ending makes it inactive and keeps
      `wasCompleted`; associating changes only the task link. None of them touches the durations. */
  lemma LifecycleSpec(s: FocusSession, now: int, taskID: Uuid)
    ensures !IsActive(Completed(s, now)) && Completed(s, now).wasCompleted
    ensures !IsActive(Ended(s, now)) && Ended(s, now).wasCompleted == s.wasCompleted
    ensures Completed(s, now) == Ended(s, now).(wasCompleted := true)
    ensures Associated(s, taskID).associatedTaskID == Some(taskID) &&
            Associated(s, taskID).(associatedTaskID := s.associatedTaskID) == s
    ensures Completed(s, now).actualDuration == s.actualDuration && Ended(s, now).duration == s.duration
  {
  }

  /** Whole hours, the minutes within the hour and the seconds within the minute of `t`, with
      Swift's truncating `/` and `%`. */
  function Hours(t: int): int { TruncDiv(t, 3600) }
  function MinutesPart(t: int): int { TruncRem(TruncDiv(t, 60), 60) }
  function SecondsPart(t: int): int { TruncRem(t, 60) }

  /** A non-negative duration splits exactly into hours, minutes below 60 and seconds below 60. */
  lemma DecomposeDuration(t: nat)
    ensures Hours(t) * 3600 + MinutesPart(t) * 60 + SecondsPart(t) == t
    ensures 0 <= MinutesPart(t) < 60 && 0 <= SecondsPart(t) < 60 && Hours(t) >= 0
  {
    assert (t / 60) / 60 == t / 3600;
  }

  /** `formattedDuration`. */
  function FormattedDuration(s: FocusSession): string
  {
    var t := s.actualDuration;
    var h, m, sec := Hours(t), MinutesPart(t), SecondsPart(t);
    if h > 0 then IntString(h) + "h " + IntString(m) + "m"
    else if m > 0 then IntString(m) + "m " + IntString(sec) + "s"
    else IntString(sec) + "s"
  }

  /** Which format is chosen: hours and minutes from one hour up, minutes and seconds from one
      minute up, seconds alone below a minute. */
  lemma FormattedDurationCases(s: FocusSession)
    requires s.actualDuration >= 0
    ensures s.actualDuration >= 3600 ==>
              FormattedDuration(s) == Digits(s.actualDuration / 3600) + "h " + Digits(s.actualDuration / 60 % 60) + "m"
    ensures 60 <= s.actualDuration < 3600 ==>
              FormattedDuration(s) == Digits(s.actualDuration / 60) + "m " + Digits(s.actualDuration % 60) + "s"
    ensures s.actualDuration < 60 ==> FormattedDuration(s) == Digits(s.actualDuration) + "s"
  {
    DecomposeDuration(s.actualDuration);
  }

  /** `formattedPlannedDuration`. */
  function FormattedPlannedDuration(s: FocusSession): string
  {
    IntString(TruncDiv(s.duration, 60)) + " min"
  }

  /** The planned text is the whole minutes, truncated toward zero, then " min": for a
      non-negative duration its digits read back as the minutes, a duration above a minute below
      zero shows a minus sign before the minutes, and less than a minute either way shows 0. */
  lemma {:induction false} FormattedPlannedDurationSpec(s: FocusSession)
    ensures var t := FormattedPlannedDuration(s);
            |t| >= 5 && t[|t| - 4..] == " min" && (s.duration >= 0 ==> t[0] != '-')
    ensures var t := FormattedPlannedDuration(s);
            s.duration >= 0 ==> AllDigits(t[..|t| - 4]) && ParseNat(t[..|t| - 4]) == s.duration / 60
    ensures var t := FormattedPlannedDuration(s);
            s.duration <= -60 ==> t[0] == '-' && AllDigits(t[1..|t| - 4]) && ParseNat(t[1..|t| - 4]) == (-s.duration) / 60
    ensures -60 < s.duration < 60 ==> FormattedPlannedDuration(s) == "0 min"
  {
    var m := TruncDiv(s.duration, 60);
    var t := FormattedPlannedDuration(s);
    var n := IntString(m);
    assert t[..|t| - 4] == n;
    if m >= 0 {
      DigitsRoundTrip(m);
      assert n[0] != '-' by { assert DigitValue(n[0]) >= 0; }
    } else {
      DigitsRoundTrip(-m);
      assert t[1..|t| - 4] == n[1..];
    }
  }

  /** `completionPercentage`, as an exact ratio. */
  function CompletionPercentage(s: FocusSession): real
  {
    if s.duration <= 0 then 0.0
    else
      var ratio := s.actualDuration as real / s.duration as real;
      if ratio < 1.0 then ratio else 1.0
  }

  lemma CompletionPercentageBounds(s: FocusSession)
    ensures s.duration <= 0 ==> CompletionPercentage(s) == 0.0
    ensures CompletionPercentage(s) <= 1.0
    ensures s.actualDuration >= 0 ==> 0.0 <= CompletionPercentage(s)
    ensures 0 < s.duration <= s.actualDuration ==> CompletionPercentage(s) == 1.0
    ensures 0 <= s.actualDuration < s.duration ==>
              CompletionPercentage(s) * s.duration as real == s.actualDuration as real
  {
  }

  predicate WasCompleted(s: FocusSession) { s.wasCompleted }
  predicate IsCompletedFocus(s: FocusSession) { s.sessionType == Focus && s.wasCompleted }
  predicate IsCompletedBreak(s: FocusSession)
  {
    (s.sessionType == ShortBreak || s.sessionType == LongBreak) && s.wasCompleted
  }
  function ActualDuration(s: FocusSession): int { s.actualDuration }

  /** The array extension `completed`. */
  function CompletedSessions(s: seq<FocusSession>): seq<FocusSession> { Filter(s, WasCompleted) }

  /** The array extension `active`: the first session with no end time. */
  function Active(s: seq<FocusSession>): Option<FocusSession> { FirstWhere(s, IsActive) }

  /** The array extension `totalFocusTime`. */
  function TotalFocusTime(s: seq<FocusSession>): int
  {
    SumOf(Filter(s, IsCompletedFocus), ActualDuration)
  }

  /** The array extension `totalBreakTime`. */
  function TotalBreakTime(s: seq<FocusSession>): int
  {
    SumOf(Filter(s, IsCompletedBreak), ActualDuration)
  }

  /** The array extension `todaySessions`, relative to instant `now`. */
  function TodaySessions(s: seq<FocusSession>, now: int): seq<FocusSession>
  {
    Filter(s, (x: FocusSession) => Calendar.IsSameDay(x.startTime, now))
  }

  /** The array extension `thisWeekSessions`: started no earlier than seven days before `now`. */
  function ThisWeekSessions(s: seq<FocusSession>, now: int): seq<FocusSession>
  {
    Filter(s, (x: FocusSession) => x.startTime >= now - 7 * Calendar.SecondsPerDay)
  }

  /** `todaySessions` keeps exactly the sessions started on the same day as `now`, and
      `thisWeekSessions` exactly those started at most seven days before `now`, each in list order;
      every session of today is also one of this week. */
  lemma SessionWindowsSpec(s: seq<FocusSession>, now: int)
    ensures forall x :: x in TodaySessions(s, now) <==> x in s && Calendar.IsSameDay(x.startTime, now)
    ensures forall x :: x in ThisWeekSessions(s, now) <==> x in s && x.startTime >= now - 7 * Calendar.SecondsPerDay
    ensures SubseqOf(TodaySessions(s, now), s) && SubseqOf(ThisWeekSessions(s, now), s)
    ensures SubseqOf(TodaySessions(s, now), ThisWeekSessions(s, now))
  {
    var today := (x: FocusSession) => Calendar.IsSameDay(x.startTime, now);
    var week := (x: FocusSession) => x.startTime >= now - 7 * Calendar.SecondsPerDay;
    FilterMembers(s, today);
    FilterMembers(s, week);
    FilterIsSubseq(s, today);
    FilterIsSubseq(s, week);
    forall x | today(x)
      ensures week(x)
    {
      Calendar.StartOfDaySameDay(x.startTime, now);
      assert x.startTime >= Calendar.StartOfDay(now) > now - Calendar.SecondsPerDay;
    }
    FilterStrongerIsSubseq(s, today, week);
  }

  function StartKey(s: FocusSession): int { -s.startTime }

  /** The array extension `sortedByDate`: latest start first. */
  function SortedByDate(s: seq<FocusSession>): seq<FocusSession> { Sorting.SortBy(s, StartKey) }

  /** `active` finds the first session without an end time, and none exactly when every session
      has ended. */
  lemma ActiveSpec(s: seq<FocusSession>)
    ensures Active(s).Some? ==> IsActive(Active(s).value) && Active(s).value in s
    ensures Active(s).None? <==> forall x :: x in s ==> !IsActive(x)
  {
    if Active(s).None? {
      forall x | x in s ensures !IsActive(x) {
        var i :| 0 <= i < |s| && s[i] == x;
      }
    }
  }

  /** Actual time of a completed focus session, 0 for any other session. */
  function FocusSeconds(s: FocusSession): int { if IsCompletedFocus(s) then s.actualDuration else 0 }

  /** Actual time of a completed break, 0 for any other session. */
  function BreakSeconds(s: FocusSession): int { if IsCompletedBreak(s) then s.actualDuration else 0 }

  /** Actual time of a completed session, 0 for an uncompleted one. */
  function CompletedSeconds(s: FocusSession): int { if s.wasCompleted then s.actualDuration else 0 }

  /** The focus total counts completed focus sessions only and the break total completed breaks
      only; together they make up the actual time of all completed sessions. */
  lemma TotalsSpec(s: seq<FocusSession>)
    ensures TotalFocusTime(s) == SumOf(s, FocusSeconds)
    ensures TotalBreakTime(s) == SumOf(s, BreakSeconds)
    ensures TotalFocusTime(s) + TotalBreakTime(s) == SumOf(CompletedSessions(s), ActualDuration)
  {
    SumOfFilter(s, IsCompletedFocus, ActualDuration, FocusSeconds);
    SumOfFilter(s, IsCompletedBreak, ActualDuration, BreakSeconds);
    SumOfFilter(s, WasCompleted, ActualDuration, CompletedSeconds);
    SplitSum(s);
  }

  lemma {:induction false} SplitSum(s: seq<FocusSession>)
    ensures SumOf(s, FocusSeconds) + SumOf(s, BreakSeconds) == SumOf(s, CompletedSeconds)
  {
    if s != [] {
      SplitSum(s[1..]);
    }
  }

  /** Sorting by date is a permutation with non-increasing start times. */
  lemma SortedByDateSpec(s: seq<FocusSession>)
    ensures multiset(SortedByDate(s)) == multiset(s)
    ensures forall i, j :: 0 <= i < j < |SortedByDate(s)| ==> SortedByDate(s)[i].startTime >= SortedByDate(s)[j].startTime
  {
    Sorting.SortBySpec(s, StartKey);
  }
}
