/** The analytics service: an in-memory list of events, the counts and the completion rate over a
    period, the current and longest streaks of days with a completed focus session, and a CSV
    export. Days are counted as whole days since the epoch (`Calendar.DayOf`), which stands for
    the calendar's start of day; the instant a month or a year before now, which depends on the
    calendar, is given with the clock. */
module Analytics {
  import opened Seqs
  import Calendar

  datatype EventType =
    | FocusSessionStarted | FocusSessionCompleted | FocusSessionCancelled
    | BreakStarted | BreakCompleted
    | TaskCreated | TaskCompleted | TaskDeleted
    | DailyGoalReached | StreakMilestone | AppOpened | SettingsChanged

  /** The raw value each event type is encoded and exported with. */
  function RawValue(t: EventType): string
  {
    match t
    case FocusSessionStarted => "focusSessionStarted"
    case FocusSessionCompleted => "focusSessionCompleted"
    case FocusSessionCancelled => "focusSessionCancelled"
    case BreakStarted => "breakStarted"
    case BreakCompleted => "breakCompleted"
    case TaskCreated => "taskCreated"
    case TaskCompleted => "taskCompleted"
    case TaskDeleted => "taskDeleted"
    case DailyGoalReached => "dailyGoalReached"
    case StreakMilestone => "streakMilestone"
    case AppOpened => "appOpened"
    case SettingsChanged => "settingsChanged"
  }

  /** `EventType(rawValue:)`. */
  function FromRawValue(s: string): Option<EventType>
  {
    if s == "focusSessionStarted" then Some(FocusSessionStarted)
    else if s == "focusSessionCompleted" then Some(FocusSessionCompleted)
    else if s == "focusSessionCancelled" then Some(FocusSessionCancelled)
    else if s == "breakStarted" then Some(BreakStarted)
    else if s == "breakCompleted" then Some(BreakCompleted)
    else if s == "taskCreated" then Some(TaskCreated)
    else if s == "taskCompleted" then Some(TaskCompleted)
    else if s == "taskDeleted" then Some(TaskDeleted)
    else if s == "dailyGoalReached" then Some(DailyGoalReached)
    else if s == "streakMilestone" then Some(StreakMilestone)
    else if s == "appOpened" then Some(AppOpened)
    else if s == "settingsChanged" then Some(SettingsChanged)
    else None
  }

  /** Every event type decodes from its raw value. */
  lemma RawValueRoundTrip(t: EventType)
    ensures FromRawValue(RawValue(t)) == Some(t)
  {
    match t {
      case FocusSessionStarted =>
      case FocusSessionCompleted =>
      case FocusSessionCancelled =>
      case BreakStarted =>
      case BreakCompleted =>
      case TaskCreated =>
      case TaskCompleted =>
      case TaskDeleted =>
      case DailyGoalReached =>
      case StreakMilestone =>
      case AppOpened =>
      case SettingsChanged =>
    }
  }

  /** An event; the metadata dictionary is given by its pairs in the dictionary's iteration order. */
  datatype AnalyticsEvent = AnalyticsEvent(id: Uuid, eventType: EventType, timestamp: int,
                                           metadata: Option<seq<(string, string)>>)

  predicate IsSessionCompleted(e: AnalyticsEvent) { e.eventType == FocusSessionCompleted }
  predicate IsSessionStarted(e: AnalyticsEvent) { e.eventType == FocusSessionStarted }
  predicate IsTaskCompleted(e: AnalyticsEvent) { e.eventType == TaskCompleted }

  // ---------------------------------------------------------------------------------------------
  // Periods and counts

  datatype TimePeriod = Today | Week | Month | Year | AllTime

  /** The current instant, and the instants one calendar month and one calendar year before it. */
  datatype Clock = Clock(now: int, monthAgo: int, yearAgo: int)

  /** `TimePeriod.startDate`: seven days are a fixed number of seconds here. */
  function StartDate(p: TimePeriod, c: Clock): Option<int>
  {
    match p
    case Today => Some(Calendar.StartOfDay(c.now))
    case Week => Some(c.now - 7 * Calendar.SecondsPerDay)
    case Month => Some(c.monthAgo)
    case Year => Some(c.yearAgo)
    case AllTime => None
  }

  /** `eventsInPeriod(_:)`. */
  function EventsInPeriod(events: seq<AnalyticsEvent>, p: TimePeriod, c: Clock): seq<AnalyticsEvent>
  {
    match StartDate(p, c)
    case None => events
    case Some(start) => Filter(events, (e: AnalyticsEvent) => e.timestamp >= start)
  }

  /** All time is every event; any other period keeps, in order, exactly the events at or after its
      start; and today's events are among the last seven days'. */
  lemma EventsInPeriodSpec(events: seq<AnalyticsEvent>, p: TimePeriod, c: Clock)
    ensures p == AllTime ==> EventsInPeriod(events, p, c) == events
    ensures SubseqOf(EventsInPeriod(events, p, c), events)
    ensures p != AllTime ==>
              forall e :: e in EventsInPeriod(events, p, c) <==> e in events && e.timestamp >= StartDate(p, c).value
    ensures SubseqOf(EventsInPeriod(events, Today, c), EventsInPeriod(events, Week, c))
  {
    match StartDate(p, c) {
      case None => SubseqOfSelf(events);
      case Some(start) =>
        FilterIsSubseq(events, (e: AnalyticsEvent) => e.timestamp >= start);
        FilterMembers(events, (e: AnalyticsEvent) => e.timestamp >= start);
    }
    var today := Calendar.StartOfDay(c.now);
    var week := c.now - 7 * Calendar.SecondsPerDay;
    FilterStrongerIsSubseq(events, (e: AnalyticsEvent) => e.timestamp >= today, (e: AnalyticsEvent) => e.timestamp >= week);
  }

  /** `getTotalSessions(in:)`. */
  function TotalSessions(events: seq<AnalyticsEvent>, p: TimePeriod, c: Clock): nat
  {
    |Filter(EventsInPeriod(events, p, c), IsSessionCompleted)|
  }

  /** `getCompletedTasks(in:)`. */
  function CompletedTasks(events: seq<AnalyticsEvent>, p: TimePeriod, c: Clock): nat
  {
    |Filter(EventsInPeriod(events, p, c), IsTaskCompleted)|
  }

  /** `getSessionCompletionRate(in:)`, in exact arithmetic. */
  function SessionCompletionRate(events: seq<AnalyticsEvent>, p: TimePeriod, c: Clock): real
  {
    var filtered := EventsInPeriod(events, p, c);
    var started := |Filter(filtered, IsSessionStarted)|;
    var completed := |Filter(filtered, IsSessionCompleted)|;
    if started > 0 then completed as real / started as real else 0.0
  }

  /** Completed sessions and completed tasks are different events: together they never
      outnumber the events in the period. The rate is 0 without a started session and never
      negative. */
  lemma CountsSpec(events: seq<AnalyticsEvent>, p: TimePeriod, c: Clock)
    ensures TotalSessions(events, p, c) + CompletedTasks(events, p, c) <= |EventsInPeriod(events, p, c)|
    ensures |Filter(EventsInPeriod(events, p, c), IsSessionStarted)| == 0 ==> SessionCompletionRate(events, p, c) == 0.0
    ensures SessionCompletionRate(events, p, c) >= 0.0
  {
    FilterDisjoint(EventsInPeriod(events, p, c), IsSessionCompleted, IsTaskCompleted);
  }

  /** Tracking an event raises the all-time session count by one exactly when it is a completed
      focus session. */
  lemma TrackEventCounts(events: seq<AnalyticsEvent>, e: AnalyticsEvent, c: Clock)
    ensures TotalSessions(events + [e], AllTime, c) == TotalSessions(events, AllTime, c) + (if IsSessionCompleted(e) then 1 else 0)
  {
    FilterAppend(events, [e], IsSessionCompleted);
  }

  // ---------------------------------------------------------------------------------------------
  // Export

  const Header := "Type,Timestamp,Metadata\n"

  function PairStrings(pairs: seq<(string, string)>): seq<string>
  {
    if pairs == [] then [] else [pairs[0].0 + ":" + pairs[0].1] + PairStrings(pairs[1..])
  }

  /** `joined(separator:)`. */
  function Join(parts: seq<string>, sep: string): string
  {
    if parts == [] then "" else if |parts| == 1 then parts[0] else parts[0] + sep + Join(parts[1..], sep)
  }

  /** The metadata column: `key:value` pairs joined with ";", empty without metadata. */
  function MetadataString(md: Option<seq<(string, string)>>): string
  {
    match md
    case None => ""
    case Some(pairs) => Join(PairStrings(pairs), ";")
  }

  /** One CSV row without its line break; `renderDate` is the `Date` description. */
  function EventLine(e: AnalyticsEvent, renderDate: int -> string): string
  {
    RawValue(e.eventType) + "," + renderDate(e.timestamp) + "," + MetadataString(e.metadata)
  }

  /** The rows of the export, oldest event first. */
  function Rows(events: seq<AnalyticsEvent>, renderDate: int -> string): string
  {
    if events == [] then ""
    else Rows(events[..|events| - 1], renderDate) + EventLine(events[|events| - 1], renderDate) + "\n"
  }

  /** The text `exportEvents()` returns. */
  function ExportText(events: seq<AnalyticsEvent>, renderDate: int -> string): string
  {
    Header + Rows(events, renderDate)
  }

  function IsLineBreak(c: char): bool { c == '\n' }

  function LineBreaks(s: string): nat
  {
    |Filter(s, IsLineBreak)|
  }

  /** Exporting one more event appends exactly its row, so rows appear in event order. */
  lemma ExportAppends(events: seq<AnalyticsEvent>, e: AnalyticsEvent, renderDate: int -> string)
    ensures ExportText(events + [e], renderDate) == ExportText(events, renderDate) + EventLine(e, renderDate) + "\n"
  {
    assert (events + [e])[..|events|] == events;
  }

  /** When no row contains a line break of its own, the export has the header line plus exactly
      one line per event. */
  lemma ExportLineCount(events: seq<AnalyticsEvent>, renderDate: int -> string)
    requires forall e :: e in events ==> '\n' !in EventLine(e, renderDate)
    ensures ExportText(events, renderDate)[..|Header|] == Header
    ensures LineBreaks(ExportText(events, renderDate)) == |events| + 1
  {
    HeaderLineBreaks();
    RowsLineCount(events, renderDate);
    FilterAppend(Header, Rows(events, renderDate), IsLineBreak);
  }

  lemma HeaderLineBreaks()
    ensures LineBreaks(Header) == 1
  {
    var title := "Type,Timestamp,Metadata";
    assert Header == title + "\n";
    assert forall i :: 0 <= i < |title| ==> !IsLineBreak(title[i]);
    FilterNone(title, IsLineBreak);
    FilterAppend(title, "\n", IsLineBreak);
  }

  lemma {:induction false} RowsLineCount(events: seq<AnalyticsEvent>, renderDate: int -> string)
    requires forall e :: e in events ==> '\n' !in EventLine(e, renderDate)
    ensures LineBreaks(Rows(events, renderDate)) == |events|
  {
    if events != [] {
      var init, last := events[..|events| - 1], events[|events| - 1];
      assert forall e :: e in init ==> e in events;
      RowsLineCount(init, renderDate);
      var line := EventLine(last, renderDate);
      assert forall i :: 0 <= i < |line| ==> !IsLineBreak(line[i]);
      FilterNone(line, IsLineBreak);
      FilterAppend(Rows(init, renderDate), line, IsLineBreak);
      FilterAppend(Rows(init, renderDate) + line, "\n", IsLineBreak);
    }
  }

  /** One step of the export loop. */
  lemma ExportStep(events: seq<AnalyticsEvent>, i: nat, renderDate: int -> string)
    requires i < |events|
    ensures ExportText(events[..i + 1], renderDate) == ExportText(events[..i], renderDate) + EventLine(events[i], renderDate) + "\n"
  {
    assert events[..i + 1] == events[..i] + [events[i]];
    ExportAppends(events[..i], events[i], renderDate);
  }

  // ---------------------------------------------------------------------------------------------
  // Streaks

  /** The distinct days with a completed focus session. */
  function CompletedDays(events: seq<AnalyticsEvent>): set<int>
  {
    set e | e in events && IsSessionCompleted(e) :: Calendar.DayOf(e.timestamp)
  }

  /** There is a day with a completed session exactly when some session was completed. */
  lemma CompletedDaysNonEmpty(events: seq<AnalyticsEvent>)
    ensures CompletedDays(events) != {} <==> Filter(events, IsSessionCompleted) != []
  {
    FilterMembers(events, IsSessionCompleted);
    if Filter(events, IsSessionCompleted) != [] {
      var e := Filter(events, IsSessionCompleted)[0];
      assert Calendar.DayOf(e.timestamp) in CompletedDays(events);
    }
  }

  predicate IsMax(s: set<int>, m: int) { forall x :: x in s ==> x <= m }

  predicate IsMin(s: set<int>, m: int) { forall x :: x in s ==> m <= x }

  /** Some element of a non-empty set. */
  lemma PickDay(s: set<int>) returns (y: int)
    requires s != {}
    ensures y in s
  {
    if forall z :: z !in s {
      assert false;
    }
    y :| y in s;
  }

  lemma MaxExists(s: set<int>)
    requires s != {}
    ensures exists m :: m in s && IsMax(s, m)
  {
    var y := PickDay(s);
    if s == {y} {
      assert IsMax(s, y);
    } else {
      MaxExists(s - {y});
      var hi :| hi in s - {y} && IsMax(s - {y}, hi);
      var m := if y > hi then y else hi;
      forall x | x in s
        ensures x <= m
      {
        if x != y {
          assert x in s - {y};
        }
      }
    }
  }

  lemma MinExists(s: set<int>)
    requires s != {}
    ensures exists m :: m in s && IsMin(s, m)
  {
    var y := PickDay(s);
    if s == {y} {
      assert IsMin(s, y);
    } else {
      MinExists(s - {y});
      var lo :| lo in s - {y} && IsMin(s - {y}, lo);
      var m := if y < lo then y else lo;
      forall x | x in s
        ensures m <= x
      {
        if x != y {
          assert x in s - {y};
        }
      }
    }
  }

  function MaxOf(s: set<int>): (m: int)
    requires s != {}
    ensures m in s && IsMax(s, m)
  {
    MaxExists(s);
    var m :| m in s && IsMax(s, m);
    m
  }

  function MinOf(s: set<int>): (m: int)
    requires s != {}
    ensures m in s && IsMin(s, m)
  {
    MinExists(s);
    var m :| m in s && IsMin(s, m);
    m
  }

  predicate StrictlyDescending(s: seq<int>) { forall i, j :: 0 <= i < j < |s| ==> s[i] > s[j] }

  predicate StrictlyAscending(s: seq<int>) { forall i, j :: 0 <= i < j < |s| ==> s[i] < s[j] }

  /** `sorted(by: >)` of a set of days. */
  function SortedDescending(s: set<int>): (r: seq<int>)
    ensures |r| == |s| && StrictlyDescending(r)
    ensures forall x :: x in r <==> x in s
    ensures s != {} ==> r[0] == MaxOf(s)
    decreases |s|
  {
    if s == {} then []
    else
      var m := MaxOf(s);
      var rest := SortedDescending(s - {m});
      assert forall x :: x in rest ==> x < m;
      [m] + rest
  }

  /** `sorted()` of a set of days. */
  function SortedAscending(s: set<int>): (r: seq<int>)
    ensures |r| == |s| && StrictlyAscending(r)
    ensures forall x :: x in r <==> x in s
    decreases |s|
  {
    if s == {} then []
    else
      var m := MinOf(s);
      var rest := SortedAscending(s - {m});
      assert forall x :: x in rest ==> x > m;
      [m] + rest
  }

  /** The days `x` to `x + k - 1` all appear in `d`. */
  predicate DaysRun(d: set<int>, x: int, k: nat)
  {
    forall y :: x <= y < x + k ==> y in d
  }

  lemma RunStartPresent(d: set<int>, x: int, k: nat)
    requires k >= 1 && DaysRun(d, x, k)
    ensures x in d
  {
  }

  /** The streak loop of `getCurrentStreak()` from a cursor day: a day is accepted when it is the
      cursor or the day before it, and the cursor then moves to the day before the accepted day. */
  function StreakFrom(days: seq<int>, cursor: int): (n: nat)
    ensures n <= |days|
  {
    if days == [] then 0
    else if days[0] == cursor || days[0] == cursor - 1 then 1 + StreakFrom(days[1..], days[0] - 1)
    else 0
  }

  /** The acceptance rule as written, over any list of days: the first accepted day is the cursor
      or the day before it, each further accepted day is one or two days before the previous one,
      and the scan stops at the first day that breaks this. */
  lemma {:induction false} StreakFromSpec(days: seq<int>, cursor: int)
    ensures var k := StreakFrom(days, cursor);
            (k > 0 ==> days[0] == cursor || days[0] == cursor - 1) &&
            (forall j :: 0 < j < k ==> days[j] == days[j - 1] - 1 || days[j] == days[j - 1] - 2) &&
            (k < |days| && k == 0 ==> days[0] != cursor && days[0] != cursor - 1) &&
            (k < |days| && k > 0 ==> days[k] != days[k - 1] - 1 && days[k] != days[k - 1] - 2)
  {
    if days != [] && (days[0] == cursor || days[0] == cursor - 1) {
      var rest := days[1..];
      StreakFromSpec(rest, days[0] - 1);
      assert forall j :: 0 <= j < |rest| ==> rest[j] == days[j + 1];
    }
  }

  /** One step of the scan at position `i`. */
  lemma StreakStep(days: seq<int>, i: nat, cursor: int)
    requires i < |days|
    ensures StreakFrom(days[i..], cursor) ==
            if days[i] == cursor || days[i] == cursor - 1 then 1 + StreakFrom(days[i + 1..], days[i] - 1) else 0
  {
    assert days[i..][0] == days[i] && days[i..][1..] == days[i + 1..];
  }

  /** `getCurrentStreak()`, as written, with `now` for `Date()`. */
  function CurrentStreak(events: seq<AnalyticsEvent>, now: int): nat
  {
    if Filter(events, IsSessionCompleted) == [] then 0
    else StreakFrom(SortedDescending(CompletedDays(events)), Calendar.DayOf(now))
  }

  /** The streak never exceeds the number of distinct days, and is positive exactly when there is
      a completed session and the latest such day is today or yesterday. */
  lemma CurrentStreakSpec(events: seq<AnalyticsEvent>, now: int)
    ensures CurrentStreak(events, now) <= |CompletedDays(events)|
    ensures CurrentStreak(events, now) > 0 <==>
              CompletedDays(events) != {} &&
              (MaxOf(CompletedDays(events)) == Calendar.DayOf(now) || MaxOf(CompletedDays(events)) == Calendar.DayOf(now) - 1)
  {
    CompletedDaysNonEmpty(events);
  }

  /** As written, a skipped day does not end the streak: with sessions today and two days ago but
      not yesterday, the streak is 2. */
  lemma CurrentStreakSkipsGap(id1: Uuid, id2: Uuid)
    ensures var today := 2 * Calendar.SecondsPerDay;
            var events := [AnalyticsEvent(id1, FocusSessionCompleted, today, None),
                           AnalyticsEvent(id2, FocusSessionCompleted, 0, None)];
            CompletedDays(events) == {2, 0} && 1 !in CompletedDays(events) && CurrentStreak(events, today) == 2
  {
    var today := 2 * Calendar.SecondsPerDay;
    var events := [AnalyticsEvent(id1, FocusSessionCompleted, today, None),
                   AnalyticsEvent(id2, FocusSessionCompleted, 0, None)];
    var d := CompletedDays(events);
    assert Calendar.DayOf(today) == 2 && Calendar.DayOf(0) == 0;
    assert events[0] in events && events[1] in events;
    assert d == {2, 0};
    CompletedDaysNonEmpty(events);
    var s := SortedDescending(d);
    assert s == [2, 0] by {
      assert |s| == 2 && s[0] > s[1] && s[0] in d && s[1] in d;
    }
    assert s[1..] == [0];
    assert StreakFrom([0], 1) == 1 by {
      assert [0][1..] == [];
    }
  }

  /** After the first day, only the day right before the previous one continues the streak. */
  function ConsecutiveFrom(days: seq<int>, cursor: int): (n: nat)
    ensures n <= |days|
  {
    if days == [] then 0
    else if days[0] == cursor then 1 + ConsecutiveFrom(days[1..], cursor - 1)
    else 0
  }

  /** The streak as evidently intended: the latest day is today or yesterday, and each further day
      is the one right before. */
  function CorrectedStreakFrom(days: seq<int>, today: int): (n: nat)
    ensures n <= |days|
  {
    if days == [] then 0
    else if days[0] == today || days[0] == today - 1 then 1 + ConsecutiveFrom(days[1..], days[0] - 1)
    else 0
  }

  function CorrectedCurrentStreak(events: seq<AnalyticsEvent>, now: int): nat
  {
    if Filter(events, IsSessionCompleted) == [] then 0
    else CorrectedStreakFrom(SortedDescending(CompletedDays(events)), Calendar.DayOf(now))
  }

  /** On strictly descending days that start at or below the cursor, the count is the length of the
      run cursor, cursor - 1, ... at the front of the list, and the day that would extend the run
      is absent. */
  lemma {:induction false} ConsecutiveFromSpec(days: seq<int>, cursor: int)
    requires StrictlyDescending(days) && (days != [] ==> days[0] <= cursor)
    ensures var k := ConsecutiveFrom(days, cursor);
            (forall j :: 0 <= j < k ==> days[j] == cursor - j) && (cursor - k) !in days
  {
    if days != [] && days[0] == cursor {
      ConsecutiveFromSpec(days[1..], cursor - 1);
      var k := ConsecutiveFrom(days, cursor);
      assert forall j :: 1 <= j < k ==> days[j] == days[1..][j - 1];
      assert days == [days[0]] + days[1..];
    }
  }

  /** The corrected streak over days listed newest first is positive exactly when the latest day
      is today or yesterday, and is then the number of consecutive days ending at the latest one;
      the day before that run is absent. It never exceeds the streak as written. */
  lemma CorrectedStreakSpec(d: set<int>, s: seq<int>, today: int)
    requires StrictlyDescending(s) && s != [] && forall x :: x in s <==> x in d
    ensures var k := CorrectedStreakFrom(s, today);
            k > 0 ==> s[0] in d && IsMax(d, s[0]) && (s[0] == today || s[0] == today - 1) &&
                      DaysRun(d, s[0] - k + 1, k) && s[0] - k !in d
    ensures CorrectedStreakFrom(s, today) > 0 <==> s[0] == today || s[0] == today - 1
    ensures CorrectedStreakFrom(s, today) <= StreakFrom(s, today)
  {
    CorrectedOnSeq(s, today);
    var k := CorrectedStreakFrom(s, today);
    if k > 0 {
      forall y | s[0] - k + 1 <= y < s[0] + 1
        ensures y in d
      {
        assert y in s;
      }
      forall x | x in d
        ensures x <= s[0]
      {
        var i :| 0 <= i < |s| && s[i] == x;
      }
    }
  }

  /** The same on strictly descending days. */
  lemma CorrectedOnSeq(s: seq<int>, today: int)
    requires StrictlyDescending(s) && s != []
    ensures var k := CorrectedStreakFrom(s, today);
            k > 0 ==> (s[0] == today || s[0] == today - 1) &&
                      (forall y :: s[0] - k < y <= s[0] ==> y in s) && s[0] - k !in s
    ensures CorrectedStreakFrom(s, today) > 0 <==> s[0] == today || s[0] == today - 1
    ensures CorrectedStreakFrom(s, today) <= StreakFrom(s, today)
  {
    if s[0] == today || s[0] == today - 1 {
      CorrectedRun(s);
      ConsecutiveAtMostStreak(s[1..], s[0] - 1);
    }
  }

  /** Both streaks of the events are those of their days with a completed session, and the
      corrected one never exceeds the one as written. */
  lemma CorrectedCurrentStreakSpec(events: seq<AnalyticsEvent>, now: int)
    ensures var d := CompletedDays(events);
            CorrectedCurrentStreak(events, now) == (if d == {} then 0 else CorrectedStreakFrom(SortedDescending(d), Calendar.DayOf(now))) &&
            CurrentStreak(events, now) == (if d == {} then 0 else StreakFrom(SortedDescending(d), Calendar.DayOf(now)))
    ensures CorrectedCurrentStreak(events, now) <= CurrentStreak(events, now)
  {
    CompletedDaysNonEmpty(events);
    if CompletedDays(events) != {} {
      var d := CompletedDays(events);
      CorrectedOnSeq(SortedDescending(d), Calendar.DayOf(now));
    }
  }

  /** On strictly descending days, the first day and the `ConsecutiveFrom` days after it form a
      run that the next lower day does not extend. */
  lemma CorrectedRun(s: seq<int>)
    requires StrictlyDescending(s) && s != []
    ensures var k := 1 + ConsecutiveFrom(s[1..], s[0] - 1);
            (forall y :: s[0] - k < y <= s[0] ==> y in s) && s[0] - k !in s
  {
    var rest := s[1..];
    DescendingTail(s);
    ConsecutiveFromSpec(rest, s[0] - 1);
    var k := 1 + ConsecutiveFrom(rest, s[0] - 1);
    assert forall j :: 1 <= j < k ==> s[j] == rest[j - 1];
    PrefixRunPresent(s, k);
    assert s[0] - k !in rest;
    assert s == [s[0]] + rest;
  }

  /** When the first `k` days count down one at a time, they are all present. */
  lemma PrefixRunPresent(s: seq<int>, k: nat)
    requires s != [] && k <= |s| && forall j :: 1 <= j < k ==> s[j] == s[0] - j
    ensures forall y :: s[0] - k < y <= s[0] ==> y in s
  {
    forall y | s[0] - k < y <= s[0]
      ensures y in s
    {
      assert s[s[0] - y] == y;
    }
  }

  lemma DescendingTail(s: seq<int>)
    requires StrictlyDescending(s) && s != []
    ensures StrictlyDescending(s[1..]) && (|s| > 1 ==> s[1..][0] < s[0])
  {
    var rest := s[1..];
    forall i, j | 0 <= i < j < |rest|
      ensures rest[i] > rest[j]
    {
      assert rest[i] == s[i + 1] && rest[j] == s[j + 1];
    }
  }

  lemma {:induction false} ConsecutiveAtMostStreak(days: seq<int>, cursor: int)
    ensures ConsecutiveFrom(days, cursor) <= StreakFrom(days, cursor)
  {
    if days != [] && days[0] == cursor {
      ConsecutiveAtMostStreak(days[1..], cursor - 1);
    }
  }

  /** The length of the run of consecutive days ending at position `i` of ascending days. */
  function RunEndingAt(days: seq<int>, i: nat): (n: nat)
    requires i < |days|
    ensures 1 <= n <= i + 1
  {
    if i > 0 && days[i] - days[i - 1] == 1 then RunEndingAt(days, i - 1) + 1 else 1
  }

  function Max(a: int, b: int): int { if a >= b then a else b }

  /** The longest run ending among the first `n` positions. */
  function MaxRun(days: seq<int>, n: nat): (r: nat)
    requires 1 <= n <= |days|
    ensures 1 <= r <= n
  {
    if n == 1 then RunEndingAt(days, 0) else Max(MaxRun(days, n - 1), RunEndingAt(days, n - 1))
  }

  /** `getLongestStreak()`. */
  function LongestStreak(events: seq<AnalyticsEvent>): nat
  {
    if Filter(events, IsSessionCompleted) == [] then 0
    else
      CompletedDaysNonEmpty(events);
      var days := SortedAscending(CompletedDays(events));
      MaxRun(days, |days|)
  }

  /** A run of length `n` ending at `i` is made of the days `days[i] - n + 1` to `days[i]`, at
      the positions `i - n + 1` to `i`. */
  lemma {:induction false} RunIsConsecutive(days: seq<int>, i: nat)
    requires i < |days|
    ensures forall j :: i - RunEndingAt(days, i) < j <= i ==> days[j] == days[i] - (i - j)
  {
    if i > 0 && days[i] - days[i - 1] == 1 {
      RunIsConsecutive(days, i - 1);
    }
  }

  /** If the `k` days `x` to `x + k - 1` are all present in strictly ascending days and the last
      sits at position `j`, the run ending at `j` is at least `k` long. */
  lemma {:induction false} RunCovers(days: seq<int>, x: int, k: nat, j: nat)
    requires StrictlyAscending(days) && j < |days| && 1 <= k && days[j] == x + k - 1
    requires forall y :: x <= y < x + k ==> y in days
    ensures RunEndingAt(days, j) >= k
  {
    if k > 1 {
      assert x + k - 2 in days;
      var j' :| 0 <= j' < |days| && days[j'] == x + k - 2;
      RunCovers(days, x, k - 1, j - 1);
    }
  }

  lemma {:induction false} MaxRunBounds(days: seq<int>, n: nat)
    requires 1 <= n <= |days|
    ensures forall j :: 0 <= j < n ==> RunEndingAt(days, j) <= MaxRun(days, n)
    ensures exists j :: 0 <= j < n && RunEndingAt(days, j) == MaxRun(days, n)
  {
    if n == 1 {
      assert RunEndingAt(days, 0) == MaxRun(days, 1);
    } else {
      MaxRunBounds(days, n - 1);
      var j :| 0 <= j < n - 1 && RunEndingAt(days, j) == MaxRun(days, n - 1);
      if MaxRun(days, n) == RunEndingAt(days, n - 1) {
        assert 0 <= n - 1 < n;
      } else {
        assert RunEndingAt(days, j) == MaxRun(days, n);
      }
    }
  }

  /** On strictly ascending days listing the set `d`, the longest run is present as consecutive
      days, and every run of consecutive days present is at most that long. */
  lemma MaxRunSpec(days: seq<int>, d: set<int>)
    requires StrictlyAscending(days) && days != []
    requires forall z :: z in days <==> z in d
    ensures exists x :: DaysRun(d, x, MaxRun(days, |days|))
    ensures forall x: int, k: nat :: k >= 1 && DaysRun(d, x, k) ==> k <= MaxRun(days, |days|)
  {
    var r := MaxRun(days, |days|);
    MaxRunBounds(days, |days|);
    var j :| 0 <= j < |days| && RunEndingAt(days, j) == r;
    RunIsConsecutive(days, j);
    var x := days[j] - r + 1;
    forall y | x <= y < x + r
      ensures y in d
    {
      assert days[j - (days[j] - y)] == y;
    }
    assert DaysRun(d, x, r);
    forall x: int, k: nat | k >= 1 && DaysRun(d, x, k)
      ensures k <= r
    {
      assert x + k - 1 in d;
      var i :| 0 <= i < |days| && days[i] == x + k - 1;
      RunCovers(days, x, k, i);
    }
  }

  /** The longest streak is 0 exactly without completed sessions; otherwise it is at most the
      number of distinct days, some run of that many consecutive days is present, and every run
      of consecutive days present is at most that long. */
  lemma LongestStreakSpec(events: seq<AnalyticsEvent>)
    ensures LongestStreak(events) == 0 <==> CompletedDays(events) == {}
    ensures LongestStreak(events) <= |CompletedDays(events)|
    ensures LongestStreak(events) > 0 ==> exists x :: DaysRun(CompletedDays(events), x, LongestStreak(events))
    ensures forall x: int, k: nat :: k >= 1 && DaysRun(CompletedDays(events), x, k) ==> k <= LongestStreak(events)
  {
    var d := CompletedDays(events);
    CompletedDaysNonEmpty(events);
    if d != {} {
      MaxRunSpec(SortedAscending(d), d);
    } else {
      forall x: int, k: nat | k >= 1 && DaysRun(d, x, k)
        ensures false
      {
        RunStartPresent(d, x, k);
      }
    }
  }

  // ---------------------------------------------------------------------------------------------
  // The service

  class AnalyticsService {
    var events: seq<AnalyticsEvent>

    /** `init()`: nothing is loaded yet. */
    constructor()
      ensures events == []
    {
      events := [];
    }

    /** `trackEvent(_:)`: appends; saving is not implemented by the service. */
    method TrackEvent(event: AnalyticsEvent)
      modifies this
      ensures events == old(events) + [event]
    {
      events := events + [event];
    }

    method ClearEvents()
      modifies this
      ensures events == []
    {
      events := [];
    }

    method GetTotalSessions(p: TimePeriod, c: Clock) returns (n: int)
      ensures n == TotalSessions(events, p, c)
    {
      n := |Filter(EventsInPeriod(events, p, c), IsSessionCompleted)|;
    }

    method GetCompletedTasks(p: TimePeriod, c: Clock) returns (n: int)
      ensures n == CompletedTasks(events, p, c)
    {
      n := |Filter(EventsInPeriod(events, p, c), IsTaskCompleted)|;
    }

    method GetSessionCompletionRate(p: TimePeriod, c: Clock) returns (rate: real)
      ensures rate == SessionCompletionRate(events, p, c)
    {
      var filtered := EventsInPeriod(events, p, c);
      var started := |Filter(filtered, IsSessionStarted)|;
      var completed := |Filter(filtered, IsSessionCompleted)|;
      if started == 0 {
        return 0.0;
      }
      rate := completed as real / started as real;
    }

    /** `getCurrentStreak()`: the loop over the days, newest first, stopping at the first day that
        is neither the cursor nor the day before it. */
    method GetCurrentStreak(now: int) returns (streak: int)
      ensures streak == CurrentStreak(events, now)
    {
      if Filter(events, IsSessionCompleted) == [] {
        return 0;
      }
      var sortedDays := SortedDescending(CompletedDays(events));
      streak := 0;
      var currentDate := Calendar.DayOf(now);
      var i := 0;
      while i < |sortedDays|
        invariant 0 <= i <= |sortedDays|
        invariant streak + StreakFrom(sortedDays[i..], currentDate) == StreakFrom(sortedDays, Calendar.DayOf(now))
        decreases |sortedDays| - i
      {
        var day := sortedDays[i];
        StreakStep(sortedDays, i, currentDate);
        if day == currentDate || day == currentDate - 1 {
          streak := streak + 1;
          currentDate := day - 1;
        } else {
          break;
        }
        i := i + 1;
      }
    }

    /** `getLongestStreak()`: one pass over the days, oldest first. */
    method GetLongestStreak() returns (r: int)
      ensures r == LongestStreak(events)
    {
      if Filter(events, IsSessionCompleted) == [] {
        return 0;
      }
      CompletedDaysNonEmpty(events);
      var sortedDays := SortedAscending(CompletedDays(events));
      var longestStreak := 0;
      var currentStreak := 1;
      for i := 1 to |sortedDays|
        invariant currentStreak == RunEndingAt(sortedDays, i - 1)
        invariant Max(longestStreak, currentStreak) == MaxRun(sortedDays, i)
        invariant currentStreak == 1 || longestStreak >= currentStreak
      {
        var dayDiff := sortedDays[i] - sortedDays[i - 1];
        if dayDiff == 1 {
          currentStreak := currentStreak + 1;
          longestStreak := Max(longestStreak, currentStreak);
        } else {
          currentStreak := 1;
        }
      }
      r := Max(longestStreak, currentStreak);
    }

    /** `exportEvents()`: the header, then one row per event appended in order. */
    method ExportEvents(renderDate: int -> string) returns (csv: string)
      ensures csv == ExportText(events, renderDate)
    {
      csv := Header;
      for i := 0 to |events|
        invariant csv == ExportText(events[..i], renderDate)
      {
        ExportStep(events, i, renderDate);
        csv := csv + EventLine(events[i], renderDate) + "\n";
      }
      assert events[..|events|] == events;
    }
  }
}
