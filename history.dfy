/** History entries for completed tasks and focus sessions, built from a task or a session, and the
    array queries over them. `UUID()` and `Date()` inside the initializers are parameters, and so is
    the ISO 8601 date formatter. */
module History {
  import opened Seqs
  import opened Text
  import Calendar
  import Sorting
  import Tasks
  import Sessions

  datatype ItemType = TaskItem | FocusSessionItem | BreakSessionItem

  function ItemTypeRaw(t: ItemType): string
  {
    match t
    case TaskItem => "Task"
    case FocusSessionItem => "Focus Session"
    case BreakSessionItem => "Break"
  }

  datatype HistoryItem = HistoryItem(
    id: Uuid,
    itemType: ItemType,
    date: int,
    referenceID: Uuid,
    title: string,
    duration: Option<int>,
    metadata: Option<map<string, string>>)

  /** `HistoryItem(from: task)`. */
  function FromTask(id: Uuid, task: Tasks.Task, now: int, iso: int -> string): HistoryItem
  {
    HistoryItem(
      id, TaskItem,
      if task.completedDate.Some? then task.completedDate.value else now,
      task.id, task.title, None,
      Some(map["priority" := Tasks.PriorityRaw(task.priority), "createdDate" := iso(task.createdDate)]))
  }

  /** `HistoryItem(from: session)`. */
  function FromSession(id: Uuid, session: Sessions.FocusSession, now: int, iso: int -> string): HistoryItem
  {
    HistoryItem(
      id,
      if session.sessionType == Sessions.Focus then FocusSessionItem else BreakSessionItem,
      if session.endTime.Some? then session.endTime.value else now,
      session.id, Sessions.KindRaw(session.sessionType), Some(session.actualDuration),
      Some(map["startTime" := iso(session.startTime), "wasCompleted" := if session.wasCompleted then "true" else "false"]))
  }

  /** The session kind an item built from a session records, read back from the item: its type
      and title. */
  function KindOfItem(h: HistoryItem): Option<Sessions.SessionKind>
  {
    if h.itemType == FocusSessionItem then Some(Sessions.Focus)
    else if h.itemType == BreakSessionItem && h.title == "Short Break" then Some(Sessions.ShortBreak)
    else if h.itemType == BreakSessionItem && h.title == "Long Break" then Some(Sessions.LongBreak)
    else None
  }

  /** An item built from a session refers back to it and records what the session was: focus items
      come exactly from focus sessions, the kind and completion flag read back from the item, and
      its duration is the session's actual time. */
  lemma FromSessionRoundTrip(id: Uuid, s: Sessions.FocusSession, now: int, iso: int -> string)
    ensures var h := FromSession(id, s, now, iso);
            h.id == id && h.referenceID == s.id &&
            (h.itemType == FocusSessionItem <==> s.sessionType == Sessions.Focus) &&
            h.itemType != TaskItem &&
            KindOfItem(h) == Some(s.sessionType) &&
            h.duration == Some(s.actualDuration) &&
            h.metadata.Some? && "wasCompleted" in h.metadata.value &&
            (h.metadata.value["wasCompleted"] == "true" <==> s.wasCompleted) &&
            h.date == (if s.endTime.Some? then s.endTime.value else now)
  {
  }

  /** An item built from a task is a task item that refers back to it, has no duration, is dated
      by the completion date when there is one, and records the priority's raw value. */
  lemma FromTaskSpec(id: Uuid, t: Tasks.Task, now: int, iso: int -> string)
    ensures var h := FromTask(id, t, now, iso);
            h.id == id && h.itemType == TaskItem && h.referenceID == t.id && h.title == t.title &&
            h.duration.None? &&
            h.metadata.Some? && "priority" in h.metadata.value &&
            h.metadata.value["priority"] == Tasks.PriorityRaw(t.priority) &&
            h.date == (if t.completedDate.Some? then t.completedDate.value else now)
  {
  }

  /** The raw values name the three priorities apart, so the recorded priority identifies it. */
  lemma PriorityRawInjective(a: Tasks.Priority, b: Tasks.Priority)
    ensures Tasks.PriorityRaw(a) == Tasks.PriorityRaw(b) ==> a == b
  {
  }

  /** `formattedDuration`: hours and minutes from one hour up, minutes alone below; seconds are
      dropped. */
  function FormattedDuration(h: HistoryItem): Option<string>
  {
    match h.duration
    case None => None
    case Some(d) =>
      var hours, minutes := Sessions.Hours(d), Sessions.MinutesPart(d);
      if hours > 0 then Some(IntString(hours) + "h " + IntString(minutes) + "m")
      else Some(IntString(minutes) + "m")
  }

  lemma FormattedDurationSpec(h: HistoryItem)
    ensures FormattedDuration(h).None? <==> h.duration.None?
    ensures h.duration.Some? && h.duration.value >= 3600 ==>
              FormattedDuration(h) == Some(Digits(h.duration.value / 3600) + "h " + Digits(h.duration.value / 60 % 60) + "m")
    ensures h.duration.Some? && 0 <= h.duration.value < 3600 ==>
              FormattedDuration(h) == Some(Digits(h.duration.value / 60) + "m")
  {
    if h.duration.Some? && h.duration.value >= 0 {
      Sessions.DecomposeDuration(h.duration.value);
    }
  }

  predicate IsTaskItem(h: HistoryItem) { h.itemType == TaskItem }
  predicate IsFocusItem(h: HistoryItem) { h.itemType == FocusSessionItem }
  predicate IsBreakItem(h: HistoryItem) { h.itemType == BreakSessionItem }
  predicate IsSessionItem(h: HistoryItem) { h.itemType != TaskItem }

  /** The array extensions `tasks`, `focusSessions` and `breakSessions`. */
  function TaskItems(s: seq<HistoryItem>): seq<HistoryItem> { Filter(s, IsTaskItem) }
  function FocusSessionItems(s: seq<HistoryItem>): seq<HistoryItem> { Filter(s, IsFocusItem) }
  function BreakSessionItems(s: seq<HistoryItem>): seq<HistoryItem> { Filter(s, IsBreakItem) }

  /** The three type filters split the list: every item lands in exactly one of them. */
  lemma {:induction false} TypeFiltersPartition(s: seq<HistoryItem>)
    ensures |TaskItems(s)| + |FocusSessionItems(s)| + |BreakSessionItems(s)| == |s|
    ensures multiset(TaskItems(s)) + multiset(FocusSessionItems(s)) + multiset(BreakSessionItems(s)) == multiset(s)
  {
    if s != [] {
      TypeFiltersPartition(s[1..]);
      assert s == [s[0]] + s[1..];
    }
  }

  function DateKey(h: HistoryItem): int { -h.date }

  /** The array extension `sortedByDate`: newest first. */
  function SortedByDate(s: seq<HistoryItem>): seq<HistoryItem> { Sorting.SortBy(s, DateKey) }

  lemma SortedByDateSpec(s: seq<HistoryItem>)
    ensures multiset(SortedByDate(s)) == multiset(s)
    ensures forall i, j :: 0 <= i < j < |SortedByDate(s)| ==> SortedByDate(s)[i].date >= SortedByDate(s)[j].date
  {
    Sorting.SortBySpec(s, DateKey);
  }

  function DayKey(h: HistoryItem): int { Calendar.StartOfDay(h.date) }

  /** The array extension `groupedByDate` (`Dictionary(grouping:by:)` on the start of each item's
      day): one entry per day that occurs, holding that day's items in list order. */
  function GroupedByDate(s: seq<HistoryItem>): map<int, seq<HistoryItem>>
  {
    map k | k in Days(s) :: Filter(s, (h: HistoryItem) => DayKey(h) == k)
  }

  /** The start-of-day instants the items fall on. */
  function Days(s: seq<HistoryItem>): set<int>
  {
    set h | h in s :: DayKey(h)
  }

  /** Every item sits in the group of its own day and in no other; no group is empty and each keeps
      the list order. */
  lemma GroupedByDateSpec(s: seq<HistoryItem>)
    ensures forall h :: h in s ==> DayKey(h) in GroupedByDate(s) && h in GroupedByDate(s)[DayKey(h)]
    ensures forall k, h :: k in GroupedByDate(s) && h in GroupedByDate(s)[k] ==> h in s && DayKey(h) == k
    ensures forall k :: k in GroupedByDate(s) ==>
              GroupedByDate(s)[k] != [] && SubseqOf(GroupedByDate(s)[k], s)
  {
    var g := GroupedByDate(s);
    forall k | k in g
      ensures forall h :: h in g[k] <==> h in s && DayKey(h) == k
      ensures g[k] != [] && SubseqOf(g[k], s)
    {
      FilterMembers(s, (h: HistoryItem) => DayKey(h) == k);
      FilterIsSubseq(s, (h: HistoryItem) => DayKey(h) == k);
      var h :| h in s && DayKey(h) == k;
      assert h in g[k];
    }
  }

  /** Duration of a focus-session item, 0 for any other item or a missing duration. */
  function FocusSeconds(h: HistoryItem): int
  {
    if h.itemType == FocusSessionItem && h.duration.Some? then h.duration.value else 0
  }

  /** The durations that are present, in order (`compactMap { $0.duration }`). */
  function Durations(s: seq<HistoryItem>): seq<int>
  {
    if s == [] then []
    else (if s[0].duration.Some? then [s[0].duration.value] else []) + Durations(s[1..])
  }

  function Sum(s: seq<int>): int
  {
    if s == [] then 0 else s[0] + Sum(s[1..])
  }

  /** The array extension `totalFocusTime`. */
  function TotalFocusTime(s: seq<HistoryItem>): int { Sum(Durations(FocusSessionItems(s))) }

  /** The focus total adds the durations of focus-session items only, skipping missing ones. */
  lemma TotalFocusTimeSpec(s: seq<HistoryItem>)
    ensures TotalFocusTime(s) == SumOf(s, FocusSeconds)
  {
    DurationsSum(FocusSessionItems(s));
    SumOfFilter(s, IsFocusItem, DurationOrZero, FocusSeconds);
  }

  function DurationOrZero(h: HistoryItem): int { if h.duration.Some? then h.duration.value else 0 }

  lemma {:induction false} DurationsSum(s: seq<HistoryItem>)
    ensures Sum(Durations(s)) == SumOf(s, DurationOrZero)
  {
    if s != [] {
      DurationsSum(s[1..]);
      SumAppend(if s[0].duration.Some? then [s[0].duration.value] else [], Durations(s[1..]));
    }
  }

  lemma {:induction false} SumAppend(a: seq<int>, b: seq<int>)
    ensures Sum(a + b) == Sum(a) + Sum(b)
  {
    if a == [] {
      assert a + b == b;
    } else {
      SumAppend(a[1..], b);
      assert (a + b)[1..] == a[1..] + b;
    }
  }
}
