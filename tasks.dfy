/** A user's task: completion toggles (value semantics, so each mutating method is a function from
    the old task to the new one), the overdue and due-today tests, and the array queries. */
module Tasks {
  import opened Seqs
  import Calendar
  import Sorting

  datatype Priority = Low | Medium | High

  function PriorityRaw(p: Priority): string
  {
    match p
    case Low => "Low"
    case Medium => "Medium"
    case High => "High"
  }

  datatype Task = Task(
    id: Uuid,
    title: string,
    isCompleted: bool,
    createdDate: int,
    completedDate: Option<int>,
    dueDate: Option<int>,
    priority: Priority,
    notes: Option<string>)

  /** `Task(title:)` with every other argument defaulted; `id` and `now` stand for `UUID()` and `Date()`. */
  function NewTask(id: Uuid, title: string, now: int): Task
  {
    Task(id, title, false, now, None, None, Medium, None)
  }

  /** A task's completion date is recorded exactly while it is completed. */
  predicate DateMatchesFlag(t: Task)
  {
    t.completedDate.Some? <==> t.isCompleted
  }

  /** Every field except the two completion fields. */
  predicate SameExceptCompletion(a: Task, b: Task)
  {
    a.id == b.id && a.title == b.title && a.createdDate == b.createdDate &&
    a.dueDate == b.dueDate && a.priority == b.priority && a.notes == b.notes
  }

  /** `toggleCompletion()` at instant `now`. */
  function Toggled(t: Task, now: int): Task
  {
    var done := !t.isCompleted;
    t.(isCompleted := done, completedDate := if done then Some(now) else None)
  }

  /** `complete()` at instant `now`. */
  function Completed(t: Task, now: int): Task
  {
    t.(isCompleted := true, completedDate := Some(now))
  }

  /** `uncomplete()`. */
  function Uncompleted(t: Task): Task
  {
    t.(isCompleted := false, completedDate := None)
  }

  /** Toggling flips the flag, stamps the date exactly when the task becomes completed, and leaves
      every other field alone. */
  lemma ToggledSpec(t: Task, now: int)
    ensures Toggled(t, now).isCompleted == !t.isCompleted
    ensures DateMatchesFlag(Toggled(t, now))
    ensures Toggled(t, now).isCompleted ==> Toggled(t, now).completedDate == Some(now)
    ensures SameExceptCompletion(Toggled(t, now), t)
  {
  }

  /** Toggling twice restores the flag; a task that was open with no date comes back unchanged,
      while a completed one comes back with the second call's date. */
  lemma ToggleTwice(t: Task, a: int, b: int)
    ensures Toggled(Toggled(t, a), b).isCompleted == t.isCompleted
    ensures !t.isCompleted && t.completedDate.None? ==> Toggled(Toggled(t, a), b) == t
    ensures t.isCompleted ==> Toggled(Toggled(t, a), b) == t.(completedDate := Some(b))
  {
  }

  /** `complete` and `uncomplete` set both completion fields consistently and are idempotent on
      the flag; neither touches another field. */
  lemma CompleteUncompleteSpec(t: Task, a: int, b: int)
    ensures Completed(t, a).isCompleted && DateMatchesFlag(Completed(t, a))
    ensures !Uncompleted(t).isCompleted && DateMatchesFlag(Uncompleted(t))
    ensures Completed(Completed(t, a), b).isCompleted && Uncompleted(Uncompleted(t)) == Uncompleted(t)
    ensures SameExceptCompletion(Completed(t, a), t) && SameExceptCompletion(Uncompleted(t), t)
    ensures Toggled(Uncompleted(t), a) == Completed(t, a) && Toggled(Completed(t, a), b) == Uncompleted(t)
  {
  }

  /** `isOverdue` at instant `now`. */
  predicate IsOverdue(t: Task, now: int)
  {
    !t.isCompleted && t.dueDate.Some? && t.dueDate.value < now
  }

  /** `isDueToday`: the due date falls on the day of `now`. */
  predicate IsDueToday(t: Task, now: int)
  {
    t.dueDate.Some? && Calendar.IsSameDay(t.dueDate.value, now)
  }

  lemma OverdueNeedsOpenDueTask(t: Task, now: int)
    ensures t.isCompleted ==> !IsOverdue(t, now)
    ensures t.dueDate.None? ==> !IsOverdue(t, now)
    ensures IsOverdue(t, now) ==> !IsOverdue(Completed(t, now), now)
  {
  }

  predicate IsDone(t: Task) { t.isCompleted }

  predicate IsOpen(t: Task) { !t.isCompleted }

  /** The array extension `completed`. */
  function CompletedTasks(s: seq<Task>): seq<Task> { Filter(s, IsDone) }

  /** The array extension `incomplete`. */
  function IncompleteTasks(s: seq<Task>): seq<Task> { Filter(s, IsOpen) }

  /** The array extension `dueToday`. */
  function DueToday(s: seq<Task>, now: int): seq<Task>
  {
    Filter(s, t => IsDueToday(t, now) && !t.isCompleted)
  }

  /** The array extension `overdue`. */
  function Overdue(s: seq<Task>, now: int): seq<Task>
  {
    Filter(s, t => IsOverdue(t, now))
  }

  /** `completed` and `incomplete` split the list: together they hold every task exactly once,
      and each keeps the original order. */
  lemma CompletedIncompletePartition(s: seq<Task>)
    ensures |CompletedTasks(s)| + |IncompleteTasks(s)| == |s|
    ensures multiset(CompletedTasks(s)) + multiset(IncompleteTasks(s)) == multiset(s)
    ensures SubseqOf(CompletedTasks(s), s) && SubseqOf(IncompleteTasks(s), s)
  {
    FilterPartition(s, IsDone, IsOpen);
    FilterIsSubseq(s, IsDone);
    FilterIsSubseq(s, IsOpen);
  }

  /** Tasks due today and overdue tasks are all open, so both lists are subsequences of `incomplete`. */
  lemma DueAndOverdueAreIncomplete(s: seq<Task>, now: int)
    ensures SubseqOf(DueToday(s, now), IncompleteTasks(s))
    ensures SubseqOf(Overdue(s, now), IncompleteTasks(s))
  {
    FilterStrongerIsSubseq(s, t => IsDueToday(t, now) && !t.isCompleted, IsOpen);
    FilterStrongerIsSubseq(s, t => IsOverdue(t, now), IsOpen);
  }

  /** The position of a priority in `[.high, .medium, .low]`. */
  function PriorityRank(p: Priority): int
  {
    match p
    case High => 0
    case Medium => 1
    case Low => 2
  }

  function PriorityKey(t: Task): int { PriorityRank(t.priority) }

  /** Newer creation dates sort first. */
  function CreatedKey(t: Task): int { -t.createdDate }

  /** The array extension `sortedByPriority`. */
  function SortedByPriority(s: seq<Task>): seq<Task>
  {
    Sorting.SortBy(s, PriorityKey)
  }

  /** The array extension `sortedByDate`: newest creation date first. */
  function SortedByDate(s: seq<Task>): seq<Task>
  {
    Sorting.SortBy(s, CreatedKey)
  }

  /** Sorting by priority is a permutation with every high task before every medium one and every
      medium task before every low one. */
  lemma SortedByPrioritySpec(s: seq<Task>)
    ensures multiset(SortedByPriority(s)) == multiset(s)
    ensures forall i, j :: 0 <= i < j < |SortedByPriority(s)| ==>
              PriorityRank(SortedByPriority(s)[i].priority) <= PriorityRank(SortedByPriority(s)[j].priority)
    ensures forall i, j :: 0 <= i < j < |SortedByPriority(s)| && SortedByPriority(s)[j].priority == High ==>
              SortedByPriority(s)[i].priority == High
  {
    Sorting.SortBySpec(s, PriorityKey);
  }

  /** Sorting by date is a permutation with non-increasing creation dates. */
  lemma SortedByDateSpec(s: seq<Task>)
    ensures multiset(SortedByDate(s)) == multiset(s)
    ensures forall i, j :: 0 <= i < j < |SortedByDate(s)| ==>
              SortedByDate(s)[i].createdDate >= SortedByDate(s)[j].createdDate
  {
    Sorting.SortBySpec(s, CreatedKey);
  }
}
