/** The task list's view model: an in-memory list changed by append, remove-by-id and in-place
    replacement at the first index with a matching id. Its save and load hooks have empty bodies,
    so nothing is persisted. */
module TaskList {
  import opened Seqs
  import opened Tasks

  function TaskId(t: Task): Uuid { t.id }

  class TasksViewModel {
    var tasks: seq<Task>

    constructor()
      ensures tasks == []
    {
      tasks := [];
    }

    method AddTask(task: Task)
      modifies this
      ensures tasks == old(tasks) + [task]
    {
      tasks := tasks + [task];
    }

    method DeleteTask(task: Task)
      modifies this
      ensures tasks == RemoveKey(old(tasks), TaskId, task.id)
    {
      tasks := RemoveKey(tasks, TaskId, task.id);
    }

    method UpdateTask(task: Task)
      modifies this
      ensures tasks == ReplaceFirst(old(tasks), task, TaskId)
    {
      var index := FirstIndex(tasks, TaskId, task.id);
      if index.Some? {
        tasks := tasks[index.value := task];
      }
    }

    method ToggleTaskCompletion(task: Task, now: int)
      modifies this
      ensures tasks == UpdateFirst(old(tasks), TaskId, task.id, t => Toggled(t, now))
    {
      var index := FirstIndex(tasks, TaskId, task.id);
      if index.Some? {
        tasks := tasks[index.value := Toggled(tasks[index.value], now)];
      }
    }
  }

  /** Adding keeps every task already listed and adds exactly the new one, at the end. A task with
      a new identifier is then the one that updates, toggles and deletes by that identifier reach,
      and deleting it gives the old list back; a task whose identifier is already listed is
      shadowed by the earlier one, which updates and toggles keep reaching. */
  lemma AddTaskSpec(s: seq<Task>, task: Task)
    ensures multiset(s + [task]) == multiset(s) + multiset{task}
    ensures (forall j :: 0 <= j < |s| ==> s[j].id != task.id) ==>
              FirstIndex(s + [task], TaskId, task.id) == Some(|s|) &&
              RemoveKey(s + [task], TaskId, task.id) == s
    ensures FirstIndex(s, TaskId, task.id).Some? ==>
              FirstIndex(s + [task], TaskId, task.id) == FirstIndex(s, TaskId, task.id)
    ensures RemoveKey(s + [task], TaskId, task.id) == RemoveKey(s, TaskId, task.id)
  {
    FirstIndexAppend(s, task, TaskId, task.id);
    RemoveKeyAppend(s, [task], TaskId, task.id);
    assert RemoveKey([task], TaskId, task.id) == [];
    RemoveKeySpec(s, TaskId, task.id);
  }

  /** Deleting removes every task with the id and keeps the others in their order. */
  lemma DeleteTaskSpec(s: seq<Task>, id: Uuid)
    ensures forall t :: t in RemoveKey(s, TaskId, id) <==> t in s && t.id != id
    ensures SubseqOf(RemoveKey(s, TaskId, id), s)
  {
    RemoveKeySpec(s, TaskId, id);
  }

  /** Updating keeps the length and replaces only the first task with the id; an unknown id leaves
      the list as it was. */
  lemma UpdateTaskSpec(s: seq<Task>, task: Task)
    ensures |ReplaceFirst(s, task, TaskId)| == |s|
    ensures (forall j :: 0 <= j < |s| ==> s[j].id != task.id) ==> ReplaceFirst(s, task, TaskId) == s
    ensures forall i :: 0 <= i < |s| && s[i].id == task.id && (forall j :: 0 <= j < i ==> s[j].id != task.id) ==>
              ReplaceFirst(s, task, TaskId) == s[i := task]
  {
    ReplaceFirstSpec(s, task, TaskId);
  }

  /** Toggling by id flips the completion of the first matching task only, keeps that task's other
      fields and every other task as they were. */
  lemma ToggleTaskCompletionSpec(s: seq<Task>, id: Uuid, now: int, i: nat)
    requires i < |s| && s[i].id == id && forall j :: 0 <= j < i ==> s[j].id != id
    ensures var r := UpdateFirst(s, TaskId, id, t => Toggled(t, now));
            |r| == |s| && r[i].isCompleted == !s[i].isCompleted && DateMatchesFlag(r[i]) &&
            SameExceptCompletion(r[i], s[i]) &&
            forall j :: 0 <= j < |s| && j != i ==> r[j] == s[j]
  {
    UpdateFirstSpec(s, TaskId, id, t => Toggled(t, now));
    ToggledSpec(s[i], now);
  }
}
