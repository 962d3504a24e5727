/** The persistence service: three lists (tasks, focus sessions, history items) kept as encoded
    data under three keys of the key-value store. Every single-item operation loads the list,
    changes it and saves it back. */
module Persistence {
  import opened Seqs
  import opened Store
  import Tasks
  import Sessions
  import History

  const TasksKey := "onefocus_tasks"
  const SessionsKey := "onefocus_focus_sessions"
  const HistoryItemsKey := "onefocus_history_items"

  function TaskId(t: Tasks.Task): Uuid { t.id }
  function SessionId(s: Sessions.FocusSession): Uuid { s.id }
  function HistoryId(h: History.HistoryItem): Uuid { h.id }

  /** `loadTasks()`: `[]` when the key is missing or holds something else. */
  function StoredTasks(m: Values): seq<Tasks.Task>
  {
    match DataFor(m, TasksKey)
    case Some(TaskList(tasks)) => tasks
    case _ => []
  }

  /** `loadFocusSessions()`. */
  function StoredSessions(m: Values): seq<Sessions.FocusSession>
  {
    match DataFor(m, SessionsKey)
    case Some(SessionList(sessions)) => sessions
    case _ => []
  }

  /** `loadHistoryItems()`. */
  function StoredHistory(m: Values): seq<History.HistoryItem>
  {
    match DataFor(m, HistoryItemsKey)
    case Some(HistoryList(items)) => items
    case _ => []
  }

  /** The three lists are stored under distinct keys, so writing one list leaves the others
      readable as before; each list reads back as it was written; and a missing key reads as
      an empty list. */
  lemma StoreRoundTrip(m: Values, ts: seq<Tasks.Task>, ss: seq<Sessions.FocusSession>, hs: seq<History.HistoryItem>)
    ensures StoredTasks(m[TasksKey := DataValue(TaskList(ts))]) == ts
    ensures StoredSessions(m[SessionsKey := DataValue(SessionList(ss))]) == ss
    ensures StoredHistory(m[HistoryItemsKey := DataValue(HistoryList(hs))]) == hs
    ensures StoredSessions(m[TasksKey := DataValue(TaskList(ts))]) == StoredSessions(m)
    ensures StoredHistory(m[TasksKey := DataValue(TaskList(ts))]) == StoredHistory(m)
    ensures StoredTasks(m[SessionsKey := DataValue(SessionList(ss))]) == StoredTasks(m)
    ensures StoredHistory(m[SessionsKey := DataValue(SessionList(ss))]) == StoredHistory(m)
    ensures StoredTasks(m[HistoryItemsKey := DataValue(HistoryList(hs))]) == StoredTasks(m)
    ensures StoredSessions(m[HistoryItemsKey := DataValue(HistoryList(hs))]) == StoredSessions(m)
    ensures TasksKey !in m ==> StoredTasks(m) == []
    ensures SessionsKey !in m ==> StoredSessions(m) == []
    ensures HistoryItemsKey !in m ==> StoredHistory(m) == []
  {
  }

  /** Saving an item replaces the first stored item with its identifier, or appends it: the length
      stays when the identifier was stored and grows by one otherwise, and afterwards the item sits
      at its identifier's first position with every other position untouched. */
  lemma SaveTaskSpec(tasks: seq<Tasks.Task>, task: Tasks.Task)
    ensures (exists j :: 0 <= j < |tasks| && tasks[j].id == task.id) ==> |Upsert(tasks, task, TaskId)| == |tasks|
    ensures (forall j :: 0 <= j < |tasks| ==> tasks[j].id != task.id) ==> Upsert(tasks, task, TaskId) == tasks + [task]
    ensures var r := Upsert(tasks, task, TaskId);
            var i := FirstIndex(r, TaskId, task.id);
            i.Some? && i.value <= |tasks| && r[i.value] == task &&
            forall j :: 0 <= j < |tasks| && j != i.value ==> r[j] == tasks[j]
  {
    UpsertSpec(tasks, task, TaskId);
    assert forall j :: 0 <= j < |tasks| ==> (tasks[j].id == task.id <==> TaskId(tasks[j]) == TaskId(task));
  }

  lemma SaveFocusSessionSpec(sessions: seq<Sessions.FocusSession>, session: Sessions.FocusSession)
    ensures (exists j :: 0 <= j < |sessions| && sessions[j].id == session.id) ==>
              |Upsert(sessions, session, SessionId)| == |sessions|
    ensures (forall j :: 0 <= j < |sessions| ==> sessions[j].id != session.id) ==>
              Upsert(sessions, session, SessionId) == sessions + [session]
    ensures var r := Upsert(sessions, session, SessionId);
            var i := FirstIndex(r, SessionId, session.id);
            i.Some? && i.value <= |sessions| && r[i.value] == session &&
            forall j :: 0 <= j < |sessions| && j != i.value ==> r[j] == sessions[j]
  {
    UpsertSpec(sessions, session, SessionId);
    assert forall j :: 0 <= j < |sessions| ==> (sessions[j].id == session.id <==> SessionId(sessions[j]) == SessionId(session));
  }

  lemma SaveHistoryItemSpec(items: seq<History.HistoryItem>, item: History.HistoryItem)
    ensures (exists j :: 0 <= j < |items| && items[j].id == item.id) ==> |Upsert(items, item, HistoryId)| == |items|
    ensures (forall j :: 0 <= j < |items| ==> items[j].id != item.id) ==> Upsert(items, item, HistoryId) == items + [item]
    ensures var r := Upsert(items, item, HistoryId);
            var i := FirstIndex(r, HistoryId, item.id);
            i.Some? && i.value <= |items| && r[i.value] == item &&
            forall j :: 0 <= j < |items| && j != i.value ==> r[j] == items[j]
  {
    UpsertSpec(items, item, HistoryId);
    assert forall j :: 0 <= j < |items| ==> (items[j].id == item.id <==> HistoryId(items[j]) == HistoryId(item));
  }

  /** Deleting removes every stored task with the identifier and keeps the rest in order. */
  lemma DeleteTaskSpec(tasks: seq<Tasks.Task>, id: Uuid)
    ensures forall t :: t in RemoveKey(tasks, TaskId, id) <==> t in tasks && t.id != id
    ensures SubseqOf(RemoveKey(tasks, TaskId, id), tasks)
  {
    RemoveKeySpec(tasks, TaskId, id);
  }

  lemma DeleteFocusSessionSpec(sessions: seq<Sessions.FocusSession>, id: Uuid)
    ensures forall s :: s in RemoveKey(sessions, SessionId, id) <==> s in sessions && s.id != id
    ensures SubseqOf(RemoveKey(sessions, SessionId, id), sessions)
  {
    RemoveKeySpec(sessions, SessionId, id);
  }

  lemma DeleteHistoryItemSpec(items: seq<History.HistoryItem>, id: Uuid)
    ensures forall h :: h in RemoveKey(items, HistoryId, id) <==> h in items && h.id != id
    ensures SubseqOf(RemoveKey(items, HistoryId, id), items)
  {
    RemoveKeySpec(items, HistoryId, id);
  }

  class PersistenceService {
    const defaults: Defaults

    constructor(defaults: Defaults)
      ensures this.defaults == defaults
    {
      this.defaults := defaults;
    }

    // Tasks

    method SaveTasks(tasks: seq<Tasks.Task>)
      modifies defaults
      ensures defaults.values == old(defaults.values)[TasksKey := DataValue(TaskList(tasks))]
    {
      defaults.Set(TasksKey, DataValue(TaskList(tasks)));
    }

    method LoadTasks() returns (tasks: seq<Tasks.Task>)
      ensures tasks == StoredTasks(defaults.values)
    {
      var data := DataFor(defaults.values, TasksKey);
      if data.None? || !data.value.TaskList? {
        return [];
      }
      tasks := data.value.tasks;
    }

    method SaveTask(task: Tasks.Task)
      modifies defaults
      ensures defaults.values == old(defaults.values)[TasksKey := DataValue(TaskList(Upsert(StoredTasks(old(defaults.values)), task, TaskId)))]
      ensures StoredTasks(defaults.values) == Upsert(StoredTasks(old(defaults.values)), task, TaskId)
    {
      var tasks := LoadTasks();
      var index := FirstIndex(tasks, TaskId, task.id);
      if index.Some? {
        tasks := tasks[index.value := task];
      } else {
        tasks := tasks + [task];
      }
      SaveTasks(tasks);
    }

    method DeleteTask(task: Tasks.Task)
      modifies defaults
      ensures defaults.values == old(defaults.values)[TasksKey := DataValue(TaskList(RemoveKey(StoredTasks(old(defaults.values)), TaskId, task.id)))]
    {
      DeleteTaskWithId(task.id);
    }

    method DeleteTaskWithId(id: Uuid)
      modifies defaults
      ensures defaults.values == old(defaults.values)[TasksKey := DataValue(TaskList(RemoveKey(StoredTasks(old(defaults.values)), TaskId, id)))]
    {
      var tasks := LoadTasks();
      tasks := RemoveKey(tasks, TaskId, id);
      SaveTasks(tasks);
    }

    // Focus sessions

    method SaveFocusSessions(sessions: seq<Sessions.FocusSession>)
      modifies defaults
      ensures defaults.values == old(defaults.values)[SessionsKey := DataValue(SessionList(sessions))]
    {
      defaults.Set(SessionsKey, DataValue(SessionList(sessions)));
    }

    method LoadFocusSessions() returns (sessions: seq<Sessions.FocusSession>)
      ensures sessions == StoredSessions(defaults.values)
    {
      var data := DataFor(defaults.values, SessionsKey);
      if data.None? || !data.value.SessionList? {
        return [];
      }
      sessions := data.value.sessions;
    }

    method SaveFocusSession(session: Sessions.FocusSession)
      modifies defaults
      ensures defaults.values == old(defaults.values)[SessionsKey := DataValue(SessionList(Upsert(StoredSessions(old(defaults.values)), session, SessionId)))]
    {
      var sessions := LoadFocusSessions();
      var index := FirstIndex(sessions, SessionId, session.id);
      if index.Some? {
        sessions := sessions[index.value := session];
      } else {
        sessions := sessions + [session];
      }
      SaveFocusSessions(sessions);
    }

    method DeleteFocusSession(session: Sessions.FocusSession)
      modifies defaults
      ensures defaults.values == old(defaults.values)[SessionsKey := DataValue(SessionList(RemoveKey(StoredSessions(old(defaults.values)), SessionId, session.id)))]
    {
      var sessions := LoadFocusSessions();
      sessions := RemoveKey(sessions, SessionId, session.id);
      SaveFocusSessions(sessions);
    }

    // History items

    method SaveHistoryItems(items: seq<History.HistoryItem>)
      modifies defaults
      ensures defaults.values == old(defaults.values)[HistoryItemsKey := DataValue(HistoryList(items))]
    {
      defaults.Set(HistoryItemsKey, DataValue(HistoryList(items)));
    }

    method LoadHistoryItems() returns (items: seq<History.HistoryItem>)
      ensures items == StoredHistory(defaults.values)
    {
      var data := DataFor(defaults.values, HistoryItemsKey);
      if data.None? || !data.value.HistoryList? {
        return [];
      }
      items := data.value.items;
    }

    method SaveHistoryItem(item: History.HistoryItem)
      modifies defaults
      ensures defaults.values == old(defaults.values)[HistoryItemsKey := DataValue(HistoryList(Upsert(StoredHistory(old(defaults.values)), item, HistoryId)))]
    {
      var items := LoadHistoryItems();
      var index := FirstIndex(items, HistoryId, item.id);
      if index.Some? {
        items := items[index.value := item];
      } else {
        items := items + [item];
      }
      SaveHistoryItems(items);
    }

    method DeleteHistoryItem(item: History.HistoryItem)
      modifies defaults
      ensures defaults.values == old(defaults.values)[HistoryItemsKey := DataValue(HistoryList(RemoveKey(StoredHistory(old(defaults.values)), HistoryId, item.id)))]
    {
      var items := LoadHistoryItems();
      items := RemoveKey(items, HistoryId, item.id);
      SaveHistoryItems(items);
    }

    /** `clearHistory()`: only the history key goes. */
    method ClearHistory()
      modifies defaults
      ensures defaults.values == old(defaults.values) - {HistoryItemsKey}
    {
      defaults.Remove(HistoryItemsKey);
    }

    /** `deleteAllData()`: the three keys go, and every other key stays. */
    method DeleteAllData()
      modifies defaults
      ensures defaults.values == old(defaults.values) - {TasksKey, SessionsKey, HistoryItemsKey}
    {
      defaults.Remove(TasksKey);
      defaults.Remove(SessionsKey);
      defaults.Remove(HistoryItemsKey);
    }
  }

  /** After clearing the history it reads as empty while tasks and sessions read as before; after
      deleting all data every list reads as empty and no unrelated key is touched. */
  lemma ClearSpec(m: Values)
    ensures StoredHistory(m - {HistoryItemsKey}) == []
    ensures StoredTasks(m - {HistoryItemsKey}) == StoredTasks(m)
    ensures StoredSessions(m - {HistoryItemsKey}) == StoredSessions(m)
    ensures var m' := m - {TasksKey, SessionsKey, HistoryItemsKey};
            StoredTasks(m') == [] && StoredSessions(m') == [] && StoredHistory(m') == [] &&
            forall k :: k in m && k !in {TasksKey, SessionsKey, HistoryItemsKey} ==> k in m' && m'[k] == m[k]
  {
  }
}
