/** The history manager: an in-memory list of history items mirrored to a JSON file in the
    documents directory. The file is a field; whether a write reaches the disk is the
    `writable` field, set by the environment. A failed save or load is swallowed and only printed. */
module HistoryLog {
  import opened Seqs
  import opened History
  import Tasks
  import Sessions

  /** The contents of `history.json`. */
  datatype HistoryFile = NoFile | Encoded(items: seq<HistoryItem>) | Corrupt

  function ItemId(h: HistoryItem): Uuid { h.id }

  /** What `loadHistory` leaves in the list when the manager starts with an empty list. */
  function Loaded(file: HistoryFile): seq<HistoryItem>
  {
    match file
    case Encoded(items) => items
    case _ => []
  }

  /** What `saveHistory` leaves on disk. */
  function Saved(file: HistoryFile, writable: bool, items: seq<HistoryItem>): HistoryFile
  {
    if writable then Encoded(items) else file
  }

  /** A successful save followed by a load gives back the list; a failed save leaves the previous
      file, and a missing or corrupt file loads as an empty list. */
  lemma SaveLoadRoundTrip(file: HistoryFile, writable: bool, items: seq<HistoryItem>)
    ensures writable ==> Loaded(Saved(file, writable, items)) == items
    ensures !writable ==> Saved(file, writable, items) == file
    ensures file.NoFile? || file.Corrupt? ==> Loaded(file) == []
  {
  }

  class HistoryManager {
    var historyItems: seq<HistoryItem>
    var file: HistoryFile
    var writable: bool

    constructor(file: HistoryFile, writable: bool)
      ensures historyItems == Loaded(file)
      ensures this.file == file && this.writable == writable
    {
      historyItems := [];
      this.file := file;
      this.writable := writable;
      new;
      LoadHistory();
    }

    method SaveHistory()
      modifies this
      ensures historyItems == old(historyItems) && writable == old(writable)
      ensures file == Saved(old(file), writable, historyItems)
    {
      if writable {
        file := Encoded(historyItems);
      }
    }

    method LoadHistory()
      modifies this
      ensures historyItems == (if file.Encoded? then file.items else old(historyItems))
      ensures file == old(file) && writable == old(writable)
    {
      if file.Encoded? {
        historyItems := file.items;
      }
    }

    method AddItem(item: HistoryItem)
      modifies this
      ensures historyItems == old(historyItems) + [item]
      ensures file == Saved(old(file), writable, historyItems) && writable == old(writable)
    {
      historyItems := historyItems + [item];
      SaveHistory();
    }

    /** `id`, `now` and `iso` stand for the initializer's `UUID()`, `Date()` and ISO 8601 formatter. */
    method AddCompletedTask(task: Tasks.Task, id: Uuid, now: int, iso: int -> string)
      modifies this
      ensures historyItems == old(historyItems) + [FromTask(id, task, now, iso)]
      ensures file == Saved(old(file), writable, historyItems) && writable == old(writable)
    {
      var item := FromTask(id, task, now, iso);
      AddItem(item);
    }

    method AddCompletedSession(session: Sessions.FocusSession, id: Uuid, now: int, iso: int -> string)
      modifies this
      ensures historyItems == old(historyItems) + [FromSession(id, session, now, iso)]
      ensures file == Saved(old(file), writable, historyItems) && writable == old(writable)
    {
      var item := FromSession(id, session, now, iso);
      AddItem(item);
    }

    method RemoveItem(item: HistoryItem)
      modifies this
      ensures historyItems == RemoveKey(old(historyItems), ItemId, item.id)
      ensures file == Saved(old(file), writable, historyItems) && writable == old(writable)
    {
      historyItems := RemoveKey(historyItems, ItemId, item.id);
      SaveHistory();
    }

    method ClearAllHistory()
      modifies this
      ensures historyItems == []
      ensures file == Saved(old(file), writable, []) && writable == old(writable)
    {
      historyItems := [];
      SaveHistory();
    }
  }

  /** Removing an item drops every entry with its id and keeps the rest in order. */
  lemma RemoveItemSpec(s: seq<HistoryItem>, id: Uuid)
    ensures forall h :: h in RemoveKey(s, ItemId, id) <==> h in s && h.id != id
    ensures SubseqOf(RemoveKey(s, ItemId, id), s)
  {
    RemoveKeySpec(s, ItemId, id);
  }
}
