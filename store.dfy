/** `UserDefaults.standard`: one key-value store shared by the settings, the auth state, the
    persistence layer, quick notes and the clipboard history. Encoded JSON data is modelled by
    the list it encodes; bytes that no decoder accepts are `Garbage`. */
module Store {
  import opened Seqs
  import Tasks
  import Sessions
  import History
  import Notes
  import ClipboardItems

  /** What `JSONEncoder` produced, by the type of list encoded. */
  datatype Blob =
    | TaskList(tasks: seq<Tasks.Task>)
    | SessionList(sessions: seq<Sessions.FocusSession>)
    | HistoryList(items: seq<History.HistoryItem>)
    | NoteList(notes: seq<Notes.Note>)
    | ClipList(clips: seq<ClipboardItems.ClipboardItem>)
    | Garbage

  datatype Value = IntValue(i: int) | BoolValue(b: bool) | StringValue(s: string) | DataValue(d: Blob)

  type Values = map<string, Value>

  /** `integer(forKey:)`: a stored integer, a stored Boolean as 1 or 0, anything else 0. */
  function IntegerFor(m: Values, key: string): int
  {
    if key !in m then 0
    else match m[key]
      case IntValue(i) => i
      case BoolValue(b) => if b then 1 else 0
      case _ => 0
  }

  /** `object(forKey:) as? Bool`. */
  function BoolObjectFor(m: Values, key: string): Option<bool>
  {
    if key in m && m[key].BoolValue? then Some(m[key].b) else None
  }

  /** `bool(forKey:)`: a stored Boolean, a stored integer as "not zero", anything else false. */
  function BoolFor(m: Values, key: string): bool
  {
    if key !in m then false
    else match m[key]
      case BoolValue(b) => b
      case IntValue(i) => i != 0
      case _ => false
  }

  /** `string(forKey:)`. */
  function StringFor(m: Values, key: string): Option<string>
  {
    if key in m && m[key].StringValue? then Some(m[key].s) else None
  }

  /** `data(forKey:)`. */
  function DataFor(m: Values, key: string): Option<Blob>
  {
    if key in m && m[key].DataValue? then Some(m[key].d) else None
  }

  /** Each typed read returns what the matching write stored, and a missing key reads as the
      type's default. */
  lemma ReadsAfterWrites(m: Values, key: string, i: int, b: bool, s: string, d: Blob)
    ensures IntegerFor(m[key := IntValue(i)], key) == i
    ensures BoolObjectFor(m[key := BoolValue(b)], key) == Some(b) && BoolFor(m[key := BoolValue(b)], key) == b
    ensures StringFor(m[key := StringValue(s)], key) == Some(s)
    ensures DataFor(m[key := DataValue(d)], key) == Some(d)
    ensures key !in m ==> IntegerFor(m, key) == 0 && BoolObjectFor(m, key).None? && !BoolFor(m, key) &&
                          StringFor(m, key).None? && DataFor(m, key).None?
  {
  }

  class Defaults {
    var values: Values

    constructor(initial: Values)
      ensures values == initial
    {
      values := initial;
    }

    /** `set(_:forKey:)`. */
    method Set(key: string, v: Value)
      modifies this
      ensures values == old(values)[key := v]
    {
      values := values[key := v];
    }

    /** `removeObject(forKey:)`. */
    method Remove(key: string)
      modifies this
      ensures values == old(values) - {key}
    {
      values := values - {key};
    }
  }
}
