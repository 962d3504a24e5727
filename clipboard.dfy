/** The clipboard history: a list of captured texts, newest first, capped at 100 entries and
    mirrored to the key "clipboardHistory" of the key-value store. While monitoring, a repeating
    one-second timer reads the pasteboard and records new, non-blank text. The pasteboard's
    current string is a parameter (`None` when it holds no text); `UUID()` and `Date()` are the
    `id` and `now` parameters. */
module Clipboard {
  import opened Seqs
  import opened Text
  import opened ClipboardItems
  import opened Store
  import Calendar

  const HistoryKey := "clipboardHistory"
  const MaxItems := 100


  predicate IsFavorite(c: ClipboardItem) { c.isFavorite }

  function WithFavoriteToggled(c: ClipboardItem): ClipboardItem { c.(isFavorite := !c.isFavorite) }

  // ---------------------------------------------------------------------------------------------
  // The list shown on screen

  datatype ClipboardFilter = All | Favorites | Recent

  /** The item passes the selected filter; "recent" means captured after the same instant a day
      before `now`. */
  predicate PassesFilter(c: ClipboardItem, filter: ClipboardFilter, now: int)
  {
    match filter
    case All => true
    case Favorites => c.isFavorite
    case Recent => c.timestamp > now - Calendar.SecondsPerDay
  }

  /** The item passes the search field: an empty search matches everything. */
  predicate PassesSearch(c: ClipboardItem, searchText: string)
  {
    searchText == [] || ContainsIgnoringCase(c.content, searchText)
  }

  /** `filteredItems`: the filter first, then the search when the field is not empty. */
  function FilteredItems(items: seq<ClipboardItem>, filter: ClipboardFilter, searchText: string, now: int): seq<ClipboardItem>
  {
    var byFilter := match filter
      case All => items
      case Favorites => Filter(items, IsFavorite)
      case Recent => Filter(items, (c: ClipboardItem) => c.timestamp > now - Calendar.SecondsPerDay);
    if searchText == [] then byFilter
    else Filter(byFilter, (c: ClipboardItem) => ContainsIgnoringCase(c.content, searchText))
  }

  /** The list shown keeps the history's order and holds exactly the items that pass both the
      filter and the search. */
  lemma FilteredItemsSpec(items: seq<ClipboardItem>, filter: ClipboardFilter, searchText: string, now: int)
    ensures SubseqOf(FilteredItems(items, filter, searchText, now), items)
    ensures forall c :: c in FilteredItems(items, filter, searchText, now) <==>
                        c in items && PassesFilter(c, filter, now) && PassesSearch(c, searchText)
  {
    var recent := (c: ClipboardItem) => c.timestamp > now - Calendar.SecondsPerDay;
    var byFilter := match filter
      case All => items
      case Favorites => Filter(items, IsFavorite)
      case Recent => Filter(items, recent);
    match filter {
      case All => SubseqOfSelf(items);
      case Favorites => FilterIsSubseq(items, IsFavorite); FilterMembers(items, IsFavorite);
      case Recent => FilterIsSubseq(items, recent); FilterMembers(items, recent);
    }
    assert forall c :: c in byFilter <==> c in items && PassesFilter(c, filter, now);
    if searchText != [] {
      var search := (c: ClipboardItem) => ContainsIgnoringCase(c.content, searchText);
      FilterIsSubseq(byFilter, search);
      FilterMembers(byFilter, search);
      SubseqOfTrans(Filter(byFilter, search), byFilter, items);
    }
  }

  // ---------------------------------------------------------------------------------------------
  // Monitoring the pasteboard

  /** The view model's state: the history, the monitoring switch, whether the repeating timer is
      installed, and the last pasteboard text seen. */
  datatype Monitor = Monitor(items: seq<ClipboardItem>, isMonitoring: bool, scheduled: bool, last: string)

  /** The pasteboard holds text that differs from the last text seen and is not blank. */
  predicate IsNewContent(m: Monitor, pasteboard: Option<string>)
  {
    pasteboard.Some? && pasteboard.value != m.last && Trim(pasteboard.value) != []
  }

  /** New content is added, rather than only remembered, when it is not already at the top. */
  predicate AddsItem(m: Monitor, pasteboard: Option<string>)
  {
    IsNewContent(m, pasteboard) && (m.items == [] || m.items[0].content != pasteboard.value)
  }

  /** `checkClipboard()`. */
  function AfterCheck(m: Monitor, pasteboard: Option<string>, id: Uuid, now: int): Monitor
  {
    if !IsNewContent(m, pasteboard) then m
    else
      var content := pasteboard.value;
      if AddsItem(m, pasteboard) then
        m.(last := content, items := Prefix([NewItem(id, content, now)] + m.items, MaxItems))
      else m.(last := content)
  }

  /** The pasteboard text at the moment monitoring starts becomes the last text seen. */
  function Seeded(m: Monitor, pasteboard: Option<string>): Monitor
  {
    if pasteboard.Some? then m.(last := pasteboard.value) else m
  }

  /** `startMonitoring()`. */
  function AfterStart(m: Monitor, pasteboard: Option<string>): Monitor
  {
    Seeded(m, pasteboard).(scheduled := true)
  }

  /** `stopMonitoring()`. */
  function AfterStop(m: Monitor): Monitor
  {
    m.(scheduled := false)
  }

  /** `toggleMonitoring()`. */
  function AfterToggleMonitoring(m: Monitor, pasteboard: Option<string>): Monitor
  {
    var m1 := m.(isMonitoring := !m.isMonitoring);
    if m1.isMonitoring then AfterStart(m1, pasteboard) else AfterStop(m1)
  }

  /** A check records nothing unless the pasteboard holds new, non-blank text. When it records, the
      new item goes on top with the given identifier and instant, the older items follow in order,
      and the list never grows beyond 100 entries: the oldest entry falls off. New text that is
      already on top is only remembered. */
  lemma CheckSpec(m: Monitor, pasteboard: Option<string>, id: Uuid, now: int)
    ensures pasteboard.None? ==> AfterCheck(m, pasteboard, id, now) == m
    ensures pasteboard.Some? && pasteboard.value == m.last ==> AfterCheck(m, pasteboard, id, now) == m
    ensures pasteboard.Some? && AllWhitespace(pasteboard.value) ==> AfterCheck(m, pasteboard, id, now) == m
    ensures IsNewContent(m, pasteboard) ==> AfterCheck(m, pasteboard, id, now).last == pasteboard.value
    ensures IsNewContent(m, pasteboard) && !AddsItem(m, pasteboard) ==>
              AfterCheck(m, pasteboard, id, now).items == m.items
    ensures AddsItem(m, pasteboard) ==>
              var r := AfterCheck(m, pasteboard, id, now).items;
              |r| == (if |m.items| < MaxItems then |m.items| + 1 else MaxItems) &&
              r[0] == NewItem(id, pasteboard.value, now) &&
              forall i :: 1 <= i < |r| ==> r[i] == m.items[i - 1]
    ensures AfterCheck(m, pasteboard, id, now).isMonitoring == m.isMonitoring
    ensures AfterCheck(m, pasteboard, id, now).scheduled == m.scheduled
  {
    if pasteboard.Some? {
      TrimSpec(pasteboard.value);
    }
    if AddsItem(m, pasteboard) {
      NewestFirst(NewItem(id, pasteboard.value, now), m.items);
    }
  }

  /** Putting an item on top of the capped list. */
  lemma NewestFirst(item: ClipboardItem, items: seq<ClipboardItem>)
    ensures var r := Prefix([item] + items, MaxItems);
            |r| == (if |items| < MaxItems then |items| + 1 else MaxItems) &&
            r[0] == item && forall i :: 1 <= i < |r| ==> r[i] == items[i - 1]
  {
    var s := [item] + items;
    var r := Prefix(s, MaxItems);
    assert forall i :: 1 <= i < |r| ==> r[i] == s[i] == items[i - 1];
  }

  /** A second check of the same pasteboard records nothing more, whichever branch the first
      check took. */
  lemma CheckIdempotent(m: Monitor, pasteboard: Option<string>, id: Uuid, now: int, id2: Uuid, now2: int)
    ensures var m1 := AfterCheck(m, pasteboard, id, now);
            AfterCheck(m1, pasteboard, id2, now2) == m1
  {
  }

  /** Text already on the pasteboard when monitoring starts is never recorded by the checks that
      follow. */
  lemma PreexistingContentIgnored(m: Monitor, pasteboard: Option<string>, id: Uuid, now: int)
    ensures var m1 := AfterStart(m, pasteboard);
            AfterCheck(m1, pasteboard, id, now) == m1
  {
  }

  /** A history of at most 100 entries stays within 100 entries under every check. */
  lemma CheckKeepsCap(m: Monitor, pasteboard: Option<string>, id: Uuid, now: int)
    requires |m.items| <= MaxItems
    ensures |AfterCheck(m, pasteboard, id, now).items| <= MaxItems
  {
  }

  /** The timer is installed exactly while monitoring is on, and toggling keeps it so. */
  predicate Inv(m: Monitor) { m.scheduled <==> m.isMonitoring }

  lemma ToggleMonitoringSpec(m: Monitor, pasteboard: Option<string>, id: Uuid, now: int)
    requires Inv(m)
    ensures var r := AfterToggleMonitoring(m, pasteboard);
            Inv(r) && r.isMonitoring == !m.isMonitoring && r.items == m.items
    ensures Inv(AfterCheck(m, pasteboard, id, now))
    ensures AfterToggleMonitoring(AfterToggleMonitoring(m, pasteboard), pasteboard).isMonitoring == m.isMonitoring
  {
  }

  // ---------------------------------------------------------------------------------------------
  // Editing the history

  /** `toggleFavorite(_:)` on the list. */
  function FavoriteToggled(items: seq<ClipboardItem>, id: Uuid): seq<ClipboardItem>
  {
    UpdateFirst(items, ItemId, id, WithFavoriteToggled)
  }

  /** Toggling flips the favourite flag of the first item with the identifier and nothing else;
      toggling twice restores the list. */
  lemma FavoriteToggledSpec(items: seq<ClipboardItem>, id: Uuid)
    ensures |FavoriteToggled(items, id)| == |items|
    ensures forall i :: 0 <= i < |items| ==>
              FavoriteToggled(items, id)[i].(isFavorite := items[i].isFavorite) == items[i]
    ensures (forall i :: 0 <= i < |items| ==> items[i].id != id) ==> FavoriteToggled(items, id) == items
    ensures FavoriteToggled(FavoriteToggled(items, id), id) == items
  {
    UpdateFirstSpec(items, ItemId, id, WithFavoriteToggled);
    match FirstIndex(items, ItemId, id) {
      case None =>
      case Some(i) =>
        var t := items[i := WithFavoriteToggled(items[i])];
        assert t[i].id == id;
        assert forall j :: 0 <= j < i ==> t[j] == items[j];
        UpdateFirstSpec(t, ItemId, id, WithFavoriteToggled);
        assert t[i := WithFavoriteToggled(t[i])] == items;
    }
  }

  /** Deleting drops every entry with the identifier and keeps the others in order. */
  lemma DeleteSpec(items: seq<ClipboardItem>, id: Uuid)
    ensures forall c :: c in RemoveKey(items, ItemId, id) <==> c in items && c.id != id
    ensures SubseqOf(RemoveKey(items, ItemId, id), items)
  {
    RemoveKeySpec(items, ItemId, id);
  }

  // ---------------------------------------------------------------------------------------------
  // Persistence

  /** `loadItems()`: decoded data replaces the list; a missing key or undecodable data keeps it. */
  function LoadedItems(m: Values, current: seq<ClipboardItem>): seq<ClipboardItem>
  {
    match DataFor(m, HistoryKey)
    case Some(ClipList(clips)) => clips
    case _ => current
  }

  /** The store after `saveItems()`. */
  function SavedStore(m: Values, items: seq<ClipboardItem>): Values
  {
    m[HistoryKey := DataValue(ClipList(items))]
  }

  /** Saving then loading gives back the list, and a store without the key keeps the list held. */
  lemma SaveLoadRoundTrip(m: Values, items: seq<ClipboardItem>, current: seq<ClipboardItem>)
    ensures LoadedItems(SavedStore(m, items), current) == items
    ensures HistoryKey !in m ==> LoadedItems(m, current) == current
    ensures forall k :: k in m && k != HistoryKey ==> k in SavedStore(m, items) && SavedStore(m, items)[k] == m[k]
  {
  }

  class ClipboardHistoryViewModel {
    var items: seq<ClipboardItem>
    var isMonitoring: bool
    var timerScheduled: bool
    var lastClipboardContent: string
    const defaults: Defaults

    function Model(): Monitor
      reads this
    {
      Monitor(items, isMonitoring, timerScheduled, lastClipboardContent)
    }

    /** `init()`: load, then start monitoring with the pasteboard's current text. */
    constructor(defaults: Defaults, pasteboard: Option<string>)
      ensures this.defaults == defaults
      ensures Model() == AfterStart(Monitor(LoadedItems(defaults.values, []), true, false, ""), pasteboard)
    {
      items := [];
      isMonitoring := true;
      timerScheduled := false;
      lastClipboardContent := "";
      this.defaults := defaults;
      new;
      LoadItems();
      if isMonitoring {
        StartMonitoring(pasteboard);
      }
    }

    method ToggleMonitoring(pasteboard: Option<string>)
      modifies this
      ensures Model() == AfterToggleMonitoring(old(Model()), pasteboard)
    {
      isMonitoring := !isMonitoring;
      if isMonitoring {
        StartMonitoring(pasteboard);
      } else {
        StopMonitoring();
      }
    }

    method ToggleFavorite(item: ClipboardItem)
      modifies this, defaults
      ensures Model() == old(Model()).(items := FavoriteToggled(old(items), item.id))
      ensures defaults.values == if FirstIndex(old(items), ItemId, item.id).Some?
                                 then SavedStore(old(defaults.values), items) else old(defaults.values)
    {
      var index := FirstIndex(items, ItemId, item.id);
      if index.Some? {
        items := items[index.value := WithFavoriteToggled(items[index.value])];
        SaveItems();
      }
    }

    method DeleteItem(item: ClipboardItem)
      modifies this, defaults
      ensures Model() == old(Model()).(items := RemoveKey(old(items), ItemId, item.id))
      ensures defaults.values == SavedStore(old(defaults.values), items)
    {
      items := RemoveKey(items, ItemId, item.id);
      SaveItems();
    }

    method ClearHistory()
      modifies this, defaults
      ensures Model() == old(Model()).(items := [])
      ensures defaults.values == SavedStore(old(defaults.values), [])
    {
      items := [];
      SaveItems();
    }

    method StartMonitoring(pasteboard: Option<string>)
      modifies this
      ensures Model() == AfterStart(old(Model()), pasteboard)
    {
      if pasteboard.Some? {
        lastClipboardContent := pasteboard.value;
      }
      timerScheduled := true;
    }

    method StopMonitoring()
      modifies this
      ensures Model() == AfterStop(old(Model()))
    {
      timerScheduled := false;
    }

    /** One firing of the timer. */
    method CheckClipboard(pasteboard: Option<string>, id: Uuid, now: int)
      modifies this, defaults
      ensures Model() == AfterCheck(old(Model()), pasteboard, id, now)
      ensures defaults.values == if AddsItem(old(Model()), pasteboard)
                                 then SavedStore(old(defaults.values), items) else old(defaults.values)
    {
      if pasteboard.None? {
        return;
      }
      var content := pasteboard.value;
      if content != lastClipboardContent && Trim(content) != [] {
        lastClipboardContent := content;
        if items == [] || items[0].content != content {
          var newItem := NewItem(id, content, now);
          items := [newItem] + items;
          if |items| > MaxItems {
            items := Prefix(items, MaxItems);
          }
          SaveItems();
        }
      }
    }

    method LoadItems()
      modifies this
      ensures Model() == old(Model()).(items := LoadedItems(defaults.values, old(items)))
    {
      var data := DataFor(defaults.values, HistoryKey);
      if data.Some? && data.value.ClipList? {
        items := data.value.clips;
      }
    }

    method SaveItems()
      modifies defaults
      ensures defaults.values == SavedStore(old(defaults.values), items)
    {
      defaults.Set(HistoryKey, DataValue(ClipList(items)));
    }
  }
}
