/** Quick notes: a list of notes, newest first, mirrored to the key "quickNotes" of the key-value
    store; the quick-capture sheet that turns a draft into a note; the search over titles and
    bodies; and the stored settings of the global quick-note hotkey. `UUID()` and `Date()` are
    parameters. */
module QuickNotes {
  import opened Seqs
  import opened Text
  import opened Notes
  import opened Store

  const NotesKey := "quickNotes"


  // ---------------------------------------------------------------------------------------------
  // Persistence

  /** `loadNotes()`: decoded data, or the sample notes when the key is missing or undecodable. */
  function LoadedNotes(m: Values, a: Uuid, b: Uuid, c: Uuid, now: int): seq<Note>
  {
    match DataFor(m, NotesKey)
    case Some(NoteList(notes)) => notes
    case _ => SampleList(a, b, c, now)
  }

  /** The store after `saveNotes()`. */
  function SavedStore(m: Values, notes: seq<Note>): Values
  {
    m[NotesKey := DataValue(NoteList(notes))]
  }

  /** Saving then loading gives back the list, even an empty one; a store without the key loads
      the three sample notes. Saving touches no other key. */
  lemma SaveLoadRoundTrip(m: Values, notes: seq<Note>, a: Uuid, b: Uuid, c: Uuid, now: int)
    ensures LoadedNotes(SavedStore(m, notes), a, b, c, now) == notes
    ensures NotesKey !in m ==> LoadedNotes(m, a, b, c, now) == SampleList(a, b, c, now)
    ensures NotesKey !in m ==> |LoadedNotes(m, a, b, c, now)| == 3
    ensures forall k :: k in m && k != NotesKey ==> k in SavedStore(m, notes) && SavedStore(m, notes)[k] == m[k]
  {
  }

  // ---------------------------------------------------------------------------------------------
  // The view model

  class QuickNotesViewModel {
    var notes: seq<Note>
    const defaults: Defaults

    /** `init()`; `a`, `b`, `c` and `now` are the sample notes' identifiers and creation instant. */
    constructor(defaults: Defaults, a: Uuid, b: Uuid, c: Uuid, now: int)
      ensures this.defaults == defaults
      ensures notes == LoadedNotes(defaults.values, a, b, c, now)
    {
      this.defaults := defaults;
      notes := [];
      new;
      LoadNotes(a, b, c, now);
    }

    /** `createNote()`: a default note goes on top and is returned. */
    method CreateNote(id: Uuid, now: int) returns (newNote: Note)
      modifies this, defaults
      ensures newNote == DefaultNote(id, now)
      ensures notes == [newNote] + old(notes) && |notes| == |old(notes)| + 1
      ensures defaults.values == SavedStore(old(defaults.values), notes)
    {
      newNote := DefaultNote(id, now);
      notes := [newNote] + notes;
      SaveNotes();
    }

    /** `updateNote(_:)`: replaces the first note with the same identifier; saves only then. */
    method UpdateNote(note: Note)
      modifies this, defaults
      ensures notes == ReplaceFirst(old(notes), note, NoteId)
      ensures defaults.values == if FirstIndex(old(notes), NoteId, note.id).Some?
                                 then SavedStore(old(defaults.values), notes) else old(defaults.values)
    {
      var idx := FirstIndex(notes, NoteId, note.id);
      if idx.None? {
        return;
      }
      notes := notes[idx.value := note];
      SaveNotes();
    }

    /** `deleteNote(_:)`. */
    method DeleteNote(note: Note)
      modifies this, defaults
      ensures notes == RemoveKey(old(notes), NoteId, note.id)
      ensures defaults.values == SavedStore(old(defaults.values), notes)
    {
      notes := RemoveKey(notes, NoteId, note.id);
      SaveNotes();
    }

    method LoadNotes(a: Uuid, b: Uuid, c: Uuid, now: int)
      modifies this
      ensures notes == LoadedNotes(defaults.values, a, b, c, now)
    {
      var data := DataFor(defaults.values, NotesKey);
      if data.Some? && data.value.NoteList? {
        notes := data.value.notes;
      } else {
        notes := SampleList(a, b, c, now);
      }
    }

    method SaveNotes()
      modifies defaults
      ensures defaults.values == SavedStore(old(defaults.values), notes)
    {
      defaults.Set(NotesKey, DataValue(NoteList(notes)));
    }
  }

  /** Updating replaces exactly the first note with the identifier and keeps the length; an
      unknown identifier leaves the list as it was. */
  lemma UpdateNoteSpec(notes: seq<Note>, note: Note)
    ensures |ReplaceFirst(notes, note, NoteId)| == |notes|
    ensures (forall j :: 0 <= j < |notes| ==> notes[j].id != note.id) ==> ReplaceFirst(notes, note, NoteId) == notes
    ensures forall i :: 0 <= i < |notes| && notes[i].id == note.id && (forall j :: 0 <= j < i ==> notes[j].id != note.id) ==>
              ReplaceFirst(notes, note, NoteId) == notes[i := note]
  {
    ReplaceFirstSpec(notes, note, NoteId);
  }

  /** Deleting removes every note with the identifier and keeps the others in order. */
  lemma DeleteNoteSpec(notes: seq<Note>, id: Uuid)
    ensures forall n :: n in RemoveKey(notes, NoteId, id) <==> n in notes && n.id != id
    ensures SubseqOf(RemoveKey(notes, NoteId, id), notes)
  {
    RemoveKeySpec(notes, NoteId, id);
  }

  // ---------------------------------------------------------------------------------------------
  // Quick capture

  /** A draft is committed when forced or when its trimmed title or trimmed body is not empty. */
  predicate Captures(force: bool, title: string, body: string)
  {
    force || Trim(title) != [] || Trim(body) != []
  }

  /** The note a committed draft becomes. */
  function CapturedNote(id: Uuid, now: int, title: string, body: string): Note
  {
    var note := DefaultNote(id, now);
    var titled := if Trim(title) != [] then note.(title := Trim(title)) else note;
    titled.(content := Trim(body), modifiedDate := now)
  }

  /** A captured note keeps the fresh identifier; its title is the trimmed draft title, or
      "Untitled" when that is blank; its body is the trimmed draft body. */
  lemma CapturedNoteSpec(id: Uuid, now: int, title: string, body: string)
    ensures var n := CapturedNote(id, now, title, body);
            n.id == id && n.content == Trim(body) && n.createdDate == now && n.modifiedDate == now
    ensures AllWhitespace(title) ==> CapturedNote(id, now, title, body).title == "Untitled"
    ensures !AllWhitespace(title) ==> CapturedNote(id, now, title, body).title == Trim(title) != []
    ensures !Captures(false, title, body) <==> AllWhitespace(title) && AllWhitespace(body)
  {
    TrimSpec(title);
    TrimSpec(body);
  }

  /** `commitQuickCaptureIfNeeded(force:)`: `id` and `now` are the new note's identifier and
      creation instant. Returns the identifier the screen selects, `None` when the draft was
      dropped and the selection is left as it was. */
  method CommitQuickCaptureIfNeeded(vm: QuickNotesViewModel, force: bool, draftTitle: string, draftBody: string,
                                    id: Uuid, now: int)
    returns (selected: Option<Uuid>)
    modifies vm, vm.defaults
    ensures !Captures(force, draftTitle, draftBody) ==>
              selected.None? && vm.notes == old(vm.notes) && vm.defaults.values == old(vm.defaults.values)
    ensures Captures(force, draftTitle, draftBody) ==>
              selected == Some(id) && vm.notes == [CapturedNote(id, now, draftTitle, draftBody)] + old(vm.notes) &&
              vm.defaults.values == SavedStore(old(vm.defaults.values), vm.notes)
  {
    var title := Trim(draftTitle);
    var body := Trim(draftBody);
    if !(force || title != [] || body != []) {
      return None;
    }
    var note := vm.CreateNote(id, now);
    if title != [] {
      note := note.(title := title);
    }
    note := note.(content := body);
    note := note.(modifiedDate := now);
    assert note == CapturedNote(id, now, draftTitle, draftBody);
    ghost var created := vm.notes;
    ReplaceNewest(DefaultNote(id, now), old(vm.notes), note);
    vm.UpdateNote(note);
    SavedStoreTwice(old(vm.defaults.values), created, vm.notes);
    selected := Some(note.id);
  }

  /** Replacing a note with the identifier of the newest one replaces the newest one. */
  lemma ReplaceNewest(newest: Note, rest: seq<Note>, note: Note)
    requires note.id == newest.id
    ensures FirstIndex([newest] + rest, NoteId, note.id) == Some(0)
    ensures ReplaceFirst([newest] + rest, note, NoteId) == [note] + rest
  {
    var s := [newest] + rest;
    assert NoteId(s[0]) == note.id;
    assert s[0 := note] == [note] + rest;
  }

  /** A second save overwrites the first. */
  lemma SavedStoreTwice(m: Values, first: seq<Note>, second: seq<Note>)
    ensures SavedStore(SavedStore(m, first), second) == SavedStore(m, second)
  {
  }

  // ---------------------------------------------------------------------------------------------
  // Search

  /** The note's lowercased title or body contains the lowercased query. */
  predicate MatchesQuery(n: Note, query: string)
  {
    Contains(Lower(n.title), Lower(query)) || Contains(Lower(n.content), Lower(query))
  }

  /** `filteredNotes`: everything for a blank query; otherwise the untrimmed query, lowercased,
      searched for in each lowercased title and body. */
  function FilteredNotes(notes: seq<Note>, searchText: string): seq<Note>
  {
    if Trim(searchText) == [] then notes
    else Filter(notes, (n: Note) => MatchesQuery(n, searchText))
  }

  /** A whitespace-only query shows every note; any other query shows, in list order, exactly the
      notes that match it. */
  lemma FilteredNotesSpec(notes: seq<Note>, searchText: string)
    ensures AllWhitespace(searchText) ==> FilteredNotes(notes, searchText) == notes
    ensures SubseqOf(FilteredNotes(notes, searchText), notes)
    ensures !AllWhitespace(searchText) ==>
              forall n :: n in FilteredNotes(notes, searchText) <==> n in notes && MatchesQuery(n, searchText)
  {
    TrimSpec(searchText);
    if AllWhitespace(searchText) {
      SubseqOfSelf(notes);
    } else {
      FilterIsSubseq(notes, (n: Note) => MatchesQuery(n, searchText));
      FilterMembers(notes, (n: Note) => MatchesQuery(n, searchText));
    }
  }

  // ---------------------------------------------------------------------------------------------
  // The quick-note hotkey settings

  const HotkeyEnabledKey := "quickNoteHotkeyEnabled"
  const HotkeyKeyCodeKey := "quickNoteHotkeyKeyCode"
  const HotkeyModifiersKey := "quickNoteHotkeyModifiers"

  /** Carbon's `cmdKey`, `optionKey` and `kVK_ANSI_K`. */
  const CmdKey: bv32 := 0x100
  const OptionKey: bv32 := 0x800
  const AnsiK := 40

  /** ⌥⌘, the modifiers used when none are stored. */
  const DefaultModifiers := (CmdKey | OptionKey) as int

  /** `UInt32(_:)` of a stored integer traps outside 0 ..< 2^32. */
  predicate StoredAsUInt32(m: Values, key: string)
  {
    0 <= IntegerFor(m, key) < 0x1_0000_0000
  }

  /** `quickNoteHotkeyEnabled`: off unless a Boolean is stored. */
  function HotkeyEnabled(m: Values): bool
  {
    match BoolObjectFor(m, HotkeyEnabledKey)
    case Some(b) => b
    case None => false
  }

  /** `quickNoteHotkeyKeyCode`. */
  function HotkeyKeyCode(m: Values): nat
    requires StoredAsUInt32(m, HotkeyKeyCodeKey)
  {
    IntegerFor(m, HotkeyKeyCodeKey)
  }

  /** `quickNoteHotkeyModifiers`: a stored 0 reads as ⌥⌘. */
  function HotkeyModifiers(m: Values): nat
    requires StoredAsUInt32(m, HotkeyModifiersKey)
  {
    var v := IntegerFor(m, HotkeyModifiersKey);
    if v == 0 then DefaultModifiers else v
  }

  datatype HotkeyRegistration = HotkeyRegistration(keyCode: nat, modifiers: nat)

  /** The store after `configureIfNeeded(userSettings:)`: an enabled hotkey without a key code gets K. */
  function ConfiguredStore(m: Values): Values
    requires StoredAsUInt32(m, HotkeyKeyCodeKey)
  {
    if HotkeyEnabled(m) && HotkeyKeyCode(m) == 0 then m[HotkeyKeyCodeKey := IntValue(AnsiK)] else m
  }

  /** What `configureIfNeeded(userSettings:)` registers: nothing when disabled. */
  function ConfiguredRegistration(m: Values): Option<HotkeyRegistration>
    requires StoredAsUInt32(m, HotkeyKeyCodeKey) && StoredAsUInt32(m, HotkeyModifiersKey)
  {
    if !HotkeyEnabled(m) then None
    else
      var m' := ConfiguredStore(m);
      Some(HotkeyRegistration(HotkeyKeyCode(m'), HotkeyModifiers(m')))
  }

  /** `configureIfNeeded(userSettings:)`, on the store; the Carbon registration itself is returned
      rather than performed. */
  method ConfigureIfNeeded(store: Defaults) returns (registered: Option<HotkeyRegistration>)
    requires StoredAsUInt32(store.values, HotkeyKeyCodeKey) && StoredAsUInt32(store.values, HotkeyModifiersKey)
    modifies store
    ensures store.values == ConfiguredStore(old(store.values))
    ensures registered == ConfiguredRegistration(old(store.values))
  {
    if !HotkeyEnabled(store.values) {
      return None;
    }
    if HotkeyKeyCode(store.values) == 0 {
      store.Set(HotkeyKeyCodeKey, IntValue(AnsiK));
    }
    registered := Some(HotkeyRegistration(HotkeyKeyCode(store.values), HotkeyModifiers(store.values)));
  }

  /** Nothing stored means the hotkey is off and the modifiers read as ⌘|⌥ = 2304. An enabled
      hotkey is always registered with a non-zero key code (K when none was stored, which is then
      written back) and non-zero modifiers (⌥⌘ when none were stored); a disabled one registers
      nothing and writes nothing. Configuring again changes nothing more. */
  lemma HotkeyDefaultsSpec(m: Values)
    requires StoredAsUInt32(m, HotkeyKeyCodeKey) && StoredAsUInt32(m, HotkeyModifiersKey)
    ensures DefaultModifiers == 2304
    ensures HotkeyModifiersKey !in m ==> HotkeyModifiers(m) == 2304
    ensures HotkeyEnabledKey !in m ==> !HotkeyEnabled(m)
    ensures ConfiguredRegistration(m).Some? <==> HotkeyEnabled(m)
    ensures HotkeyEnabled(m) ==>
              var r := ConfiguredRegistration(m).value;
              r.keyCode == (if IntegerFor(m, HotkeyKeyCodeKey) == 0 then AnsiK else IntegerFor(m, HotkeyKeyCodeKey)) &&
              r.modifiers != 0 &&
              (IntegerFor(m, HotkeyModifiersKey) != 0 ==> r.modifiers == IntegerFor(m, HotkeyModifiersKey))
    ensures !HotkeyEnabled(m) ==> ConfiguredStore(m) == m
    ensures var m' := ConfiguredStore(m);
            StoredAsUInt32(m', HotkeyKeyCodeKey) && StoredAsUInt32(m', HotkeyModifiersKey) &&
            ConfiguredStore(m') == m' && ConfiguredRegistration(m') == ConfiguredRegistration(m)
  {
  }
}
