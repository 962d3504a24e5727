/** A quick note. Its rich-text body is modelled by its plain text (`content.string`); fonts,
    attributes and the RTF encoding used when it is stored are outside the model. */
module Notes {
  import opened Seqs
  import opened Text

  datatype Note = Note(id: Uuid, title: string, content: string, createdDate: int, modifiedDate: int)

  /** `Note()`: `id` and `now` stand for `UUID()` and `Date()`. */
  function DefaultNote(id: Uuid, now: int): (n: Note)
    ensures n.title == "Untitled" && n.content == [] && n.id == id
    ensures n.createdDate == now && n.modifiedDate == now
  {
    Note(id, "Untitled", "", now, now)
  }

  /** `Note.sampleList`: three sample notes, created at `now` with the given identifiers. */
  function SampleList(a: Uuid, b: Uuid, c: Uuid, now: int): seq<Note>
  {
    [ Note(a, "Meeting Notes", "Discussed project timeline and deliverables.", now, now),
      Note(b, "Ideas", "New feature ideas for the app.", now, now),
      Note(c, "To-Do", "1. Review code\n2. Update documentation\n3. Test features", now, now) ]
  }

  const PreviewLength := 100

  /** `preview`. */
  function Preview(n: Note): string
  {
    Ellipsized(n.content, PreviewLength)
  }

  /** Short content is its own preview; longer content shows its first 100 characters and "...". */
  lemma PreviewSpec(n: Note)
    ensures |n.content| <= 100 ==> Preview(n) == n.content
    ensures |n.content| > 100 ==> Preview(n) == n.content[..100] + "..."
    ensures |Preview(n)| <= 103
  {
    EllipsizedSpec(n.content, PreviewLength);
  }

  /** `==` on notes. */
  predicate SameNote(a: Note, b: Note)
  {
    a.id == b.id
  }

  /** The key the note list is searched and edited by. */
  function NoteId(n: Note): Uuid { n.id }

  /** Note equality looks at the identifier only: it is an equivalence, and editing any other field
      keeps a note equal to its old self. So the list operations that match on `id` agree with
      `==`: deleting a note drops exactly the notes equal to it, and the first note with its
      identifier is the first note equal to it. */
  lemma SameNoteSpec(notes: seq<Note>, a: Note, b: Note, c: Note, title: string, content: string, modified: int)
    ensures SameNote(a, a)
    ensures SameNote(a, b) ==> SameNote(b, a)
    ensures SameNote(a, b) && SameNote(b, c) ==> SameNote(a, c)
    ensures SameNote(a.(title := title, content := content, modifiedDate := modified), a)
    ensures SameNote(a, b) <==> a.id == b.id
    ensures forall n :: n in RemoveKey(notes, NoteId, a.id) <==> n in notes && !SameNote(n, a)
    ensures FirstIndex(notes, NoteId, a.id).Some? ==>
              var i := FirstIndex(notes, NoteId, a.id).value;
              SameNote(notes[i], a) && forall j :: 0 <= j < i ==> !SameNote(notes[j], a)
    ensures FirstIndex(notes, NoteId, a.id).None? <==> forall n :: n in notes ==> !SameNote(n, a)
  {
    RemoveKeySpec(notes, NoteId, a.id);
  }
}
