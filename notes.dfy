/** The note record shared by the store, the search session and the panels
    (ComfyNotes/Models/Notes.swift). */
module Notes {
  /** A note's identity. The app draws it from `UUID()`, which is
      nondeterministic, so the model only relies on comparing ids. */
  type NoteId(==, !new)

  datatype Note = Note(id: NoteId, name: string, content: string)

  /** No two notes of the list share an id. `UUID()` makes this hold in
      practice, but nothing in the app enforces it. */
  predicate UniqueIds(notes: seq<Note>) {
    forall i, j :: 0 <= i < j < |notes| ==> notes[i].id != notes[j].id
  }
}
