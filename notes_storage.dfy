/** The note store (ComfyNotes/Models/NotesStorage.swift): one list of notes
    that is loaded from, and saved to, a JSON file. */
module NotesStorage {
  import opened Notes

  /** What reading and decoding `notes.json` would give. The file system and
      the JSON coder are not modelled, only their outcome: the read fails
      (`Unreadable`), the read succeeds but decoding `[Note]` throws
      (`Undecodable`), or both succeed (`Holds`). */
  datatype NotesFile = Unreadable | Undecodable | Holds(notes: seq<Note>)

  /** The list `load` leaves behind: the decoded list when the read and the
      decode both succeed, the current list otherwise. */
  function AfterLoad(current: seq<Note>, file: NotesFile): seq<Note>
  {
    match file
    case Holds(decoded) => decoded
    case _ => current
  }

  /** The file `save` leaves behind: the encoding of `notes` when encoding
      and writing both succeed, the previous file otherwise. A successful
      save is read back as the same list (JSON keeps UUIDs and strings). */
  function AfterSave(notes: seq<Note>, file: NotesFile, encoded: bool, written: bool): NotesFile
  {
    if encoded && written then Holds(notes) else file
  }

  /** A successful save followed by a load restores the saved list, whatever
      the list in memory was in between. */
  lemma SaveThenLoadRestores(saved: seq<Note>, file: NotesFile, inMemory: seq<Note>)
    ensures AfterLoad(inMemory, AfterSave(saved, file, true, true)) == saved
  {
  }

  /** A failed load never clears the list. */
  lemma FailedLoadKeepsNotes(current: seq<Note>, file: NotesFile)
    requires !file.Holds?
    ensures AfterLoad(current, file) == current
  {
  }

  const MockNames: seq<string> := ["Build ComfyNotes MVP", "Workout Routine", "Ideas", "Daily Log"]

  /** The four sample notes of `addMockNotes`; `ids` are the UUIDs that
      `Note(name:content:)` draws. */
  function MockNotes(ids: seq<NoteId>): (r: seq<Note>)
    requires |ids| == 4
    ensures |r| == 4
    ensures forall i :: 0 <= i < 4 ==> r[i].id == ids[i] && r[i].name == MockNames[i]
  {
    [ Note(ids[0], "Build ComfyNotes MVP", "Finish the basic structure \U{1F6F8}"),
      Note(ids[1], "Workout Routine", "Pushups, Pullups, Squats"),
      Note(ids[2], "Ideas", "Build Raycast clone one day"),
      Note(ids[3], "Daily Log", "Today I fought SwiftData and won \U{1F602}") ]
  }

  class NotesStorage {
    /** The `@Published` list every view observes. */
    var notes: seq<Note>
    /** The state of Application Support/ComfyNotes/notes.json. */
    var file: NotesFile

    /** `init` starts from an empty list and runs `load` once. */
    constructor (file: NotesFile)
      ensures this.file == file
      ensures notes == AfterLoad([], file)
    {
      notes := [];
      this.file := file;
      new;
      Load();
    }

    method Load()
      modifies this`notes
      ensures notes == AfterLoad(old(notes), file)
    {
      match file {
        case Holds(decoded) => notes := decoded;
        case _ =>
      }
    }

    /** `encoded` and `written` are the outcomes of `JSONEncoder().encode`
        and `Data.write(to:)`, both of which `save` swallows with `try?`. */
    method Save(encoded: bool, written: bool)
      modifies this`file
      ensures file == AfterSave(notes, old(file), encoded, written)
    {
      if encoded && written {
        file := Holds(notes);
      }
    }

    /** Replaces the whole list with the four sample notes, then saves. */
    method AddMockNotes(ids: seq<NoteId>, encoded: bool, written: bool)
      requires |ids| == 4
      modifies this
      ensures notes == MockNotes(ids)
      ensures file == AfterSave(MockNotes(ids), old(file), encoded, written)
    {
      notes := MockNotes(ids);
      Save(encoded, written);
    }
  }
}
