/** The search session of the launcher view (`SearchBar` in
    ComfyNotes/Components/SearchBar.swift): the query, the notes it keeps, a
    keyboard-driven selection, and what Return asks the app to do. */
module SearchBar {
  import opened Wrappers
  import opened Notes
  import opened SearchFilter
  import opened SingleLineTextView
  import NotesStorage

  /** What Return resolves to. `OpenNote` stands for the call to
      `AppDelegate.openNote` with a binding to `storage.notes[storageIndex]`;
      `AddNewNote` is the branch that only logs "Add a new note". */
  datatype ReturnIntent = AddNewNote | OpenNote(id: NoteId, storageIndex: nat) | NoAction

  /** The arrow-up closure's new index: one up, but never below -1. */
  function Up(index: int): (r: int)
    ensures r >= -1
    ensures index >= 0 ==> r == index - 1
    ensures index < 0 ==> r == -1
  {
    if index - 1 < -1 then -1 else index - 1
  }

  /** The arrow-down closure's new index: one down, but never past `maxIndex`. */
  function Down(index: int, maxIndex: int): (r: int)
    ensures r <= maxIndex
    ensures index < maxIndex ==> r == index + 1
    ensures index >= maxIndex ==> r == maxIndex
  {
    if maxIndex < index + 1 then maxIndex else index + 1
  }

  datatype Arrow = ArrowUpKey | ArrowDownKey

  /** The index after a run of arrow keys over a list that does not change. */
  function Navigate(index: int, keys: seq<Arrow>, maxIndex: int): int
    decreases |keys|
  {
    if keys == [] then index
    else
      var next := if keys[0] == ArrowUpKey then Up(index) else Down(index, maxIndex);
      Navigate(next, keys[1..], maxIndex)
  }

  /** From the initial -1 (or any index in range), arrows keep the selection
      within [-1, maxSelectableIndex]. */
  lemma {:induction false} NavigationStaysInRange(index: int, keys: seq<Arrow>, maxIndex: int)
    requires 0 <= maxIndex
    requires -1 <= index <= maxIndex
    ensures -1 <= Navigate(index, keys, maxIndex) <= maxIndex
    decreases |keys|
  {
    if keys != [] {
      var next := if keys[0] == ArrowUpKey then Up(index) else Down(index, maxIndex);
      NavigationStaysInRange(next, keys[1..], maxIndex);
    }
  }

  /** `firstIndex(where: { $0.id == id })`. */
  function FirstIndexOfId(notes: seq<Note>, id: NoteId): (r: Option<nat>)
    ensures r.None? <==> forall k :: 0 <= k < |notes| ==> notes[k].id != id
    ensures r.Some? ==> r.value < |notes| && notes[r.value].id == id
    ensures r.Some? ==> forall k :: 0 <= k < r.value ==> notes[k].id != id
  {
    if notes == [] then None
    else if notes[0].id == id then Some(0)
    else match FirstIndexOfId(notes[1..], id)
      case None => None
      case Some(k) => Some(k + 1)
  }

  /** The store lookup of the Return closure cannot fail for a note that the
      filter kept, because the filter only keeps notes of the store. */
  lemma StoreLookupSucceeds(notes: seq<Note>, text: string, i: int)
    requires 0 <= i < |FilteredNotes(notes, text)|
    ensures FirstIndexOfId(notes, FilteredNotes(notes, text)[i].id).Some?
  {
  }

  /** With unique ids, the lookup by id finds the very note it started from. */
  lemma LookupFindsStoredNote(notes: seq<Note>, n: Note)
    requires n in notes && UniqueIds(notes)
    ensures FirstIndexOfId(notes, n.id).Some?
    ensures notes[FirstIndexOfId(notes, n.id).value] == n
  {
  }

  class SearchBar {
    /** `NotesStorage.shared`, observed by reference. */
    const storage: NotesStorage.NotesStorage
    /** The query, bound to the text view. */
    var text: string
    var selectedIndex: int

    ghost predicate Valid()
      reads this
    {
      selectedIndex >= -1
    }

    constructor (storage: NotesStorage.NotesStorage)
      ensures this.storage == storage
      ensures text == "" && selectedIndex == -1
      ensures Valid()
    {
      this.storage := storage;
      text := "";
      selectedIndex := -1;
    }

    function Filtered(): seq<Note>
      reads this, storage
    {
      FilteredNotes(storage.notes, text)
    }

    function MaxIndex(): int
      reads this, storage
    {
      MaxSelectableIndex(Filtered())
    }

    /** What Return does in the current state: "add new note" on an empty
        list; the first store note with the selected note's id when the
        index is in range (the very note selected, if ids are unique);
        nothing otherwise, however stale the index. */
    ghost predicate ResolvesReturn(intent: ReturnIntent)
      reads this, storage
    {
      var filtered := Filtered();
      if filtered == [] then intent == AddNewNote
      else if 0 <= selectedIndex < |filtered| then
        && intent.OpenNote?
        && intent.id == filtered[selectedIndex].id
        && intent.storageIndex < |storage.notes|
        && storage.notes[intent.storageIndex].id == intent.id
        && (forall k :: 0 <= k < intent.storageIndex ==> storage.notes[k].id != intent.id)
        && (UniqueIds(storage.notes) ==> storage.notes[intent.storageIndex] == filtered[selectedIndex])
      else intent == NoAction
    }

    method ArrowUp()
      requires Valid()
      modifies this`selectedIndex
      ensures Valid()
      ensures selectedIndex == Up(old(selectedIndex))
      ensures old(selectedIndex) <= MaxIndex() ==> selectedIndex <= MaxIndex()
    {
      selectedIndex := if selectedIndex - 1 < -1 then -1 else selectedIndex - 1;
    }

    method ArrowDown()
      requires Valid()
      modifies this`selectedIndex
      ensures Valid()
      ensures selectedIndex == Down(old(selectedIndex), MaxIndex())
      ensures -1 <= selectedIndex <= MaxIndex()
    {
      var maxIndex := MaxIndex();
      selectedIndex := if maxIndex < selectedIndex + 1 then maxIndex else selectedIndex + 1;
    }

    method Return() returns (intent: ReturnIntent)
      ensures ResolvesReturn(intent)
    {
      var filtered := Filtered();
      if filtered == [] {
        intent := AddNewNote;
      } else if selectedIndex >= 0 && selectedIndex < |filtered| {
        var selectedNote := filtered[selectedIndex];
        StoreLookupSucceeds(storage.notes, text, selectedIndex);
        if UniqueIds(storage.notes) {
          LookupFindsStoredNote(storage.notes, selectedNote);
        }
        match FirstIndexOfId(storage.notes, selectedNote.id) {
          case Some(realIndex) =>
            intent := OpenNote(selectedNote.id, realIndex);
          case None =>
            // "Couldn't find note in storage.notes": only logs.
            intent := NoAction;
        }
      } else {
        intent := NoAction;
      }
    }

    /** The query changes as the user types; the selection is NOT reset, so
        it may now point past the end of the new list. */
    method EditText(newText: string)
      requires Valid()
      modifies this`text
      ensures Valid()
      ensures text == newText
    {
      text := newText;
    }

    /** `paste`: replaces the selected range `[start, end)` of the query with
        the clipboard text, each LF replaced by a space; nothing happens when
        the clipboard holds no string. */
    method Paste(clipboard: Option<string>, start: int, end: int)
      requires Valid()
      requires 0 <= start <= end <= |text|
      modifies this`text
      ensures Valid()
      ensures clipboard.None? ==> text == old(text)
      ensures clipboard.Some? ==> text == old(text)[..start] + SingleLine(clipboard.value) + old(text)[end..]
      ensures '\n' !in old(text) ==> '\n' !in text
    {
      if clipboard.Some? {
        text := text[..start] + SingleLine(clipboard.value) + text[end..];
      }
    }

    /** `keyDown`, wired to this session's closures. `intent` is what Return
        resolved to, if the key was Return or Enter; `toTextEditing` says the
        key went to the text view's default handling. */
    method KeyDown(keyCode: UInt16) returns (intent: Option<ReturnIntent>, toTextEditing: bool)
      requires Valid()
      modifies this`selectedIndex
      ensures Valid()
      ensures toTextEditing <==> RouteKey(keyCode) == ToTextEditing
      ensures intent.Some? <==> RouteKey(keyCode) == ToReturn
      ensures intent.Some? ==> ResolvesReturn(intent.value)
      ensures RouteKey(keyCode) == ToArrowUp ==> selectedIndex == Up(old(selectedIndex))
      ensures RouteKey(keyCode) == ToArrowDown ==> selectedIndex == Down(old(selectedIndex), MaxIndex())
      ensures RouteKey(keyCode) in {ToReturn, ToTextEditing} ==> selectedIndex == old(selectedIndex)
    {
      intent, toTextEditing := None, false;
      match RouteKey(keyCode) {
        case ToArrowUp => ArrowUp();
        case ToArrowDown => ArrowDown();
        case ToReturn =>
          var resolved := Return();
          intent := Some(resolved);
        case ToTextEditing => toTextEditing := true;
      }
    }

    /** `onAppear`: seeds the sample notes only into an empty store. */
    method OnAppear(ids: seq<NoteId>, encoded: bool, written: bool)
      requires |ids| == 4
      modifies storage
      ensures old(storage.notes) != [] ==> storage.notes == old(storage.notes) && storage.file == old(storage.file)
      ensures old(storage.notes) == [] ==> storage.notes == NotesStorage.MockNotes(ids)
      ensures old(storage.notes) == [] ==> storage.file == NotesStorage.AfterSave(storage.notes, old(storage.file), encoded, written)
    {
      if storage.notes == [] {
        storage.AddMockNotes(ids, encoded, written);
      }
    }
  }
}
