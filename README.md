# ComfyNotes search overlay — a Dafny model

ComfyNotes is a macOS overlay: a floating, always-on-top panel and a launcher
search bar over a small list of notes. This project models the parts of it
that hold logic:

- **The search session** (`SearchBar`): the query `text`, the derived
  `filteredNotes` (an order-preserving, case-insensitive substring filter over
  the store), the keyboard-driven `selectedIndex` moved by Up and Down, what
  Return resolves to (add a note, open a note of the store, or nothing), the
  key routing of the query field (`SingleLineTextView`) and its paste handling (each LF
  replaced by a space), and the `onAppear` seeding of sample notes. In the
  code as shown the launched panel hosts `MySwiftUIView`, whose plain editor
  has none of this behaviour; `SearchBar` is only instantiated in its
  `#Preview`, so the session modelled here is one the app does not yet mount.
- **The app delegate's helpers**: `String.fourCharCodeValue` (UTF-16 units
  packed into a 32-bit code, with Swift's overflow trap), the floating
  panel's `canBecomeKey`/`canBecomeMain`, the click-through toggle, the
  launcher hotkey's registration constants and the signature check of its
  event handler.
- **The note store** (`NotesStorage`): one `notes` list, `init`, `load`,
  `save` and `addMockNotes`, with the file and the JSON coder reduced to their
  outcomes.

Modules: `Wrappers` (Option), `Notes` (the note record; ids are an abstract
equality type), `NotesStorage`, `SearchFilter` (the pure filter),
`SingleLineTextView` (key routing, LF replacement on paste), `SearchBar` (the session
class), `FourCharCode`, `AppDelegate`.

Behaviour of the code worth knowing:

- Changing the query does not reset `selectedIndex`. A stale index is
  harmless because Return checks the bounds (`SearchBar.SearchBar.Return`).
- The interaction toggle flips only `ignoresMouseEvents`. `isInteractionEnabled`
  never changes, so a click-through panel can still become key and main.
- A failed `load` keeps the current list instead of clearing it. At
  start-up the list is empty anyway.
- The code has no panel open/close state machine, no focus-loss closing, no
  re-registration of hotkeys and no note editor. None of these is modelled.

## Model

| member | source | states |
|---|---|---|
| `SearchFilter.Filter` | ComfyNotes/Components/SearchBar.swift:19 | the result is a subsequence of the store's notes (order kept) holding every occurrence of each note whose name contains the query ignoring case, and nothing else; a note is kept iff it is in the store and matches |
| `SearchFilter.FilteredNotes` | ComfyNotes/Components/SearchBar.swift:15-21 | `filteredNotes` is a subsequence of the store, drawn only from the store, keeping all notes for an empty query and exactly the matching ones otherwise |
| `SearchFilter.EmptyQueryKeepsStoreOrder` | ComfyNotes/Components/SearchBar.swift:16-17 | with an empty query the list is the store's list, same elements and same order |
| `SearchFilter.RefiningQueryNarrows` | ComfyNotes/Components/SearchBar.swift:18-19 | if the new query contains the old one ignoring case, the new list is a subsequence of the old one |
| `SearchFilter.ExtendingQueryNarrows` | ComfyNotes/Components/SearchBar.swift:18-19 | typing more at the end of the query only narrows the list (a subsequence of the previous one) |
| `SearchFilter.MatchesNarrow` | ComfyNotes/Components/SearchBar.swift:19 | a name that matches a longer query matches every query it contains |
| `SearchFilter.MaxSelectableIndex` | ComfyNotes/Components/SearchBar.swift:22 | `maxSelectableIndex` is 0 for an empty list (the "Add New Note" row) and the last valid index otherwise |
| `SearchBar.Up` | ComfyNotes/Components/SearchBar.swift:37 | Up moves one place up and never below -1 |
| `SearchBar.Down` | ComfyNotes/Components/SearchBar.swift:38 | Down moves one place down and never past `maxSelectableIndex`, where it stays |
| `SearchBar.NavigationStaysInRange` | ComfyNotes/Components/SearchBar.swift:37-38 | from -1 (or any index in range) any sequence of Up/Down over a fixed list keeps the index in [-1, maxSelectableIndex] |
| `SearchBar.FirstIndexOfId` | ComfyNotes/Components/SearchBar.swift:46 | `firstIndex(where:)` by id: none iff no note has the id, otherwise the first index holding it |
| `SearchBar.StoreLookupSucceeds` | ComfyNotes/Components/SearchBar.swift:43-51 | the store lookup of a note taken from `filteredNotes` always succeeds, so the "couldn't find note" branch is unreachable |
| `SearchBar.LookupFindsStoredNote` | ComfyNotes/Components/SearchBar.swift:46-48 | with unique ids the lookup by id finds the very note selected |
| `SearchBar.SearchBar.constructor` | ComfyNotes/Components/SearchBar.swift:11-13 | a session observes the shared store, starts with an empty query and index -1 |
| `SearchBar.SearchBar.ArrowUp` | ComfyNotes/Components/SearchBar.swift:37 | the index becomes `Up` of the old one, stays at least -1, and stays within the list's bound when it was |
| `SearchBar.SearchBar.ArrowDown` | ComfyNotes/Components/SearchBar.swift:38 | the index becomes `Down` of the old one and lies in [-1, maxSelectableIndex] afterwards, even from a stale index |
| `SearchBar.SearchBar.Return` | ComfyNotes/Components/SearchBar.swift:39-53 | empty list: add a new note, whatever the index; index in range: open the first store note whose id is the selected note's id (the selected note itself when ids are unique); non-empty list with an index out of range, stale or -1: nothing |
| `SearchBar.SearchBar.EditText` | ComfyNotes/Components/SearchBar.swift:214-219 | editing the query changes only `text`; the selection is kept as it was |
| `SearchBar.SearchBar.Paste` | ComfyNotes/Components/SearchBar.swift:131-136 | with a clipboard string, the selected range is replaced by the string with each LF replaced by a space; without one nothing changes; a query without LF keeps having none |
| `SearchBar.SearchBar.KeyDown` | ComfyNotes/Components/SearchBar.swift:123-130 | up and down arrows move the selection and are consumed; Return and Enter resolve Return and are consumed; every other key goes to text editing and leaves the selection alone |
| `SearchBar.SearchBar.OnAppear` | ComfyNotes/Components/SearchBar.swift:91-95 | sample notes are seeded (and saved) only into an empty store; a non-empty store and its file are left untouched |
| `SingleLineTextView.RouteKey` | ComfyNotes/Components/SearchBar.swift:123-129 | exactly code 126 is ArrowUp, exactly 125 is ArrowDown, exactly 36 and 76 are Return, and every other code goes to text editing |
| `SingleLineTextView.SingleLine` | ComfyNotes/Components/SearchBar.swift:133 | the pasted text has the same length, contains no LF, has each LF replaced by a space and every other character unchanged |
| `SingleLineTextView.SingleLineIdempotent` | ComfyNotes/Components/SearchBar.swift:133 | replacing LFs twice is replacing them once |
| `SingleLineTextView.SingleLineKeepsSingleLines` | ComfyNotes/Components/SearchBar.swift:133 | text without an LF is pasted unchanged |
| `FourCharCode.Utf16Units` | ComfyNotes/AppDelegate.swift:107 | the UTF-16 view has between one and two units per character, and for text below U+10000 it is the characters' code points one to one |
| `FourCharCode.ShiftLeft8` | ComfyNotes/AppDelegate.swift:108 | `<< 8` on a UInt32 keeps the low 24 bits, moved up a byte |
| `FourCharCode.FourCharCodeValue` | ComfyNotes/AppDelegate.swift:104-112 | the loop computes the left fold of `(result << 8) + unit` from 0 over the UTF-16 units, trapping as soon as an addition overflows |
| `FourCharCode.PackTrapIsFinal` | ComfyNotes/AppDelegate.swift:107-108 | once an addition has trapped, the whole computation is a trap |
| `FourCharCode.PackOfBytes` | ComfyNotes/AppDelegate.swift:104-111 | with units below 256 nothing overflows and the result is the big-endian base-256 value of the units modulo 2^32 |
| `FourCharCode.PackKeepsLastFourBytes` | ComfyNotes/AppDelegate.swift:104-111 | with units below 256 the result is the big-endian packing of the last (up to) four units |
| `FourCharCode.DistinctCodesForShortByteStrings` | ComfyNotes/AppDelegate.swift:104-111 | distinct strings of equal length at most four, with characters below U+0100, get distinct codes |
| `FourCharCode.LeadingZeroUnitCollides` | ComfyNotes/AppDelegate.swift:104-111 | strings of different lengths can collide: "\0a" and "a" both give 0x61 |
| `FourCharCode.CmfyCode` | ComfyNotes/AppDelegate.swift:71 | "cmfy" packs to 0x636D6679 |
| `FourCharCode.WideUnitCanTrap` | ComfyNotes/AppDelegate.swift:108 | a unit of 256 or more can overflow the addition and trap |
| `AppDelegate.LauncherRegistration` | ComfyNotes/AppDelegate.swift:67-71 | the launcher binding is key code 0x31 (space) with Control+Shift (0x1200), signature "cmfy" = 0x636D6679, id 1 |
| `AppDelegate.HandleHotKeyEvent` | ComfyNotes/AppDelegate.swift:82-91 | the handler reacts iff the event's signature is "cmfy" (a failed parameter read leaves signature 0 and is ignored), never looks at the id, and returns noErr in every case |
| `AppDelegate.FloatingPanel.constructor` | ComfyNotes/AppDelegate.swift:18-19 | a new panel is interactive and not click-through |
| `AppDelegate.FloatingPanel.CanBecomeKey` | ComfyNotes/AppDelegate.swift:21-23 | key eligibility is exactly `isInteractionEnabled` |
| `AppDelegate.FloatingPanel.CanBecomeMain` | ComfyNotes/AppDelegate.swift:25-27 | main eligibility always equals key eligibility |
| `AppDelegate.AppDelegate.constructor` | ComfyNotes/AppDelegate.swift:30-33 | before launch there is no window and no hotkey |
| `AppDelegate.AppDelegate.RegisterGlobalHotkey` | ComfyNotes/AppDelegate.swift:67-80 | the registered binding is the launcher binding above |
| `AppDelegate.AppDelegate.ApplicationDidFinishLaunching` | ComfyNotes/AppDelegate.swift:35-59 | after launch the hotkey is registered and a fresh panel exists that can become key and main and does not ignore the mouse |
| `AppDelegate.AppDelegate.ToggleInteraction` | ComfyNotes/AppDelegate.swift:61-63 | the toggle negates `ignoresMouseEvents` (so two toggles restore it) and leaves `isInteractionEnabled` and key/main eligibility unchanged |
| `NotesStorage.NotesStorage.constructor` | ComfyNotes/Models/NotesStorage.swift:13-27 | the store starts from an empty list and runs `load` once over it |
| `NotesStorage.NotesStorage.Load` | ComfyNotes/Models/NotesStorage.swift:29-34 | the list is replaced by the decoded list iff the read and the decode both succeed, and is otherwise kept, not cleared |
| `NotesStorage.FailedLoadKeepsNotes` | ComfyNotes/Models/NotesStorage.swift:29-34 | a failed read or decode leaves the list as it was |
| `NotesStorage.NotesStorage.Save` | ComfyNotes/Models/NotesStorage.swift:36-40 | `save` never changes `notes`; when encoding and writing succeed the file holds the current list, otherwise it is unchanged |
| `NotesStorage.SaveThenLoadRestores` | ComfyNotes/Models/NotesStorage.swift:29-40 | a successful save followed by a load restores the saved list |
| `NotesStorage.MockNotes` | ComfyNotes/Models/NotesStorage.swift:43-48 | exactly four notes, named in order "Build ComfyNotes MVP", "Workout Routine", "Ideas", "Daily Log" |
| `NotesStorage.NotesStorage.AddMockNotes` | ComfyNotes/Models/NotesStorage.swift:42-50 | the previous list is discarded for the four sample notes, which are then saved |

## Left out

- `localizedCaseInsensitiveContains` folds case by locale-aware Unicode rules; the model folds ASCII letters only. It also treats the empty needle as contained, which never matters because the filter is only applied to a non-empty query.
- Only LF (U+000A) is replaced on paste, as in the app; CR, CRLF's CR, U+0085, U+2028 and U+2029 are kept, so pasted text is not guaranteed to be a single line.
- Selections and pasted ranges are counted in characters; AppKit counts UTF-16 units. Swift compares `Character`s while `replacingOccurrences` works on UTF-16; the model works on Unicode scalars throughout.
- The file system, JSON encoding and decoding, and `UUID()` are outside the model: a load sees only whether the read and the decode succeeded, a save takes the outcomes of encoding and writing as parameters, and note ids are parameters.
- NotesStorage.NotesStorage.Save: assumes a successful save is read back as the same list (JSON keeps UUIDs and strings), and that a failed write leaves the old file intact; a partial, non-atomic write is not modelled.
- The `NotesStorage.shared` singleton and SwiftUI's observation are not modelled; the session holds one store by reference.
- Carbon calls (`RegisterEventHotKey`, `InstallEventHandler`, `GetEventParameter`, `GetApplicationEventTarget`) are foreign; only the values passed and the signature comparison are modelled. Their status codes are ignored by the app and by the model.
- The `KeyboardShortcuts` library that binds Command+Shift+1 is foreign; the toggle is a plain method.
- Window construction and styling, all SwiftUI `body` views, the text view's `layout()` inset computation (floating point) and the NSView bridging of both `TransparentTextEditor` copies are UI plumbing.
- The log lines (`print`) are not modelled; the Return outcomes and the hotkey handler's `recognized` flag stand for them.
- `AppDelegate.openNote`, called on Return, is not part of this model; Return yields an `OpenNote` intent instead.
- ComfyNotes/ComfyNotesApp.swift is only the app entry point and has no behaviour of its own.
