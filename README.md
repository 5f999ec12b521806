# NoteNext note list screen, modelled in Dafny

This project models the logic inside the NoteNext app's main note list
screen (`NotesScreen.kt`), a Jetpack Compose screen bound to a view-model.
Two parts of that screen are modelled:

- **The visible-note derivation.** This part is pure. The view-model's note
  list is first narrowed by the optional label filter. Then the screen picks
  one of three bodies: a loading indicator, the "no notes yet" message, or
  the note sections. For the sections, archived notes are dropped and the
  search query must occur, ignoring case, in the title or the content. The
  result is split into a pinned section and an "others" section, each with
  an optional header. Both the staggered grid and the list layout emit the
  same headers and cards in the same order, so one function (`SectionEntries`)
  models both.
- **The screen's local interaction state.** This part is imperative. The
  class `Screen.NotesScreen` holds the search query, search-active flag,
  FAB-expanded flag, sort-menu flag and one flag per dialog. It also holds
  the input that the create-project and move-to-project dialogs remember
  while open. Each gesture handler is a method. Its contract says which
  local variables change and which single event, if any, is appended to
  `dispatched`, the log of calls to `viewModel.onEvent`.

Modules: `Seqs` (order-preserving filter, interleaving), `Notes` (the data the
screen reads and the events it sends), `Text` (case-insensitive `contains`,
`isBlank`), `NoteList` (the derivation), `Screen` (the handlers).

The code decides the "no notes yet" message on the label-filtered list,
before archived and non-matching notes are removed. A label whose notes are
all archived, or all miss the query, therefore shows two empty sections with
no header, not the message. The model follows the code here
(`NoteList.Content`, `NoteList.HiddenNotesGiveEmptySections`).

## Model

| member | source | states |
|---|---|---|
| `Seqs.Filter` | app/src/main/java/com/suvojeet/notenext/ui/notes/NotesScreen.kt:388-392 | Kotlin `filter`: an element is in the result iff it is in the input and satisfies the predicate; the result is no longer than the input and duplicates nothing |
| `Seqs.FilterSplits` | app/src/main/java/com/suvojeet/notenext/ui/notes/NotesScreen.kt:391-392 | filtering by a predicate and by its negation interleaves back into the input: both parts keep the input's order and every position lands in exactly one part |
| `Seqs.InterleavesCounts` | app/src/main/java/com/suvojeet/notenext/ui/notes/NotesScreen.kt:391-392 | an interleaving loses and duplicates nothing: lengths add up and the multisets add up |
| `Seqs.FilterIdempotent` | app/src/main/java/com/suvojeet/notenext/ui/notes/NotesScreen.kt:388-390 | filtering a filtered list by the same predicate returns it unchanged |
| `Seqs.FilterNone` | app/src/main/java/com/suvojeet/notenext/ui/notes/NotesScreen.kt:388-390 | a predicate false on every element selects the empty list |
| `Seqs.FilterCongruent` | app/src/main/java/com/suvojeet/notenext/ui/notes/NotesScreen.kt:388-390 | predicates that agree on the list's elements select the same list |
| `Seqs.FilterFuse` | app/src/main/java/com/suvojeet/notenext/ui/notes/NotesScreen.kt:351-390 | a filter followed by a filter is one filter by the conjunction |
| `Text.MatchesFrom` | app/src/main/java/com/suvojeet/notenext/ui/notes/NotesScreen.kt:389 | the search scan from a start index is true iff some window at or after it equals the query up to ASCII case |
| `Text.ContainsIgnoreCase` | app/src/main/java/com/suvojeet/notenext/ui/notes/NotesScreen.kt:389 | `contains(q, ignoreCase = true)` is true iff some window of the text equals the query up to case; the empty query always matches; a query longer than the text never does |
| `Text.ContainsOfFolded` | app/src/main/java/com/suvojeet/notenext/ui/notes/NotesScreen.kt:389 | folding the case of the text and the query together never changes the answer |
| `Text.ContainsIgnoresCase` | app/src/main/java/com/suvojeet/notenext/ui/notes/NotesScreen.kt:389 | folding the case of the text alone, of the query alone, or of both never changes the answer |
| `Text.ContainsExample` | app/src/main/java/com/suvojeet/notenext/ui/notes/NotesScreen.kt:389 | "GROC" is found in "Groceries" |
| `Text.IsBlank` | app/src/main/java/com/suvojeet/notenext/ui/notes/NotesScreen.kt:575 | `isBlank()` is true iff every character is whitespace (so the empty name is blank) |
| `Text.BlankExamples` | app/src/main/java/com/suvojeet/notenext/ui/notes/NotesScreen.kt:575 | "   " is blank; "  Groceries" is not |
| `NoteList.NotesToDisplay` | app/src/main/java/com/suvojeet/notenext/ui/notes/NotesScreen.kt:351-355 | with no label filter the list is unchanged; otherwise a note stays iff its label equals the filter |
| `NoteList.FilteredNotes` | app/src/main/java/com/suvojeet/notenext/ui/notes/NotesScreen.kt:388-390 | a note stays iff it is not archived and the query occurs, ignoring case, in its title or content |
| `NoteList.PinnedNotes` | app/src/main/java/com/suvojeet/notenext/ui/notes/NotesScreen.kt:391 | holds exactly the pinned notes of the filtered list |
| `NoteList.OtherNotes` | app/src/main/java/com/suvojeet/notenext/ui/notes/NotesScreen.kt:392 | holds exactly the unpinned notes of the filtered list |
| `NoteList.Content` | app/src/main/java/com/suvojeet/notenext/ui/notes/NotesScreen.kt:351-392 | loading wins over everything; "no notes yet" iff not loading and no note carries the filtered label; otherwise a note is in pinned ++ others iff it is in the state, has the filtered label when one is set, is not archived and matches the query; pinned holds only pinned notes, others only unpinned ones |
| `NoteList.SectionsSplitFilteredNotes` | app/src/main/java/com/suvojeet/notenext/ui/notes/NotesScreen.kt:388-392 | the pinned and other sections of a filtered list interleave into it: each keeps its order and every filtered note is in exactly one section, as often as in the list |
| `NoteList.ContentSectionsInterleave` | app/src/main/java/com/suvojeet/notenext/ui/notes/NotesScreen.kt:351-392 | when the body shows sections, they interleave the state's listed notes: each section keeps the notes' original order, and every listed note is in exactly one section, as often as in the state |
| `NoteList.ListedNotesInOriginalOrder` | app/src/main/java/com/suvojeet/notenext/ui/notes/NotesScreen.kt:351-390 | the label filter then the archive and search filter equal one filter of the state's notes by "visible", so listed notes keep their original order |
| `NoteList.UnfilteredShowsEveryUnarchivedNote` | app/src/main/java/com/suvojeet/notenext/ui/notes/NotesScreen.kt:351-390 | with no label filter and an empty query the filtered list is exactly the non-archived notes, in order |
| `NoteList.HiddenNotesGiveEmptySections` | app/src/main/java/com/suvojeet/notenext/ui/notes/NotesScreen.kt:357-392 | when some note has the filtered label but none is visible, the body is two empty sections with no entries, not the "no notes yet" message |
| `NoteList.FilteredNotesIdempotent` | app/src/main/java/com/suvojeet/notenext/ui/notes/NotesScreen.kt:388-390 | applying the archive and search filter to its own output changes nothing |
| `NoteList.SectionEntries` | app/src/main/java/com/suvojeet/notenext/ui/notes/NotesScreen.kt:394-531 | the "Pinned" header is shown iff there are pinned notes, and is then the first entry; the "Others" header is shown iff there are both pinned and other notes, and then sits right after the pinned cards; there is one entry per note plus one per header shown, so no header appears twice |
| `NoteList.SectionCardsInOrder` | app/src/main/java/com/suvojeet/notenext/ui/notes/NotesScreen.kt:394-531 | the cards shown, in order, are the pinned notes followed by the other notes |
| `Screen.ResolveBack` | app/src/main/java/com/suvojeet/notenext/ui/notes/NotesScreen.kt:174-183 | a branch fires iff the handler is enabled (search active, selection non-empty or a note expanded); search wins over selection, selection over the expanded note |
| `Screen.ResolveSortType` | app/src/main/java/com/suvojeet/notenext/ui/notes/NotesScreen.kt:224-228 | the default DATE_MODIFIED is requested iff the active option or the default is clicked; otherwise the clicked option, which differs from the active one |
| `Screen.SortOptionToggles` | app/src/main/java/com/suvojeet/notenext/ui/notes/NotesScreen.kt:223-229 | clicking a non-default option twice toggles between it and the default, assuming the view-model adopts the requested order before the second click |
| `Screen.SelectedProjectId` | app/src/main/java/com/suvojeet/notenext/ui/notes/NotesScreen.kt:633 | no project selected gives a null id, distinct from every real id; a selected project gives its id |
| `Screen.NotesScreen.constructor` | app/src/main/java/com/suvojeet/notenext/ui/notes/NotesScreen.kt:124-134 | every local variable starts at its remembered default and nothing has been dispatched |
| `Screen.NotesScreen.Dispatch` | app/src/main/java/com/suvojeet/notenext/ui/notes/NotesScreen.kt:180 | `viewModel.onEvent(e)` appends exactly `e` to the log and changes nothing else |
| `Screen.NotesScreen.OnBack` | app/src/main/java/com/suvojeet/notenext/ui/notes/NotesScreen.kt:174-183 | intercepts iff enabled; the search branch only clears the search-active flag and dispatches nothing; the others dispatch ClearSelection or CollapseNote and change no local variable |
| `Screen.NotesScreen.OnSearchQueryChange` | app/src/main/java/com/suvojeet/notenext/ui/notes/NotesScreen.kt:215 | only the query changes |
| `Screen.NotesScreen.OnSearchActiveChange` | app/src/main/java/com/suvojeet/notenext/ui/notes/NotesScreen.kt:217 | only the search-active flag changes |
| `Screen.NotesScreen.OnLayoutToggleClick` | app/src/main/java/com/suvojeet/notenext/ui/notes/NotesScreen.kt:218 | dispatches ToggleLayout only |
| `Screen.NotesScreen.OnSortClick` | app/src/main/java/com/suvojeet/notenext/ui/notes/NotesScreen.kt:219 | only opens the sort menu |
| `Screen.NotesScreen.OnSortMenuDismissRequest` | app/src/main/java/com/suvojeet/notenext/ui/notes/NotesScreen.kt:222 | only closes the sort menu |
| `Screen.NotesScreen.OnSortOptionClick` | app/src/main/java/com/suvojeet/notenext/ui/notes/NotesScreen.kt:223-230 | dispatches exactly SortNotes of the resolved option; no local variable changes |
| `Screen.NotesScreen.OnClearSelectionClick` | app/src/main/java/com/suvojeet/notenext/ui/notes/NotesScreen.kt:199 | dispatches ClearSelection only |
| `Screen.NotesScreen.OnTogglePinClick` | app/src/main/java/com/suvojeet/notenext/ui/notes/NotesScreen.kt:200 | dispatches TogglePinForSelectedNotes only |
| `Screen.NotesScreen.OnReminderClick` | app/src/main/java/com/suvojeet/notenext/ui/notes/NotesScreen.kt:201 | only opens the reminder dialog |
| `Screen.NotesScreen.OnColorClick` | app/src/main/java/com/suvojeet/notenext/ui/notes/NotesScreen.kt:202 | only opens the color dialog |
| `Screen.NotesScreen.OnArchiveClick` | app/src/main/java/com/suvojeet/notenext/ui/notes/NotesScreen.kt:203 | dispatches ArchiveSelectedNotes only |
| `Screen.NotesScreen.OnDeleteClick` | app/src/main/java/com/suvojeet/notenext/ui/notes/NotesScreen.kt:204 | only opens the delete dialog |
| `Screen.NotesScreen.OnCopyClick` | app/src/main/java/com/suvojeet/notenext/ui/notes/NotesScreen.kt:205 | dispatches CopySelectedNotes only |
| `Screen.NotesScreen.OnSendClick` | app/src/main/java/com/suvojeet/notenext/ui/notes/NotesScreen.kt:206 | dispatches SendSelectedNotes only |
| `Screen.NotesScreen.OnLabelClick` | app/src/main/java/com/suvojeet/notenext/ui/notes/NotesScreen.kt:207 | only opens the label dialog |
| `Screen.NotesScreen.OnMoveToProjectClick` | app/src/main/java/com/suvojeet/notenext/ui/notes/NotesScreen.kt:208 | only opens the move dialog, which starts with "none" selected |
| `Screen.NotesScreen.OnFabExpandedChange` | app/src/main/java/com/suvojeet/notenext/ui/notes/NotesScreen.kt:249 | only the FAB-expanded flag changes |
| `Screen.NotesScreen.OnFabNoteClick` | app/src/main/java/com/suvojeet/notenext/ui/notes/NotesScreen.kt:250-253 | dispatches ExpandNote(-1) and collapses the FAB |
| `Screen.NotesScreen.OnFabChecklistClick` | app/src/main/java/com/suvojeet/notenext/ui/notes/NotesScreen.kt:254-257 | dispatches ExpandNote(-1, "CHECKLIST") and collapses the FAB |
| `Screen.NotesScreen.OnFabProjectClick` | app/src/main/java/com/suvojeet/notenext/ui/notes/NotesScreen.kt:258-261 | opens the create-project dialog with an empty name, collapses the FAB, dispatches nothing |
| `Screen.NotesScreen.OnContentClick` | app/src/main/java/com/suvojeet/notenext/ui/notes/NotesScreen.kt:341-346 | a tap on the list leaves the FAB collapsed and changes nothing else |
| `Screen.NotesScreen.OnNoteClick` | app/src/main/java/com/suvojeet/notenext/ui/notes/NotesScreen.kt:418-424 | dispatches ToggleNoteSelection(id) in selection mode, ExpandNote(id) otherwise, and nothing else |
| `Screen.NotesScreen.OnNoteLongClick` | app/src/main/java/com/suvojeet/notenext/ui/notes/NotesScreen.kt:425-427 | always dispatches ToggleNoteSelection(id), and nothing else |
| `Screen.NotesScreen.OnEditorDismiss` | app/src/main/java/com/suvojeet/notenext/ui/notes/NotesScreen.kt:544 | dispatches CollapseNote only |
| `Screen.NotesScreen.ConfirmDelete` | app/src/main/java/com/suvojeet/notenext/ui/notes/NotesScreen.kt:272-277 | dispatches DeleteSelectedNotes and clears only the delete dialog's flag |
| `Screen.NotesScreen.DismissDelete` | app/src/main/java/com/suvojeet/notenext/ui/notes/NotesScreen.kt:282-286 | clears only the delete dialog's flag, dispatches nothing |
| `Screen.NotesScreen.ConfirmLabel` | app/src/main/java/com/suvojeet/notenext/ui/notes/NotesScreen.kt:293-296 | dispatches SetLabelForSelectedNotes(label) and clears only the label dialog's flag |
| `Screen.NotesScreen.DismissLabel` | app/src/main/java/com/suvojeet/notenext/ui/notes/NotesScreen.kt:292 | clears only the label dialog's flag, dispatches nothing |
| `Screen.NotesScreen.ConfirmReminder` | app/src/main/java/com/suvojeet/notenext/ui/notes/NotesScreen.kt:302-305 | dispatches SetReminderForSelectedNotes(date, time, repeat) and clears only the reminder dialog's flag |
| `Screen.NotesScreen.DismissReminder` | app/src/main/java/com/suvojeet/notenext/ui/notes/NotesScreen.kt:301 | clears only the reminder dialog's flag, dispatches nothing |
| `Screen.NotesScreen.SelectColor` | app/src/main/java/com/suvojeet/notenext/ui/notes/NotesScreen.kt:312-315 | dispatches ChangeColorForSelectedNotes(color) and clears only the color dialog's flag |
| `Screen.NotesScreen.DismissColorPicker` | app/src/main/java/com/suvojeet/notenext/ui/notes/NotesScreen.kt:311 | clears only the color dialog's flag, dispatches nothing |
| `Screen.NotesScreen.EditProjectName` | app/src/main/java/com/suvojeet/notenext/ui/notes/NotesScreen.kt:564-570 | only the typed project name changes |
| `Screen.NotesScreen.ConfirmCreateProject` | app/src/main/java/com/suvojeet/notenext/ui/notes/NotesScreen.kt:572-579 | with a blank name the disabled button does nothing; otherwise dispatches CreateProject with the name exactly as typed (untrimmed) and closes only that dialog |
| `Screen.NotesScreen.DismissCreateProject` | app/src/main/java/com/suvojeet/notenext/ui/notes/NotesScreen.kt:322 | closes the create-project dialog (dropping its name), dispatches nothing |
| `Screen.NotesScreen.SelectProject` | app/src/main/java/com/suvojeet/notenext/ui/notes/NotesScreen.kt:601-615 | only the selected project changes, to the picked listed project |
| `Screen.NotesScreen.SelectNoProject` | app/src/main/java/com/suvojeet/notenext/ui/notes/NotesScreen.kt:616-628 | only the selected project changes, to "none" |
| `Screen.NotesScreen.ConfirmMoveToProject` | app/src/main/java/com/suvojeet/notenext/ui/notes/NotesScreen.kt:631-636 | dispatches MoveSelectedNotesToProject with the selected project's id, or a null id for "none", and closes only that dialog |
| `Screen.NotesScreen.DismissMoveToProject` | app/src/main/java/com/suvojeet/notenext/ui/notes/NotesScreen.kt:333 | closes the move dialog (dropping its selection), dispatches nothing |
| `Screen.BackScenario` | app/src/main/java/com/suvojeet/notenext/ui/notes/NotesScreen.kt:174-183 | with search active and a note selected, the first back dispatches nothing and the second dispatches ClearSelection |
| `Screen.DialogScenario` | app/src/main/java/com/suvojeet/notenext/ui/notes/NotesScreen.kt:320-339 | a blank project name creates nothing, "  Groceries" is created as typed, and a move with "none" sends a null project id |

## Left out

- Compose rendering, layout, theming, animation, string resources and dp sizes are not modelled. The grid and list layouts are one entry sequence (`NoteList.SectionEntries`).
- `NoteList.SectionEntries`: the lazy grid and list key each card by `note.id` (NotesScreen.kt:412, 443, 479, 510), and Compose fails when two cards on screen share a key. The model does not capture that failure: it assumes displayed note ids are distinct and shows both cards otherwise.
- The `LaunchedEffect` collector of view-model UI events is not modelled. It starts share intents and shows toasts, which are platform side effects.
- The auto-delete days setting is not modelled. It is only interpolated into the delete dialog's message.
- `NotesViewModel` is not part of this model. `viewModel.onEvent` is modelled only as appending to the `dispatched` log. The view-model's state is a plain input value (`Notes.ScreenState`), and how it reduces the events is not modelled.
- `LabelDialog`, `ReminderSetDialog`, `ColorSelectionDialog`, `ContextualTopAppBar`, `SearchBar`, `MultiActionFab` and `AddEditNoteScreen` are not part of this model. Each is reduced to the callbacks this screen passes it.
- `Screen.NotesScreen.OnBack`: clearing the keyboard focus in the search branch is a platform effect and is not modelled.
- `Text.ContainsIgnoreCase`: case folding covers ASCII letters only. Kotlin's `ignoreCase` also folds non-ASCII letters, which the model compares exactly.
- `Text.IsBlank`: whitespace is the JVM's definition (`Character.isWhitespace` or `isSpaceChar`) written out as a fixed set of code points.
- The `SortType` enumeration is not part of this model. Only DATE_MODIFIED matters to the screen; `DateCreated` and `Title` stand in for the other constants.
- The default second argument of `ExpandNote` is not part of this model. It is written as `None`.
- "At most one dialog open" is not asserted. No code enforces it, and the handlers open a dialog whatever the other flags are.
- The Compose recomposition timing (a callback reading the selection captured at the last recomposition) is not modelled. Handlers read the state they are given.
