/** The values the note list screen reads and the events it hands to its
    view-model. The screen never changes these values itself. */
module Notes {

  datatype Option<+T> = None | Some(value: T)

  type NoteId = int

  /** The id the floating action button passes to ExpandNote to open a new,
      not yet saved note. */
  const NewNoteId: NoteId := -1

  /** The fields of a stored note that the screen reads. */
  datatype Note = Note(
    id: NoteId,
    title: string,
    content: string,
    noteLabel: Option<string>,
    isPinned: bool,
    isArchived: bool,
    color: int)

  /** One row of the view-model's note list: a note plus display data that
      this screen does not read. */
  datatype NoteListItem = NoteListItem(note: Note)

  datatype LayoutType = Grid | List

  /** The sort orders the view-model offers. DateModified is the default the
      screen falls back to; DateCreated and Title stand for the other
      constants of the enumeration. */
  datatype SortType = DateModified | DateCreated | Title

  datatype Project = Project(id: int, name: string)

  /** A reminder's date (epoch day), time of day (seconds) and repeat rule
      (the name of the repeat option), passed through unchanged. */
  type ReminderDate = int
  type ReminderTime = int
  type RepeatOption = string

  /** The events this screen dispatches through `viewModel.onEvent`. In
      ExpandNote, `noteType` is None when the call leaves that argument at its
      default. */
  datatype NotesEvent =
    | ClearSelection
    | TogglePinForSelectedNotes
    | ArchiveSelectedNotes
    | DeleteSelectedNotes
    | CopySelectedNotes
    | SendSelectedNotes
    | SetLabelForSelectedNotes(labelName: string)
    | SetReminderForSelectedNotes(date: ReminderDate, time: ReminderTime, repeat: RepeatOption)
    | ChangeColorForSelectedNotes(color: int)
    | MoveSelectedNotesToProject(projectId: Option<int>)
    | ToggleNoteSelection(id: NoteId)
    | ExpandNote(id: NoteId, noteType: Option<string>)
    | CollapseNote
    | ToggleLayout
    | SortNotes(sortType: SortType)
    | CreateProject(projectName: string)

  /** The view-model's state as the screen reads it. */
  datatype ScreenState = ScreenState(
    notes: seq<NoteListItem>,
    selectedNoteIds: set<NoteId>,
    expandedNoteId: Option<NoteId>,
    layoutType: LayoutType,
    sortType: SortType,
    filteredLabel: Option<string>,
    labels: seq<string>,
    projects: seq<Project>,
    isLoading: bool)
  {
    /** Selection mode is derived from the selection, never stored. */
    predicate IsSelectionModeActive() {
      selectedNoteIds != {}
    }
  }
}
