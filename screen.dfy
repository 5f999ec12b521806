/** The note list screen's own state: the search box, the floating action
    button, the sort menu, one flag per dialog, and the input the two dialogs
    defined with the screen remember while they are open. Every gesture either
    changes that state or hands exactly one event to the view-model; the log
    `dispatched` records those events in order, and how the view-model reduces
    them is not part of this model. */
module Screen {
  import opened Notes
  import opened Text

  /** What one back gesture does, in the back handler's order of priority. */
  datatype BackAction = DeactivateSearch | ClearSelectionOnBack | CollapseOnBack | NotIntercepted

  /** The back handler intercepts the gesture only in these states. */
  predicate BackHandlerEnabled(isSearchActive: bool, state: ScreenState) {
    isSearchActive || state.IsSelectionModeActive() || state.expandedNoteId != None
  }

  /** The branch of the back handler that fires. Search wins over selection,
      selection over the expanded note, and some branch fires exactly when the
      handler is enabled. */
  function ResolveBack(isSearchActive: bool, state: ScreenState): (a: BackAction)
    ensures a != NotIntercepted <==> BackHandlerEnabled(isSearchActive, state)
    ensures a == DeactivateSearch <==> isSearchActive
    ensures a == ClearSelectionOnBack ==> !isSearchActive && state.IsSelectionModeActive()
    ensures a == CollapseOnBack ==> !isSearchActive && !state.IsSelectionModeActive() && state.expandedNoteId != None
  {
    if isSearchActive then DeactivateSearch
    else if state.IsSelectionModeActive() then ClearSelectionOnBack
    else if state.expandedNoteId != None then CollapseOnBack
    else NotIntercepted
  }

  /** The sort order requested when `clicked` is picked while `current` is
      active: picking the active order again reverts to the default. */
  function ResolveSortType(current: SortType, clicked: SortType): (r: SortType)
    ensures r == DateModified <==> clicked == current || clicked == DateModified
    ensures r != DateModified ==> r == clicked && r != current
  {
    if clicked == current then DateModified else clicked
  }

  /** Picking the same non-default option twice in a row toggles between it
      and the default, whichever of the two was active before, assuming the
      view-model adopts the requested order before the second click. */
  lemma SortOptionToggles(current: SortType, clicked: SortType)
    requires clicked != DateModified
    ensures var first := ResolveSortType(current, clicked);
      var second := ResolveSortType(first, clicked);
      first != second && {first, second} == {clicked, DateModified}
  {
  }

  /** The project id the move dialog confirms: `selectedProject?.id`. */
  function SelectedProjectId(selected: Option<Project>): (id: Option<int>)
    ensures id == None <==> selected == None
    ensures selected != None ==> id == Some(selected.value.id)
  {
    match selected
    case None => None
    case Some(p) => Some(p.id)
  }

  /** A snapshot of every local variable of the screen, used to say what a
      handler leaves unchanged. */
  datatype LocalState = LocalState(
    searchQuery: string,
    isFabExpanded: bool,
    isSearchActive: bool,
    showLabelDialog: bool,
    showDeleteDialog: bool,
    showReminderSetDialog: bool,
    showCreateProjectDialog: bool,
    showMoveToProjectDialog: bool,
    showColorPickerDialog: bool,
    showSortMenu: bool,
    projectName: string,
    selectedProject: Option<Project>)

  /** Every local variable at its remembered initial value. */
  const InitialLocalState := LocalState("", false, false, false, false, false, false, false, false, false, "", None)

  class NotesScreen {
    var searchQuery: string
    var isFabExpanded: bool
    var isSearchActive: bool
    var showLabelDialog: bool
    var showDeleteDialog: bool
    var showReminderSetDialog: bool
    var showCreateProjectDialog: bool
    var showMoveToProjectDialog: bool
    var showColorPickerDialog: bool
    var showSortMenu: bool
    /** The name typed into the create-project dialog. */
    var projectName: string
    /** The project picked in the move-to-project dialog; None is "none". */
    var selectedProject: Option<Project>
    /** Every event handed to the view-model, oldest first. */
    var dispatched: seq<NotesEvent>

    function Local(): LocalState
      reads this
    {
      LocalState(searchQuery, isFabExpanded, isSearchActive,
        showLabelDialog, showDeleteDialog, showReminderSetDialog,
        showCreateProjectDialog, showMoveToProjectDialog, showColorPickerDialog,
        showSortMenu, projectName, selectedProject)
    }

    /** A dialog's remembered input is dropped when the dialog leaves the
        screen, so a closed dialog holds its initial input and opens with an
        empty name or with "none" selected. */
    ghost predicate Valid()
      reads this
    {
      && (!showCreateProjectDialog ==> projectName == "")
      && (!showMoveToProjectDialog ==> selectedProject == None)
    }

    constructor ()
      ensures Valid()
      ensures Local() == InitialLocalState && dispatched == []
    {
      searchQuery, isFabExpanded, isSearchActive := "", false, false;
      showLabelDialog, showDeleteDialog, showReminderSetDialog := false, false, false;
      showCreateProjectDialog, showMoveToProjectDialog, showColorPickerDialog := false, false, false;
      showSortMenu := false;
      projectName, selectedProject := "", None;
      dispatched := [];
    }

    /** `viewModel.onEvent(e)`. */
    method Dispatch(e: NotesEvent)
      modifies this`dispatched
      ensures dispatched == old(dispatched) + [e]
    {
      dispatched := dispatched + [e];
    }

    // ---- Back gesture ----

    /** The back handler. Clearing the keyboard focus is a platform effect
        left out of the model. */
    method OnBack(state: ScreenState) returns (intercepted: bool)
      requires Valid()
      modifies this
      ensures Valid()
      ensures intercepted == BackHandlerEnabled(old(isSearchActive), state)
      ensures match ResolveBack(old(isSearchActive), state)
        case DeactivateSearch =>
          Local() == old(Local()).(isSearchActive := false) && dispatched == old(dispatched)
        case ClearSelectionOnBack =>
          Local() == old(Local()) && dispatched == old(dispatched) + [ClearSelection]
        case CollapseOnBack =>
          Local() == old(Local()) && dispatched == old(dispatched) + [CollapseNote]
        case NotIntercepted =>
          Local() == old(Local()) && dispatched == old(dispatched)
    {
      ghost var action := ResolveBack(isSearchActive, state);
      intercepted := isSearchActive || state.selectedNoteIds != {} || state.expandedNoteId != None;
      if intercepted {
        if isSearchActive {
          isSearchActive := false;
        } else if state.selectedNoteIds != {} {
          Dispatch(ClearSelection);
        } else if state.expandedNoteId != None {
          Dispatch(CollapseNote);
        }
      }
    }

    // ---- Search bar (shown while no note is selected) ----

    method OnSearchQueryChange(query: string)
      requires Valid()
      modifies this
      ensures Valid()
      ensures Local() == old(Local()).(searchQuery := query) && dispatched == old(dispatched)
    {
      searchQuery := query;
    }

    method OnSearchActiveChange(active: bool)
      requires Valid()
      modifies this
      ensures Valid()
      ensures Local() == old(Local()).(isSearchActive := active) && dispatched == old(dispatched)
    {
      isSearchActive := active;
    }

    method OnLayoutToggleClick()
      requires Valid()
      modifies this
      ensures Valid()
      ensures Local() == old(Local()) && dispatched == old(dispatched) + [ToggleLayout]
    {
      Dispatch(ToggleLayout);
    }

    method OnSortClick()
      requires Valid()
      modifies this
      ensures Valid()
      ensures Local() == old(Local()).(showSortMenu := true) && dispatched == old(dispatched)
    {
      showSortMenu := true;
    }

    method OnSortMenuDismissRequest()
      requires Valid()
      modifies this
      ensures Valid()
      ensures Local() == old(Local()).(showSortMenu := false) && dispatched == old(dispatched)
    {
      showSortMenu := false;
    }

    /** Picking a sort option requests that order, or the default when it is
        already the active one. The handler itself leaves the menu flag alone. */
    method OnSortOptionClick(state: ScreenState, sortType: SortType)
      requires Valid()
      modifies this
      ensures Valid()
      ensures Local() == old(Local())
      ensures dispatched == old(dispatched) + [SortNotes(ResolveSortType(state.sortType, sortType))]
    {
      var newSortType := if sortType == state.sortType then DateModified else sortType;
      Dispatch(SortNotes(newSortType));
    }

    // ---- Contextual action bar (shown while notes are selected) ----

    method OnClearSelectionClick()
      requires Valid()
      modifies this
      ensures Valid()
      ensures Local() == old(Local()) && dispatched == old(dispatched) + [ClearSelection]
    {
      Dispatch(ClearSelection);
    }

    method OnTogglePinClick()
      requires Valid()
      modifies this
      ensures Valid()
      ensures Local() == old(Local()) && dispatched == old(dispatched) + [TogglePinForSelectedNotes]
    {
      Dispatch(TogglePinForSelectedNotes);
    }

    method OnArchiveClick()
      requires Valid()
      modifies this
      ensures Valid()
      ensures Local() == old(Local()) && dispatched == old(dispatched) + [ArchiveSelectedNotes]
    {
      Dispatch(ArchiveSelectedNotes);
    }

    method OnCopyClick()
      requires Valid()
      modifies this
      ensures Valid()
      ensures Local() == old(Local()) && dispatched == old(dispatched) + [CopySelectedNotes]
    {
      Dispatch(CopySelectedNotes);
    }

    method OnSendClick()
      requires Valid()
      modifies this
      ensures Valid()
      ensures Local() == old(Local()) && dispatched == old(dispatched) + [SendSelectedNotes]
    {
      Dispatch(SendSelectedNotes);
    }

    method OnReminderClick()
      requires Valid()
      modifies this
      ensures Valid()
      ensures Local() == old(Local()).(showReminderSetDialog := true) && dispatched == old(dispatched)
    {
      showReminderSetDialog := true;
    }

    method OnColorClick()
      requires Valid()
      modifies this
      ensures Valid()
      ensures Local() == old(Local()).(showColorPickerDialog := true) && dispatched == old(dispatched)
    {
      showColorPickerDialog := true;
    }

    method OnDeleteClick()
      requires Valid()
      modifies this
      ensures Valid()
      ensures Local() == old(Local()).(showDeleteDialog := true) && dispatched == old(dispatched)
    {
      showDeleteDialog := true;
    }

    method OnLabelClick()
      requires Valid()
      modifies this
      ensures Valid()
      ensures Local() == old(Local()).(showLabelDialog := true) && dispatched == old(dispatched)
    {
      showLabelDialog := true;
    }

    /** Opening the move dialog; if it was closed it starts with "none". */
    method OnMoveToProjectClick()
      requires Valid()
      modifies this
      ensures Valid()
      ensures Local() == old(Local()).(showMoveToProjectDialog := true) && dispatched == old(dispatched)
      ensures !old(showMoveToProjectDialog) ==> selectedProject == None
    {
      showMoveToProjectDialog := true;
    }

    // ---- Floating action button ----

    method OnFabExpandedChange(expanded: bool)
      requires Valid()
      modifies this
      ensures Valid()
      ensures Local() == old(Local()).(isFabExpanded := expanded) && dispatched == old(dispatched)
    {
      isFabExpanded := expanded;
    }

    /** A new text note opens in the editor, and the button collapses. */
    method OnFabNoteClick()
      requires Valid()
      modifies this
      ensures Valid()
      ensures Local() == old(Local()).(isFabExpanded := false)
      ensures dispatched == old(dispatched) + [ExpandNote(NewNoteId, None)]
    {
      Dispatch(ExpandNote(NewNoteId, None));
      isFabExpanded := false;
    }

    /** A new checklist opens in the editor, and the button collapses. */
    method OnFabChecklistClick()
      requires Valid()
      modifies this
      ensures Valid()
      ensures Local() == old(Local()).(isFabExpanded := false)
      ensures dispatched == old(dispatched) + [ExpandNote(NewNoteId, Some("CHECKLIST"))]
    {
      Dispatch(ExpandNote(NewNoteId, Some("CHECKLIST")));
      isFabExpanded := false;
    }

    /** The create-project dialog opens (with an empty name if it was
        closed), and the button collapses. */
    method OnFabProjectClick()
      requires Valid()
      modifies this
      ensures Valid()
      ensures Local() == old(Local()).(showCreateProjectDialog := true, isFabExpanded := false)
      ensures dispatched == old(dispatched)
      ensures !old(showCreateProjectDialog) ==> projectName == ""
    {
      showCreateProjectDialog := true;
      isFabExpanded := false;
    }

    /** A tap on the list area collapses the button and does nothing else. */
    method OnContentClick()
      requires Valid()
      modifies this
      ensures Valid()
      ensures Local() == old(Local()).(isFabExpanded := false) && dispatched == old(dispatched)
    {
      if isFabExpanded {
        isFabExpanded := false;
      }
    }

    // ---- Note cards and the expanded note ----

    /** A tap toggles the note's selection in selection mode and opens the
        note otherwise. */
    method OnNoteClick(state: ScreenState, id: NoteId)
      requires Valid()
      modifies this
      ensures Valid()
      ensures Local() == old(Local())
      ensures state.IsSelectionModeActive() ==> dispatched == old(dispatched) + [ToggleNoteSelection(id)]
      ensures !state.IsSelectionModeActive() ==> dispatched == old(dispatched) + [ExpandNote(id, None)]
    {
      if state.selectedNoteIds != {} {
        Dispatch(ToggleNoteSelection(id));
      } else {
        Dispatch(ExpandNote(id, None));
      }
    }

    /** A long press toggles the note's selection in every mode. */
    method OnNoteLongClick(id: NoteId)
      requires Valid()
      modifies this
      ensures Valid()
      ensures Local() == old(Local()) && dispatched == old(dispatched) + [ToggleNoteSelection(id)]
    {
      Dispatch(ToggleNoteSelection(id));
    }

    /** Dismissing the expanded note's editor collapses it. */
    method OnEditorDismiss()
      requires Valid()
      modifies this
      ensures Valid()
      ensures Local() == old(Local()) && dispatched == old(dispatched) + [CollapseNote]
    {
      Dispatch(CollapseNote);
    }

    // ---- Dialogs: confirm dispatches one event and closes, dismiss only closes ----

    method ConfirmDelete()
      requires Valid() && showDeleteDialog
      modifies this
      ensures Valid()
      ensures Local() == old(Local()).(showDeleteDialog := false)
      ensures dispatched == old(dispatched) + [DeleteSelectedNotes]
    {
      Dispatch(DeleteSelectedNotes);
      showDeleteDialog := false;
    }

    method DismissDelete()
      requires Valid() && showDeleteDialog
      modifies this
      ensures Valid()
      ensures Local() == old(Local()).(showDeleteDialog := false) && dispatched == old(dispatched)
    {
      showDeleteDialog := false;
    }

    method ConfirmLabel(labelName: string)
      requires Valid() && showLabelDialog
      modifies this
      ensures Valid()
      ensures Local() == old(Local()).(showLabelDialog := false)
      ensures dispatched == old(dispatched) + [SetLabelForSelectedNotes(labelName)]
    {
      Dispatch(SetLabelForSelectedNotes(labelName));
      showLabelDialog := false;
    }

    method DismissLabel()
      requires Valid() && showLabelDialog
      modifies this
      ensures Valid()
      ensures Local() == old(Local()).(showLabelDialog := false) && dispatched == old(dispatched)
    {
      showLabelDialog := false;
    }

    method ConfirmReminder(date: ReminderDate, time: ReminderTime, repeat: RepeatOption)
      requires Valid() && showReminderSetDialog
      modifies this
      ensures Valid()
      ensures Local() == old(Local()).(showReminderSetDialog := false)
      ensures dispatched == old(dispatched) + [SetReminderForSelectedNotes(date, time, repeat)]
    {
      Dispatch(SetReminderForSelectedNotes(date, time, repeat));
      showReminderSetDialog := false;
    }

    method DismissReminder()
      requires Valid() && showReminderSetDialog
      modifies this
      ensures Valid()
      ensures Local() == old(Local()).(showReminderSetDialog := false) && dispatched == old(dispatched)
    {
      showReminderSetDialog := false;
    }

    method SelectColor(color: int)
      requires Valid() && showColorPickerDialog
      modifies this
      ensures Valid()
      ensures Local() == old(Local()).(showColorPickerDialog := false)
      ensures dispatched == old(dispatched) + [ChangeColorForSelectedNotes(color)]
    {
      Dispatch(ChangeColorForSelectedNotes(color));
      showColorPickerDialog := false;
    }

    method DismissColorPicker()
      requires Valid() && showColorPickerDialog
      modifies this
      ensures Valid()
      ensures Local() == old(Local()).(showColorPickerDialog := false) && dispatched == old(dispatched)
    {
      showColorPickerDialog := false;
    }

    /** Typing into the create-project dialog's name field. */
    method EditProjectName(name: string)
      requires Valid() && showCreateProjectDialog
      modifies this
      ensures Valid()
      ensures Local() == old(Local()).(projectName := name) && dispatched == old(dispatched)
    {
      projectName := name;
    }

    /** The create button is disabled while the name is blank, so a press then
        does nothing. Otherwise the name goes to the view-model exactly as
        typed, untrimmed, and the dialog closes. */
    method ConfirmCreateProject()
      requires Valid() && showCreateProjectDialog
      modifies this
      ensures Valid()
      ensures IsBlank(old(projectName)) ==> Local() == old(Local()) && dispatched == old(dispatched)
      ensures !IsBlank(old(projectName)) ==>
        && Local() == old(Local()).(showCreateProjectDialog := false, projectName := "")
        && dispatched == old(dispatched) + [CreateProject(old(projectName))]
    {
      var enabled := !IsBlank(projectName);
      if enabled {
        Dispatch(CreateProject(projectName));
        showCreateProjectDialog := false;
        projectName := "";
      }
    }

    method DismissCreateProject()
      requires Valid() && showCreateProjectDialog
      modifies this
      ensures Valid()
      ensures Local() == old(Local()).(showCreateProjectDialog := false, projectName := "")
      ensures dispatched == old(dispatched)
    {
      showCreateProjectDialog := false;
      projectName := "";
    }

    /** Picking one of the listed projects in the move dialog. */
    method SelectProject(state: ScreenState, project: Project)
      requires Valid() && showMoveToProjectDialog && project in state.projects
      modifies this
      ensures Valid()
      ensures Local() == old(Local()).(selectedProject := Some(project)) && dispatched == old(dispatched)
    {
      selectedProject := Some(project);
    }

    /** Picking the "none (remove from project)" row. */
    method SelectNoProject()
      requires Valid() && showMoveToProjectDialog
      modifies this
      ensures Valid()
      ensures Local() == old(Local()).(selectedProject := None) && dispatched == old(dispatched)
    {
      selectedProject := None;
    }

    /** Moving the selection to the picked project's id, or to no project
        (a null id, distinct from every real id) when "none" is picked. */
    method ConfirmMoveToProject()
      requires Valid() && showMoveToProjectDialog
      modifies this
      ensures Valid()
      ensures Local() == old(Local()).(showMoveToProjectDialog := false, selectedProject := None)
      ensures dispatched == old(dispatched) + [MoveSelectedNotesToProject(SelectedProjectId(old(selectedProject)))]
    {
      var projectId := if selectedProject.Some? then Some(selectedProject.value.id) else None;
      Dispatch(MoveSelectedNotesToProject(projectId));
      showMoveToProjectDialog := false;
      selectedProject := None;
    }

    method DismissMoveToProject()
      requires Valid() && showMoveToProjectDialog
      modifies this
      ensures Valid()
      ensures Local() == old(Local()).(showMoveToProjectDialog := false, selectedProject := None)
      ensures dispatched == old(dispatched)
    {
      showMoveToProjectDialog := false;
      selectedProject := None;
    }
  }

  /** Back with search active and notes selected only closes the search;
      a second back then clears the selection. */
  method BackScenario(state: ScreenState) returns (first: seq<NotesEvent>, second: seq<NotesEvent>)
    requires state.selectedNoteIds == {5} && state.expandedNoteId == Some(5)
    ensures first == [] && second == [ClearSelection]
  {
    var screen := new NotesScreen();
    screen.OnSearchActiveChange(true);
    var intercepted := screen.OnBack(state);
    first := screen.dispatched;
    intercepted := screen.OnBack(state);
    second := screen.dispatched;
  }

  /** A blank name creates nothing; "  Groceries" is created as typed, and
      a move with "none" picked sends no project id. */
  method DialogScenario() returns (log: seq<NotesEvent>)
    ensures log == [CreateProject("  Groceries"), MoveSelectedNotesToProject(None)]
  {
    var screen := new NotesScreen();
    screen.OnFabProjectClick();
    screen.EditProjectName("   ");
    BlankExamples();
    screen.ConfirmCreateProject();
    screen.EditProjectName("  Groceries");
    screen.ConfirmCreateProject();
    screen.OnMoveToProjectClick();
    screen.ConfirmMoveToProject();
    log := screen.dispatched;
  }
}
