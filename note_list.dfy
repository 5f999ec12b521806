/** What the note list screen shows for a given view-model state and search
    query: a loading indicator, the "no notes yet" message, or a pinned and an
    "others" section, each with its optional header. Nothing here has side
    effects; the screen recomputes all of it on every state change. */
module NoteList {
  import opened Notes
  import opened Text
  import opened Seqs

  /** The label filter applied to one note: with no filter every note passes;
      otherwise the note's label must equal the filter. */
  predicate HasFilteredLabel(n: NoteListItem, filteredLabel: Option<string>) {
    filteredLabel == None || n.note.noteLabel == filteredLabel
  }

  function LabelIs(l: string): NoteListItem -> bool {
    (n: NoteListItem) => n.note.noteLabel == Some(l)
  }

  /** `notesToDisplay`: every note when no label filter is set, otherwise
      the notes carrying that label, in their original order. Archived notes
      are still here. */
  function NotesToDisplay(notes: seq<NoteListItem>, filteredLabel: Option<string>): (r: seq<NoteListItem>)
    ensures filteredLabel == None ==> r == notes
    ensures forall n :: n in r <==> n in notes && HasFilteredLabel(n, filteredLabel)
  {
    match filteredLabel
    case None => notes
    case Some(l) => Filter(notes, LabelIs(l))
  }

  /** The query occurs, ignoring case, in the note's title or its content. */
  predicate MatchesSearch(n: NoteListItem, searchQuery: string) {
    ContainsIgnoreCase(n.note.title, searchQuery) || ContainsIgnoreCase(n.note.content, searchQuery)
  }

  predicate PassesSearch(n: NoteListItem, searchQuery: string) {
    !n.note.isArchived && MatchesSearch(n, searchQuery)
  }

  function PassesSearchFor(searchQuery: string): NoteListItem -> bool {
    (n: NoteListItem) => PassesSearch(n, searchQuery)
  }

  /** `filteredNotes`: the non-archived notes whose title or content contains
      the query, ignoring case, in their original order. */
  function FilteredNotes(notes: seq<NoteListItem>, searchQuery: string): (r: seq<NoteListItem>)
    ensures forall n :: n in r <==> n in notes && !n.note.isArchived && MatchesSearch(n, searchQuery)
  {
    Filter(notes, PassesSearchFor(searchQuery))
  }

  predicate IsPinned(n: NoteListItem) {
    n.note.isPinned
  }

  predicate IsUnpinned(n: NoteListItem) {
    !n.note.isPinned
  }

  predicate IsUnarchived(n: NoteListItem) {
    !n.note.isArchived
  }

  /** `pinnedNotes`: the pinned notes of the filtered list. */
  function PinnedNotes(filtered: seq<NoteListItem>): (r: seq<NoteListItem>)
    ensures forall n :: n in r <==> n in filtered && n.note.isPinned
  {
    Filter(filtered, IsPinned)
  }

  /** `otherNotes`: the unpinned notes of the filtered list. */
  function OtherNotes(filtered: seq<NoteListItem>): (r: seq<NoteListItem>)
    ensures forall n :: n in r <==> n in filtered && !n.note.isPinned
  {
    Filter(filtered, IsUnpinned)
  }

  /** A note the screen lists: it is in the state, carries the filtered label
      if one is set, is not archived, and matches the query. */
  predicate Visible(state: ScreenState, searchQuery: string, n: NoteListItem) {
    && n in state.notes
    && HasFilteredLabel(n, state.filteredLabel)
    && !n.note.isArchived
    && MatchesSearch(n, searchQuery)
  }

  datatype NotesContent =
    | Loading
    | NoNotesYet
    | Sections(pinned: seq<NoteListItem>, other: seq<NoteListItem>)

  /** The body of the screen. Loading wins over everything; the "no notes
      yet" message depends only on the label filter, so a label whose notes
      are all archived or all miss the query shows two empty sections. */
  function Content(state: ScreenState, searchQuery: string): (c: NotesContent)
    ensures c.Loading? <==> state.isLoading
    ensures c.NoNotesYet? <==>
      !state.isLoading && forall n :: n in state.notes ==> !HasFilteredLabel(n, state.filteredLabel)
    ensures c.Sections? ==>
      forall n :: n in c.pinned + c.other <==> Visible(state, searchQuery, n)
    ensures c.Sections? ==>
      (forall n :: n in c.pinned ==> n.note.isPinned) && (forall n :: n in c.other ==> !n.note.isPinned)
  {
    var toDisplay := NotesToDisplay(state.notes, state.filteredLabel);
    assert toDisplay != [] ==> toDisplay[0] in toDisplay;
    if state.isLoading then Loading
    else if toDisplay == [] then NoNotesYet
    else
      var filtered := FilteredNotes(toDisplay, searchQuery);
      Sections(PinnedNotes(filtered), OtherNotes(filtered))
  }

  /** The pinned and the other section split the filtered list they are
      taken from: each keeps the list's order, and every filtered note is in
      exactly one of them, exactly as often as in the list. */
  lemma SectionsSplitFilteredNotes(filtered: seq<NoteListItem>)
    ensures Interleaves(filtered, PinnedNotes(filtered), OtherNotes(filtered))
    ensures multiset(filtered) == multiset(PinnedNotes(filtered)) + multiset(OtherNotes(filtered))
    ensures |filtered| == |PinnedNotes(filtered)| + |OtherNotes(filtered)|
  {
    FilterSplits(filtered, IsPinned, IsUnpinned);
    InterleavesCounts(filtered, PinnedNotes(filtered), OtherNotes(filtered));
  }

  /** When the body shows sections, the pinned and the other section together
      hold the listed notes of the state, each section in the notes' original
      order and every listed note exactly once. */
  lemma ContentSectionsInterleave(state: ScreenState, searchQuery: string)
    requires Content(state, searchQuery).Sections?
    ensures var c := Content(state, searchQuery);
      var listed := Filter(state.notes, ListedBy(state.filteredLabel, searchQuery));
      Interleaves(listed, c.pinned, c.other)
      && multiset(listed) == multiset(c.pinned) + multiset(c.other)
  {
    ListedNotesInOriginalOrder(state, searchQuery);
    SectionsSplitFilteredNotes(FilteredNotes(NotesToDisplay(state.notes, state.filteredLabel), searchQuery));
  }

  /** A note the screen lists, judged on the note alone. */
  function ListedBy(filteredLabel: Option<string>, searchQuery: string): NoteListItem -> bool {
    (n: NoteListItem) => HasFilteredLabel(n, filteredLabel) && PassesSearch(n, searchQuery)
  }

  /** The label filter followed by the archive and search filter is one
      order-preserving filter of the state's notes: the listed notes are
      exactly the visible ones, in their original order and multiplicity. */
  lemma ListedNotesInOriginalOrder(state: ScreenState, searchQuery: string)
    ensures FilteredNotes(NotesToDisplay(state.notes, state.filteredLabel), searchQuery)
      == Filter(state.notes, ListedBy(state.filteredLabel, searchQuery))
  {
    match state.filteredLabel
    case None =>
      FilterCongruent(state.notes, PassesSearchFor(searchQuery), ListedBy(None, searchQuery));
    case Some(l) =>
      FilterFuse(state.notes, LabelIs(l), PassesSearchFor(searchQuery), ListedBy(Some(l), searchQuery));
  }

  /** With no label filter and an empty query, the filtered list is exactly
      the non-archived notes, in order and with their multiplicity. */
  lemma UnfilteredShowsEveryUnarchivedNote(notes: seq<NoteListItem>)
    ensures FilteredNotes(NotesToDisplay(notes, None), "") == Filter(notes, IsUnarchived)
  {
    FilterCongruent(notes, PassesSearchFor(""), IsUnarchived);
  }

  /** When no labelled note survives the archive and search filter, the screen
      shows two empty sections and no header, not the "no notes yet" message. */
  lemma HiddenNotesGiveEmptySections(state: ScreenState, searchQuery: string)
    requires !state.isLoading
    requires exists n :: n in state.notes && HasFilteredLabel(n, state.filteredLabel)
    requires forall n :: !Visible(state, searchQuery, n)
    ensures Content(state, searchQuery) == Sections([], [])
    ensures SectionEntries([], []) == []
  {
    var toDisplay := NotesToDisplay(state.notes, state.filteredLabel);
    var m :| m in state.notes && HasFilteredLabel(m, state.filteredLabel);
    assert m in toDisplay;
    forall n | n in toDisplay
      ensures !PassesSearchFor(searchQuery)(n)
    {
      assert !Visible(state, searchQuery, n);
    }
    FilterNone(toDisplay, PassesSearchFor(searchQuery));
    assert FilteredNotes(toDisplay, searchQuery) == [];
  }

  /** Filtering the filtered list again changes nothing: the derivation is
      stable under recomputation on its own output. */
  lemma FilteredNotesIdempotent(notes: seq<NoteListItem>, searchQuery: string)
    ensures FilteredNotes(FilteredNotes(notes, searchQuery), searchQuery) == FilteredNotes(notes, searchQuery)
  {
    FilterIdempotent(notes, PassesSearchFor(searchQuery));
  }

  datatype SectionTitle = PinnedTitle | OthersTitle

  /** One entry of the lazy grid or list: a section header or a note card. */
  datatype ListEntry = Header(title: SectionTitle) | Card(item: NoteListItem)

  function Cards(items: seq<NoteListItem>): (r: seq<ListEntry>)
    ensures |r| == |items|
    ensures forall i :: 0 <= i < |items| ==> r[i] == Card(items[i])
  {
    seq(|items|, i requires 0 <= i < |items| => Card(items[i]))
  }

  /** The notes shown as cards, in display order. */
  function CardItems(entries: seq<ListEntry>): seq<NoteListItem> {
    if entries == [] then []
    else (if entries[0].Card? then [entries[0].item] else []) + CardItems(entries[1..])
  }

  /** The entries the grid and the list layouts emit, in order: the "Pinned"
      header and the pinned cards when there are pinned notes, then the
      "Others" header (only when pinned notes precede it) and the other cards
      when there are other notes. */
  function SectionEntries(pinned: seq<NoteListItem>, other: seq<NoteListItem>): (r: seq<ListEntry>)
    ensures Header(PinnedTitle) in r <==> pinned != []
    ensures Header(OthersTitle) in r <==> pinned != [] && other != []
    ensures pinned != [] ==> r[0] == Header(PinnedTitle)
    ensures pinned != [] && other != [] ==> 1 + |pinned| < |r| && r[1 + |pinned|] == Header(OthersTitle)
    ensures |r| == |pinned| + |other| + (if pinned != [] then 1 else 0)
      + (if pinned != [] && other != [] then 1 else 0)
  {
    (if pinned != [] then [Header(PinnedTitle)] + Cards(pinned) else [])
    + (if other != [] then (if pinned != [] then [Header(OthersTitle)] else []) + Cards(other) else [])
  }

  lemma {:induction false} CardItemsAppend(a: seq<ListEntry>, b: seq<ListEntry>)
    ensures CardItems(a + b) == CardItems(a) + CardItems(b)
  {
    if a != [] {
      var head := if a[0].Card? then [a[0].item] else [];
      assert (a + b)[0] == a[0];
      assert (a + b)[1..] == a[1..] + b;
      assert CardItems(a + b) == head + CardItems(a[1..] + b);
      CardItemsAppend(a[1..], b);
      assert head + (CardItems(a[1..]) + CardItems(b)) == (head + CardItems(a[1..])) + CardItems(b);
    } else {
      assert a + b == b;
    }
  }

  lemma {:induction false} CardItemsOfCards(items: seq<NoteListItem>)
    ensures CardItems(Cards(items)) == items
  {
    if items != [] {
      assert Cards(items)[1..] == Cards(items[1..]);
      CardItemsOfCards(items[1..]);
    }
  }

  /** The cards on screen are the pinned notes followed by the other notes,
      each section in its own order; headers add no cards. */
  lemma SectionCardsInOrder(pinned: seq<NoteListItem>, other: seq<NoteListItem>)
    ensures CardItems(SectionEntries(pinned, other)) == pinned + other
  {
    CardItemsOfCards(pinned);
    CardItemsOfCards(other);
    var h1: seq<ListEntry> := if pinned != [] then [Header(PinnedTitle)] else [];
    var h2: seq<ListEntry> := if pinned != [] && other != [] then [Header(OthersTitle)] else [];
    assert CardItems(h1) == [] && CardItems(h2) == [];
    var first: seq<ListEntry> := if pinned != [] then h1 + Cards(pinned) else [];
    var second: seq<ListEntry> := if other != [] then h2 + Cards(other) else [];
    assert SectionEntries(pinned, other) == first + second;
    CardItemsAppend(first, second);
    CardItemsAppend(h1, Cards(pinned));
    CardItemsAppend(h2, Cards(other));
    assert CardItems(first) == pinned;
    assert CardItems(second) == other;
  }
}
