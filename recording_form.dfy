/** The recording stage: the list of screens awaiting recording, newest first
    and narrowed by the search term, and the submit handler that hands the
    selected screen's id and the recording data on, then clears the form. */
module RecordingForm {
  import opened Types
  import opened Lists
  import opened ScreenUtils
  import opened Queries

  /** The recording form's data: the recording date and who recorded it. */
  datatype RecordingData = RecordingData(date: string, recordedBy: string)

  /** What `onSubmit` receives: the selected screen's id and the form data. */
  datatype RecordingSubmission = RecordingSubmission(screenId: string, data: RecordingData)

  /** `sortedScreens`, then `filteredScreens`: with an empty term the sorted
      list, otherwise the screens of the sorted list that match the term. */
  function FilteredScreens(screens: seq<Screen>, searchTerm: string, timeOf: string -> int): (r: seq<Screen>)
    ensures IsSubsequence(r, SortNewestFirst(screens, timeOf))
    ensures NewestFirst(r, timeOf)
    ensures forall i :: 0 <= i < |r| ==> r[i] in screens && Matches(r[i], searchTerm)
    ensures forall i :: 0 <= i < |screens| && Matches(screens[i], searchTerm) ==> screens[i] in r
    ensures forall x :: multiset(r)[x] == if Matches(x, searchTerm) then multiset(screens)[x] else 0
  {
    var sorted := SortNewestFirst(screens, timeOf);
    FindWithEmptyTerm(sorted);
    FilterOfSorted(screens, MatchesTerm(searchTerm), timeOf);
    if searchTerm == "" then sorted else FindScreenByNrOrClient(sorted, searchTerm)
  }

  /** The displayed list is the search of the sorted list whatever the term,
      and equally the sorted search of the unsorted list. */
  lemma FilteredScreensIsSortedSearch(screens: seq<Screen>, searchTerm: string, timeOf: string -> int)
    ensures FilteredScreens(screens, searchTerm, timeOf) == FindScreenByNrOrClient(SortNewestFirst(screens, timeOf), searchTerm)
    ensures FilteredScreens(screens, searchTerm, timeOf) == SortNewestFirst(FindScreenByNrOrClient(screens, searchTerm), timeOf)
  {
    FindWithEmptyTerm(SortNewestFirst(screens, timeOf));
    FilterSortCommute(screens, MatchesTerm(searchTerm), timeOf);
  }

  /** The recording form's state. */
  class RecordingForm {
    var searchTerm: string
    var selectedScreen: Option<Screen>
    var formData: RecordingData

    /** `today` stands for the current date the form pre-fills. */
    constructor (today: string)
      ensures searchTerm == "" && selectedScreen == None && formData == RecordingData(today, "")
    {
      searchTerm := "";
      selectedScreen := None;
      formData := RecordingData(today, "");
    }

    /** The search box: `setSearchTerm`. */
    method SetSearchTerm(term: string)
      modifies this
      ensures searchTerm == term
      ensures selectedScreen == old(selectedScreen) && formData == old(formData)
    {
      searchTerm := term;
    }

    /** The date and recorder inputs: `setFormData`. */
    method SetFormData(data: RecordingData)
      modifies this
      ensures formData == data
      ensures selectedScreen == old(selectedScreen) && searchTerm == old(searchTerm)
    {
      formData := data;
    }

    /** The "Selecionar" button: the clicked screen becomes the selection. */
    method Select(screen: Screen)
      modifies this
      ensures selectedScreen == Some(screen)
      ensures searchTerm == old(searchTerm) && formData == old(formData)
    {
      selectedScreen := Some(screen);
    }

    /** `handleSubmit`: without a selection nothing happens; with one, its id
        and the form data are submitted, and the selection, the search term
        and the recorder are cleared, the date going back to `today`. */
    method HandleSubmit(today: string) returns (submitted: Option<RecordingSubmission>)
      modifies this
      ensures old(selectedScreen).None? ==>
        submitted == None && selectedScreen == old(selectedScreen)
        && searchTerm == old(searchTerm) && formData == old(formData)
      ensures old(selectedScreen).Some? ==>
        submitted == Some(RecordingSubmission(old(selectedScreen).value.id, old(formData)))
        && selectedScreen == None && searchTerm == "" && formData == RecordingData(today, "")
    {
      submitted := None;
      if selectedScreen.Some? {
        submitted := Some(RecordingSubmission(selectedScreen.value.id, formData));
        selectedScreen := None;
        searchTerm := "";
        formData := RecordingData(today, "");
      }
    }
  }
}
