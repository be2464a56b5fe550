/** The delivery stage: the screens awaiting delivery created in the chosen
    month, newest first and narrowed by the search term, and the submit
    handler that hands the selected screen's id, the delivery method and the
    seller on, then clears the form. */
module DeliveryForm {
  import opened Types
  import opened Lists
  import opened ScreenUtils
  import opened Queries

  /** The methods the form offers, in display order. */
  const DeliveryMethods: seq<DeliveryMethod> := [Motoboy, Cliente, Correio]

  /** The delivery form's data: the chosen method and the seller's name. */
  datatype DeliveryFormData = DeliveryFormData(deliveryMethod: DeliveryMethod, seller: string)

  /** What `onSubmit` receives: the selected screen's id and `{ method, seller }`. */
  datatype DeliverySubmission = DeliverySubmission(screenId: string, deliveryMethod: DeliveryMethod, seller: string)

  /** The object `onSubmit` receives besides the id: the literal
      `{ method, seller }`. */
  function SentObject(sent: DeliverySubmission): Record {
    map[MethodKey := Some(DeliveryMethodLabel(sent.deliveryMethod)), SellerKey := Some(sent.seller)]
  }

  /** The sent object has exactly the keys method and seller: it carries the
      seller and no delivery person. */
  lemma SentObjectKeys(sent: DeliverySubmission)
    ensures SentObject(sent).Keys == {MethodKey, SellerKey}
    ensures Get(SentObject(sent), SellerKey) == Some(sent.seller)
    ensures Get(SentObject(sent), DeliveryPersonKey) == None
  {
  }

  /** The form data after a submit and on first display. */
  const InitialFormData := DeliveryFormData(DeliveryMethods[0], "")

  /** The three methods are listed once each, and the form starts on the first. */
  lemma DeliveryMethodsComplete()
    ensures NoDups(DeliveryMethods)
    ensures forall m: DeliveryMethod :: m in DeliveryMethods
    ensures InitialFormData.deliveryMethod == Motoboy && InitialFormData.seller == ""
  {
    forall m: DeliveryMethod ensures m in DeliveryMethods {
      match m
      case Motoboy => assert DeliveryMethods[0] == m;
      case Cliente => assert DeliveryMethods[1] == m;
      case Correio => assert DeliveryMethods[2] == m;
    }
  }

  /** `filteredAndSortedScreens`: the screens created in `month`, newest first. */
  function FilteredAndSorted(screens: seq<Screen>, month: string, timeOf: string -> int): (r: seq<Screen>)
    ensures multiset(r) == multiset(MonthFilter(screens, month))
    ensures NewestFirst(r, timeOf)
  {
    SortNewestFirst(MonthFilter(screens, month), timeOf)
  }

  /** `displayedScreens`: with an empty term the month's screens newest first,
      otherwise those of them that match the term. */
  function DisplayedScreens(screens: seq<Screen>, month: string, searchTerm: string, timeOf: string -> int): (r: seq<Screen>)
    ensures IsSubsequence(r, FilteredAndSorted(screens, month, timeOf))
    ensures NewestFirst(r, timeOf)
    ensures forall i :: 0 <= i < |r| ==>
      r[i] in screens && Text.StartsWith(r[i].createdAt, month) && Matches(r[i], searchTerm)
    ensures forall i :: 0 <= i < |screens| ==>
      Text.StartsWith(screens[i].createdAt, month) && Matches(screens[i], searchTerm) ==> screens[i] in r
    ensures forall x :: multiset(r)[x] == if Text.StartsWith(x.createdAt, month) && Matches(x, searchTerm) then multiset(screens)[x] else 0
  {
    var inMonth := MonthFilter(screens, month);
    FilterCounts(screens, InMonth(month));
    var sorted := FilteredAndSorted(screens, month, timeOf);
    FindWithEmptyTerm(sorted);
    FilterOfSorted(inMonth, MatchesTerm(searchTerm), timeOf);
    if searchTerm == "" then sorted else FindScreenByNrOrClient(sorted, searchTerm)
  }

  /** However the steps are ordered, the view is the same list: the month
      filter, then the search, then the sort. */
  lemma DisplayedIsSortedSearchOfMonth(screens: seq<Screen>, month: string, searchTerm: string, timeOf: string -> int)
    ensures DisplayedScreens(screens, month, searchTerm, timeOf)
         == SortNewestFirst(FindScreenByNrOrClient(MonthFilter(screens, month), searchTerm), timeOf)
  {
    FindWithEmptyTerm(FilteredAndSorted(screens, month, timeOf));
    FilterSortCommute(MonthFilter(screens, month), MatchesTerm(searchTerm), timeOf);
  }

  /** The delivery form's state. */
  class DeliveryForm {
    var searchTerm: string
    var selectedScreen: Option<Screen>
    var filterMonth: string
    var formData: DeliveryFormData

    /** `currentMonth` stands for the `YYYY-MM` key of today's date. */
    constructor (currentMonth: string)
      ensures searchTerm == "" && selectedScreen == None
      ensures filterMonth == currentMonth && formData == InitialFormData
    {
      searchTerm := "";
      selectedScreen := None;
      filterMonth := currentMonth;
      formData := InitialFormData;
    }

    /** The month picker: `setFilterMonth`. */
    method SetFilterMonth(month: string)
      modifies this
      ensures filterMonth == month
      ensures searchTerm == old(searchTerm) && selectedScreen == old(selectedScreen) && formData == old(formData)
    {
      filterMonth := month;
    }

    /** The search box: `setSearchTerm`. */
    method SetSearchTerm(term: string)
      modifies this
      ensures searchTerm == term
      ensures filterMonth == old(filterMonth) && selectedScreen == old(selectedScreen) && formData == old(formData)
    {
      searchTerm := term;
    }

    /** The method and seller inputs: `setFormData`. */
    method SetFormData(data: DeliveryFormData)
      modifies this
      ensures formData == data
      ensures filterMonth == old(filterMonth) && selectedScreen == old(selectedScreen) && searchTerm == old(searchTerm)
    {
      formData := data;
    }

    /** The "Selecionar" button: the clicked screen becomes the selection. */
    method Select(screen: Screen)
      modifies this
      ensures selectedScreen == Some(screen)
      ensures filterMonth == old(filterMonth) && searchTerm == old(searchTerm) && formData == old(formData)
    {
      selectedScreen := Some(screen);
    }

    /** `handleSubmit`: without a selection nothing happens; with one, its id,
        the method and the seller are submitted, and the selection, the
        search term and the form data are reset. The month filter is kept. */
    method HandleSubmit() returns (submitted: Option<DeliverySubmission>)
      modifies this
      ensures filterMonth == old(filterMonth)
      ensures old(selectedScreen).None? ==>
        submitted == None && selectedScreen == old(selectedScreen)
        && searchTerm == old(searchTerm) && formData == old(formData)
      ensures old(selectedScreen).Some? ==>
        submitted == Some(DeliverySubmission(old(selectedScreen).value.id, old(formData).deliveryMethod, old(formData).seller))
        && selectedScreen == None && searchTerm == "" && formData == InitialFormData
    {
      submitted := None;
      if selectedScreen.Some? {
        submitted := Some(DeliverySubmission(selectedScreen.value.id, formData.deliveryMethod, formData.seller));
        selectedScreen := None;
        searchTerm := "";
        formData := InitialFormData;
      }
    }
  }
}
