/** The list view component (src/PersonList.js): its state and its event handlers. HTTP requests are
    recorded in `requests`, and how each one turns out is a parameter of the handler that awaits it. */
module PersonListView {
  import opened People
  import Paging

  datatype Variant = Success | Danger

  /** The banner `{ variant, message }`. */
  datatype Alert = Alert(variant: Variant, message: string)

  /** How an awaited axios call turns out: resolved with a body, or failed. `Failed` covers every way the
      `try` block reaches its `catch`: a rejected request, and also a resolved list request whose
      JSON body is not an object, so that reading `response.data.persons` throws. */
  datatype Response<T> = Ok(body: T) | Failed

  /** The `persons` member of the list endpoint's body: an array, or anything else. */
  datatype ListBody = PersonsArray(persons: seq<Person>) | NotAnArray

  /** The requests the components send to the `/persons` endpoints. */
  datatype Request = Get | Delete(id: string) | Put(id: string, body: Person) | Post(body: Person)

  const DeleteSucceeded := Alert(Success, "Operación exitosa")
  const DeleteFailed := Alert(Danger, "Ha ocurrido un problema")

  class PersonList {
    var people: seq<Person>
    var loading: bool
    var selectedId: Option<string>
    var currentPage: int
    var filter: string
    var showModal: bool
    var selectedPersonDetails: Option<Person>
    var isAddingMode: bool
    var alert: Option<Alert>
    /** The requests issued so far, oldest first. */
    var requests: seq<Request>

    /** The page number is never below 1; nothing bounds it from above. */
    ghost predicate Valid()
      reads this
    {
      currentPage >= 1
    }

    /** The `useState` initial values. */
    constructor ()
      ensures Valid()
      ensures people == [] && loading && selectedId == None && currentPage == 1 && filter == ""
      ensures !showModal && selectedPersonDetails == None && !isAddingMode && alert == None
      ensures requests == []
    {
      people := [];
      loading := true;
      selectedId := None;
      currentPage := 1;
      filter := "";
      showModal := false;
      selectedPersonDetails := None;
      isAddingMode := false;
      alert := None;
      requests := [];
    }

    /** `filteredList`. */
    function FilteredList(): (r: seq<Person>)
      reads this
      ensures forall p :: p in r <==> p in people && Matches(p, filter)
    {
      FilterPeople(people, filter)
    }

    /** `currentItems`: the rows of the current page. */
    function CurrentItems(): (r: seq<Person>)
      reads this
      ensures Valid() ==> |r| <= Paging.ItemsPerPage
      ensures forall p :: p in r ==> p in people && Matches(p, filter)
    {
      Paging.CurrentItems(FilteredList(), currentPage)
    }

    /** `totalPages` for the current filter: zero exactly when nothing matches. */
    function TotalPages(): (t: nat)
      reads this
      ensures t == 0 <==> FilteredList() == []
      ensures t * Paging.ItemsPerPage >= |FilteredList()|
    {
      Paging.TotalPages(|FilteredList()|)
    }

    /** The numbers on the rendered page buttons. */
    function PageButtons(): (r: seq<int>)
      reads this
      ensures |r| <= Paging.MaxPageNumbersToShow
      ensures forall k :: 0 <= k < |r| ==> 1 <= r[k] <= TotalPages() && r[k] == r[0] + k
      ensures 1 <= currentPage <= TotalPages() ==> currentPage in r
    {
      Paging.WindowProperties(TotalPages(), currentPage);
      var startPage := Paging.StartPage(currentPage);
      Paging.Range(startPage, Paging.EndPage(TotalPages(), startPage))
    }

    /** `fetchData`: one GET. A resolved call replaces `people` wholesale with `persons` when that is an
        array and with `[]` otherwise, and returns the new list; a rejected call leaves `people` as it
        was and returns `[]`. `loading` ends false either way. */
    method FetchData(response: Response<ListBody>) returns (data: seq<Person>)
      modifies this`people, this`loading, this`requests
      ensures requests == old(requests) + [Get]
      ensures !loading
      ensures response.Ok? && response.body.PersonsArray? ==> people == response.body.persons && data == people
      ensures response.Ok? && response.body.NotAnArray? ==> people == [] && data == []
      ensures response.Failed? ==> people == old(people) && data == []
    {
      loading := true;
      requests := requests + [Get];
      match response {
        case Ok(body) =>
          data := if body.PersonsArray? then body.persons else [];
          people := data;
        case Failed =>
          data := [];
      }
      loading := false;
    }

    /** `handlePageChange`: sets the page and nothing else. */
    method HandlePageChange(page: int)
      modifies this`currentPage
      ensures currentPage == page
    {
      currentPage := page;
    }

    /** `handleFilterChange`: stores the query and goes back to page 1. */
    method HandleFilterChange(value: string)
      modifies this`filter, this`currentPage
      ensures filter == value && currentPage == 1
      ensures Valid()
    {
      filter := value;
      currentPage := 1;
    }

    /** The Prev button: calls `handlePageChange(currentPage - 1)` unless disabled on page 1. */
    method ClickPrev()
      requires Valid()
      modifies this`currentPage
      ensures Valid()
      ensures 1 <= old(currentPage) <= old(TotalPages()) ==> currentPage <= TotalPages()
      ensures old(currentPage) == 1 ==> currentPage == 1
      ensures old(currentPage) != 1 ==> currentPage == old(currentPage) - 1
    {
      if currentPage != 1 {
        HandlePageChange(currentPage - 1);
      }
    }

    /** The Next button: calls `handlePageChange(currentPage + 1)` unless disabled on the last page.
        With no matches there are zero pages, so from page 1 it is enabled and moves to page 2. */
    method ClickNext()
      requires Valid()
      modifies this`currentPage
      ensures Valid()
      ensures 1 <= old(currentPage) <= old(TotalPages()) ==> currentPage <= TotalPages()
      ensures old(currentPage) == old(TotalPages()) ==> currentPage == old(currentPage)
      ensures old(currentPage) != old(TotalPages()) ==> currentPage == old(currentPage) + 1
      ensures old(FilteredList()) == [] && old(currentPage) == 1 ==> currentPage == 2
    {
      if currentPage != TotalPages() {
        HandlePageChange(currentPage + 1);
      }
    }

    /** A page-number button: calls `handlePageChange(number)` for one of the rendered numbers. */
    method ClickPageNumber(number: int)
      requires number in PageButtons()
      modifies this`currentPage
      ensures currentPage == number
      ensures Valid()
    {
      HandlePageChange(number);
    }

    /** `openModal`. */
    method OpenModal()
      modifies this`showModal
      ensures showModal
    {
      showModal := true;
    }

    /** `closeModal`: hides the modal and drops the selected record; `isAddingMode` is not touched. */
    method CloseModal()
      modifies this`showModal, this`selectedPersonDetails
      ensures !showModal && selectedPersonDetails == None
    {
      showModal := false;
      selectedPersonDetails := None;
    }

    /** `openAddModal`: add mode on, modal shown. */
    method OpenAddModal()
      modifies this`isAddingMode, this`showModal
      ensures isAddingMode && showModal
    {
      isAddingMode := true;
      OpenModal();
    }

    /** `closeAddModal`: add mode off, then `closeModal`. */
    method CloseAddModal()
      modifies this`isAddingMode, this`showModal, this`selectedPersonDetails
      ensures !isAddingMode && !showModal && selectedPersonDetails == None
    {
      isAddingMode := false;
      CloseModal();
    }

    /** The modal's `onHide` (its close button or a click outside): `closeAddModal` in add mode,
        `closeModal` otherwise. Either way add mode ends off, the modal is hidden and the selection
        is cleared; add mode was already off on the `closeModal` path. */
    method HideModal()
      modifies this`isAddingMode, this`showModal, this`selectedPersonDetails
      ensures !isAddingMode && !showModal && selectedPersonDetails == None
    {
      if isAddingMode {
        CloseAddModal();
      } else {
        CloseModal();
      }
    }

    /** `showAlert`: sets the banner (its five-second expiry is not modelled). */
    method ShowAlert(variant: Variant, message: string)
      modifies this`alert
      ensures alert == Some(Alert(variant, message))
    {
      alert := Some(Alert(variant, message));
    }

    /** The banner's close button. */
    method DismissAlert()
      modifies this`alert
      ensures alert == None
    {
      alert := None;
    }

    /** `handleDelete`: one DELETE for `id`. Only when it resolves is the list refetched (one GET, with
        outcome `refresh`) and the success banner shown; when it is rejected the danger banner is shown
        and `people` and `loading` stay as they were. */
    method HandleDelete(id: string, deleted: Response<()>, refresh: Response<ListBody>)
      modifies this`requests, this`people, this`loading, this`alert
      ensures deleted.Ok? ==> requests == old(requests) + [Delete(id), Get]
      ensures deleted.Ok? && refresh.Ok? ==>
                people == (if refresh.body.PersonsArray? then refresh.body.persons else [])
      ensures deleted.Ok? && refresh.Failed? ==> people == old(people)
      ensures deleted.Ok? ==> !loading && alert == Some(DeleteSucceeded)
      ensures deleted.Failed? ==> requests == old(requests) + [Delete(id)]
      ensures deleted.Failed? ==>
                people == old(people) && loading == old(loading) && alert == Some(DeleteFailed)
    {
      requests := requests + [Delete(id)];
      if deleted.Ok? {
        var _ := FetchData(refresh);
        ShowAlert(DeleteSucceeded.variant, DeleteSucceeded.message);
      } else {
        ShowAlert(DeleteFailed.variant, DeleteFailed.message);
      }
    }

    /** `handleView`: selects the first row of the current page with that id (none if absent),
        highlights `id` and opens the modal. */
    method HandleView(id: string)
      modifies this`selectedPersonDetails, this`selectedId, this`showModal
      ensures selectedPersonDetails == FindById(CurrentItems(), id)
      ensures selectedPersonDetails.Some? ==> selectedPersonDetails.value in CurrentItems()
      ensures selectedId == Some(id) && showModal
    {
      selectedPersonDetails := FindById(CurrentItems(), id);
      selectedId := Some(id);
      OpenModal();
    }
  }
}
