/**
 * The staff listing page's state and its event handlers. Each React state
 * variable is a field; a setter call is an assignment, taking effect at
 * once. The backend is reached through two recorded call logs
 * (`queries` for list requests, `deletions` for delete requests) and its
 * answers arrive as method parameters.
 */
module StaffListPage {
  import opened Wrappers
  import opened StaffTypes

  const PageSize := 10
  const DefaultSortBy := "created_at"
  const LoadFailedMessage := "Failed to load staff"
  const DeleteFailedMessage := "Failed to delete staff"

  /** The answer to a list request. */
  datatype ListResult = Loaded(response: StaffListResponse) | LoadFailed(thrown: Thrown)

  function Flip(order: SortOrder): (flipped: SortOrder)
    ensures flipped != order
  {
    if order == Asc then Desc else Asc
  }

  /**
   * The sort state after a click on column `field`: the current column
   * flips its direction, another column becomes the sort column, ascending.
   */
  function NextSort(sortBy: string, sortOrder: SortOrder, field: string): (next: (string, SortOrder))
    ensures next.0 == field
    ensures sortBy == field ==> next.1 != sortOrder
    ensures sortBy != field ==> next.1 == Asc
  {
    if sortBy == field then (sortBy, Flip(sortOrder)) else (field, Asc)
  }

  /** Two clicks on the sort column restore the direction it had. */
  lemma SortTwiceRestores(sortBy: string, sortOrder: SortOrder)
    ensures NextSort(sortBy, sortOrder, sortBy) != (sortBy, sortOrder)
    ensures var once := NextSort(sortBy, sortOrder, sortBy);
      NextSort(once.0, once.1, sortBy) == (sortBy, sortOrder)
  {
  }

  /** A click on a new column and then another on it leaves that column sorted descending. */
  lemma NewColumnTwiceDescends(sortBy: string, sortOrder: SortOrder, field: string)
    requires sortBy != field
    ensures var once := NextSort(sortBy, sortOrder, field);
      NextSort(once.0, once.1, field) == (field, Desc)
  {
  }

  /** `Staff "<name>" deleted successfully`. */
  function DeletedMessage(name: string): (m: string)
    ensures |m| == |name| + 29
    ensures m[7..7 + |name|] == name
  {
    "Staff \"" + name + "\" deleted successfully"
  }

  /**
   * The list query built from the page's state: the current page, ten rows,
   * the sort, and the name and status filters only when they are set.
   */
  function ListQuery(currentPage: int, nameFilter: string, statusFilter: Option<StaffStatus>,
                     sortBy: string, sortOrder: SortOrder): (q: StaffFilterParams)
    ensures q.page == Some(currentPage) && q.limit == Some(PageSize)
    ensures q.sortBy == Some(sortBy) && q.sortOrder == Some(sortOrder)
    ensures q.name.None? <==> nameFilter == ""
    ensures q.name.Some? ==> q.name.value == nameFilter
    ensures q.status == statusFilter
    ensures q.salaryMin.None? && q.salaryMax.None?
  {
    StaffFilterParams(
      page := Some(currentPage),
      limit := Some(PageSize),
      status := statusFilter,
      name := if nameFilter == "" then None else Some(nameFilter),
      salaryMin := None,
      salaryMax := None,
      sortBy := Some(sortBy),
      sortOrder := Some(sortOrder))
  }

  /** Clearing the filters gives a query with neither a name nor a status. */
  lemma ClearedQueryIsUnfiltered(currentPage: int, sortBy: string, sortOrder: SortOrder)
    ensures var q := ListQuery(currentPage, "", None, sortBy, sortOrder);
      q.name.None? && q.status.None? && q.page == Some(currentPage)
  {
  }

  class Page {
    var data: Option<StaffListResponse>
    var isLoading: bool
    var error: Option<string>
    var nameFilter: string
    /** `None` is the empty choice, "all statuses". */
    var statusFilter: Option<StaffStatus>
    var currentPage: int
    var sortBy: string
    var sortOrder: SortOrder
    var deleteTarget: Option<Staff>
    var isDeleting: bool
    var successMessage: Option<string>
    /** Every list request sent, oldest first. */
    var queries: seq<StaffFilterParams>
    /** The staff ids of every delete request sent, oldest first. */
    var deletions: seq<string>

    /** The query `fetchStaff` sends for the current state. */
    function CurrentQuery(): StaffFilterParams
      reads this
    {
      ListQuery(currentPage, nameFilter, statusFilter, sortBy, sortOrder)
    }

    /** The page as first rendered: loading, page 1, newest first, no filters, nothing sent yet. */
    constructor ()
      ensures data.None? && isLoading && error.None?
      ensures nameFilter == "" && statusFilter.None? && currentPage == 1
      ensures sortBy == DefaultSortBy && sortOrder == Desc
      ensures deleteTarget.None? && !isDeleting && successMessage.None?
      ensures queries == [] && deletions == []
    {
      data := None;
      isLoading := true;
      error := None;
      nameFilter := "";
      statusFilter := None;
      currentPage := 1;
      sortBy := DefaultSortBy;
      sortOrder := Desc;
      deleteTarget := None;
      isDeleting := false;
      successMessage := None;
      queries := [];
      deletions := [];
    }

    /** The synchronous part of `fetchStaff`: mark loading, clear the error, send the query. */
    method StartFetch()
      modifies this
      ensures isLoading && error.None?
      ensures queries == old(queries) + [old(CurrentQuery())]
      ensures data == old(data) && nameFilter == old(nameFilter) && statusFilter == old(statusFilter)
      ensures currentPage == old(currentPage) && sortBy == old(sortBy) && sortOrder == old(sortOrder)
      ensures deleteTarget == old(deleteTarget) && isDeleting == old(isDeleting)
      ensures successMessage == old(successMessage) && deletions == old(deletions)
    {
      isLoading := true;
      error := None;
      queries := queries + [CurrentQuery()];
    }

    /** The rest of `fetchStaff` once the list request settles. */
    method FinishFetch(result: ListResult)
      modifies this
      ensures !isLoading
      ensures result.Loaded? ==> data == Some(result.response) && error == old(error)
      ensures result.LoadFailed? ==>
        data == old(data) && error == Some(MessageOf(result.thrown, LoadFailedMessage))
      ensures nameFilter == old(nameFilter) && statusFilter == old(statusFilter)
      ensures currentPage == old(currentPage) && sortBy == old(sortBy) && sortOrder == old(sortOrder)
      ensures deleteTarget == old(deleteTarget) && isDeleting == old(isDeleting)
      ensures successMessage == old(successMessage)
      ensures queries == old(queries) && deletions == old(deletions)
    {
      match result {
        case Loaded(response) =>
          data := Some(response);
        case LoadFailed(thrown) =>
          error := Some(MessageOf(thrown, LoadFailedMessage));
      }
      isLoading := false;
    }

    /** `handleNameChange`: the new name filter, back to page 1. */
    method HandleNameChange(value: string)
      modifies this
      ensures nameFilter == value && currentPage == 1
      ensures statusFilter == old(statusFilter) && sortBy == old(sortBy) && sortOrder == old(sortOrder)
      ensures data == old(data) && isLoading == old(isLoading) && error == old(error)
      ensures deleteTarget == old(deleteTarget) && isDeleting == old(isDeleting)
      ensures successMessage == old(successMessage)
      ensures queries == old(queries) && deletions == old(deletions)
    {
      nameFilter := value;
      currentPage := 1;
    }

    /** `handleStatusChange`: the new status filter (`None` for "all"), back to page 1. */
    method HandleStatusChange(value: Option<StaffStatus>)
      modifies this
      ensures statusFilter == value && currentPage == 1
      ensures nameFilter == old(nameFilter) && sortBy == old(sortBy) && sortOrder == old(sortOrder)
      ensures data == old(data) && isLoading == old(isLoading) && error == old(error)
      ensures deleteTarget == old(deleteTarget) && isDeleting == old(isDeleting)
      ensures successMessage == old(successMessage)
      ensures queries == old(queries) && deletions == old(deletions)
    {
      statusFilter := value;
      currentPage := 1;
    }

    /** `handleClearFilters`: both filters emptied, back to page 1, the sort kept. */
    method HandleClearFilters()
      modifies this
      ensures nameFilter == "" && statusFilter.None? && currentPage == 1
      ensures sortBy == old(sortBy) && sortOrder == old(sortOrder)
      ensures CurrentQuery().name.None? && CurrentQuery().status.None?
      ensures data == old(data) && isLoading == old(isLoading) && error == old(error)
      ensures deleteTarget == old(deleteTarget) && isDeleting == old(isDeleting)
      ensures successMessage == old(successMessage)
      ensures queries == old(queries) && deletions == old(deletions)
    {
      nameFilter := "";
      statusFilter := None;
      currentPage := 1;
    }

    /** `handleSort`: the sort moves as `NextSort` says, back to page 1. */
    method HandleSort(field: string)
      modifies this
      ensures (sortBy, sortOrder) == NextSort(old(sortBy), old(sortOrder), field)
      ensures currentPage == 1
      ensures nameFilter == old(nameFilter) && statusFilter == old(statusFilter)
      ensures data == old(data) && isLoading == old(isLoading) && error == old(error)
      ensures deleteTarget == old(deleteTarget) && isDeleting == old(isDeleting)
      ensures successMessage == old(successMessage)
      ensures queries == old(queries) && deletions == old(deletions)
    {
      if sortBy == field {
        sortOrder := if sortOrder == Asc then Desc else Asc;
      } else {
        sortBy := field;
        sortOrder := Asc;
      }
      currentPage := 1;
    }

    /** `handlePageChange`: only the page moves; the value is taken as given. */
    method HandlePageChange(page: int)
      modifies this
      ensures currentPage == page
      ensures nameFilter == old(nameFilter) && statusFilter == old(statusFilter)
      ensures sortBy == old(sortBy) && sortOrder == old(sortOrder)
      ensures data == old(data) && isLoading == old(isLoading) && error == old(error)
      ensures deleteTarget == old(deleteTarget) && isDeleting == old(isDeleting)
      ensures successMessage == old(successMessage)
      ensures queries == old(queries) && deletions == old(deletions)
    {
      currentPage := page;
    }

    /** `handleDeleteClick`: the row becomes the target of the confirmation dialog. */
    method HandleDeleteClick(staff: Staff)
      modifies this
      ensures deleteTarget == Some(staff)
      ensures nameFilter == old(nameFilter) && statusFilter == old(statusFilter) && currentPage == old(currentPage)
      ensures sortBy == old(sortBy) && sortOrder == old(sortOrder)
      ensures data == old(data) && isLoading == old(isLoading) && error == old(error)
      ensures isDeleting == old(isDeleting) && successMessage == old(successMessage)
      ensures queries == old(queries) && deletions == old(deletions)
    {
      deleteTarget := Some(staff);
    }

    /** `handleDeleteCancel`: the dialog closes with no request. */
    method HandleDeleteCancel()
      modifies this
      ensures deleteTarget.None?
      ensures nameFilter == old(nameFilter) && statusFilter == old(statusFilter) && currentPage == old(currentPage)
      ensures sortBy == old(sortBy) && sortOrder == old(sortOrder)
      ensures data == old(data) && isLoading == old(isLoading) && error == old(error)
      ensures isDeleting == old(isDeleting) && successMessage == old(successMessage)
      ensures queries == old(queries) && deletions == old(deletions)
    {
      deleteTarget := None;
    }

    /**
     * `handleDeleteConfirm`, given how the delete request settles. With no
     * target nothing happens. Otherwise one delete request for the target's
     * staff id is sent; on success the page announces it, closes the dialog
     * and refetches the list without awaiting it; on failure the target is
     * kept and the error shown. Either way the dialog stops spinning.
     */
    method HandleDeleteConfirm(outcome: CallOutcome)
      modifies this
      ensures old(deleteTarget).None? ==> unchanged(this)
      ensures old(deleteTarget).Some? ==>
        && deletions == old(deletions) + [old(deleteTarget).value.staffId]
        && !isDeleting
        && data == old(data)
        && nameFilter == old(nameFilter) && statusFilter == old(statusFilter) && currentPage == old(currentPage)
        && sortBy == old(sortBy) && sortOrder == old(sortOrder)
      ensures old(deleteTarget).Some? && outcome.Resolved? ==>
        && successMessage == Some(DeletedMessage(old(deleteTarget).value.name))
        && deleteTarget.None?
        && isLoading && error.None?
        && queries == old(queries) + [old(CurrentQuery())]
      ensures old(deleteTarget).Some? && outcome.Threw? ==>
        && error == Some(MessageOf(outcome.thrown, DeleteFailedMessage))
        && deleteTarget == old(deleteTarget)
        && successMessage == old(successMessage)
        && isLoading == old(isLoading)
        && queries == old(queries)
    {
      if deleteTarget.None? {
        return;
      }
      var target := deleteTarget.value;
      isDeleting := true;
      deletions := deletions + [target.staffId];
      match outcome {
        case Resolved =>
          successMessage := Some(DeletedMessage(target.name));
          deleteTarget := None;
          StartFetch();
        case Threw(thrown) =>
          error := Some(MessageOf(thrown, DeleteFailedMessage));
      }
      isDeleting := false;
    }
  }
}
