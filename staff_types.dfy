/**
 * The staff records exchanged with the backend. Numbers are reals or
 * integers as the backend sends them; dates stay the strings they are on
 * the wire.
 */
module StaffTypes {
  import opened Wrappers

  datatype StaffStatus = Active | Inactive

  /** The wire spelling of a status, which is also the status select's option value. */
  function StatusText(status: StaffStatus): (text: string)
    ensures text == "active" <==> status == Active
    ensures text == "inactive" <==> status == Inactive
  {
    match status
    case Active => "active"
    case Inactive => "inactive"
  }

  /** A stored staff member. */
  datatype Staff = Staff(
    id: int,
    staffId: string,
    name: string,
    dob: string,
    salary: real,
    status: StaffStatus,
    createdAt: string,
    updatedAt: string)

  /** One page of the staff list. */
  datatype StaffListResponse = StaffListResponse(
    items: seq<Staff>,
    total: int,
    page: int,
    limit: int,
    totalPages: int)

  datatype SortOrder = Asc | Desc

  /** The query of a list request; every field is optional, `None` meaning it is not sent. */
  datatype StaffFilterParams = StaffFilterParams(
    page: Option<int>,
    limit: Option<int>,
    status: Option<StaffStatus>,
    name: Option<string>,
    salaryMin: Option<real>,
    salaryMax: Option<real>,
    sortBy: Option<string>,
    sortOrder: Option<SortOrder>)

  /**
   * The body of a create or update request as the form builds it: every
   * field is set. `status` is the status select's value, which the form
   * passes on without checking it.
   */
  datatype StaffPayload = StaffPayload(
    staffId: string,
    name: string,
    dob: string,
    salary: real,
    status: string)
}
