/**
 * The citizen accounts page: a column schema for the generic table, status
 * badges, a fixed pair of row actions, a search box and the page number the
 * table's pager drives.
 */
module UserList {
  import opened Nullable
  import opened DataTable

  datatype UserStatus = Active | Suspended | Unverified

  datatype CitizenUser = CitizenUser(id: string, fullName: string, email: string, phone: string,
                                     status: UserStatus, joinedAt: string)

  const MockUsers: seq<CitizenUser> := [
    CitizenUser("USR-1001", "Rahul Kumar", "rahul.k@example.com", "+91-9876543210", Active, "2025-10-12"),
    CitizenUser("USR-1002", "Priya Sharma", "priya.sharma@example.com", "+91-9876543211", Active, "2025-11-05"),
    CitizenUser("USR-1003", "Amit Singh", "amit.singh99@example.com", "+91-9123456789", Suspended, "2026-01-20"),
    CitizenUser("USR-1004", "Neha Gupta", "neha.g@example.com", "+91-9988776655", Unverified, "2026-02-15"),
    CitizenUser("USR-1005", "Vikram Patel", "v.patel@example.com", "+91-9000111222", Active, "2026-02-20")
  ]

  /** The field names of a `CitizenUser` (`keyof CitizenUser`). */
  datatype UserKey = Id | FullName | Email | Phone | Status | JoinedAt

  function StatusText(status: UserStatus): string {
    match status
    case Active => "Active"
    case Suspended => "Suspended"
    case Unverified => "Unverified"
  }

  /** The text of a field of an account, as shown in a plain cell. */
  function FieldText(u: CitizenUser, key: UserKey): string {
    match key
    case Id => u.id
    case FullName => u.fullName
    case Email => u.email
    case Phone => u.phone
    case Status => StatusText(u.status)
    case JoinedAt => u.joinedAt
  }

  /** The badge classes of the `statusStyles` lookup. */
  function StatusStyle(status: UserStatus): string {
    match status
    case Active => "bg-green-100 text-green-700 border-green-200"
    case Suspended => "bg-red-100 text-red-700 border-red-200"
    case Unverified => "bg-yellow-100 text-yellow-700 border-yellow-200"
  }

  /** The lookup has an entry for every status, and no two statuses share a
      style or a label. */
  lemma StatusLookupTotalAndDistinct(a: UserStatus, b: UserStatus)
    ensures StatusStyle(a) != "" && StatusText(a) != ""
    ensures a != b ==> StatusStyle(a) != StatusStyle(b) && StatusText(a) != StatusText(b)
  {
  }

  datatype UserAction = ViewFullProfile | MoreOptions

  /** The buttons of the actions cell, left to right. */
  function RowActions(u: CitizenUser): seq<UserAction> {
    [ViewFullProfile, MoreOptions]
  }

  /** Every account gets the same two buttons, whatever its status. */
  lemma ActionsIgnoreStatus(u: CitizenUser, v: CitizenUser)
    ensures RowActions(u) == RowActions(v) && |RowActions(u)| == 2
  {
  }

  /** What the custom cells of this page render. */
  datatype UserNode =
    | Details(fullName: string, email: string)
    | StatusBadge(style: string, text: string)
    | ActionBar(actions: seq<UserAction>)

  function UserColumns(): seq<ColumnDef<CitizenUser, UserKey, UserNode>> {
    [ ColumnDef("Citizen ID", Some(Id), None),
      ColumnDef("Citizen Details", None, Some((u: CitizenUser) => Details(u.fullName, u.email))),
      ColumnDef("Phone Number", Some(Phone), None),
      ColumnDef("Account Status", None, Some((u: CitizenUser) => StatusBadge(StatusStyle(u.status), StatusText(u.status)))),
      ColumnDef("Joined Date", Some(JoinedAt), None),
      ColumnDef("Actions", None, Some((u: CitizenUser) => ActionBar(RowActions(u)))) ]
  }

  const TotalPages := 5

  /** The table as the page renders it; the search term is not consulted. */
  function PageView(searchTerm: string, currentPage: int): View<UserNode> {
    Render(MockUsers, UserColumns(), currentPage, TotalPages, FieldText)
  }

  /** The six cells of one account's row, column by column. */
  function ExpectedRow(u: CitizenUser): seq<Cell<UserNode>> {
    [ Text(u.id),
      Rendered(Details(u.fullName, u.email)),
      Text(u.phone),
      Rendered(StatusBadge(StatusStyle(u.status), StatusText(u.status))),
      Text(u.joinedAt),
      Rendered(ActionBar(RowActions(u))) ]
  }

  /** The schema resolves each column of an account to the expected cell. */
  lemma SchemaCells(u: CitizenUser)
    ensures |UserColumns()| == |ExpectedRow(u)|
    ensures forall j :: 0 <= j < |UserColumns()| ==> ResolveCell(UserColumns()[j], u, FieldText) == ExpectedRow(u)[j]
  {
    var cols := UserColumns();
    assert ResolveCell(cols[0], u, FieldText) == ExpectedRow(u)[0];
    assert ResolveCell(cols[1], u, FieldText) == ExpectedRow(u)[1];
    assert ResolveCell(cols[2], u, FieldText) == ExpectedRow(u)[2];
    assert ResolveCell(cols[3], u, FieldText) == ExpectedRow(u)[3];
    assert ResolveCell(cols[4], u, FieldText) == ExpectedRow(u)[4];
    assert ResolveCell(cols[5], u, FieldText) == ExpectedRow(u)[5];
  }

  /** Any non-empty list of accounts fed to the table with this schema shows
      the six headers in order and one expected row per account. */
  lemma TableShape(data: seq<CitizenUser>, currentPage: int)
    requires data != []
    ensures var v := Render(data, UserColumns(), currentPage, TotalPages, FieldText);
      && v.Table?
      && v.headers == ["Citizen ID", "Citizen Details", "Phone Number", "Account Status", "Joined Date", "Actions"]
      && |v.rows| == |data|
      && v.footer == PagerFooter(currentPage, TotalPages)
      && forall i :: 0 <= i < |data| ==> v.rows[i] == ExpectedRow(data[i])
  {
    var v := Render(data, UserColumns(), currentPage, TotalPages, FieldText);
    forall i | 0 <= i < |data|
      ensures v.rows[i] == ExpectedRow(data[i])
    {
      SchemaCells(data[i]);
    }
  }

  /** The page always shows the full mock list, whatever the search term. */
  lemma PageViewIsFullTable(searchTerm: string, currentPage: int)
    ensures var v := PageView(searchTerm, currentPage);
      && v.Table?
      && |v.rows| == |MockUsers|
      && v.footer == PagerFooter(currentPage, TotalPages)
      && forall i :: 0 <= i < |MockUsers| ==> v.rows[i] == ExpectedRow(MockUsers[i])
  {
    TableShape(MockUsers, currentPage);
  }

  /** The pager under the table reports the page's own numbers. */
  lemma FooterOfPage(searchTerm: string, currentPage: int)
    ensures PageView(searchTerm, currentPage).Table?
    ensures PageView(searchTerm, currentPage).footer == PagerFooter(currentPage, TotalPages)
  {
    assert MockUsers != [];
  }

  /** Typing in the search box never changes what the table shows. */
  lemma SearchDoesNotFilter(term1: string, term2: string, currentPage: int)
    ensures PageView(term1, currentPage) == PageView(term2, currentPage)
  {
  }

  class UserListPage {
    var searchTerm: string
    var currentPage: int

    /** The page number stays within the pager's range. */
    ghost predicate Valid()
      reads this
    {
      1 <= currentPage <= TotalPages
    }

    constructor ()
      ensures Valid() && searchTerm == "" && currentPage == 1
    {
      searchTerm, currentPage := "", 1;
    }

    function View(): View<UserNode>
      reads this
    {
      PageView(searchTerm, currentPage)
    }

    method Search(text: string)
      modifies this
      ensures searchTerm == text && currentPage == old(currentPage)
      ensures View() == old(View())
    {
      searchTerm := text;
    }

    /** A click on a pager button: `onPageChange={setCurrentPage}` stores the
        page the table asks for, and nothing happens on a disabled button. */
    method ClickPager(button: PagerButton)
      requires Valid()
      modifies this
      ensures Valid() && searchTerm == old(searchTerm)
      ensures var request := PageRequest(PagerFooter(old(currentPage), TotalPages), button);
        currentPage == if request.Some? then request.value else old(currentPage)
    {
      // PagerFooter(currentPage, TotalPages) is the footer of View(): see FooterOfPage
      var request := PageRequest(PagerFooter(currentPage, TotalPages), button);
      PageRequestInRange(currentPage, TotalPages, button);
      if request.Some? {
        currentPage := request.value;
      }
    }
  }
}
