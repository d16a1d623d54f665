/**
 * The service applications page: a column schema for the generic table,
 * status badges, approve/reject actions for pending applications, a search
 * box and the page number the table's pager drives.
 */
module ServiceList {
  import opened Nullable
  import opened DataTable

  datatype ServiceStatus = Pending | Approved | Rejected

  datatype CitizenService = CitizenService(applicationId: string, serviceName: string, applicantName: string,
                                           appliedDate: string, status: ServiceStatus)

  const MockServices: seq<CitizenService> := [
    CitizenService("APP-8001", "Passport Renewal", "Rahul Kumar", "2026-02-20", Pending),
    CitizenService("APP-8002", "Voter ID Correction", "Priya Sharma", "2026-02-18", Approved),
    CitizenService("APP-8003", "New Ration Card", "Amit Singh", "2026-02-15", Rejected),
    CitizenService("APP-8004", "Driving License Renewal", "Neha Gupta", "2026-02-25", Pending)
  ]

  /** The field names of a `CitizenService` (`keyof CitizenService`). */
  datatype ServiceKey = ApplicationId | ServiceName | ApplicantName | AppliedDate | Status

  function StatusText(status: ServiceStatus): string {
    match status
    case Pending => "Pending"
    case Approved => "Approved"
    case Rejected => "Rejected"
  }

  /** The text of a field of an application, as shown in a plain cell. */
  function FieldText(s: CitizenService, key: ServiceKey): string {
    match key
    case ApplicationId => s.applicationId
    case ServiceName => s.serviceName
    case ApplicantName => s.applicantName
    case AppliedDate => s.appliedDate
    case Status => StatusText(s.status)
  }

  /** The badge classes of the `statusStyles` lookup. */
  function StatusStyle(status: ServiceStatus): string {
    match status
    case Approved => "bg-green-100 text-green-700 border-green-200"
    case Rejected => "bg-red-100 text-red-700 border-red-200"
    case Pending => "bg-yellow-100 text-yellow-700 border-yellow-200"
  }

  /** The lookup has an entry for every status, and no two statuses share a
      style or a label. */
  lemma StatusLookupTotalAndDistinct(a: ServiceStatus, b: ServiceStatus)
    ensures StatusStyle(a) != "" && StatusText(a) != ""
    ensures a != b ==> StatusStyle(a) != StatusStyle(b) && StatusText(a) != StatusText(b)
  {
  }

  datatype ServiceAction = ReviewDocuments | ApproveService | RejectService

  /** The buttons of the actions cell, left to right. */
  function AdminActions(s: CitizenService): seq<ServiceAction> {
    [ReviewDocuments] + (if s.status == Pending then [ApproveService, RejectService] else [])
  }

  /** Documents can always be reviewed; approving and rejecting are offered
      for pending applications and only for them. */
  lemma ActionsIffPending(s: CitizenService)
    ensures |AdminActions(s)| >= 1 && AdminActions(s)[0] == ReviewDocuments
    ensures ApproveService in AdminActions(s) <==> s.status == Pending
    ensures RejectService in AdminActions(s) <==> s.status == Pending
  {
  }

  /** What the custom cells of this page render. */
  datatype ServiceNode =
    | Details(serviceName: string, applicantName: string)
    | StatusBadge(style: string, text: string)
    | ActionBar(actions: seq<ServiceAction>)

  function ServiceColumns(): seq<ColumnDef<CitizenService, ServiceKey, ServiceNode>> {
    [ ColumnDef("App ID", Some(ApplicationId), None),
      ColumnDef("Service Details", None, Some((s: CitizenService) => Details(s.serviceName, s.applicantName))),
      ColumnDef("Date Applied", Some(AppliedDate), None),
      ColumnDef("Application Status", None, Some((s: CitizenService) => StatusBadge(StatusStyle(s.status), StatusText(s.status)))),
      ColumnDef("Admin Actions", None, Some((s: CitizenService) => ActionBar(AdminActions(s)))) ]
  }

  const TotalPages := 12

  /** The table as the page renders it; the search term is not consulted. */
  function PageView(searchTerm: string, currentPage: int): View<ServiceNode> {
    Render(MockServices, ServiceColumns(), currentPage, TotalPages, FieldText)
  }

  /** The five cells of one application's row, column by column. */
  function ExpectedRow(s: CitizenService): seq<Cell<ServiceNode>> {
    [ Text(s.applicationId),
      Rendered(Details(s.serviceName, s.applicantName)),
      Text(s.appliedDate),
      Rendered(StatusBadge(StatusStyle(s.status), StatusText(s.status))),
      Rendered(ActionBar(AdminActions(s))) ]
  }

  /** The schema resolves each column of an application to the expected cell. */
  lemma SchemaCells(s: CitizenService)
    ensures |ServiceColumns()| == |ExpectedRow(s)|
    ensures forall j :: 0 <= j < |ServiceColumns()| ==> ResolveCell(ServiceColumns()[j], s, FieldText) == ExpectedRow(s)[j]
  {
    var cols := ServiceColumns();
    assert ResolveCell(cols[0], s, FieldText) == ExpectedRow(s)[0];
    assert ResolveCell(cols[1], s, FieldText) == ExpectedRow(s)[1];
    assert ResolveCell(cols[2], s, FieldText) == ExpectedRow(s)[2];
    assert ResolveCell(cols[3], s, FieldText) == ExpectedRow(s)[3];
    assert ResolveCell(cols[4], s, FieldText) == ExpectedRow(s)[4];
  }

  /** Any non-empty list of applications fed to the table with this schema
      shows the five headers in order and one expected row per application. */
  lemma TableShape(data: seq<CitizenService>, currentPage: int)
    requires data != []
    ensures var v := Render(data, ServiceColumns(), currentPage, TotalPages, FieldText);
      && v.Table?
      && v.headers == ["App ID", "Service Details", "Date Applied", "Application Status", "Admin Actions"]
      && |v.rows| == |data|
      && v.footer == PagerFooter(currentPage, TotalPages)
      && forall i :: 0 <= i < |data| ==> v.rows[i] == ExpectedRow(data[i])
  {
    var v := Render(data, ServiceColumns(), currentPage, TotalPages, FieldText);
    forall i | 0 <= i < |data|
      ensures v.rows[i] == ExpectedRow(data[i])
    {
      SchemaCells(data[i]);
    }
  }

  /** The page always shows the full mock list, whatever the search term. */
  lemma PageViewIsFullTable(searchTerm: string, currentPage: int)
    ensures var v := PageView(searchTerm, currentPage);
      && v.Table?
      && |v.rows| == |MockServices|
      && v.footer == PagerFooter(currentPage, TotalPages)
      && forall i :: 0 <= i < |MockServices| ==> v.rows[i] == ExpectedRow(MockServices[i])
  {
    TableShape(MockServices, currentPage);
  }

  /** The pager under the table reports the page's own numbers. */
  lemma FooterOfPage(searchTerm: string, currentPage: int)
    ensures PageView(searchTerm, currentPage).Table?
    ensures PageView(searchTerm, currentPage).footer == PagerFooter(currentPage, TotalPages)
  {
    assert MockServices != [];
  }

  /** Typing in the search box never changes what the table shows. */
  lemma SearchDoesNotFilter(term1: string, term2: string, currentPage: int)
    ensures PageView(term1, currentPage) == PageView(term2, currentPage)
  {
  }

  class ServiceListPage {
    var searchTerm: string
    var currentPage: int

    /** The page number stays within the pager's range. */
    ghost predicate Valid()
      reads this
    {
      1 <= currentPage <= TotalPages
    }

    constructor ()
      ensures Valid() && searchTerm == "" && currentPage == 1
    {
      searchTerm, currentPage := "", 1;
    }

    function View(): View<ServiceNode>
      reads this
    {
      PageView(searchTerm, currentPage)
    }

    method Search(text: string)
      modifies this
      ensures searchTerm == text && currentPage == old(currentPage)
      ensures View() == old(View())
    {
      searchTerm := text;
    }

    /** A click on a pager button: `onPageChange={setCurrentPage}` stores the
        page the table asks for, and nothing happens on a disabled button. */
    method ClickPager(button: PagerButton)
      requires Valid()
      modifies this
      ensures Valid() && searchTerm == old(searchTerm)
      ensures var request := PageRequest(PagerFooter(old(currentPage), TotalPages), button);
        currentPage == if request.Some? then request.value else old(currentPage)
    {
      // PagerFooter(currentPage, TotalPages) is the footer of View(): see FooterOfPage
      var request := PageRequest(PagerFooter(currentPage, TotalPages), button);
      PageRequestInRange(currentPage, TotalPages, button);
      if request.Some? {
        currentPage := request.value;
      }
    }
  }
}
