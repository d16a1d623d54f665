/**
 * The generic table presenter shared by the list pages. It renders an
 * ordered sequence of records against a column schema, shows a loading or
 * an empty placeholder instead when appropriate, and reports previous/next
 * page requests to its caller, which owns the page number.
 */
module DataTable {
  import opened Nullable

  /** One column: its header, and where each cell's content comes from. `K`
      is the type of the record's field names (`keyof T`); `N` is whatever
      the page's custom renderers produce. */
  datatype ColumnDef<!T, K, N> = ColumnDef(header: string, accessorKey: Option<K>, cell: Option<T -> N>)

  /** A cell holds either a custom renderer's output or plain text. */
  datatype Cell<N> = Rendered(node: N) | Text(text: string)

  /** The pagination footer: "Page <currentPage> of <totalPages>" and the
      disabled flags of the two buttons. */
  datatype Footer = Footer(currentPage: int, totalPages: int, previousDisabled: bool, nextDisabled: bool)

  datatype View<N> =
    | Loading
    | Empty
    | Table(headers: seq<string>, rows: seq<seq<Cell<N>>>, footer: Footer)

  datatype PagerButton = Previous | Next

  /** One cell: the column's custom renderer if it has one, else the text of
      the field its accessor names (`fieldText`), else the empty string. */
  function ResolveCell<T, K, N>(col: ColumnDef<T, K, N>, item: T, fieldText: (T, K) -> string): Cell<N> {
    if col.cell.Some? then Rendered(col.cell.value(item))
    else if col.accessorKey.Some? then Text(fieldText(item, col.accessorKey.value))
    else Text("")
  }

  /** The custom renderer wins even when an accessor is also given; an
      accessor alone gives the field's text; neither gives an empty cell. */
  lemma CellResolutionOrder<T, K, N>(col: ColumnDef<T, K, N>, item: T, fieldText: (T, K) -> string)
    ensures col.cell.Some? ==> ResolveCell(col, item, fieldText) == Rendered(col.cell.value(item))
    ensures col.cell.None? && col.accessorKey.Some? ==>
      ResolveCell(col, item, fieldText) == Text(fieldText(item, col.accessorKey.value))
    ensures col.cell.None? && col.accessorKey.None? ==> ResolveCell(col, item, fieldText) == Text("")
  {
  }

  /** The header row: one label per column, in schema order. */
  function Headers<T, K, N>(columns: seq<ColumnDef<T, K, N>>): (r: seq<string>)
    ensures |r| == |columns|
    ensures forall j :: 0 <= j < |columns| ==> r[j] == columns[j].header
  {
    if columns == [] then [] else [columns[0].header] + Headers(columns[1..])
  }

  /** One table row: one cell per column, in schema order. */
  function RowOf<T, K, N>(item: T, columns: seq<ColumnDef<T, K, N>>, fieldText: (T, K) -> string): (r: seq<Cell<N>>)
    ensures |r| == |columns|
    ensures forall j :: 0 <= j < |columns| ==> r[j] == ResolveCell(columns[j], item, fieldText)
  {
    if columns == [] then [] else [ResolveCell(columns[0], item, fieldText)] + RowOf(item, columns[1..], fieldText)
  }

  /** The table body: one row per record, in data order. */
  function RowsOf<T, K, N>(data: seq<T>, columns: seq<ColumnDef<T, K, N>>, fieldText: (T, K) -> string): (r: seq<seq<Cell<N>>>)
    ensures |r| == |data|
    ensures forall i :: 0 <= i < |data| ==> r[i] == RowOf(data[i], columns, fieldText)
  {
    if data == [] then [] else [RowOf(data[0], columns, fieldText)] + RowsOf(data[1..], columns, fieldText)
  }

  /** Previous is disabled on page 1, next on the last page; the numbers are
      shown as given, without any range check. */
  function PagerFooter(currentPage: int, totalPages: int): (f: Footer)
    ensures f.currentPage == currentPage && f.totalPages == totalPages
    ensures f.previousDisabled <==> currentPage == 1
    ensures f.nextDisabled <==> currentPage == totalPages
  {
    Footer(currentPage, totalPages, currentPage == 1, currentPage == totalPages)
  }

  /** The whole component. Loading takes precedence over empty, and empty
      over the table; `isLoading` defaults to false. */
  function Render<T, K, N>(data: seq<T>, columns: seq<ColumnDef<T, K, N>>, currentPage: int, totalPages: int,
                           fieldText: (T, K) -> string, isLoading: bool := false): (v: View<N>)
    ensures isLoading ==> v == Loading
    ensures !isLoading && data == [] ==> v == Empty
    ensures v.Table? <==> !isLoading && data != []
    ensures v.Table? ==>
      && |v.headers| == |columns|
      && (forall j :: 0 <= j < |columns| ==> v.headers[j] == columns[j].header)
      && |v.rows| == |data|
      && (forall i :: 0 <= i < |data| ==> |v.rows[i]| == |columns|)
      && (forall i, j :: 0 <= i < |data| && 0 <= j < |columns| ==>
            v.rows[i][j] == ResolveCell(columns[j], data[i], fieldText))
      && v.footer.currentPage == currentPage && v.footer.totalPages == totalPages
      && (v.footer.previousDisabled <==> currentPage == 1)
      && (v.footer.nextDisabled <==> currentPage == totalPages)
  {
    if isLoading then Loading
    else if data == [] then Empty
    else Table(Headers(columns), RowsOf(data, columns, fieldText), PagerFooter(currentPage, totalPages))
  }

  /** The value handed to `onPageChange` when a button is clicked, or None
      when the button is disabled (a disabled button fires no click). */
  function PageRequest(f: Footer, button: PagerButton): Option<int> {
    match button
    case Previous => if f.previousDisabled then None else Some(f.currentPage - 1)
    case Next => if f.nextDisabled then None else Some(f.currentPage + 1)
  }

  /** An enabled button asks for the neighbouring page, without clamping;
      when the caller keeps `1 <= currentPage <= totalPages`, every page
      asked for is in range too. */
  lemma PageRequestInRange(currentPage: int, totalPages: int, button: PagerButton)
    ensures PageRequest(PagerFooter(currentPage, totalPages), button).Some? ==>
      PageRequest(PagerFooter(currentPage, totalPages), button).value ==
        (if button == Previous then currentPage - 1 else currentPage + 1)
    ensures 1 <= currentPage <= totalPages && PageRequest(PagerFooter(currentPage, totalPages), button).Some? ==>
      1 <= PageRequest(PagerFooter(currentPage, totalPages), button).value <= totalPages
  {
  }
}
