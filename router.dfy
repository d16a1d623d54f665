/**
 * What a route element renders, as far as routing is concerned:
 * `<Outlet />` (the nested routes) or `<Navigate to=… state=… replace />`.
 */
module Router {
  import opened Nullable

  /** The parts of react-router's `useLocation()` value that identify a page. */
  datatype Location = Location(pathname: string, search: string, hash: string)

  datatype RouteOutcome =
    | PassThrough
    | Redirect(to: string, fromLocation: Option<Location>, replace: bool)
}
