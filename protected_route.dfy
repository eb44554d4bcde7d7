/**
 * The route guard of src/components/ProtectedRoute.jsx, and the router
 * locations it and the sign-in page exchange.
 */
module ProtectedRoute {
  import opened Common

  /** A router location; `state` is what the navigation that led here carried. */
  datatype Location = Location(pathname: string, search: string, state: Option<RouteState>)

  /** The navigation state `{ from: location }`. */
  datatype RouteState = RouteState(from: Option<Location>)

  /** What the guard renders: its children, or a `<Navigate to state replace />`. */
  datatype Element = Children | Navigate(to: string, state: RouteState, replace: bool)

  /** The guard's authentication flag is a constant in the source. */
  const IS_AUTHENTICATED := true

  const LOGIN_PATH := "/login"

  /**
   * The guard's decision for a given authentication flag: the children, or a
   * redirect to the sign-in page that replaces the current history entry and
   * remembers the attempted location.
   */
  function Guard(isAuthenticated: bool, location: Location): (e: Element)
    ensures e.Children? <==> isAuthenticated
    ensures !isAuthenticated ==> e.to == LOGIN_PATH && e.replace && e.state.from == Some(location)
  {
    if !isAuthenticated then Navigate(LOGIN_PATH, RouteState(Some(location)), true)
    else Children
  }

  /** `ProtectedRoute` as written: the flag is always true, so the children are always rendered. */
  function Render(location: Location): (e: Element)
    ensures e == Children
  {
    Guard(IS_AUTHENTICATED, location)
  }
}
