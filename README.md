# Citizen admin front end — a Dafny model

This project models the logic inside a citizen-services administration
portal, a single-page React and Redux app whose data is all mocked. It covers:

- the Redux `auth` slice: a session holding `user`, `accessToken` and
  `isAuthenticated`, with the reducers `setCredentials` and `logOut`;
- the two route guards. `ProtectedRoute` sends visitors without a session to
  `/login` and remembers where they came from. `RequireRole` sends admins
  whose role is not on an allow-list to `/`;
- the generic `DataTable` presenter. It picks a loading, empty or table view,
  resolves each cell from a custom renderer or an accessor, and decides the
  pager's disabled flags and the page each button asks for;
- the header's `NotificationBell`: the unread count, mark-all-read,
  clear-all, click-to-read-and-navigate and the open/closed dropdown;
- the local state of the pages. These are the settings tabs, chat session
  selection and its compose box, the complaint reply box, the profile
  fallbacks and password form, and the service and user list pages with
  their column schemas, status lookups, row actions and pager wiring.

Each source file is one module. State that a component changes with
`useState` setters, or that a reducer updates in place, is a `class`. Its
methods say exactly what the new state is. The rendering decisions are pure
functions, and the properties are lemmas about those functions. There are
three shared modules. `Nullable` models `T | null` and `undefined`.
`JsString` models `trim()`, the test `!s.trim()` and `charAt`. `Router`
models the choice between `<Outlet />` and `<Navigate … />`.

Modelling choices:

- `trim()` removes exactly ECMAScript's WhiteSpace and LineTerminator code
  points. The Unicode space separators are listed one by one.
- In `DataTable`, `K` stands for `keyof T`, and the function `fieldText(item, k)`
  stands for `String(item[k])`. `N` stands for whatever a page's custom cell
  renderers produce. Each list page defines its own node type, so that its
  badges and action buttons can be checked.
- Navigation is a returned value: a `RouteOutcome`, or the `linkTo` that a
  notification click returns. A page change is the value `PageRequest` hands
  to `onPageChange`.
- The list pages pass `setCurrentPage` only to the table's pager, so their
  `ClickPager` methods are the only way the page number changes.
- An `alert(...)` is modelled only as the `sent` result of the two send
  handlers, which says whether the message passed the blank guard.
- `setCredentials` does not enforce that an authenticated session has a
  user and a non-empty token: a `null` user or an empty token is stored with
  `isAuthenticated = true` (`AuthSlice.AuthStore.SetCredentials`). The guard
  still rejects such a session (`ProtectedRoute.CredentialedPassesIff`).
- `DataTable` checks `isLoading` before emptiness, so the loading view wins
  even when there are no rows (`DataTable.Render`).
- `AuthSlice.AuthStore.Snapshot` is the abstract session: the value the
  selectors read. The reducers' contracts and the guards are stated over it.

## Model

| member | source | states |
|---|---|---|
| AuthSlice.AuthStore.constructor | src/features/auth/authSlice.ts:14-18 | The store starts with no user, no token and `isAuthenticated` false. |
| AuthSlice.AuthStore.SetCredentials | src/features/auth/authSlice.ts:24-31 | From any state, the session afterwards is exactly the payload's user and token, with `isAuthenticated` true. Nothing of the old state is merged in, and nothing is validated. |
| AuthSlice.AuthStore.LogOut | src/features/auth/authSlice.ts:32-36 | From any state, the session afterwards equals the initial state, so a second call changes nothing. |
| AuthSlice.SignInTwiceThenOut | src/features/auth/authSlice.ts:24-36 | Two `setCredentials` calls leave exactly the second payload. `setCredentials` then `logOut` (once or twice) returns to the initial state. |
| ProtectedRoute.Guard | src/core/guards/ProtectedRoute.tsx:10-20 | The guard passes through iff `isAuthenticated`, a non-null non-empty token and a non-null user all hold. Otherwise it redirects to `/login` with the current location as `from` and replace navigation. |
| ProtectedRoute.TokenTruthy | src/core/guards/ProtectedRoute.tsx:10 | JavaScript truthiness of the token: `null` and `''` are falsy. `EachConditionRedirects` proves that each falsy token alone redirects. |
| ProtectedRoute.EachConditionRedirects | src/core/guards/ProtectedRoute.tsx:10-13 | Any one of these redirects to login: not authenticated, a null token, the empty token, or a null user. |
| ProtectedRoute.InitialStateRedirects | src/core/guards/ProtectedRoute.tsx:10-13 | The state after `logOut` (the initial state) always redirects to login. |
| ProtectedRoute.CredentialedPassesIff | src/core/guards/ProtectedRoute.tsx:10-20 | After `setCredentials(u, t)`, the guard passes iff `u` is non-null and `t` is non-empty. |
| RequireRole.Guard | src/core/guards/RequireRole.tsx:12-17 | The guard passes iff a user is present and their `adminRole` is in `allowedRoles`. Otherwise the result is exactly a replace-redirect to `/`. |
| RequireRole.EmptyAllowListRedirects | src/core/guards/RequireRole.tsx:12-13 | An empty allow-list always redirects. |
| RequireRole.Monotone | src/core/guards/RequireRole.tsx:12 | Widening the allow-list never turns a pass into a redirect. |
| RequireRole.SuperAdminOnly | src/core/guards/RequireRole.tsx:12-17 | Membership is exact string equality: `SUPPORT_ADMIN` is redirected from `["SUPER_ADMIN"]` and `SUPER_ADMIN` passes. |
| DataTable.CellResolutionOrder | src/common/components/DataTable.tsx:71 | The `cell` renderer wins even when an accessor is set. An accessor alone gives `String(item[key])`. Neither gives `''`. |
| DataTable.ResolveCell | src/common/components/DataTable.tsx:71 | The cell of one column for one item. Its order of precedence (renderer, then accessor, then `''`) is proved in `DataTable.CellResolutionOrder`. |
| DataTable.Headers | src/common/components/DataTable.tsx:58-62 | There is one header per column, equal to that column's `header`, in schema order. |
| DataTable.RowOf | src/common/components/DataTable.tsx:68-73 | A row has one cell per column, each the resolved cell of that column for the item. |
| DataTable.RowsOf | src/common/components/DataTable.tsx:66-75 | There is one row per data item, in data order. |
| DataTable.PagerFooter | src/common/components/DataTable.tsx:81-99 | The footer shows `currentPage` and `totalPages` as given. Previous is disabled iff `currentPage == 1`, and next iff `currentPage == totalPages`. |
| DataTable.Render | src/common/components/DataTable.tsx:20-104 | Loading beats empty, and empty beats table (`isLoading` defaults to false). The table appears iff not loading and data is non-empty. It has the column headers in order, one row of `columns.length` resolved cells per item, and the pager footer `PagerFooter(currentPage, totalPages)`. |
| DataTable.PageRequestInRange | src/common/components/DataTable.tsx:86-95 | An enabled button emits `currentPage - 1` or `currentPage + 1` without clamping. When `1 <= currentPage <= totalPages`, the emitted page is within `[1, totalPages]`. |
| DataTable.PageRequest | src/common/components/DataTable.tsx:87-94 | The page a click hands to `onPageChange`, or none on a disabled button. `DataTable.PageRequestInRange` proves that the page is the neighbour and stays within `[1, totalPages]`. |
| NotificationBell.UnreadCount | src/common/components/NotificationBell.tsx:64 | The count of unread entries is at most the length. It is 0 iff every entry is read, and equals the length iff none is read. |
| NotificationBell.MarkAllRead | src/common/components/NotificationBell.tsx:78 | The result has the same length, and each entry is the original with `isRead` set to true. |
| NotificationBell.MarkRead | src/common/components/NotificationBell.tsx:87 | The result has the same length. Entries with the clicked id become read, and all others are unchanged. |
| NotificationBell.UnreadCountMonotone | src/common/components/NotificationBell.tsx:78-87 | Setting entries read and changing nothing else never raises the unread count. |
| NotificationBell.UnreadCountDrops | src/common/components/NotificationBell.tsx:85-88 | The count strictly drops when some unread entry becomes read. |
| NotificationBell.MarkAllReadProperties | src/common/components/NotificationBell.tsx:77-79 | After mark-all-read, the unread count is 0. Order and every other field are kept, and doing it twice is the same as once. |
| NotificationBell.MarkReadProperties | src/common/components/NotificationBell.tsx:85-88 | A click changes exactly the unread entries with that id and never raises the count. It lowers the count when such an entry was unread. |
| NotificationBell.MockInbox | src/common/components/NotificationBell.tsx:19-56 | The initial list has 4 entries, 3 of them unread. |
| NotificationBell.EntriesOf | src/common/components/NotificationBell.tsx:143-171 | The open list has one entry per notification, in order. |
| NotificationBell.DropdownOf | src/common/components/NotificationBell.tsx:118-175 | A closed dropdown shows nothing. An open one shows the unread count and the "caught up" panel iff the list is empty. Otherwise it shows one entry per notification, in order, carrying that notification's kind, title, message and time, and highlighted iff it is unread. |
| NotificationBell.Bell.constructor | src/common/components/NotificationBell.tsx:59-60 | The bell starts closed, holding the mock list. |
| NotificationBell.Bell.ShowsRedDot | src/common/components/NotificationBell.tsx:112-114 | The red dot shows iff some notification is unread. |
| NotificationBell.Bell.Toggle | src/common/components/NotificationBell.tsx:108 | The bell flips `isOpen` and leaves the list alone. |
| NotificationBell.Bell.HandleMarkAllRead | src/common/components/NotificationBell.tsx:77-79 | The list becomes the mark-all-read of the old list, with unread count 0, and `isOpen` is kept. |
| NotificationBell.Bell.HandleClearAll | src/common/components/NotificationBell.tsx:81-83 | The list becomes empty, the count 0, and an open dropdown shows the caught-up panel. |
| NotificationBell.Bell.HandleNotificationClick | src/common/components/NotificationBell.tsx:85-91 | The clicked id is marked read, the dropdown closes, the count does not rise, and the result is the notification's `linkTo`. |
| SystemSettings.SettingsPage.constructor | src/features/settings/pages/SystemSettings.tsx:8 | The page starts on the GENERAL tab, showing only the global configuration panel. |
| SystemSettings.SettingsPage.SelectTab | src/features/settings/pages/SystemSettings.tsx:26-53 | A nav click sets `activeTab` to that button's tab, and the panels shown are then exactly that tab's one panel. |
| SystemSettings.SettingsPage.HandleSave | src/features/settings/pages/SystemSettings.tsx:10-13 | Saving is only reachable from a panel with a form (GENERAL or SECURITY), and it leaves `activeTab` and the panels shown unchanged. |
| SystemSettings.RenderedPanels | src/features/settings/pages/SystemSettings.tsx:60-141 | The four conditional panels, in source order. `SystemSettings.ExactlyOnePanel` proves that exactly the active tab's panel renders. |
| SystemSettings.PanelFor | src/features/settings/pages/SystemSettings.tsx:60-141 | The panel each tab guards. `SystemSettings.ExactlyOnePanel` proves that distinct tabs guard distinct panels. |
| SystemSettings.ExactlyOnePanel | src/features/settings/pages/SystemSettings.tsx:60-141 | For every tab, the rendered panels are exactly that tab's one panel, and distinct tabs have distinct panels. |
| SystemSettings.NavHighlights | src/features/settings/pages/SystemSettings.tsx:26-53 | There is one highlight flag per nav button. |
| SystemSettings.ExactlyOneHighlight | src/features/settings/pages/SystemSettings.tsx:28-49 | A button is highlighted iff it is the active tab's, and the four buttons carry distinct tabs, one of them the active one. |
| LiveChat.FindIndex | src/features/chat/pages/LiveChat.tsx:16 | The result is the index of the first session with the id, or none iff no session has it. |
| LiveChat.Find | src/features/chat/pages/LiveChat.tsx:16 | A found session carries the id and is one of the sessions. The result is undefined iff no session has the id. `LiveChat.FindUnique` proves that with distinct ids it is the session with that id. |
| LiveChat.FindUnique | src/features/chat/pages/LiveChat.tsx:16 | When ids are distinct, looking up a session's id finds that session. |
| LiveChat.MockIdsUnique | src/features/chat/pages/LiveChat.tsx:5-9 | The mock session ids are distinct. |
| LiveChat.InitialSessionDefined | src/features/chat/pages/LiveChat.tsx:12-16 | The initial id `chat-1` finds the first mock session. |
| LiveChat.RowOf | src/features/chat/pages/LiveChat.tsx:43-65 | A row is highlighted iff it is the active session. The online dot shows iff the status is `online`, and the unread badge shows iff `unread > 0`, carrying that number. |
| LiveChat.ChatPage.constructor | src/features/chat/pages/LiveChat.tsx:12-16 | The page starts on `chat-1` with an empty compose box. The active session is the first mock session, and the header shows its initial `R`. |
| LiveChat.ChatPage.ActiveSession | src/features/chat/pages/LiveChat.tsx:16 | The active session is a mock session carrying the selected id. It is undefined iff no mock session has that id. |
| LiveChat.ChatPage.HeaderInitial | src/features/chat/pages/LiveChat.tsx:76 | The header initial is defined iff an active session exists. It is then the first character of that session's `userName` (`''` for an empty name), and at most one character. On the initial page it is `R`. |
| LiveChat.ChatPage.SelectSession | src/features/chat/pages/LiveChat.tsx:46 | Clicking a session sets `activeChatId` to its id and keeps the compose text. |
| LiveChat.ChatPage.TypeMessage | src/features/chat/pages/LiveChat.tsx:114 | Typing sets `messageText`. |
| LiveChat.ChatPage.HandleSendMessage | src/features/chat/pages/LiveChat.tsx:18-24 | A message is sent iff it is not all whitespace. A blank submit leaves `messageText` unchanged, and a sent one clears it. |
| LiveChat.SelectListedSession | src/features/chat/pages/LiveChat.tsx:43-47 | After clicking a listed session, it is the active session and exactly its row is highlighted. |
| ComplaintsSupport.Thread | src/features/complaints/pages/ComplaintsSupport.tsx:100-112 | There is one bubble per message, in thread order, with the same text and time. It is right-aligned iff the sender is ADMIN. |
| ComplaintsSupport.AvatarInitial | src/features/complaints/pages/ComplaintsSupport.tsx:143 | The avatar is the first character of the context user's name, or `''` for an empty name. |
| ComplaintsSupport.MockThread | src/features/complaints/pages/ComplaintsSupport.tsx:38-61 | The mock thread reads user (left), admin (right), user (left), and the card's letter is `R`. |
| ComplaintsSupport.SupportPage.constructor | src/features/complaints/pages/ComplaintsSupport.tsx:64-65 | The page starts with an empty reply box and the mock ticket, held in a `const` field because it has no setter. The thread shows three bubbles, the second one (the admin's) on the right. |
| ComplaintsSupport.SupportPage.TypeReply | src/features/complaints/pages/ComplaintsSupport.tsx:121 | Typing sets `replyText` and leaves the thread shown unchanged. |
| ComplaintsSupport.SupportPage.HandleSendReply | src/features/complaints/pages/ComplaintsSupport.tsx:67-73 | A reply is sent iff it is not all whitespace. A blank submit leaves `replyText` unchanged, and a sent one clears it. The thread shown is unchanged either way. |
| AdminProfile.RoleTitle | src/features/profile/pages/AdminProfile.tsx:34 | The title is the role when there is a user with a non-empty role, else `Administrator`. It is never empty. |
| AdminProfile.AvatarInitial | src/features/profile/pages/AdminProfile.tsx:32 | The avatar letter is exactly one character. `AdminProfile.AvatarMatchesTitle` proves that it is the first character of the title, fallback included. |
| AdminProfile.AvatarMatchesTitle | src/features/profile/pages/AdminProfile.tsx:32-34 | The avatar is one character, and it is the first character of the title shown under it, including the `A` fallback. |
| AdminProfile.AdminIdText | src/features/profile/pages/AdminProfile.tsx:45 | A missing or empty `adminId` shows `ADM-PENDING`. |
| AdminProfile.EmailText | src/features/profile/pages/AdminProfile.tsx:49 | A missing or empty email shows `Not provided`. |
| AdminProfile.ProfilePage.constructor | src/features/profile/pages/AdminProfile.tsx:6-9 | Both password fields start empty, and the page reads the given store. |
| AdminProfile.ProfilePage.TypeCurrentPassword | src/features/profile/pages/AdminProfile.tsx:85 | Typing sets `currentPassword` only. The title under the avatar is unchanged. |
| AdminProfile.ProfilePage.TypeNewPassword | src/features/profile/pages/AdminProfile.tsx:95 | Typing sets `newPassword` only. The title under the avatar is unchanged. |
| AdminProfile.ProfilePage.HandlePasswordChange | src/features/profile/pages/AdminProfile.tsx:11-17 | Submitting needs both fields non-empty and a new password of at least 8 characters. It clears both fields and leaves the auth session, and so the title under the avatar, unchanged. |
| ServiceList.StatusLookupTotalAndDistinct | src/features/services/pages/ServiceList.tsx:42-48 | Every status has a non-empty style and label, and distinct statuses get distinct ones. |
| ServiceList.StatusStyle | src/features/services/pages/ServiceList.tsx:42-46 | The badge classes per status. The lemma above proves the lookup total and injective. |
| ServiceList.ActionsIffPending | src/features/services/pages/ServiceList.tsx:56-86 | Review Documents comes first and is always present. Approve and Reject are present iff the status is Pending. |
| ServiceList.AdminActions | src/features/services/pages/ServiceList.tsx:56-86 | The action buttons of a row. `ServiceList.ActionsIffPending` proves which appear for which status. |
| ServiceList.SchemaCells | src/features/services/pages/ServiceList.tsx:27-88 | The 5 columns resolve, in order, to the application id, the details node, the applied date, the status badge and the action bar. |
| ServiceList.ServiceColumns | src/features/services/pages/ServiceList.tsx:27-88 | The five-column schema. `ServiceList.SchemaCells` and `ServiceList.TableShape` prove what each column resolves to. |
| ServiceList.TableShape | src/features/services/pages/ServiceList.tsx:27-88 | Any non-empty list shows the headers App ID, Service Details, Date Applied, Application Status, Admin Actions, with one expected row per item and the pager footer. |
| ServiceList.PageViewIsFullTable | src/features/services/pages/ServiceList.tsx:117-123 | The page always shows all 4 mock applications with the 12-page footer. |
| ServiceList.PageView | src/features/services/pages/ServiceList.tsx:117-123 | The table the page renders. `ServiceList.PageViewIsFullTable`, `FooterOfPage` and `SearchDoesNotFilter` prove it is the full mock list, with the page's footer, for any search term. |
| ServiceList.FooterOfPage | src/features/services/pages/ServiceList.tsx:120-121 | The footer reports the page's `currentPage` and 12 pages. |
| ServiceList.SearchDoesNotFilter | src/features/services/pages/ServiceList.tsx:23 | The search term has no effect on the table. |
| ServiceList.ServiceListPage.constructor | src/features/services/pages/ServiceList.tsx:23-24 | The page starts with an empty search and page 1. |
| ServiceList.ServiceListPage.Search | src/features/services/pages/ServiceList.tsx:106 | Typing sets `searchTerm` and keeps the page. The table shown is unchanged. |
| ServiceList.ServiceListPage.ClickPager | src/features/services/pages/ServiceList.tsx:120-122 | The page becomes the value the pager emits, and stays put on a disabled button. `1 <= currentPage <= 12` is kept throughout. |
| UserList.StatusLookupTotalAndDistinct | src/features/users/pages/UserList.tsx:44-50 | Every status has a non-empty style and label, and distinct statuses get distinct ones. |
| UserList.StatusStyle | src/features/users/pages/UserList.tsx:44-48 | The badge classes per status. The lemma above proves the lookup total and injective. |
| UserList.ActionsIgnoreStatus | src/features/users/pages/UserList.tsx:57-72 | Every account gets the same two buttons, whatever its status. |
| UserList.RowActions | src/features/users/pages/UserList.tsx:57-72 | The action buttons of a row. `UserList.ActionsIgnoreStatus` proves they are the same two for every account. |
| UserList.SchemaCells | src/features/users/pages/UserList.tsx:29-74 | The 6 columns resolve, in order, to the id, the details node, the phone, the status badge, the joined date and the action bar. |
| UserList.UserColumns | src/features/users/pages/UserList.tsx:29-74 | The six-column schema. `UserList.SchemaCells` and `UserList.TableShape` prove what each column resolves to. |
| UserList.TableShape | src/features/users/pages/UserList.tsx:29-74 | Any non-empty list shows the headers Citizen ID, Citizen Details, Phone Number, Account Status, Joined Date, Actions, with one expected row per item and the pager footer. |
| UserList.PageViewIsFullTable | src/features/users/pages/UserList.tsx:104-110 | The page always shows all 5 mock accounts with the 5-page footer. |
| UserList.PageView | src/features/users/pages/UserList.tsx:104-110 | The table the page renders. `UserList.PageViewIsFullTable`, `FooterOfPage` and `SearchDoesNotFilter` prove it is the full mock list, with the page's footer, for any search term. |
| UserList.FooterOfPage | src/features/users/pages/UserList.tsx:107-108 | The footer reports the page's `currentPage` and 5 pages. |
| UserList.SearchDoesNotFilter | src/features/users/pages/UserList.tsx:25 | The search term has no effect on the table. |
| UserList.UserListPage.constructor | src/features/users/pages/UserList.tsx:25-26 | The page starts with an empty search and page 1. |
| UserList.UserListPage.Search | src/features/users/pages/UserList.tsx:93 | Typing sets `searchTerm` and keeps the page. The table shown is unchanged. |
| UserList.UserListPage.ClickPager | src/features/users/pages/UserList.tsx:107-109 | The page becomes the value the pager emits, and stays put on a disabled button. `1 <= currentPage <= 5` is kept throughout. |
| JsString.TrimStart | src/features/chat/pages/LiveChat.tsx:20 | The result is the suffix left after dropping leading whitespace. It is empty iff the input is all whitespace. |
| JsString.TrimEnd | src/features/chat/pages/LiveChat.tsx:20 | The result is the prefix left after dropping trailing whitespace. It ends with non-whitespace, and it is empty iff the input is all whitespace. |
| JsString.Trim | src/features/complaints/pages/ComplaintsSupport.tsx:69 | The trimmed string is empty iff the input is all whitespace. Otherwise it starts and ends with non-whitespace. |
| JsString.TrimIsInfix | src/features/complaints/pages/ComplaintsSupport.tsx:69 | The trimmed string is the piece of the input starting at some index, with only whitespace before and after it. |
| JsString.IsBlank | src/features/complaints/pages/ComplaintsSupport.tsx:69 | The blank test of the send handlers: nothing is left after trimming. `JsString.BlankIffAllWhitespace` proves this holds iff every character is whitespace. |
| JsString.BlankIffAllWhitespace | src/features/chat/pages/LiveChat.tsx:20 | A string is blank iff every character is ECMAScript whitespace, the empty string included. |
| JsString.CharAt | src/features/chat/pages/LiveChat.tsx:76 | The result is the one-character string at the index, or `''` past the end. |

## Left out

- JSX markup, CSS class strings other than the status badge styles, and
  icons, including `getNotificationIcon` and its unreachable `default`
  branch: these are presentation only.
- `alert()` calls: modelled as nothing, except the `sent` flag of the two send handlers.
- `useNavigate` effects: a notification click returns its target instead.
- The document `mousedown` listener that closes the bell when the user clicks
  outside it: this is DOM event wiring.
- React re-render scheduling and Immer drafts: each handler is one atomic state change.
- `store.ts`, `hooks.ts`, `providers.tsx` and `AdminLayout.tsx`: these are
  library wiring and typed aliases with no behaviour.
- `DashboardPage.tsx` (static markup) and `NotFoundPage.tsx` (browser-history
  calls): neither has logic to model.
- Strings are sequences of Unicode scalar values, while JavaScript strings
  are UTF-16. `trim` works on code points, and every whitespace code point is
  in the Basic Multilingual Plane, so `Trim` and `IsBlank` agree with it on
  every string. `charAt` and `minLength` count UTF-16 code units, so they
  agree with the model only inside the Basic Multilingual Plane.
- `DataTable`'s `!data` null check: the data is a sequence and cannot be null.
- Accessor keys are modelled as present or absent. A falsy key name such as
  `''` would fall through to `''` in the source, but no row type here has one.
- `String()` of arbitrary values: each page's `FieldText` gives the text of its own fields.
- The router's `Location` keeps only the pathname, search and hash. The
  `state` and `key` fields are not modelled.
- Uncontrolled inputs are not modelled, because they hold no React state:
  - the chat search box;
  - the settings form fields, which use `defaultValue`;
  - the disabled profile fields;
  - the static chat thread and contact panel.
- Clicks on buttons without handlers are not modelled. Where a button is
  part of a table row, its presence is modelled: Review Documents and the
  more-options button. The buttons whose clicks are left out are the Filter
  buttons, "Mark Resolved", "Escalate", "View Full Service History", "View
  All Activity", Review Documents and more-options.
- AdminProfile.ProfilePage.HandlePasswordChange: the form constraints
  (`required`, `minLength`) are a precondition, because the browser does not
  submit the form otherwise. The model does not cover the browser's own
  validation messages.
