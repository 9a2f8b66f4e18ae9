# WECARE admin dashboard — a Dafny model

WECARE's admin dashboard is a Next.js client. Administrators use it to sign in, review users and bookings, approve nannies and care providers, send push notifications, read analytics and create further admins. This project models that client's logic in Dafny:

- the `api` object that turns each dashboard action into an HTTP request: endpoint, method, JSON body and headers;
- the sign-in page and the dashboard shell: session storage, redirects and the active menu entry;
- every dashboard page's state and handlers: what each request sends, what a reply changes on the page, what is reloaded afterwards, and what is rendered.

The model is organised as one module per source file, plus shared modules:

- `Api`: src/lib/api.ts.
- `Login`: src/app/page.tsx.
- `Layout`: src/app/dashboard/layout.tsx.
- `Dashboard`, `Users`, `Bookings`, `Approvals`, `Providers`, `Reviews`, `Notifications`, `Analytics` and `Settings`: the page of the same name under src/app/dashboard/. `Approvals` models nanny-approvals.
- Shared modules:
  - `Text`: JavaScript string operations such as `trim`, `includes`, `replace`, case mapping and decimal spelling.
  - `Js`: `||` on optional strings, `Number(...)`, and JSON values with the `undefined`-dropping rule of `JSON.stringify`.
  - `Http`: the backend's `{ success, message, ... }` envelope, and a request that throws.
  - `Entities`: roles, booking statuses and the records the pages display.
  - `Paging`: the pagination envelope and the `URLSearchParams` query string.
  - `Browser`: `localStorage` and the router as a `Window` class.

How things are represented:

- **Pages are classes.** A page's React state is the fields of a class. Each handler is a method that changes only the fields it sets.
- **The network is an input.** A handler takes the backend's reply as a parameter, `Reply<T> = Threw | Replied(response)`. It returns the `Api.Call` it sends, so its contract can state both sides.
- **Dialogs are inputs too.** A `prompt` answer is an `Option<string>`, where `None` means Cancel. A `confirm` answer is a `bool`.
- **Reloads are return values.** A reload the page triggers without awaiting it is returned as the page number to load next, and loaded by a separate call.

## Model

| member | source | states |
|---|---|---|
| Api.ApiFetch | src/lib/api.ts:3-10 | the URL is the base URL followed by the endpoint; method and body pass through; `Content-Type: application/json` is always present and a caller header of the same name replaces it; every caller header is kept |
| Api.QuerySuffix | src/lib/api.ts:26 | `?params` when params is a non-empty string, nothing otherwise |
| Api.Endpoint | src/lib/api.ts:14-72 | the path of each of the client's entries, the list getters adding `QuerySuffix`; it has no contract of its own, and `Api.ListQueryAppended` and `Api.EndpointRouteGroups` state its properties |
| Api.Body | src/lib/api.ts:14-72 | a body is sent by every call except the getters, `deleteUser` and `toggleUserStatus`; every body is a JSON object except `updateUser`'s, which is its data as given |
| Api.MethodOf | src/lib/api.ts:14-72 | no method (a GET) exactly for the getters; DELETE exactly for `deleteUser`; POST exactly for login, admin creation and the two notification calls; PUT otherwise |
| Api.Init | src/lib/api.ts:14-72 | no entry passes headers of its own; a body is sent by every call except the getters, `deleteUser` and `toggleUserStatus` |
| Api.Request | src/lib/api.ts:3-10 | the request of a call goes to base + endpoint with exactly the JSON content-type header, and has no method exactly when the call is a getter |
| Api.ListQueryAppended | src/lib/api.ts:26-59 | each list getter's endpoint starts with its path, which holds no `?`; a `?` occurs exactly when params is truthy, and what follows it is params verbatim |
| Api.BroadcastRouting | src/lib/api.ts:67-71 | a truthy role routes to `/notifications/send-to-role`, otherwise to `/notifications/broadcast`; POST with title and body, and `role` present exactly when defined (an empty role included) |
| Api.VerifyProviderRequest | src/lib/api.ts:47-57 | PUT to `/providers/{kind}/{id}/verify`; the body holds only `status`, `rejectionReason` and `adminEstimatedPrice`, the latter two exactly when defined, NaN written as null |
| Api.UpdateBookingStatusRequest | src/lib/api.ts:39-40 | PUT to `/admin/bookings/{id}/status`; the body's keys are `status` plus `reason` exactly when a reason is given |
| Api.CreateAdminBody | src/lib/api.ts:19-20 | the body's keys are `adminId` and the data's keys; every data member is sent as given, and it overrides `adminId` on a clash |
| Api.EndpointRouteGroups | src/lib/api.ts:14-72 | every endpoint lies under `/admin/`, `/providers/` or `/notifications/`; the getUser, updateUser and deleteUser endpoints end in the id |
| Text.TrimEmptyIffBlank | src/app/dashboard/notifications/page.tsx:18 | `s.trim()` is empty exactly when every character is JavaScript whitespace |
| Text.ToLower | src/app/dashboard/providers/page.tsx:48 | same length, each character lower-cased |
| Text.ToUpper | src/app/dashboard/users/page.tsx:136 | same length, each character upper-cased |
| Text.ToLowerIdempotent | src/app/dashboard/providers/page.tsx:48-54 | lower-casing twice is lower-casing once |
| Text.NatToStringRoundTrip | src/app/dashboard/bookings/page.tsx:30 | the spelling of a number is a non-empty digit string without a superfluous leading zero that reads back as the number |
| Text.NatToStringInjective | src/app/dashboard/bookings/page.tsx:30 | distinct page numbers have distinct spellings |
| Text.ReplaceFirstAbsent | src/app/dashboard/settings/page.tsx:25 | `replace` without an occurrence leaves the string unchanged |
| Text.ReplaceFirstAt | src/app/dashboard/settings/page.tsx:25 | `replace` rewrites exactly the first occurrence |
| Js.OrElseChoice | src/app/dashboard/providers/page.tsx:50 | `a \|\| b \|\| d` is the first truthy operand, else the default |
| Js.ToNumber | src/app/dashboard/nanny-approvals/page.tsx:47 | a blank string converts to 0 |
| Js.ToNumberRoundTrip | src/app/dashboard/nanny-approvals/page.tsx:47 | a typed integer converts back to that integer |
| Js.Field | src/lib/api.ts:40 | a key whose value is undefined is left out of the serialized body, a defined one is kept |
| Entities.ParseRole | src/app/dashboard/users/page.tsx:67-71 | a parsed role name spells that role |
| Entities.RoleNameRoundTrip | src/app/dashboard/users/page.tsx:67-71 | each role's name parses back to the role |
| Entities.ParseStatus | src/app/dashboard/bookings/page.tsx:8-15 | a parsed status name spells that status |
| Entities.StatusNameRoundTrip | src/app/dashboard/bookings/page.tsx:8-15 | each booking status's name parses back to the status |
| Paging.NavigationTargets | src/app/dashboard/bookings/page.tsx:173-180 | previous is offered exactly when page > 1 and next exactly when page < pages; for a page within range every target is within 1..pages; the users page (src/app/dashboard/users/page.tsx:183-196) and the reviews page (src/app/dashboard/reviews/page.tsx:74-80) use the same rule |
| Paging.ControlsShown | src/app/dashboard/bookings/page.tsx:173 | the controls are rendered exactly for more than one page (a definition; `Paging.ControlsWithinRange` states its properties); the users page (src/app/dashboard/users/page.tsx:183-196) and the reviews page (src/app/dashboard/reviews/page.tsx:74-80) use the same rule |
| Paging.PrevDisabled | src/app/dashboard/bookings/page.tsx:177 | previous is disabled exactly on page 1 or below (a definition); the users page (src/app/dashboard/users/page.tsx:183-196) and the reviews page (src/app/dashboard/reviews/page.tsx:74-80) use the same rule |
| Paging.NextDisabled | src/app/dashboard/bookings/page.tsx:180 | next is disabled exactly on the last page or beyond (a definition); the users page (src/app/dashboard/users/page.tsx:183-196) and the reviews page (src/app/dashboard/reviews/page.tsx:74-80) use the same rule |
| Paging.ControlsWithinRange | src/app/dashboard/bookings/page.tsx:173-180 | on a page within range, the controls show exactly when one of them is enabled; the first page disables previous and the last disables next; the users page (src/app/dashboard/users/page.tsx:183-196) and the reviews page (src/app/dashboard/reviews/page.tsx:74-80) use the same rule |
| Paging.ListParams | src/app/dashboard/bookings/page.tsx:29-33 | `page` then `limit=15`, then `search` and the filter, each exactly when non-empty, and nothing else |
| Paging.Utf8 | src/app/dashboard/bookings/page.tsx:35 | one to four bytes, each below 256 |
| Paging.PercentBytes | src/app/dashboard/bookings/page.tsx:35 | percent-encoding writes only `%`, digits and `A`-`F` |
| Paging.EncodeHasNoSeparators | src/app/dashboard/bookings/page.tsx:29-35 | an encoded name or value never holds `&` or `=` |
| Paging.EncodeUnreserved | src/app/dashboard/bookings/page.tsx:35 | unreserved text is its own encoding |
| Paging.PageNumberEncodesAsItself | src/app/dashboard/bookings/page.tsx:30 | a page number appears in the query as its plain decimal spelling |
| Browser.Window.Push | src/app/dashboard/layout.tsx:41 | navigation sets the location and nothing else |
| Browser.Window.SetItem | src/app/page.tsx:34 | storing sets exactly that key |
| Browser.Window.RemoveItem | src/app/dashboard/layout.tsx:40 | removing deletes exactly that key |
| Login.LoginRequest | src/app/page.tsx:26-30 | the page's own fetch is the very request `api.login` would send: POST `/admin/login` with phone and PIN as JSON |
| Login.Stash | src/app/page.tsx:34 | the stored value is the admin record, or `undefined` when the reply has none |
| Login.LoginError | src/app/page.tsx:33-40 | the error is empty exactly after a success; `Cannot connect to server` when the request throws; the reply's message or `Login failed` otherwise |
| Login.LoginPage.constructor | src/app/page.tsx:9-12 | empty fields, not loading, no error |
| Login.LoginPage.Mount | src/app/page.tsx:15-18 | a stored session sends the admin to `/dashboard` |
| Login.LoginPage.HandleLogin | src/app/page.tsx:20-44 | sends the login request; ends not loading with the error `LoginError(reply)`, and stores the session and goes to `/dashboard` exactly on success |
| Layout.ActiveRule | src/app/dashboard/layout.tsx:86 | `/dashboard` is active only on exact match; every other entry on prefix, so `/dashboard/usersX` activates Users |
| Layout.IsActive | src/app/dashboard/layout.tsx:86 | an exact match, or a prefix match for every entry but the dashboard home (a definition; `Layout.ActiveRule` and `Layout.AtMostOneActive` state its properties) |
| Layout.MenuKeysDistinct | src/app/dashboard/layout.tsx:12-22 | the section entries' hrefs differ within their first 13 characters |
| Layout.AtMostOneActive | src/app/dashboard/layout.tsx:86 | at most one section entry of the sidebar is active |
| Layout.DisplayName | src/app/dashboard/layout.tsx:118 | the admin's name, `Admin` without one; never empty |
| Layout.Initial | src/app/dashboard/layout.tsx:114 | one character: the name's first, `A` without a name |
| Layout.DashboardLayout.constructor | src/app/dashboard/layout.tsx:25-26 | sidebar closed, no admin |
| Layout.DashboardLayout.Rendered | src/app/dashboard/layout.tsx:44 | nothing is rendered until an admin is known (a definition; `Layout.DashboardLayout.Mount` states when the admin is set) |
| Layout.DashboardLayout.Mount | src/app/dashboard/layout.tsx:30-37 | without a session, go to `/`; with a stored admin, take it; a stored `undefined` leaves nothing set |
| Layout.DashboardLayout.Logout | src/app/dashboard/layout.tsx:39-42 | removes exactly the session key and goes to `/` |
| Dashboard.Positive | src/app/dashboard/page.tsx:65 | keeps exactly the slices with a positive value |
| Dashboard.Candidates | src/app/dashboard/page.tsx:60-64 | the four slices Pending, Confirmed, Completed, Cancelled with their counts, before the filter (a definition; `Dashboard.StatusBreakdown` states the filtered pie) |
| Dashboard.StatusBreakdown | src/app/dashboard/page.tsx:60-65 | the pie holds each of pending, confirmed, completed and cancelled exactly when positive, in that order, at most four slices, only those names |
| Dashboard.ColorOf | src/app/dashboard/page.tsx:175 | a palette colour; the palette repeats every five slices |
| Dashboard.RecentShown | src/app/dashboard/page.tsx:237 | the first six recent bookings, in order |
| Dashboard.BadgeStyle | src/app/dashboard/page.tsx:302-312 | anything but the six booking statuses gets the neutral grey, and none of the six gets it |
| Dashboard.CardColors | src/app/dashboard/page.tsx:267-273 | an unknown colour falls back to red; the other known colours are not red |
| Dashboard.DashboardPage.constructor | src/app/dashboard/page.tsx:19-20 | no statistics, loading |
| Dashboard.DashboardPage.LoadStats | src/app/dashboard/page.tsx:26-35 | requests the statistics, takes them only from a success, ends not loading |
| Dashboard.DashboardPage.Render | src/app/dashboard/page.tsx:37-65 | spinner while loading, retry view without statistics, otherwise the status pie and the recent bookings |
| Users.ToggleTitle | src/app/dashboard/users/page.tsx:165 | `Activate` exactly for a deactivated user, `Deactivate` otherwise |
| Users.DeleteVisible | src/app/dashboard/users/page.tsx:168 | the delete button is offered exactly for a user whose role is not `admin` (a definition) |
| Users.AvatarInitial | src/app/dashboard/users/page.tsx:136 | one character: the upper-cased first letter of the name, `?` without one |
| Users.UsersPage.constructor | src/app/dashboard/users/page.tsx:9-16 | empty list, loading, the initial pagination, no filters, no modal |
| Users.UsersPage.Query | src/app/dashboard/users/page.tsx:21-25 | the query string of `Paging.ListParams` with the `role` filter under the current search and filter; `Paging.ListParams` states its entries |
| Users.UsersPage.LoadUsers | src/app/dashboard/users/page.tsx:18-37 | requests the page's query; takes users and pagination only from a success; ends not loading |
| Users.UsersPage.SetSearch | src/app/dashboard/users/page.tsx:37-41 | a new search reloads from page 1 |
| Users.UsersPage.SetRoleFilter | src/app/dashboard/users/page.tsx:37-41 | a new role filter reloads from page 1 |
| Users.UsersPage.HandleToggleStatus | src/app/dashboard/users/page.tsx:43-46 | toggles the user; reload of the current page exactly on success |
| Users.UsersPage.HandleDelete | src/app/dashboard/users/page.tsx:48-52 | sends the delete exactly when confirmed; reload of the current page exactly on a confirmed success |
| Users.UsersPage.HandleViewUser | src/app/dashboard/users/page.tsx:54-65 | selects the user, requests it, takes the detail only from a success, ends not loading |
| Users.UsersPage.CloseModal | src/app/dashboard/users/page.tsx:212 | clears the selection and the detail |
| Bookings.Actions | src/app/dashboard/bookings/page.tsx:240-247 | a pending booking offers confirm and cancel, a confirmed one cancel only, any other none; an action is offered exactly when it is an admin transition |
| Bookings.Target | src/app/dashboard/bookings/page.tsx:242-249 | Confirm asks for `confirmed` and Cancel for `cancelled`; either is a move the admin may make from `pending` |
| Bookings.StatusChangeCall | src/app/dashboard/bookings/page.tsx:64-67 | nothing is sent exactly for a cancellation without a truthy reason; a reason is sent exactly for a cancellation, and it is the typed one |
| Bookings.PatchSelected | src/app/dashboard/bookings/page.tsx:70-71 | the open booking changes only its status, and only when its id matches |
| Bookings.BookingsPage.constructor | src/app/dashboard/bookings/page.tsx:18-24 | empty list, loading, the initial pagination, no filters, nothing open |
| Bookings.BookingsPage.Query | src/app/dashboard/bookings/page.tsx:29-33 | the query string of `Paging.ListParams` with the `status` filter under the current search and filter; `Paging.ListParams` states its entries |
| Bookings.BookingsPage.LoadBookings | src/app/dashboard/bookings/page.tsx:26-45 | requests the page's query; takes bookings and pagination only from a success; ends not loading |
| Bookings.BookingsPage.SetSearch | src/app/dashboard/bookings/page.tsx:45-49 | a new search reloads from page 1 |
| Bookings.BookingsPage.SetStatusFilter | src/app/dashboard/bookings/page.tsx:45-49 | a new status filter reloads from page 1 |
| Bookings.BookingsPage.HandleViewBooking | src/app/dashboard/bookings/page.tsx:51-61 | requests the booking, opens it only on success, ends not loading |
| Bookings.BookingsPage.HandleStatusChange | src/app/dashboard/bookings/page.tsx:63-74 | sends `StatusChangeCall`; on a success reloads the current page and patches the open booking; otherwise changes nothing |
| Bookings.BookingsPage.CloseDetail | src/app/dashboard/bookings/page.tsx:199 | closes the open booking |
| Approvals.NannyDecisionCall | src/app/dashboard/nanny-approvals/page.tsx:39-40 | PUT `/admin/users/{id}/verify-nanny` with exactly `{ approved }` |
| Approvals.ProviderDecisionCall | src/app/dashboard/nanny-approvals/page.tsx:44-53 | the verdict follows the button; a rejection sends the reason or `''` and no price; an approval sends no reason and a price exactly when one was typed, converted by `Number` |
| Approvals.DecisionsDifferOnlyInEndpoint | src/app/dashboard/nanny-approvals/page.tsx:44-68 | the daycare and elder-care decisions send the same method, headers and body, to URLs that differ only in the provider segment |
| Approvals.PriceExample | src/app/dashboard/nanny-approvals/page.tsx:46-47 | ` 1200 ` is sent as 1200; an empty answer or a rejection sends no price |
| Approvals.TabName | src/app/dashboard/nanny-approvals/page.tsx:85-87 | the caption word of each tab: `Nannies`, `Daycare`, `Elder Care` (a definition) |
| Approvals.TabLabel | src/app/dashboard/nanny-approvals/page.tsx:85-87 | the tab word followed by ` (count)`; `Approvals.LabelShowsCount` states that the count reads back |
| Approvals.LabelShowsCount | src/app/dashboard/nanny-approvals/page.tsx:86-88 | a tab caption ends in ` (n)`, and the digits read back as the list's length |
| Approvals.ApprovalList | src/app/dashboard/nanny-approvals/page.tsx:144-170 | the empty text exactly for a missing or empty list, otherwise one row per item |
| Js.OrEmpty | src/app/dashboard/nanny-approvals/page.tsx:25-27 | a missing list reads as empty, a present one as itself |
| Approvals.ApprovalsPage.constructor | src/app/dashboard/nanny-approvals/page.tsx:9-14 | nannies tab, loading, empty lists |
| Approvals.ApprovalsPage.Label | src/app/dashboard/nanny-approvals/page.tsx:85-87 | each tab's caption counts its own pending list (a definition over `Approvals.TabLabel`) |
| Approvals.ApprovalsPage.LoadAll | src/app/dashboard/nanny-approvals/page.tsx:16-33 | issues the three requests; if any throws nothing is set; otherwise each list is replaced exactly on its own success; ends not loading |
| Approvals.ApprovalsPage.HandleNannyDecision | src/app/dashboard/nanny-approvals/page.tsx:39-42 | sends the decision; reloads exactly on success |
| Approvals.ApprovalsPage.HandleProviderDecision | src/app/dashboard/nanny-approvals/page.tsx:44-68 | sends the provider decision; reloads exactly on success |
| Approvals.ApprovalsPage.SetTab | src/app/dashboard/nanny-approvals/page.tsx:86-88 | selects the tab |
| Providers.Merge | src/app/dashboard/providers/page.tsx:25-31 | the pending list followed by the approved list, missing lists read as empty |
| Providers.SearchFields | src/app/dashboard/providers/page.tsx:50-54 | the four texts searched: `centerName \|\| name`, owner, city and phone, each `''` when missing (a definition) |
| Providers.Matches | src/app/dashboard/providers/page.tsx:55 | some field, lower-cased, contains the query (a definition; `Providers.KeepMembership` states its use) |
| Providers.Keep | src/app/dashboard/providers/page.tsx:49-55 | filtering never lengthens the list |
| Providers.FilterList | src/app/dashboard/providers/page.tsx:46-56 | a blank search shows the whole list; otherwise the matches of the lower-cased, untrimmed search |
| Providers.KeepMembership | src/app/dashboard/providers/page.tsx:49-55 | a provider is kept exactly when it is listed and one of its four fields contains the query |
| Providers.KeepMultiplicity | src/app/dashboard/providers/page.tsx:49-55 | every copy of a matching provider is kept and no copy of another, so duplicates from the merge survive the filter |
| Providers.KeepMembershipExact | src/app/dashboard/providers/page.tsx:49-55 | for every provider at once: kept exactly when listed and matching |
| Providers.KeepIsSubsequence | src/app/dashboard/providers/page.tsx:49-55 | the filtered list keeps the original order |
| Providers.KeepIdempotent | src/app/dashboard/providers/page.tsx:49-55 | filtering twice by the same query is filtering once |
| Providers.FilterListProperties | src/app/dashboard/providers/page.tsx:46-56 | the shown list is idempotent, in order, and holds exactly the matching providers |
| Providers.TooShortToInclude | src/app/dashboard/providers/page.tsx:54 | a field shorter than the query never contains it |
| Providers.UntrimmedSearchExample | src/app/dashboard/providers/page.tsx:47-48 | `sunrise ` with a trailing space misses `Sunrise`, `sunrise` finds it |
| Providers.StatusLabel | src/app/dashboard/providers/page.tsx:132 | never empty: the verification status when it is a non-empty string, `pending` when it is missing or empty |
| Providers.ProvidersPage.constructor | src/app/dashboard/providers/page.tsx:9-13 | daycare tab, loading, empty search and lists |
| Providers.ProvidersPage.Shown | src/app/dashboard/providers/page.tsx:46-58 | the current tab's list under a blank search; otherwise an order-preserving selection of it that holds a provider exactly when the tab lists it and it matches the lower-cased search |
| Providers.ProvidersPage.LoadData | src/app/dashboard/providers/page.tsx:15-40 | issues the four requests; when all reply both lists are merged whether the replies succeeded or not; when any throws nothing changes; ends not loading |
| Providers.ProvidersPage.SetSearch | src/app/dashboard/providers/page.tsx:101 | sets the search |
| Providers.ProvidersPage.SetTab | src/app/dashboard/providers/page.tsx:77-85 | selects the tab |
| Reviews.ReviewsQueryIsListQuery | src/app/dashboard/reviews/page.tsx:16 | the hand-written `page=n&limit=15` equals what `URLSearchParams` gives the other lists for the same page |
| Reviews.ReviewsQuery | src/app/dashboard/reviews/page.tsx:16 | the hand-written `page=${page}&limit=15` (a definition; `Reviews.ReviewsQueryIsListQuery` states that it is the list query without filters) |
| Reviews.Stars | src/app/dashboard/reviews/page.tsx:57-58 | five stars, star i filled exactly when i < rating |
| Reviews.FilledCount | src/app/dashboard/reviews/page.tsx:57-58 | the filled stars number the rating clamped to 0..5 |
| Reviews.CommentText | src/app/dashboard/reviews/page.tsx:62 | the comment, `No comment` without one |
| Reviews.ParentText | src/app/dashboard/reviews/page.tsx:53 | the parent's name, `Unknown Parent` without one |
| Reviews.NannyText | src/app/dashboard/reviews/page.tsx:64 | the nanny's name, `Unknown` without one |
| Reviews.ReviewsPage.constructor | src/app/dashboard/reviews/page.tsx:9-11 | empty list, loading, the initial pagination |
| Reviews.ReviewsPage.LoadReviews | src/app/dashboard/reviews/page.tsx:13-26 | requests `page=n&limit=15`; takes reviews and pagination only from a success; ends not loading |
| Notifications.PlanSend | src/app/dashboard/notifications/page.tsx:18-36 | a blank title or body does nothing; the user mode without a user id reports it; otherwise the user send with `{ screen: 'Dashboard' }`, the role send with the chosen role, or the broadcast without one |
| Notifications.DispatchEndpoint | src/app/dashboard/notifications/page.tsx:31-35 | a dispatched send goes to `send-to-user`, `send-to-role` (a non-empty role) or `broadcast` according to its mode |
| Notifications.Outcome | src/app/dashboard/notifications/page.tsx:38-45 | success follows the reply; the message is the reply's when truthy, otherwise the success or failure default, or `Failed to connect to server` when the request throws |
| Notifications.NotificationsPage.constructor | src/app/dashboard/notifications/page.tsx:8-14 | user mode, role `parent`, empty fields, no result |
| Notifications.NotificationsPage.HandleSend | src/app/dashboard/notifications/page.tsx:16-49 | acts according to `PlanSend`; records `Outcome(reply)`; clears title, body and user id only after a successful send |
| Notifications.NotificationsPage.ChooseTemplate | src/app/dashboard/notifications/page.tsx:172-180 | a template fills title and body |
| Notifications.NotificationsPage.SetMode | src/app/dashboard/notifications/page.tsx:67 | selects the mode |
| Settings.HealthUrlOfApiBase | src/app/dashboard/settings/page.tsx:25 | for an origin holding no `/api`, the base `<origin>/api` (and the origin itself) checks `<origin>/health` |
| Settings.HealthUrl | src/app/dashboard/settings/page.tsx:25 | the URL always ends in `/health`; a base holding no `/api` is kept whole in front of it |
| Settings.HealthUrlHostCounterexample | src/app/dashboard/settings/page.tsx:25 | as written, the base `https://api.io/api` checks `https:/.io/api/health` |
| Settings.CorrectedHealthUrl | src/app/dashboard/settings/page.tsx:25 | a base without a trailing `/api` checks `<base>/health` |
| Settings.CorrectedHealthUrlOfApiBase | src/app/dashboard/settings/page.tsx:25 | for every origin, `<origin>/api` checks `<origin>/health`, agreeing with the code as written when the origin holds no `/api` |
| Settings.HealthAfter | src/app/dashboard/settings/page.tsx:27-28 | online exactly when the server reported `ok`; a failed fetch records `error` |
| Settings.ServerOnline | src/app/dashboard/settings/page.tsx:94-96 | online exactly when a check reported the status `ok` (a definition; `Settings.HealthAfter` states that a failed fetch never reads as online) |
| Settings.CreateRequest | src/app/dashboard/settings/page.tsx:39-44 | POST with exactly the admin id, phone, name, email and PIN as typed |
| Settings.NameText | src/app/dashboard/settings/page.tsx:48 | `${data.admin?.name}`: the name, or the text `undefined` when the admin or its name is absent (a definition) |
| Settings.CreateOutcome | src/app/dashboard/settings/page.tsx:46-58 | success follows the reply; `Admin <name> created successfully!`, the reply's message or `Failed to create admin`, or `Failed to connect to server` when the request throws |
| Settings.SettingsPage.constructor | src/app/dashboard/settings/page.tsx:9-18 | no admin, health unchecked, empty form |
| Settings.SettingsPage.Mount | src/app/dashboard/settings/page.tsx:20-29 | takes the stored admin, then checks health at `Settings.HealthUrl` of the base, as written; a stored `undefined` ends the effect before the check |
| Settings.SettingsPage.HandleCreateAdmin | src/app/dashboard/settings/page.tsx:31-62 | without phone or PIN nothing happens; without a signed-in admin it fails as a connection error; otherwise sends the request; only a success clears the form; ends not loading |
| Analytics.LexIrreflexive | src/app/dashboard/analytics/page.tsx:40 | no date sorts before itself |
| Analytics.LexTransitive | src/app/dashboard/analytics/page.tsx:40 | the date order is transitive |
| Analytics.LexTotal | src/app/dashboard/analytics/page.tsx:40 | any two distinct dates are ordered |
| Analytics.CountsAfter | src/app/dashboard/analytics/page.tsx:33-39 | a row always has its three initial counters |
| Analytics.FieldName | src/app/dashboard/analytics/page.tsx:38 | the key an entry writes, `role + 's'` as written (a definition; `Analytics.FieldNameCharted` states its properties) |
| Analytics.FieldNameCharted | src/app/dashboard/analytics/page.tsx:36-38 | parents and admins write a charted counter under either naming; a nanny writes one exactly under the corrected plural |
| Analytics.Insert | src/app/dashboard/analytics/page.tsx:40 | inserting a new date keeps the rows sorted and adds exactly that row |
| Analytics.SortByDate | src/app/dashboard/analytics/page.tsx:40 | the sorted rows are strictly ordered by date and are the same rows |
| Analytics.CountsAfterFresh | src/app/dashboard/analytics/page.tsx:35-36 | a date the trend never mentions has all counters at zero |
| Analytics.PrefixStep | src/app/dashboard/analytics/page.tsx:34-39 | one more entry adds its date and writes only its own field of its own row |
| Analytics.PivotUserTrend | src/app/dashboard/analytics/page.tsx:33-40 | one row per mentioned date, strictly sorted, each row's counters those the entries wrote |
| Analytics.SortedValues | src/app/dashboard/analytics/page.tsx:40 | the table's rows sorted by date, each with its counters |
| Analytics.UnwrittenFieldStays | src/app/dashboard/analytics/page.tsx:36-38 | a counter no entry of the date writes keeps its initial value |
| Analytics.LastWriteWins | src/app/dashboard/analytics/page.tsx:38 | a counter holds the count of the last entry that writes it |
| Analytics.NanniesAlwaysZero | src/app/dashboard/analytics/page.tsx:36-38 | as written, the `nannies` counter the chart reads is always 0 |
| Analytics.NannyCountCounterexample | src/app/dashboard/analytics/page.tsx:36-38 | one nanny registration lands in `nannys`, charted as 0; the corrected naming charts 1 |
| Analytics.CorrectedNanniesCharted | src/app/dashboard/analytics/page.tsx:36-38 | with the corrected plural, the chart's `nannies` holds the last nanny count of the date |
| Analytics.RoundedAverage | src/app/dashboard/analytics/page.tsx:50-52 | `Math.round(revenue / completed)`: within half a unit of the exact average, halves rounded up |
| Analytics.MetricsOf | src/app/dashboard/analytics/page.tsx:42-66 | the rates are 0 exactly without bookings, otherwise completed/total and cancelled/total; the average is 0 without completed bookings; active plus pending nannies is all nannies |
| Analytics.AnalyticsPage.constructor | src/app/dashboard/analytics/page.tsx:13-14 | no statistics, loading |
| Analytics.AnalyticsPage.Load | src/app/dashboard/analytics/page.tsx:16-27 | takes the statistics only from a success; ends not loading |
| Analytics.AnalyticsPage.Render | src/app/dashboard/analytics/page.tsx:29-52 | loading, failed, or the metrics and the sorted registration rows, each entry writing `role + 's'` as the page does; for trends of the three roles every row's `nannies` is 0 |

## Left out

- Network, storage and rendering I/O: `fetch`, `res.json`, `JSON.parse`, the router and the JSX markup. Replies and stored values are inputs, and only the values the markup displays are modelled.
- Concurrency: `Promise.all` is modelled as if its requests all happen at once, and reloads the pages do not await are returned rather than run. Interleavings of overlapping requests are not modelled.
- Error logging (`console.error`) and the date formatting through date-fns, `toLocaleString` and `toLocaleTimeString`.
- Percentages: `toFixed(1)` on the completion and cancellation rates is kept as the exact ratio, because floating-point formatting is not modelled.
- Js.ToNumber: covers blank input and optionally signed decimal integers. Fractions, exponents, hexadecimal and `Infinity` go to NaN instead.
- Text.ToLower and Text.ToUpper map only the ASCII letters. Full Unicode case mapping is not modelled.
- Analytics.LexLess: orders dates by code point, not by locale collation. For the ISO `YYYY-MM-DD` dates the backend sends, both orders agree.
- Approvals: the remaining `||` fallbacks in the row texts ('Unnamed Nanny' and the like) are markup and are left out.
- Object key order: the pivot's rows are produced sorted by date, so `Object.values`' insertion order does not matter. Integer-like date keys, which JavaScript would enumerate first, do not occur.
- Bookings.BookingsPage.HandleStatusChange: `handleStatusChange` has no `catch`. A request that throws is modelled as changing nothing, and the unhandled rejection is not modelled.
- Users.UsersPage.HandleToggleStatus: `handleToggleStatus` has no `catch`. A request that throws is modelled as changing nothing, and the unhandled rejection is not modelled.
- Users.UsersPage.HandleDelete: `handleDelete` has no `catch`. A request that throws is modelled as changing nothing, and the unhandled rejection is not modelled.
- Analytics.RoundedAverage: takes `stats.revenue.total` as an integer, while the page divides JavaScript floating-point numbers; a fractional revenue is not modelled.
- Analytics.MetricsOf: the revenue and the average are integers, while the page computes them in floating point.
- Approvals.ApprovalsPage.HandleNannyDecision: `handleNannyDecision` has no `try`/`catch`. A request that throws is modelled as no reload, and the unhandled rejection is not modelled.
- Approvals.ApprovalsPage.HandleProviderDecision: `handleDaycareDecision` and `handleElderDecision` have no `try`/`catch`. A request that throws is modelled as no reload, and the unhandled rejection is not modelled.
- Layout.DashboardLayout.Mount: `JSON.parse` of the stored text `undefined` throws out of the effect. The model leaves the admin unset and does not model the error reaching React's error boundary.
- Settings.SettingsPage.Mount: `JSON.parse` of the stored text `undefined` throws out of the effect, so the health check is skipped. The model skips it too, but does not model the error reaching React's error boundary.
- Login.Stash: a successful reply with `admin: null` stores the text `null`, which `JSON.parse` reads back as `null` without throwing, so on Settings the health check still runs. The model's `Option` does not tell `null` from a missing admin and stores `undefined` for both.
- Users.AvatarInitial: a Dafny string is a sequence of code points, while `charAt(0)` returns one UTF-16 code unit. A name whose first character lies outside the Basic Multilingual Plane (`😀Asha`) yields that whole character, where the page shows half of a surrogate pair.
- Layout.Initial: takes a first character outside the Basic Multilingual Plane whole, where `charAt(0)` yields half of a surrogate pair, for the same reason.
- Reviews.Stars: a rating is taken as an integer. A fractional rating (4.5 fills five stars on the page) and a missing one, which fills none, are not modelled.
- Users.UsersPage.HandleViewUser: the page stores the whole reply and reads `.user` from it. The model stores the user record itself.
- Notifications.NotificationsPage.ChooseTemplate: the model does not state that each of the four templates passes the blank-title and blank-body guard.
- The bookings detail modal looks up `statusColors[status]` without a fallback. That lookup is markup and is not modelled.
- seed-admin.js is not part of this model. It is a command-line script outside the dashboard.
- The health reply's `timestamp` is only displayed, so it is left out.

## Findings

| source | as written | input that shows it | evidently intended | confidence | as-written member | corrected member |
|---|---|---|---|---|---|---|
| src/app/dashboard/analytics/page.tsx:38 | the counter key is `role + 's'`, so a nanny entry writes `nannys`, while the row is seeded with `nannies` (line 36) and the chart reads `nannies` (line 108) | one trend entry `{ date: d, role: 'nanny', count: 1 }`: the chart shows 0 nannies for d | nanny registrations are charted under `nannies` | high, not executed | Analytics.NannyCountCounterexample | Analytics.CorrectedNanniesCharted |
| src/app/dashboard/settings/page.tsx:25 | `API_BASE_URL.replace('/api', '')` removes the first `/api` anywhere in the base, including one inside the host | base `https://api.io/api`: the health check goes to `https:/.io/api/health` | the server's origin followed by `/health`, that is, the trailing `/api` segment removed | medium (depends on the configured base), not executed | Settings.HealthUrlHostCounterexample | Settings.CorrectedHealthUrlOfApiBase |

The page members model the code as written. `Analytics.AnalyticsPage.Render` pivots with `role + 's'`, and its contract states that every charted `nannies` is 0. `Settings.SettingsPage.Mount` checks `Settings.HealthUrl`. The corrected definitions, `Analytics.FieldName` under `Corrected` and `Settings.CorrectedHealthUrl`, are stated beside them with their intended properties proved.
