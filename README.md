# KRM Mobilindo follow-up system — a Dafny model

KRM is the prospect and follow-up tracker of a car dealership. Sales users record prospects. Admins
assign follow-ups to sales users. Sales users then report on each follow-up. Every step notifies
the other side. This project models the rules the system applies at both ends:

- **API server** (`ApiServer`, api_server.dfy):
  - The Express handlers, as methods of a `Backend` class whose fields are the tables: maps from id
    to row, a row being a map from column to JSON value. The session map is a field too.
  - `buildWhereClause` and the SET-clause builders, as loop methods proved against clause-list
    functions.
  - The required-field checks and defaults of the create handlers.
  - The multi-row notification insert, the read-marking and the login outcomes.
- **Client helpers** (`ApiClient`, api_client.dfy): `buildQuery`, `buildAssetUrl` and the error
  text `apiRequest` throws.
- **Client store** (`ClientStore`, client_store.dfy): what the pages see through `api`. It is a
  `Store` class holding typed records. Each write call updates the records and is appended to an
  ordered call log, so the order in which a page handler writes is part of each contract.
- **Pages**:
  - follow-ups: `FollowUpsPage`;
  - prospects: `ProspectsPage`;
  - reports: `ReportsPage`;
  - dashboard: `DashboardPage`;
  - user management: `UserManagementPage`;
  - sign-in: `LoginPage`, a class over a local-storage map.
- **Layout** (`LayoutFrame`): the menu, the header title, the unread badge, and the two mutually
  exclusive header menus as a class.
- **App shell** (`AppShell`): the loading and authentication gate and the page routing.
- **Mailer** (`Mailer`): when a transport exists, the field rows of the three emails, and the
  message `sendMail` hands over.

Shared foundations:

- `Json`: JavaScript values with truthiness, `!== undefined` and "present".
- `Seqs`: order-preserving filters, sub-lists and counting.
- `Strings`: ASCII case mapping, first-occurrence replace, decimal text.
- `Domain`: records and enumerations, from `src/lib/database.types.ts`.

Other conventions:

- Dates are integer millisecond timestamps.
- The date-filter inputs are day numbers, with local midnight at `day * 86400000`.
- Fresh UUIDs, password hashes and URL encoding are parameters.

## Model

| member | source | states |
|---|---|---|
| ApiServer.Where | api/src/index.js:86-102 | the WHERE text is empty exactly when no filter value is present, otherwise it starts with `WHERE `; every bound value is present, and there are no more values than filters |
| ApiServer.WhereAligned | api/src/index.js:86-102 | the kept filters are a sub-list of the input; clauses and values are equally many and the i-th clause and value come from the same filter |
| ApiServer.BuildWhereClause | api/src/index.js:86-102 | the loop returns exactly the `{ where, values }` pair of `Where` |
| ApiServer.ProspectsQueryScoped | api/src/index.js:307-320 | a present `salesId` is the only bound value of GET /prospects; without one nothing is bound |
| ApiServer.ProspectsWithSalesScoped | api/src/index.js:322-346 | the same scoping for GET /prospects/with-sales |
| ApiServer.FollowUpsQueryScoped | api/src/index.js:400-419 | a present `assignedTo` is the only bound value of GET /follow-ups; without one nothing is bound |
| ApiServer.SuppliedFields | api/src/index.js:372-382 | a whitelisted field is written iff its body value is not `undefined` (so `''` and null are written) |
| ApiServer.BodyValues | api/src/index.js:376-382 | the values are aligned with the columns, one body value per column |
| ApiServer.BuildSetClauses | api/src/index.js:370-391 | the loop builds one `col = ?` per supplied field in whitelist order, with aligned values, and builds none iff no whitelisted field is supplied |
| ApiServer.UpdateStatement | api/src/index.js:388-391 | the UPDATE binds the supplied values, none of them `undefined`, followed by the id as the last parameter |
| ApiServer.PatchRow | api/src/index.js:388-391 | the written columns take the body value; every other column keeps its value |
| ApiServer.PatchTable | api/src/index.js:388-391 | `UPDATE ... WHERE id = ?` changes only the row with that id, and nothing when it does not exist |
| ApiServer.ProfileChanges | api/src/index.js:255-275 | PUT /profiles writes a column iff it is one of full_name/email/role and its body value is truthy, in that fixed order |
| ApiServer.SetEmail | api/src/index.js:278-280 | the users row of that id gets the new email; all its other columns and all other users are unchanged |
| ApiServer.ProfileStatements | api/src/index.js:277-290 | there are three statements when the email changes (users update first), otherwise two; the profiles UPDATE binds the changed values and then the id |
| ApiServer.ProspectInsert | api/src/index.js:348-361 | a row is inserted iff nama, no_hp, alamat, kebutuhan and sales_id are all truthy; it has exactly those columns plus id and status, and the status is the body's when truthy, otherwise `menunggu_follow_up` |
| ApiServer.FollowUpInsert | api/src/index.js:453-466 | a row is inserted iff prospect_id, assigned_by, assigned_to and scheduled_date are truthy; the status defaults to `pending` and the notes to `''` |
| ApiServer.NotificationPayload | api/src/index.js:526 | an array body is the payload; any other body becomes a one-item list |
| ApiServer.NotificationTuple | api/src/index.js:532-541 | each item contributes exactly eight values |
| ApiServer.NotificationInsert | api/src/index.js:532-547 | n items bind 8·n values; the value at 8·i+k is the k-th value of item i's tuple |
| ApiServer.InsertNotificationsKeeps | api/src/index.js:543-547 | an existing row whose id no fresh id hits is kept unchanged |
| ApiServer.InsertNotificationsAdds | api/src/index.js:543-547 | with distinct fresh ids, every item is stored under its own id |
| ApiServer.InsertNotificationsSize | api/src/index.js:543-547 | with distinct fresh ids that avoid the table, the table grows by exactly one row per item |
| ApiServer.MarkAllRead | api/src/index.js:571 | every notification of that user becomes read; the others are untouched |
| ApiServer.NotificationsQuery | api/src/index.js:505-517 | no truthy userId gives 400; otherwise the query binds the user id and the limit converted to a number: 20 for a falsy limit, the number a decimal text denotes, and NaN for any other text |
| ApiServer.NotificationsLimitIsNumber | api/src/index.js:513-517 | a decimal limit in the query string is bound as the number it denotes, not as text |
| ApiServer.LookupSession | api/src/index.js:32-37 | the lookup finds a user iff there is a non-empty cookie whose token is in the session map, and returns that session's user |
| ApiServer.LookupAfterCreate | api/src/index.js:26-37 | after a session is created, its token finds its user and no other cookie's lookup changes |
| ApiServer.LookupAfterLogout | api/src/index.js:187-194 | after logout the token finds nothing, and no other cookie's lookup changes |
| ApiServer.SessionsDoNotExpire | api/src/index.js:26-37 | the lookup does not depend on the creation time |
| ApiServer.SessionAfterLogin | api/src/index.js:108-130 | after a login stored the token, GET /auth/session with that cookie returns the login's `{ user, profile }` body |
| ApiServer.Backend.constructor | api/src/index.js:24 | every table and the session map start empty |
| ApiServer.Backend.CreateSession | api/src/index.js:26-30 | the fresh token now maps to the user and the creation time |
| ApiServer.Backend.SessionUserId | api/src/index.js:32-37 | a user is returned only for a cookie whose token is stored, and none without a cookie |
| ApiServer.Backend.Logout | api/src/index.js:187-194 | a non-empty cookie's token is deleted and nothing else; the answer is always 204 |
| ApiServer.Backend.Login | api/src/index.js:141-185 | a missing email or password gives 400; an unknown email and a wrong password give the same 401; only success stores a session, for the matching account; with a unique email, matching credentials always succeed |
| ApiServer.Backend.PostProfile | api/src/index.js:223-251 | an incomplete body gives 400 and changes nothing; otherwise both the user row and the profile row are inserted under the new id |
| ApiServer.Backend.PutProfile | api/src/index.js:253-296 | no truthy field gives 400 and no statement; otherwise a truthy email reaches users and profiles, only the truthy columns of that profile change, and the fresh row is returned |
| ApiServer.Backend.PostProspect | api/src/index.js:348-368 | an incomplete body gives 400 and changes nothing; otherwise the defaulted row is stored under the new id and returned with 201 |
| ApiServer.Backend.PutProspect | api/src/index.js:370-398 | no supplied field gives 400; otherwise only the supplied columns of that prospect change and it is re-read |
| ApiServer.Backend.PostFollowUp | api/src/index.js:453-473 | an incomplete body gives 400 and changes nothing; otherwise the defaulted row is stored and returned with 201 |
| ApiServer.Backend.PutFollowUp | api/src/index.js:475-503 | no supplied field gives 400; otherwise only the supplied columns of that follow-up change |
| ApiServer.Backend.PostNotifications | api/src/index.js:524-553 | an empty list gives 400 and changes nothing; a `null` item makes reading `user_id` throw, so nothing is written and the answer is 500; otherwise one multi-row INSERT stores every item and answers 204 |
| ApiServer.Backend.MarkNotificationRead | api/src/index.js:555-562 | only that notification becomes read; a missing id changes nothing; always 204 |
| ApiServer.Backend.MarkAllNotificationsRead | api/src/index.js:564-576 | a missing user_id gives 400 and changes nothing; otherwise the user's notifications become read |
| ApiClient.PairText | src/lib/api.ts:27 | an encoded `key=value` pair is never empty and contains `=` |
| ApiClient.PairsOf | src/lib/api.ts:25-29 | one pair per kept parameter, in order |
| ApiClient.QueryText | src/lib/api.ts:23-32 | the query is empty iff no value is present; otherwise it is `?` followed by the kept pairs joined with `&` |
| ApiClient.QueryOrder | src/lib/api.ts:24-29 | the kept parameters are a sub-list of the parameters, each with a present value |
| ApiClient.BuildQuery | src/lib/api.ts:23-32 | the loop returns exactly `QueryText` |
| ApiClient.RequestPath | src/lib/api.ts:105-108 | a list call without present parameters requests the bare resource path |
| ApiClient.BuildAssetUrl | src/lib/api.ts:68-74 | an empty path and an absolute `http://`/`https://` path are returned unchanged; any other path is prefixed with the base URL |
| ApiClient.AssetUrlIdempotent | src/lib/api.ts:68-74 | with an absolute base, building the URL of a built URL changes nothing |
| ApiClient.LoginBody | src/lib/api.ts:77-78 | the login body carries `identifier` and `password`, and no `email` |
| ApiClient.ResponseData | src/lib/api.ts:44-45 | an empty body is null data; otherwise the parser's result, which is nothing for a body that is not JSON |
| ApiClient.ErrorMessage | src/lib/api.ts:47-49 | the error is the body's truthy `message`, otherwise `Request failed with status <code>` |
| ApiClient.FallbackNamesStatus | src/lib/api.ts:48 | the fallback message starts with the fixed prefix, and its suffix parses back to the status code |
| ApiClient.RequestOutcome | src/lib/api.ts:44-52 | a non-empty body that does not parse ends in the parse error whatever the status; otherwise the request succeeds iff the response is ok, with the parsed data (null for an empty body), and a failure carries the error message, which is the fallback when the body is empty |
| ApiClient.NonJsonErrorPageIsSyntaxError | src/lib/api.ts:44-49 | an error page that is not JSON never yields the status message: the parse error is thrown first |
| ClientStore.PatchProspect | src/lib/api.ts:111-112 | each of nama, no_hp, alamat, kebutuhan and status takes the update's value when carried and keeps its own otherwise; the id, owner and creation time never change |
| ClientStore.PatchProspectIdempotent | src/lib/api.ts:111-112 | applying the same prospect update twice is applying it once |
| ClientStore.PatchFollowUp | src/lib/api.ts:122-123 | each of status, notes, scheduled date and completion time takes the update's value when carried and keeps its own otherwise; the id, prospect, assigner, assignee and creation time never change |
| ClientStore.UpdateAt | src/lib/api.ts:111-112 | only the record with that id changes, and nothing when it is missing |
| ClientStore.FetchNotifications | src/lib/api.ts:125-126 | at most `limit` notifications come back, all the user's own and in table order (a sub-list of the table); they are the leading part of the user's notifications: all of them when there are at most `limit`, otherwise exactly `limit` |
| ClientStore.Store.constructor | src/lib/api.ts:76 | the store starts with the given records, no notifications and an empty call log |
| ClientStore.Store.ListProfiles | src/lib/api.ts:81-82 | the profiles returned are exactly those with the role |
| ClientStore.Store.CreateProspect | src/lib/api.ts:109-110 | the draft is stored under the fresh id and one create call is logged; nothing else changes |
| ClientStore.Store.UpdateProspect | src/lib/api.ts:111-112 | that prospect is patched and one update call is logged; nothing else changes |
| ClientStore.Store.CreateFollowUp | src/lib/api.ts:120-121 | the draft is stored under the fresh id and logged; nothing else changes |
| ClientStore.Store.UpdateFollowUp | src/lib/api.ts:122-123 | that follow-up is patched and logged; nothing else changes |
| ClientStore.Store.CreateNotifications | src/lib/api.ts:127-128 | every draft is stored, in order, and one call is logged |
| FollowUpsPage.OpenUpdateForm | src/pages/FollowUps.tsx:97-105 | the form opens with the follow-up's status, notes and date |
| FollowUpsPage.UpdatesFor | src/pages/FollowUps.tsx:117-131 | status and notes are always sent, with rescheduled sent as pending; the date is sent iff rescheduled; `completed_at` is set to now iff completed |
| FollowUpsPage.NeverWritesRescheduled | src/pages/FollowUps.tsx:128-131 | the stored status is never rescheduled; a reschedule stores pending with the new date, and any other choice keeps the date |
| FollowUpsPage.UpdateNotice | src/pages/FollowUps.tsx:135-143 | the notification goes to the assigning admin, as follow_up_updated, references the follow-up, and is unread |
| FollowUpsPage.UpdateCalls | src/pages/FollowUps.tsx:122-143 | a completion issues three calls: the prospect becomes selesai before the follow-up itself is written; otherwise two; the notification is always last |
| FollowUpsPage.HandleUpdate | src/pages/FollowUps.tsx:112-152 | without a selection or profile nothing happens; otherwise exactly those calls are made, in order, with their effect on prospects, follow-ups and notifications |
| FollowUpsPage.DateRangeBounds | src/pages/FollowUps.tsx:173-185 | every moment from the start day's midnight to the end day's 23:59:59 passes; the millisecond before the start day and the one after 23:59:59 of the end day do not |
| FollowUpsPage.StartMonotone | src/pages/FollowUps.tsx:174-178 | a later start day never begins earlier |
| FollowUpsPage.OverdueUntilCompleted | src/pages/FollowUps.tsx:169-171 | an overdue follow-up stays overdue as time passes; after an update it is overdue iff the form did not complete it and its (possibly new) date has passed |
| FollowUpsPage.FilterFollowUps | src/pages/FollowUps.tsx:58-78 | a row is kept iff it matches the search (when there is one), the status filter and the date range |
| FollowUpsPage.FilterFollowUpsOrdered | src/pages/FollowUps.tsx:58-78 | the filtered list is a sub-list of the input |
| FollowUpsPage.NoFilterKeepsAll | src/pages/FollowUps.tsx:58-78 | no search, `all` statuses and no dates keep every row in order |
| FollowUpsPage.LoadParams | src/pages/FollowUps.tsx:84-86 | a sales user's params are exactly `assignedTo` with their own id, kept when the id is non-empty; an admin keeps no params |
| FollowUpsPage.LoadPathScoped | src/pages/FollowUps.tsx:84-86 | a sales user requests `/follow-ups?` with exactly the one `assignedTo` pair of their id; an admin requests the bare `/follow-ups` |
| FollowUpsPage.ShowsUpdateButton | src/pages/FollowUps.tsx:345 | the update button is shown iff the viewer is sales and the row is not completed |
| ProspectsPage.SearchProspects | src/pages/Prospects.tsx:40-48 | a prospect is kept iff its name or needs contain the term ignoring case, or its phone contains it as typed |
| ProspectsPage.SearchOrderedAndTotal | src/pages/Prospects.tsx:40-48 | the search preserves order, and the empty term keeps every row |
| ProspectsPage.EditForm | src/pages/Prospects.tsx:165-174 | the edit form holds the prospect's four text fields |
| ProspectsPage.EditPatch | src/pages/Prospects.tsx:77 | the edit sends the four text fields and never a status |
| ProspectsPage.EditKeepsStatusAndOwner | src/pages/Prospects.tsx:77 | editing keeps the status and the owning sales user |
| ProspectsPage.CreateDraft | src/pages/Prospects.tsx:79-83 | a new prospect is owned by the current user and waits for a follow-up |
| ProspectsPage.AdminFanOut | src/pages/Prospects.tsx:85-98 | one new_prospect notification per admin, in admin order, unread, referencing the new prospect |
| ProspectsPage.FanOutReachesEveryAdmin | src/pages/Prospects.tsx:85-98 | every admin is notified, and every notification goes to an admin |
| ProspectsPage.HandleSubmit | src/pages/Prospects.tsx:71-109 | without a profile nothing happens; an edit updates only the four text columns; a create stores the prospect and then notifies every admin |
| ProspectsPage.OpenFollowUpForm | src/pages/Prospects.tsx:176-184 | the follow-up form is assigned to the prospect's sales user, with no date and no notes |
| ProspectsPage.FollowUpDraftFor | src/pages/Prospects.tsx:116-123 | the new follow-up is pending, assigned by the admin to the chosen user, for this prospect and date |
| ProspectsPage.AssignedNotice | src/pages/Prospects.tsx:127-135 | the assigned user gets one follow_up_assigned notification referencing the new follow-up |
| ProspectsPage.HandleCreateFollowUp | src/pages/Prospects.tsx:111-144 | the follow-up is created, then the prospect moves to dalam_follow_up, then the assignee is notified; nothing happens without a profile or selection |
| ProspectsPage.LoadParams | src/pages/Prospects.tsx:54-56 | a sales user's params are exactly `salesId` with their own id, kept when the id is non-empty; an admin keeps no params |
| ProspectsPage.LoadPathScoped | src/pages/Prospects.tsx:54-56 | the page lists through `listProspectsWithSales`: a sales user requests `/prospects/with-sales?` with exactly the one `salesId` pair of their id; an admin requests the bare `/prospects/with-sales` |
| ProspectsPage.ShowsAddButton | src/pages/Prospects.tsx:215 | the add button is shown iff the viewer is sales |
| ProspectsPage.ShowsEditButton | src/pages/Prospects.tsx:284 | the edit button is shown iff the viewer is the owning sales user |
| ProspectsPage.ShowsFollowUpButton | src/pages/Prospects.tsx:293 | the follow-up button is shown iff the viewer is admin and the prospect is waiting |
| ProspectsPage.GatingExclusive | src/pages/Prospects.tsx:284-293 | no viewer sees both the edit and the follow-up button on a row |
| ReportsPage.Report | src/pages/Reports.tsx:38-90 | three status counts in fixed order, each counting that status; totals are list lengths; pending counts pending and in_progress; one performance row per sales profile, in order, counting their prospects and completed follow-ups |
| Seqs.DisjointCounts | src/pages/Reports.tsx:76-81 | two exclusive predicates together count at most the whole list |
| Seqs.DisjointCounts3 | src/pages/Reports.tsx:50-63 | three pairwise exclusive predicates together count at most the whole list |
| ReportsPage.ReportBounds | src/pages/Reports.tsx:53-81 | completed plus pending never exceeds the follow-up total, and the three status counts never exceed the prospect total |
| ReportsPage.EmptyReport | src/pages/Reports.tsx:53-81 | absent data gives zero counts and no performance rows |
| ReportsPage.StatusLabel | src/pages/Reports.tsx:106 | the label has the status's length |
| ReportsPage.StatusLabelFirstOnly | src/pages/Reports.tsx:106 | only the first underscore becomes a space; later ones stay |
| ReportsPage.WaitingLabel | src/pages/Reports.tsx:106 | `menunggu_follow_up` is labelled `MENUNGGU FOLLOW_UP` |
| ReportsPage.CsvRows | src/pages/Reports.tsx:92-119 | eleven fixed rows, one row per status at position 11+i, three more, then one row per sales user |
| ReportsPage.CsvText | src/pages/Reports.tsx:117-119 | the export text is the first row's cells joined by commas, followed by a line break and the text of the remaining rows; no rows give the empty text |
| ReportsPage.CsvLineCount | src/pages/Reports.tsx:117-119 | when no cell contains a line break, the text holds exactly one line break fewer than there are rows |
| ReportsPage.CsvCellCount | src/pages/Reports.tsx:117-118 | when no cell contains a comma, a row's line holds exactly one comma fewer than there are cells |
| DashboardPage.DashboardCalls | src/pages/Dashboard.tsx:39-86 | an admin loads four unscoped lists including the sales profiles; a sales user loads three lists scoped to their id; both end with their last five notifications |
| DashboardPage.DashboardStats | src/pages/Dashboard.tsx:44-86 | total is the prospect count; pending counts pending and in_progress; completed counts completed; `totalSales` is the sales count for admin and 0 for sales |
| DashboardPage.StatsBounded | src/pages/Dashboard.tsx:47-79 | pending plus completed never exceeds the follow-ups loaded |
| DashboardPage.RecentActivities | src/pages/Dashboard.tsx:59-96 | one activity per fetched notification, in order, with its id, type and message; without a list the activities shown before stay as they were |
| DashboardPage.RecentAtMostFive | src/pages/Dashboard.tsx:44-68 | after a load with limit 5 at most five activities are listed, each from one of the user's own notifications, in order |
| DashboardPage.StatCards | src/pages/Dashboard.tsx:114-168 | admin gets four cards, the last being Total Sales; sales gets three, and only the admin sees a Total Sales card |
| UserManagementPage.SearchUsers | src/pages/UserManagement.tsx:26-36 | a user is kept iff the lowercased full name, email, username or phone contains the lowercased term |
| UserManagementPage.SearchOrderedAndTotal | src/pages/UserManagement.tsx:26-36 | the search preserves order, and the empty term keeps every user |
| UserManagementPage.EditPayload | src/pages/UserManagement.tsx:55-62 | the edit payload carries the five fields, and a password iff the form's password is non-empty |
| UserManagementPage.CreatePayload | src/pages/UserManagement.tsx:64-71 | the create payload always carries the password with the five fields |
| UserManagementPage.PayloadsAgreeWithPassword | src/pages/UserManagement.tsx:55-71 | with a password typed in, the edit and create payloads are the same |
| UserManagementPage.ResetForm | src/pages/UserManagement.tsx:95-105 | every field is empty, the role is sales, and nothing is selected |
| UserManagementPage.OpenEditForm | src/pages/UserManagement.tsx:107-118 | the user's fields are copied, the password is blank, the user is selected |
| UserManagementPage.EditWithoutPasswordKeepsIt | src/pages/UserManagement.tsx:55-118 | saving a just-opened edit form never sends a password |
| LayoutFrame.UnreadCount | src/components/Layout.tsx:88 | the unread count never exceeds the list, and is zero iff every notification is read |
| LayoutFrame.ShowsBadge | src/components/Layout.tsx:197 | the badge is shown iff some loaded notification is unread |
| LayoutFrame.UnreadAtMostTen | src/components/Layout.tsx:85-89 | at most ten notifications are loaded, so the count is at most ten |
| LayoutFrame.MenuItems | src/components/Layout.tsx:107-122 | admin has six entries, with users and reports last; sales has four |
| LayoutFrame.SalesMenuIsAdminPrefix | src/components/Layout.tsx:107-122 | the sales menu is the admin menu without its last two entries |
| LayoutFrame.SalesMenuHasNoAdminPages | src/components/Layout.tsx:107-122 | the sales menu offers neither users nor reports |
| LayoutFrame.FindItem | src/components/Layout.tsx:184 | the first entry with that id, or -1 when there is none |
| LayoutFrame.HeaderTitle | src/components/Layout.tsx:184 | the title is the caption of the matching entry, otherwise `Dashboard` |
| LayoutFrame.HiddenPageTitledDashboard | src/components/Layout.tsx:184 | a sales user on the users page sees the title Dashboard |
| LayoutFrame.MarkAllCall | src/components/Layout.tsx:100-105 | mark-all-read does nothing without a profile, and otherwise targets the profile's id |
| LayoutFrame.HeaderMenus.constructor | src/components/Layout.tsx:30-31 | both menus start closed |
| LayoutFrame.HeaderMenus.ToggleNotifications | src/components/Layout.tsx:190-193 | the bell toggles the panel and closes the user menu; never both open |
| LayoutFrame.HeaderMenus.ToggleUserMenu | src/components/Layout.tsx:257-260 | the avatar toggles the user menu and closes the panel; never both open |
| LayoutFrame.HeaderMenus.CloseAll | src/components/Layout.tsx:61-64 | a page change closes both menus |
| LayoutFrame.HeaderMenus.MouseDown | src/components/Layout.tsx:66-79 | a press inside the menus changes nothing; outside it closes both |
| LayoutFrame.HeaderMenus.OpenProfile | src/components/Layout.tsx:281-284 | the profile entry navigates to `profile` and closes the user menu |
| AppShell.RenderPage | src/App.tsx:30-45 | as written: never the profile page; users and reports only for admin; unknown pages show the dashboard |
| AppShell.ProfileEntryShowsDashboard | src/App.tsx:30-45 | the `profile` entry that both menus offer renders the dashboard |
| AppShell.RenderPageIntended | src/App.tsx:30-45 | `profile` renders the profile page; users and reports stay admin-only; every other page routes as written |
| AppShell.MenuEntriesOpenTheirPage | src/App.tsx:30-45 | every entry of a role's menu opens its own page |
| AppShell.AppContent | src/App.tsx:11-51 | loading shows the spinner before any auth check; no user or no profile shows the login page; otherwise the current page in the layout, never the profile screen, and the dashboard on `profile` |
| AppShell.AppContentIntended | src/App.tsx:11-51 | the same gate with the corrected routing: on `profile` the profile screen is shown |
| AppShell.ShellsDifferOnlyOnProfile | src/App.tsx:30-49 | on every page other than `profile` the corrected shell shows what the shell as written shows |
| AppShell.FirstScreenIsDashboard | src/App.tsx:13 | after sign-in the first page is the dashboard, in both shells |
| Mailer.BuildTransporter | api/src/mailer.js:14-35 | a transport exists iff host, port, user, password and sender address are all set and `MAIL_MAILER` is unset, empty or `smtp`; it is secure iff the lowercased encryption is `ssl` or the port is 465 |
| Mailer.MissingVariableDisablesMail | api/src/mailer.js:15-17 | removing any required variable switches mail off |
| Mailer.EmptyMailerIsUnset | api/src/mailer.js:18-20 | an empty `MAIL_MAILER` behaves like an unset one |
| Mailer.PortSecureIsSecure | api/src/mailer.js:22-24 | port 465 is secure whatever the encryption says |
| Mailer.CellText | api/src/mailer.js:42 | a falsy value shows `-`; any other value shows its text |
| Mailer.FormatFieldRow | api/src/mailer.js:39-44 | the row opens with the label cell and ends with the value cell |
| Mailer.RowsHtml | api/src/mailer.js:86-94 | the rendered rows start with the first field's row, and each field contributes at least the fixed row markup |
| Mailer.RowsHtmlAppend | api/src/mailer.js:86-94 | rendering two field lists one after the other is rendering their concatenation |
| Mailer.ProspectFields | api/src/mailer.js:86-94 | the prospect email's rows follow its fixed label order, with the sales user's name, email and the creation time in their places |
| Mailer.AssignedFields | api/src/mailer.js:103-116 | the assignment email's rows follow its fixed label order; the notes fall back to `-` |
| Mailer.CompletedFields | api/src/mailer.js:125-139 | the completion email's rows follow its fixed label order, with the sales user before the admin |
| Mailer.FollowUpEmailsShareOpening | api/src/mailer.js:103-132 | both follow-up emails open with the same four rows |
| Mailer.NotesNeverBlank | api/src/mailer.js:111-133 | notes that are text or null never leave the notes cell empty |
| Mailer.ProspectEmail | api/src/mailer.js:82-97 | the new-prospect email has its heading, introduction and footer note, and its rows open with the prospect's name |
| Mailer.AssignedEmail | api/src/mailer.js:99-119 | the assignment email has its heading, introduction and footer note, and its rows open with the prospect's name |
| Mailer.CompletedEmail | api/src/mailer.js:121-142 | the completion email has its heading, introduction and footer note, and its rows open with the prospect's name |
| Mailer.FollowUpEmailsShareOpeningRows | api/src/mailer.js:99-142 | the assignment and completion emails of one follow-up begin with the same four rendered rows |
| Mailer.FromName | api/src/mailer.js:75 | the sender name is `MAIL_FROM_NAME`, falling back to `KRM Mobilindo` |
| Mailer.FromHeader | api/src/mailer.js:75 | the header is the name, then the address in angle brackets |
| Mailer.SendMail | api/src/mailer.js:68-80 | nothing is sent without a transport; otherwise one message from the configured sender with the given recipient, subject and body |
| Mailer.SentMailHasSender | api/src/mailer.js:68-80 | any message that is sent carries the configured, non-empty sender address |
| LoginPage.Prefill | src/pages/Login.tsx:17-24 | the form is prefilled iff the flag is `'true'`, with missing values falling back to `''` |
| LoginPage.Remember | src/pages/Login.tsx:33-36 | remembering sets the three keys and leaves every other key alone |
| LoginPage.Forget | src/pages/Login.tsx:37-41 | forgetting removes the three keys and leaves every other key alone |
| LoginPage.RememberedIsPrefilled | src/pages/Login.tsx:17-36 | what a remembered sign-in stores, the next visit prefills |
| LoginPage.ForgottenIsNotPrefilled | src/pages/Login.tsx:17-41 | after a forgotten sign-in nothing is prefilled, and forgetting twice is forgetting once |
| LoginPage.ErrorText | src/pages/Login.tsx:43 | the error is the thrown message, or the default text when it is empty; never empty |
| LoginPage.Login.constructor | src/pages/Login.tsx:10-14 | the form starts empty, with remember-me off, no error and not loading |
| LoginPage.Login.Mount | src/pages/Login.tsx:17-24 | the mount prefills the fields and ticks remember-me exactly when storage says so |
| LoginPage.Login.BeginSubmit | src/pages/Login.tsx:28-29 | the error is cleared and the form is busy |
| LoginPage.Login.FinishSubmit | src/pages/Login.tsx:31-46 | on success the storage is remembered or forgotten; on failure it is unchanged and the error is set; either way the form ends not busy |
| LoginPage.Login.Submit | src/pages/Login.tsx:26-47 | a whole attempt, with the error cleared after success |

## Left out

- Rendering: JSX markup, icons, modal visibility flags, polling intervals and event listeners.
  Only the state those listeners change is modelled.
- HTTP plumbing: fetch, Express setup, CORS, cookie parsing, cookie flags and the 500 error handler.
  The one 500 modelled is the TypeError of a `null` notification item.
  Requests are method calls. Responses are status and body values.
- Database driver:
  - The MySQL pool, the schema and `withTransaction` are not part of this model.
  - A multi-statement write is one atomic update of the table maps.
  - SELECT statements are returned as SQL text and bound parameters. Their evaluation is modelled
    only where a handler's answer depends on it: the row re-read by id.
  - The listing filters (`ProfilesQuery`, `ProspectsQuery`, `ProspectsWithSalesQuery` and
    `FollowUpsQuery`) are modelled as the statements they issue. `NotificationsQuery` is modelled
    the same way.
- Opaque primitives:
  - bcrypt hashing and comparison are parameters (`hash`, `passwordMatches`).
  - `crypto.randomUUID` is a caller-supplied fresh id, or an id function for bulk inserts.
  - URL percent-encoding is an opaque `encode` parameter.
  - The JSON parser is a `parse` parameter, which gives nothing for text that is not JSON.
- Dates:
  - `Date` parsing and `toLocaleString('id-ID')` are not modelled.
  - Timestamps are integers, and formatted dates are inputs.
  - The date-filter inputs are local-time day numbers.
  - The end bound is 23:59:59.000, which leaves the last 999 milliseconds of the day outside, as
    in the source.
- ApiServer.PlaceholderGroups: the VALUES text has one `(?, …)` group per item. That each group has
  eight `?` is not proved at the character level.
- GET /profiles/:id, DELETE /profiles/:id, /auth/initialize-admin and the default-admin seeding:
  these are plain pass-through queries, not modelled.
- API failures inside the page handlers: every `api.*` call is taken to succeed. The `catch`
  branches only log or show an alert, and they are not modelled.
- ProspectsPage.HandleCreateFollowUp: requires a chosen date. The date input is `required`, so the
  browser does not submit the form without one.
- Cross-file mismatches, modelled on each side as written:
  - the client's login body sends `identifier` while the server reads `email`;
  - the client's profile update sends `username`, `no_hp` and `password`, which the server ignores;
  - `api.initializeDefaultAdmin` is not defined in the client;
  - the user list filters on `username` and `no_hp` (src/pages/UserManagement.tsx:29-34), but GET
    /profiles selects only id, email, full_name and role (api/src/index.js:199) and the profiles type
    declares neither, so against this server a search term that matches neither name nor email
    throws instead of filtering.
- UserManagementPage.SearchUsers: models the filter over profiles that carry `username` and `no_hp`,
  as the page's code assumes; the TypeError it meets against this server is not modelled.
- Case mapping covers ASCII letters only; JavaScript's Unicode case mapping is not modelled.
- Numbers:
  - Number values are integers or NaN; fractional values are not modelled.
  - `Number(text)` is modelled for empty text (0) and decimal digits; any other text is NaN.
  - `Number(MAIL_PORT)` is read as a plain decimal string, with `None` standing for NaN. Surrounding
    spaces, signs and other numeric notations are not modelled.
- Mailer:
  - The HTML markup around the email rows (`buildEmailLayout`) is a record of its four slots.
  - nodemailer's transport creation and sending are not modelled; `SendMail` returns the message it
    would hand over.
  - The one-time build of the transporter at module load is `BuildTransporter` over the same
    environment map.
- The CSV Blob download and the `.env` file probing in api/src/env.js are I/O, not modelled.
- src/contexts/AuthContext.tsx and src/pages/Profile.tsx are not part of this model; each is a thin
  wrapper around single API calls.
- `listNotifications` is modelled as a filter of the table in newest-first order, cut to the limit.
  The client's `limit` is a number, so the server's text-to-number conversion only matters for
  other callers.

## Findings

| source | as written | input that shows it | evidently intended | confidence | as-written member | corrected member |
|---|---|---|---|---|---|---|
| src/App.tsx:30-45 | `renderPage` has no `profile` case, so it falls to the default and shows the dashboard | any signed-in user clicks "Profil" in the menu (src/components/Layout.tsx:107-122) or in the user menu (src/components/Layout.tsx:281-284), which sets the page to `profile` | the `profile` page shows the profile screen (src/pages/Profile.tsx exists for this); every menu entry opens its own page | not executed | AppShell.RenderPage, AppShell.ProfileEntryShowsDashboard, AppShell.AppContent | AppShell.RenderPageIntended, AppShell.MenuEntriesOpenTheirPage, AppShell.AppContentIntended |
