# Big Bounce KOL admin: a Dafny model

This project models the logic of a small admin web application. Administrators manage users (Administrator or Member). Members register "followers", who are event registrants referred by a KOL (key opinion leader). The app can also export everything to a three-sheet spreadsheet. The modelled parts are:

- **Router** (`Router.dfy`) covers the RPC procedures of `src/server/routers/_app.ts`.
  - `login` looks the user up by the unique username and compares the password with the stored bcrypt hash. Both failures give the same `UNAUTHORIZED` / `Invalid Credentials` error. On success it returns the user and a token whose payload is `{sub: username}`.
  - `getUsers` and `getTotalUsers` apply the role-name filter only for a non-empty role. `getUsers` then orders the rows by `orderBy`/`orderSort`, which default to `createdAt` descending.
  - `getFollowers` filters on the search term (the follower's own or its member's fullname) and on a non-zero `memberId`. It then takes the fixed window `skip (page-1)*10, take 10`. `getTotalFollowers` counts every follower.
  - The six mutations are methods of a `Store` class that holds the tables as sequences. Both follower writes store `memberId = 2` whatever the caller sends.
- **ExportExcel** (`ExportExcel.dfy`) covers `src/lib/export-excel.ts`.
  - `formatDate` writes zero-padded `DD/MM/YYYY`.
  - There are three row sets: followers with a member, users other than the seed administrator `magenta`, and followers without a member.
  - Rows are numbered from 1, and the sheets are appended in the order `Followers`, `KOL`, `Public Followers`.
- **AdminDashboard** (`AdminDashboard.dfy`) covers `src/components/admin-dashboard.tsx`. It models the ticket filter (case-insensitive search plus status and priority filters), the page window, `totalPages`, the statistics, the badge colours and the handlers that reset the page to 1.
- **FollowerDashboard** (`FollowerDashboard.dfy`) covers `src/components/follower-dashboard.tsx`. It models the add and edit guards, the client-side 10-follower cap, the mutation callbacks, `openEditDialog`, `resetForm` and the Add-button rule.
- **UserPage** (`UserPage.dfy`) covers `src/pages/user.tsx`. It models the role and status colours, the add and edit guards (new users always get role 2), `resetForm`, the pagination handlers and `totalPages`.
- **Common** (`Common.dfy`) holds the shared helpers:
  - JavaScript's ASCII `toLowerCase` and `includes`;
  - `String(n)` and `padStart`;
  - a code-point string order;
  - `Math.ceil(count / itemsPerPage)`.

The code has no authorization at all, and the model follows the code:

- No procedure reads the caller's identity.
- Login signs only `{sub: username}`.
- No list is scoped to a member.
- The 10-follower cap exists only in the follower dashboard. It checks the length of the loaded page, not a count of the member's followers.

Foreign calls are parameters:

- bcrypt's `compareSync` is a predicate `matches(plain, hash)`.
- A fresh bcrypt hash is a string supplied by the caller, because the salt is random.
- The database `contains` match is a predicate `contains(field, pattern)`.
- The clock is a `now` argument.
- A parsed arrival date is a `Date(day, month0, year)` value.

## Model

| member | source | states |
|---|---|---|
| `Router.FindByUsername` | src/server/routers/_app.ts:14-21 | the user found has that username and is in the table; nothing is found exactly when no user has that username |
| `Router.Login` | src/server/routers/_app.ts:14-39 | every failure is UNAUTHORIZED "Invalid Credentials"; an unknown username fails; a success returns a stored user with that username whose hash matches the password, and a token whose payload is `{sub: username}` |
| `Router.LoginSucceedsIff` | src/server/routers/_app.ts:22-39 | with unique usernames, login succeeds exactly when the password matches that user's hash, and it then returns that very record |
| `Router.UserHasRole` | src/server/routers/_app.ts:64-69 | the `where` filter of `getUsers`, as a predicate; `FilterUsers` states what it keeps |
| `Router.FilterUsers` | src/server/routers/_app.ts:64-69 | a user is kept exactly when the role is absent or empty, or the user's role is named that role; a kept user appears exactly as often as in the table, a dropped one not at all |
| `Router.FilterKeepsAll` | src/server/routers/_app.ts:44-50 | an absent or empty role filters nothing |
| `Router.GetTotalUsers` | src/server/routers/_app.ts:41-55 | the count is at most the table size, and equals it for an absent or empty role |
| `Router.Insert` | src/server/routers/_app.ts:72-74 | one insertion step adds exactly that user to the list (as a multiset) and nothing else |
| `Router.InsertSorted` | src/server/routers/_app.ts:72-74 | inserting into an ordered list keeps it ordered |
| `Router.SortUsers` | src/server/routers/_app.ts:72-74 | the result is a permutation of the input ordered by the field in the direction |
| `Router.BeforeTotal` | src/server/routers/_app.ts:60-61 | any two users are comparable under every order field and direction |
| `Router.BeforeTransitive` | src/server/routers/_app.ts:60-61 | the order on users is transitive for every order field and direction |
| `Router.GetUsers` | src/server/routers/_app.ts:57-80 | returns every user the role filter keeps, each exactly as often as in the table, ordered by `orderBy` (default `createdAt`) in `orderSort` direction (default descending); its length is `getTotalUsers` for the same role |
| `Router.MemberOf` | src/server/routers/_app.ts:165-167 | the joined member is a stored user whose id is the follower's `memberId`; a follower without one has no member; a follower whose `memberId` names a stored user is joined to a user |
| `Router.SearchPattern` | src/server/routers/_app.ts:143 | the pattern is the search term between two literal `%` characters |
| `Router.FilterFollowers` | src/server/routers/_app.ts:136-157 | a follower is kept exactly when it satisfies the search OR clause (if the search is non-empty) and the member id (if given and non-zero); a kept follower appears as often as in the table, a dropped one not at all |
| `Router.FollowerMatches` | src/server/routers/_app.ts:136-157 | the `where` clause of `getFollowers`, as a predicate; `FilterFollowers`, `GetFollowersSearch` and `GetFollowersOfMember` state what it keeps |
| `Router.FilterFollowersIsSubsequence` | src/server/routers/_app.ts:161-164 | the filtered followers keep their table order, so the page window indexes the table's own order |
| `Router.IndexOfId` | src/server/routers/_app.ts:111-113 | `where: {id}` finds a position holding that id, and finds none exactly when no row has it |
| `Router.GetTotalFollowers` | src/server/routers/_app.ts:127-129 | the count is the number of all followers, with no filter |
| `Router.PageWindow` | src/server/routers/_app.ts:159-163 | the window holds filtered rows `skip`, `skip+1`, … in order: 10 of them when they exist, the rest of the list when fewer remain, none past the end |
| `Router.JoinMembers` | src/server/routers/_app.ts:165-167 | one joined row per follower, in order, each carrying that follower's member |
| `Router.GetFollowers` | src/server/routers/_app.ts:131-169 | a page below 1 is rejected; otherwise at most 10 rows, never more than `getTotalFollowers`; row k is filtered row `(page-1)*10 + k`; the row count is exactly the part of the window that exists; each row satisfies the filter and carries its member |
| `Router.PageWindowMatches` | src/server/routers/_app.ts:159-164 | every row of the `skip`/`take` window over the filtered followers is a stored follower the `where` clause keeps |
| `Router.GetFollowersOfMember` | src/server/routers/_app.ts:155-157 | with a non-zero member id every returned follower has that member id |
| `Router.GetFollowersSearch` | src/server/routers/_app.ts:138-153 | with a non-empty search every returned row matches it on its own fullname or on its member's fullname |
| `Router.ApplyUserUpdate` | src/server/routers/_app.ts:103-109 | fullname and username are replaced; the hash is replaced only for a present non-empty password; id, role and creation time stay |
| `Router.ApplyFollowerUpdate` | src/server/routers/_app.ts:191-201 | the three fields are replaced and the member becomes 2; id and creation time stay |
| `Router.RemoveAt` | src/server/routers/_app.ts:122-124 | the table loses exactly the element at that position, the others keep their order |
| `Router.RemoveAtKeepsUnique` | src/server/routers/_app.ts:122-124 | deleting a user keeps ids and usernames unique |
| `Router.Store.constructor` | prisma/seed.ts:30-33 | a store holding the given roles and empty user and follower tables satisfies the table invariants (unique ids and usernames, ids below the counters) |
| `Router.Store.CreateUser` | src/server/routers/_app.ts:82-95 | a taken username fails with a unique violation and changes nothing; otherwise the new user with the next id, the given hash and role is appended, the user id counter advances by one and nothing else changes |
| `Router.Store.UpdateUser` | src/server/routers/_app.ts:97-115 | succeeds exactly when the id exists and no other user holds the new username; a missing id fails with RecordNotFound, a username held by another user with UniqueViolation, and a failure changes nothing; a success changes only that record, as `ApplyUserUpdate` says; table invariants kept |
| `Router.Store.DeleteUser` | src/server/routers/_app.ts:117-125 | a missing id fails and changes nothing; otherwise exactly that record is removed and returned; followers untouched |
| `Router.Store.CreateFollower` | src/server/routers/_app.ts:171-183 | appends a follower with the next id and `memberId = 2`, whatever the caller; the follower id counter advances by one and nothing else changes |
| `Router.Store.UpdateFollower` | src/server/routers/_app.ts:185-202 | a missing id fails and changes nothing; otherwise only that record changes and its member becomes 2 |
| `Router.Store.DeleteFollower` | src/server/routers/_app.ts:204-213 | a missing id fails and changes nothing; otherwise exactly that record is removed and returned |
| `Common.Lower` | src/components/admin-dashboard.tsx:133-135 | same length; each ASCII capital becomes its small letter, every other character stays |
| `Common.OccursAtIncludes` | src/components/admin-dashboard.tsx:133-135 | an occurrence at any position is found by `includes` |
| `Common.IncludesIff` | src/components/admin-dashboard.tsx:133-135 | `includes` holds exactly when the needle occurs at some position |
| `Common.IncludesEmpty` | src/components/admin-dashboard.tsx:122 | the empty search term occurs in every string |
| `Common.NatToString` | src/lib/export-excel.ts:6-8 | a non-empty string of digits, one digit exactly for numbers below 10 |
| `Common.NatToStringRoundTrip` | src/lib/export-excel.ts:6-8 | reading the numeral back gives the number |
| `Common.NatToStringLength` | src/lib/export-excel.ts:6-8 | two-digit numbers print as 2 characters and four-digit numbers as 4 |
| `Common.PadStart` | src/lib/export-excel.ts:6-7 | a string already wide enough is unchanged; a shorter one is filled on the left with the fill character up to the width and ends with the original |
| `Common.StrLeTotal` | src/server/routers/_app.ts:60 | any two strings are ordered one way or the other |
| `Common.StrLeTransitive` | src/server/routers/_app.ts:60 | the string order is transitive |
| `Common.TotalPages` | src/components/admin-dashboard.tsx:142 | the least page count whose pages hold all rows: enough pages, one fewer would not do, zero only for no rows |
| `ExportExcel.Pad2` | src/lib/export-excel.ts:6-7 | below 100 the result is two digits whose value is the number |
| `ExportExcel.YearString` | src/lib/export-excel.ts:8-9 | the year's numeral, with a leading minus for a negative year |
| `ExportExcel.FormatDate` | src/lib/export-excel.ts:5-10 | for a four-digit year, 10 characters: two digits, `/`, two digits, `/`, four digits |
| `ExportExcel.FormatDateRoundTrip` | src/lib/export-excel.ts:5-10 | parsing the fixed positions gives back the day, the 0-based month and the year |
| `ExportExcel.FollowersWithMember` | src/lib/export-excel.ts:14-18 | only followers with a non-null member id; each such follower appears as often as in the table, every other not at all |
| `ExportExcel.MemberFollowers` | src/lib/export-excel.ts:13-22 | only followers with a non-null member, each joined with that member |
| `ExportExcel.PublicFollowers` | src/lib/export-excel.ts:23-27 | only followers with a null member; each such follower appears as often as in the table, every other not at all |
| `ExportExcel.KolUsers` | src/lib/export-excel.ts:28-34 | a user is kept exactly when its username is not `magenta`, as often as it appears in the table |
| `ExportExcel.WhereMemberIdSplits` | src/lib/export-excel.ts:13-27 | the `not null` and `null` conditions on the member id together keep every follower exactly once |
| `ExportExcel.FollowerQueriesPartition` | src/lib/export-excel.ts:13-27 | together the two follower queries hold every follower exactly once |
| `ExportExcel.ExportWorkbook` | src/lib/export-excel.ts:36-57 | three sheets named `Followers`, `KOL`, `Public Followers` in that order; every sheet is `NumberedFromOne`: row i has `no` = i+1 |
| `ExportExcel.FollowerRows` | src/lib/export-excel.ts:37-43 | one row per joined follower: row i has `no` = i+1, the follower's name and phone, its formatted arrival date, and a `kol` present exactly when the follower has a member, holding that member's fullname |
| `ExportExcel.KolRows` | src/lib/export-excel.ts:44-48 | one row per user: row i has `no` = i+1 and that user's username and fullname |
| `ExportExcel.PublicFollowerRows` | src/lib/export-excel.ts:49-54 | one row per follower: row i has `no` = i+1, the follower's name and phone and its formatted arrival date |
| `ExportExcel.FollowersSheet` | src/lib/export-excel.ts:37-43 | one row per follower with a member, in query order, with name, phone and formatted date; `kol` is the member's fullname |
| `ExportExcel.PublicFollowersSheet` | src/lib/export-excel.ts:49-54 | one row per follower without a member, with name, phone and formatted date and no `kol` column |
| `ExportExcel.FollowerSheetsCoverTable` | src/lib/export-excel.ts:37-54 | the two follower sheets hold one row per follower of the table |
| `ExportExcel.KolSheet` | src/lib/export-excel.ts:44-48 | one row per user of the query, in order: row i carries user i's username and fullname only, and that user is in the table; every non-`magenta` user has a row, and no row is `magenta`'s |
| `AdminDashboard.StatusColor` | src/components/admin-dashboard.tsx:82-95 | open, in-progress and resolved each have their own colour; every other status, known or not, is gray |
| `AdminDashboard.PriorityColor` | src/components/admin-dashboard.tsx:97-110 | critical, high and medium each have their own colour; every other priority is gray |
| `AdminDashboard.MatchesSearch` | src/components/admin-dashboard.tsx:132-135 | the search part of the ticket filter, as a predicate; `FilterTicketsIff` states it in full |
| `AdminDashboard.Matches` | src/components/admin-dashboard.tsx:131-139 | search, status and priority filters together, as a predicate; `FilterTicketsIff` and `FilterTicketsMembership` state what it keeps |
| `AdminDashboard.FilterTickets` | src/components/admin-dashboard.tsx:131-140 | the filtered list is no longer than the ticket list; a ticket passing `Matches` appears as often as in the list, any other not at all |
| `AdminDashboard.FilterTicketsMembership` | src/components/admin-dashboard.tsx:131-140 | a ticket is kept exactly when it passes the predicate |
| `AdminDashboard.FilterTicketsIff` | src/components/admin-dashboard.tsx:131-140 | a ticket is kept exactly when the lower-cased term occurs in its lower-cased title, customer or id AND the status filter is `all` or its status AND the priority filter is `all` or its priority |
| `AdminDashboard.FilterTicketsIsSubsequence` | src/components/admin-dashboard.tsx:131-140 | the filtered list is an order-preserving subsequence of the tickets |
| `AdminDashboard.NoFilterKeepsAll` | src/components/admin-dashboard.tsx:122-140 | an empty search with both filters at `all` keeps every ticket in order |
| `AdminDashboard.JsSlice` | src/components/admin-dashboard.tsx:144 | `slice` never yields more than `end - start` elements; from a non-negative start, element k is element `start + k` of the list, and a range inside the list is taken whole |
| `AdminDashboard.VisibleTickets` | src/components/admin-dashboard.tsx:143-144 | never more than `itemsPerPage` tickets |
| `AdminDashboard.VisibleTicketsWindow` | src/components/admin-dashboard.tsx:143-144 | from page 1 on, row k is filtered ticket `(currentPage-1)*itemsPerPage + k`, and a page fully inside the list is full |
| `AdminDashboard.CountStatus` | src/components/admin-dashboard.tsx:176-178 | the count is the number of tickets with that status (its multiplicity in the status column), never more than the number of tickets |
| `AdminDashboard.StatusCountsBounded` | src/components/admin-dashboard.tsx:174-180 | open + in-progress + resolved counts never exceed the total |
| `AdminDashboard.TicketStats` | src/components/admin-dashboard.tsx:174-180 | total is the ticket count; open, in-progress and resolved are the counts of those statuses, and they sum to at most the total |
| `AdminDashboard.FirstPageAfterReset` | src/components/admin-dashboard.tsx:155-172 | on page 1 the table shows the first `itemsPerPage` filtered tickets |
| `AdminDashboard.DashboardState.constructor` | src/components/admin-dashboard.tsx:122-129 | empty search, both filters `all`, page 1, 10 per page |
| `AdminDashboard.DashboardState.PageCount` | src/components/admin-dashboard.tsx:142 | the least number of pages that hold the filtered tickets |
| `AdminDashboard.DashboardState.Visible` | src/components/admin-dashboard.tsx:143-144 | the shown tickets never exceed the page size |
| `AdminDashboard.DashboardState.HandlePageChange` | src/components/admin-dashboard.tsx:146-148 | sets the page; nothing else changes |
| `AdminDashboard.DashboardState.HandleItemsPerPageChange` | src/components/admin-dashboard.tsx:150-153 | sets the page size and resets the page to 1; nothing else changes |
| `AdminDashboard.DashboardState.HandleSearchChange` | src/components/admin-dashboard.tsx:159-162 | sets the search term and resets the page to 1; nothing else changes |
| `AdminDashboard.DashboardState.HandleStatusFilterChange` | src/components/admin-dashboard.tsx:164-167 | sets the status filter and resets the page to 1; nothing else changes |
| `AdminDashboard.DashboardState.HandlePriorityFilterChange` | src/components/admin-dashboard.tsx:169-172 | sets the priority filter and resets the page to 1; nothing else changes |
| `FollowerDashboard.AddDecision` | src/components/follower-dashboard.tsx:110-119 | nothing happens when a field is empty; with all fields filled, the cap alert fires exactly when the list holds 10 or more; otherwise create is called with exactly the form |
| `FollowerDashboard.EditRequest` | src/components/follower-dashboard.tsx:121-128 | an update is sent exactly when a follower is being edited and all three fields are filled; it carries that follower's id and the form fields |
| `FollowerDashboard.AddButtonDisabled` | src/components/follower-dashboard.tsx:224 | the Add button's `disabled` condition, as a predicate; `ButtonAgreesWithCap` states how it relates to the handler's cap |
| `FollowerDashboard.ButtonAgreesWithCap` | src/components/follower-dashboard.tsx:224 | on a list of at most 10 rows (one page), the Add button is disabled exactly when the handler would refuse for the cap |
| `FollowerDashboard.NoMatchEmptiesFilter` | src/server/routers/_app.ts:136-157 | when no follower matches the search, the filtered list is empty |
| `FollowerDashboard.SearchHidesCap` | src/components/follower-dashboard.tsx:69-72 | the cap reads the search-filtered first page: a search matching no follower lets a complete form through to create, however many followers are stored |
| `FollowerDashboard.Dashboard.constructor` | src/components/follower-dashboard.tsx:56-73 | no error, not loading, empty search, dialogs closed, nothing edited, empty form, empty list, count 0 |
| `FollowerDashboard.Dashboard.LoadData` | src/components/follower-dashboard.tsx:69-73 | the loaded page and count replace the list and the count |
| `FollowerDashboard.Dashboard.HandleAddFollower` | src/components/follower-dashboard.tsx:110-119 | the outcome is `AddDecision` of the form and list length; when it sends, loading is set and the error cleared (`onMutate`); otherwise nothing changes |
| `FollowerDashboard.Dashboard.OnCreateSuccess` | src/components/follower-dashboard.tsx:85-90 | empties the form, closes the add dialog and clears loading; nothing else changes |
| `FollowerDashboard.Dashboard.OnCreateError` | src/components/follower-dashboard.tsx:91-94 | stores the error message and clears loading; nothing else changes |
| `FollowerDashboard.Dashboard.HandleEditFollower` | src/components/follower-dashboard.tsx:121-128 | returns `EditRequest` of the edited follower and the form; changes nothing |
| `FollowerDashboard.Dashboard.OnUpdateSuccess` | src/components/follower-dashboard.tsx:97-102 | clears the edited follower, empties the form and closes the edit dialog |
| `FollowerDashboard.Dashboard.OpenEditDialog` | src/components/follower-dashboard.tsx:130-134 | records the follower as edited, copies its three fields into the form and opens the edit dialog |
| `FollowerDashboard.Dashboard.ResetForm` | src/components/follower-dashboard.tsx:136-139 | empties all three fields and clears the edited follower; nothing else changes |
| `FollowerDashboard.Dashboard.SetSearch` | src/components/follower-dashboard.tsx:291-293 | sets the search term only |
| `FollowerDashboard.Dashboard.DismissError` | src/components/follower-dashboard.tsx:479 | clears the error message only |
| `UserPage.RoleColor` | src/pages/user.tsx:43-52 | lower-case `administrator` is purple, `member` is blue, any other name is gray |
| `UserPage.StatusColor` | src/pages/user.tsx:54-63 | `active` is green, anything else is gray |
| `UserPage.SeededRoleBadgesAreGray` | src/pages/user.tsx:350 | a user holding a seeded role (`Administrator`, `Member`) always gets the gray badge |
| `UserPage.AddUserRequest` | src/pages/user.tsx:137-146 | a request exactly when fullname, username and password are all filled; it carries them and always role 2 |
| `UserPage.EditUserRequest` | src/pages/user.tsx:148-155 | a request exactly when a user is edited and fullname and username are filled (the password may be empty); it carries that user's id |
| `UserPage.EditFormAsWritten` | src/pages/user.tsx:157-161 | the form opened as written holds the user's stored hash as its password |
| `UserPage.EditAsWrittenReplacesHash` | src/pages/user.tsx:157-161 | saving an edit opened as written, without typing a password, sends the stored hash as a password, and the server replaces the hash |
| `UserPage.EditForm` | src/pages/user.tsx:157-161 | the form the edit dialog should start from: the user's fullname and username and an empty password |
| `UserPage.EditKeepsPasswordUnlessTyped` | src/pages/user.tsx:148-155 | an edit saved with the password left empty leaves the stored user exactly as it was; a typed password replaces the hash |
| `UserPage.Page.constructor` | src/pages/user.tsx:94-133 | nothing edited, dialogs closed, empty form, empty search, role filter `all`, page 1, 10 per page |
| `UserPage.Page.PageCount` | src/pages/user.tsx:135 | the least number of pages of `itemsPerPage` that hold `totalUsers` |
| `UserPage.Page.LoadTotal` | src/pages/user.tsx:86 | the loaded user count replaces the stored one |
| `UserPage.Page.ResetForm` | src/pages/user.tsx:103-106 | empties fullname, username and password and clears the edited user; nothing else changes |
| `UserPage.Page.HandleAddUser` | src/pages/user.tsx:137-146 | returns `AddUserRequest` of the form; changes nothing |
| `UserPage.Page.HandleEditUser` | src/pages/user.tsx:148-155 | returns `EditUserRequest` of the edited user and the form; changes nothing |
| `UserPage.Page.OpenEditDialog` | src/pages/user.tsx:157-161 | records the user as edited, copies the whole row into the form (the stored hash as password, `EditFormAsWritten`) and opens the edit dialog |
| `UserPage.Page.OnCreateSuccess` | src/pages/user.tsx:108-114 | resets the form and closes the add dialog |
| `UserPage.Page.OnUpdateSuccess` | src/pages/user.tsx:115-121 | resets the form and closes the edit dialog |
| `UserPage.Page.HandlePageChange` | src/pages/user.tsx:163-165 | sets the page only |
| `UserPage.Page.HandleItemsPerPageChange` | src/pages/user.tsx:167-170 | sets the page size and resets the page to 1 |
| `UserPage.Page.HandleSearchChange` | src/pages/user.tsx:294-297 | sets the search term and resets the page to 1 |
| `UserPage.Page.HandleRoleFilterChange` | src/pages/user.tsx:304-307 | sets the role filter and resets the page to 1 |

## Left out

- The bcrypt calls `compareSync`, `hashSync` and `genSaltSync` are foreign. The comparison is a predicate parameter and a new hash is an argument. No equality between hashes is stated, because the salt is random.
- Token signing and verification with jsonwebtoken are foreign calls. `src/server/context.ts` decodes the token, but no procedure reads the result, so no authorization is modelled.
- Query-engine semantics are not modelled.
  - How `contains` treats the literal `%` around the search term depends on the database driver, so the match is a predicate parameter.
  - Strings are ordered by code point, because the database collation is unknown.
  - `findMany` without `orderBy` is taken to return table order.
- Router.GetUsers: users with equal sort keys keep their table order. The database does not fix that order.
- Router.GetUsers: the joined `role` and `followers` relations are not attached to the returned rows. The same holds for `Router.Login`, whose returned user lacks the `role` it includes.
- Router.Store.UpdateUser: an update or delete of a missing id is modelled as a RecordNotFound error that changes nothing. The query layer's exact error is library behaviour. The same holds for `Router.Store.DeleteUser`, `Router.Store.UpdateFollower` and `Router.Store.DeleteFollower`.
- Router.Store.CreateUser: the only constraint modelled is username uniqueness. Foreign keys (`roleId`, `memberId`) are not checked, so `memberId = 2` is stored even when user 2 does not exist.
- Router.Store.DeleteUser: what happens to the followers of a deleted user depends on the database schema. That schema is not part of this model, so the follower table is left untouched.
- The `updatedAt` column is not modelled. Its upkeep is declared in the database schema, which is not part of this model.
- Router.GetFollowers: a page below 1 gives a negative `skip`, and this is modelled as an InvalidArgument error. Fractional page numbers, which the input validation accepts, are not modelled.
- Date parsing (`new Date(arrivalDate)`) is left out. Callers pass the calendar fields. Locale formatting (`toLocaleDateString`) and the comparisons against the current clock are left out because they depend on time zone and locale.
- Common.Lower: only the ASCII letters are folded. JavaScript's `toLowerCase` also folds other scripts.
- Common.TotalPages: requires a positive page size. With 0, JavaScript would produce `Infinity` or `NaN`. The page-size choices offered by the pagination component are not part of this model. The same requirement is on `AdminDashboard.VisibleTickets`, `AdminDashboard.DashboardState.PageCount`, `AdminDashboard.DashboardState.Visible` and `UserPage.Page.PageCount`.
- Floating-point display values are left out: the capacity percentage (`Math.round`) and the per-member average on the follower page.
- Spreadsheet workbook and buffer writing are left out, as is the HTTP download handler of the export. The model ends at the list of sheets with their rows.
- Browser state is left out: local storage, the login page, redirects, `alert`, and the refetches that follow a mutation. React's deferred state updates are modelled as immediate assignments.
- The delete buttons only send `deleteFollower` or `deleteUser`, and their callbacks only refetch. The server side of delete is modelled.
- UserPage.Page.HandleSearchChange: the user page stores `searchTerm` and `roleFilter` but passes neither to any query. The table lists every user unsliced, so only `totalPages` depends on the pagination state. The model reproduces this.
- UserPage.StatusColor is only ever called with `active`, because every user has a creation time.
- The roles endpoint, the seed script (except its two role names), the public registration page, the follower page and all JSX rendering are not modelled.

## Findings

| source | as written | input that shows it | evidently intended | confidence | as-written member | corrected member |
|---|---|---|---|---|---|---|
| src/pages/user.tsx:157-161 | `openEditDialog` copies the whole row into the form, including `password`. That field holds the bcrypt hash returned by `getUsers`. `handleEditUser` sends it back, and `updateUser` hashes any non-empty password again. | Open the edit dialog on any user and press Save without typing a password. The stored hash is replaced by a hash of the old hash string, and the old password no longer logs in. | The password field starts empty, so an untouched edit keeps the stored hash. The server already treats an empty password that way (src/server/routers/_app.ts:107). | medium, not executed | `UserPage.EditAsWrittenReplacesHash` | `UserPage.EditKeepsPasswordUnlessTyped` |
