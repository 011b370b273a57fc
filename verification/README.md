# Organisation and user management, modelled in Dafny

This project models the core of a small B2B organisation manager. A
FastAPI/SQLAlchemy backend keeps two MySQL tables, `organisation` and
`user`, with a cascade from an organisation to its users. It serves them
under `/organisations`:

- create, list, read, update and delete an organisation;
- change an organisation's status, checked against a whitelist;
- add, update and delete the users of one organisation, each guarded by
  a check that the user belongs to it.

Two React pages use the API:

- the organisation list, with a search box and an "add organisation"
  dialog;
- the organisation detail page, with a profile editor that works on a
  draft copy, and dialogs to add and edit users and to change the status.

The model is functional:

- **Tables.** They are sequences in insertion order, so `.first()` is
  the first match and `.all()` is insertion order. MySQL returns an
  unordered `SELECT` in primary-key order instead (see "Left out").
- **Constraints.** The schema's constraints form a validity predicate:
  the primary keys, the unique name and slug, the column widths, the
  INT range and the foreign key.
- **Writes.** Each write either succeeds with the new database or fails
  with `Conflict`. `Conflict` is the integrity or data error that reaches
  the client as HTTP 500.
- **Request bodies.** Each field is either left out or given, possibly
  as null. The update merge writes exactly the given fields
  (`exclude_unset`). Creation fills in the schema defaults for left-out
  fields. A null given for a column that declares a default stores that
  default, because the ORM leaves a null attribute out of the INSERT.
- **Page handlers.** Each is a pure transition. It takes the page state
  and whether `fetch` threw, and returns the new state and the requests
  it sent. `Sync` serves those requests in order against the database
  and feeds every refetch back into the page, so whole interactions can
  be stated as lemmas. The `Scenarios` module holds them.

Modules:

- `Wrappers`, `Seqs`, `Text`: option type; order-preserving filter and
  pairwise distinctness; ASCII `toLowerCase` and `includes`.
- `Models`: the two tables, their columns' widths and the validity
  predicate.
- `Schemas`: request and response documents, defaults, parsing (HTTP 422).
- `Crud`: the data-access functions.
- `Routes`: the endpoints with their 400/404/422 guards.
- `Api`: the requests the pages send.
- `Palette`: the badge colours.
- `OrganizationsPage`, `OrganizationDetails`: the two pages.
- `Sync`: pages and backend together.
- `Scenarios`: end-to-end interactions.

## Model

| member | source | states |
|---|---|---|
| Models.OrgIndex | backend/crud.py:66 | the row `.first()` finds for a key: none exactly when no row has the key, otherwise a row with the key and no earlier one |
| Models.UserIndex | backend/crud.py:75 | the same for the user table |
| Models.OrgIndexUnique | backend/models.py:16 | on a valid database the row with a given primary key is the one `.first()` returns |
| Models.UserIndexUnique | backend/models.py:68 | the same for the user primary key |
| Models.UsersOf | backend/models.py:58 | an organisation's users are exactly the users whose foreign key names it |
| Models.UsersOfAppend | backend/models.py:58 | a newly inserted user joins the end of its organisation's user list and no other list |
| Models.UserKeyUnique | backend/models.py:68 | on a valid database two users with the same key are the same user |
| Schemas.StatusOnly | backend/routers/organisations.py:34 | the status endpoint's update document gives the status field and leaves every other field out |
| Schemas.ParseOrgCreate | backend/schemas/schemas.py:26 | a creation body is accepted exactly when `org_name` is given and not null; otherwise it is rejected (422) |
| Schemas.ParseOrgCreateDefaults | backend/schemas/schemas.py:26-41 | a left-out field takes its declared default: Active, 0 pending, 5 coordinators, India Standard Time, Asia/Colombo, English, and null for every other field; each given field, null included, is kept as given |
| Schemas.ParseUserCreate | backend/schemas/schemas.py:7-9 | a user body is accepted exactly when `user_name` is given and not null; the name and the role as given are kept |
| Schemas.RoleOf | backend/schemas/schemas.py:9 | a created user's role is the given one, or null when left out |
| Schemas.ResponseOf | backend/schemas/schemas.py:64-68 | the organisation document carries the row and exactly the users that belong to it |
| Schemas.ResponseUsersDefaultEmpty | backend/schemas/schemas.py:68 | an organisation no user belongs to is returned with an empty user list |
| Schemas.FieldsOf | frontend/pixel-perfect-realized-main/src/pages/OrganizationDetails.tsx:173 | serialising a whole organisation gives all sixteen body fields, each holding the row's value, nulls included |
| Crud.NewOrgRow | backend/models.py:23-47 | the inserted row has the generated key and the document's values; a null status, pending count, coordinator limit, time zone or language stores that column's default |
| Crud.CreateOrganisation | backend/crud.py:8-13 | insertion succeeds exactly when the row fits its columns and clashes with no key, name or slug; then the row is appended and users are untouched |
| Crud.GetOrganizations | backend/crud.py:15-16 | the listing holds exactly the organisations of the table |
| Crud.GetOrganization | backend/crud.py:18-19 | the lookup finds nothing exactly when the key is absent, otherwise a row with that key |
| Crud.DeleteOrganization | backend/crud.py:21-26 | deletion returns nothing and changes nothing for an absent key; otherwise it removes exactly that row, keeps every other organisation, and by cascade removes exactly its users |
| Crud.CreateUser | backend/crud.py:31-43 | insertion succeeds exactly when the key is fresh, the organisation exists and the row fits; the new user is linked to the given organisation and appended |
| Crud.GetUsers | backend/crud.py:45-56 | a non-empty key returns exactly that organisation's users; no key or an empty key returns the whole table |
| Crud.DeleteUser | backend/crud.py:58-63 | deletion returns nothing for an absent key; otherwise the user table loses exactly the returned user (as a multiset) and organisations are untouched |
| Crud.MergeOrg | backend/crud.py:68-69 | the merged row writes exactly the given fields and keeps the others; it exists exactly when no NOT NULL column is set to null |
| Crud.UpdateOrganisation | backend/crud.py:65-72 | an absent key is reported missing; success replaces exactly the addressed row with the merge of the update and leaves users alone; the write is refused exactly when it nulls a NOT NULL column, overflows a column or clashes with another row |
| Crud.MergeUser | backend/crud.py:77-78 | a user update always writes the name, writes the role only when given, and keeps key and organisation |
| Crud.UpdateUser | backend/crud.py:74-81 | an absent key is reported missing; success replaces exactly the addressed user with the merge; the write is refused exactly when the merged row does not fit its columns |
| Crud.MergeNothing | backend/crud.py:68-69 | an update that gives no field leaves the row unchanged |
| Crud.MergeStatusOnly | backend/routers/organisations.py:34 | a status-only update changes the status and nothing else |
| Crud.MergeFullDocument | backend/crud.py:68-69 | writing a whole document onto a row yields that document under the row's own key |
| Crud.MergeIdempotent | backend/crud.py:65-72 | applying the same update twice is applying it once |
| Crud.CreateOrganisationKeepsValid | backend/crud.py:8-13 | creating an organisation keeps every schema constraint |
| Crud.UpdateOrganisationKeepsValid | backend/crud.py:65-72 | updating an organisation keeps every schema constraint |
| Crud.DeleteOrganizationKeepsValid | backend/crud.py:21-26 | deleting an organisation, with its cascade, keeps every schema constraint, the foreign key included |
| Crud.DeleteOrganizationRemovesAll | backend/crud.py:21-26 | after a deletion the key is no longer found and no user points at it |
| Crud.CreateUserKeepsValid | backend/crud.py:31-43 | creating a user keeps every schema constraint |
| Crud.UpdateUserKeepsValid | backend/crud.py:74-81 | updating a user keeps every schema constraint |
| Crud.DeleteUserKeepsValid | backend/crud.py:58-63 | deleting a user keeps every schema constraint |
| Routes.CreateOrg | backend/routers/organisations.py:8-10 | a body without a name is a 422; a named body succeeds exactly when the insertion does, and a refused insertion is a 500; success stores and replies with the row built from the parsed body, its defaults filled in, under the generated key, appended to the table |
| Routes.GetOrgs | backend/routers/organisations.py:12-14 | the listing replies with one document per row, in table order, and changes nothing |
| Routes.GetOrg | backend/routers/organisations.py:16-21 | 404 exactly when the key is absent; an existing key always succeeds with the document of that row and exactly its users, changing nothing |
| Routes.UpdateOrg | backend/routers/organisations.py:23-28 | 404 for an absent key; the reply is 200 exactly when the update is written, and a refused write is a 500; success replies with the updated row |
| Routes.UpdateOrgStatus | backend/routers/organisations.py:30-37 | a status outside Active/Blocked/Inactive is a 400 before any lookup; an absent key is a 404; success echoes the status |
| Routes.UpdateOrgStatusChangesOnlyStatus | backend/routers/organisations.py:30-37 | on a valid database a whitelisted status for an existing organisation succeeds and changes that row's status and nothing else |
| Routes.DeleteOrg | backend/routers/organisations.py:39-44 | 404 exactly when the key is absent; an existing key always succeeds, applies the cascading delete and replies with the deleted organisation's document as it stood before |
| Routes.CreateUserForOrg | backend/routers/organisations.py:47-53 | the body is checked first (422), then the organisation (404); past both, the reply is 200 exactly when the insertion succeeds, otherwise 500; success appends and replies with a user linked to it under the generated key, with the body's name and role |
| Routes.MemberOf | backend/routers/organisations.py:58-60 | for a non-empty organisation key, a user is found exactly when a user with that key belongs to the organisation |
| Routes.UpdateUserInOrg | backend/routers/organisations.py:55-62 | 422 for a bad body, 404 when the user is not in the organisation; past both, the reply is 200 exactly when the user update is written, otherwise 500 |
| Routes.DeleteUserFromOrg | backend/routers/organisations.py:64-71 | 404 when the user is not in the organisation; success is the user deletion |
| Routes.DeleteUserFromOrgRemovesKey | backend/routers/organisations.py:64-71 | on a valid database the delete succeeds exactly when the user belongs to the organisation; then no user has the key and every other user is kept |
| Routes.UpdateUserInOrgWrites | backend/routers/organisations.py:55-62 | on a valid database an edit of a member with a fitting name and role succeeds and stores exactly that name and role under the same key and organisation |
| Text.LowerChar | frontend/pixel-perfect-realized-main/src/pages/Organizations.tsx:65 | a lower-cased character is never an ASCII capital, and non-capitals are unchanged |
| Text.ToLower | frontend/pixel-perfect-realized-main/src/pages/Organizations.tsx:65 | lower-casing keeps the length and maps each character |
| Text.ToLowerIdempotent | frontend/pixel-perfect-realized-main/src/pages/Organizations.tsx:65 | lower-casing twice is lower-casing once |
| Text.Includes | frontend/pixel-perfect-realized-main/src/pages/Organizations.tsx:65 | `includes` holds exactly when the term occurs at some position |
| Seqs.Filter | frontend/pixel-perfect-realized-main/src/pages/Organizations.tsx:64 | the filter keeps exactly the elements that pass, and nothing else |
| OrganizationsPage.ToRow | frontend/pixel-perfect-realized-main/src/pages/Organizations.tsx:46-52 | a row keeps key and name, gets the logo, and falls back to 0 pending and Active for missing or empty values |
| OrganizationsPage.FormatKeepsEntries | frontend/pixel-perfect-realized-main/src/pages/Organizations.tsx:46-52 | the mapping keeps length, order, keys and names and fills in the defaults |
| OrganizationsPage.FilterRows | frontend/pixel-perfect-realized-main/src/pages/Organizations.tsx:63-68 | the filtered list holds exactly the rows whose lower-cased name includes the lower-cased term |
| OrganizationsPage.FilterRowsKeepsOrder | frontend/pixel-perfect-realized-main/src/pages/Organizations.tsx:64-66 | filtering a concatenation is concatenating the filtered halves, so list order is kept |
| OrganizationsPage.FilterRowsIdempotent | frontend/pixel-perfect-realized-main/src/pages/Organizations.tsx:64-66 | filtering the filtered list again changes nothing |
| OrganizationsPage.FilterRowsEmptyTerm | frontend/pixel-perfect-realized-main/src/pages/Organizations.tsx:64-66 | an empty search shows every organisation |
| OrganizationsPage.Initial | frontend/pixel-perfect-realized-main/src/pages/Organizations.tsx:33-40 | the page starts with no organisations, the dialog closed and the filtered list consistent |
| OrganizationsPage.Mount | frontend/pixel-perfect-realized-main/src/pages/Organizations.tsx:59-61 | mounting fetches the list once |
| OrganizationsPage.ReceiveList | frontend/pixel-perfect-realized-main/src/pages/Organizations.tsx:42-57 | a fetched array replaces the list and the filter is recomputed, and nothing else on the page changes; a throw leaves the page unchanged |
| OrganizationsPage.SetSearchTerm | frontend/pixel-perfect-realized-main/src/pages/Organizations.tsx:122 | typing a search changes the term and recomputes the filter over the same list, and nothing else on the page changes |
| OrganizationsPage.SetAddDialogOpen | frontend/pixel-perfect-realized-main/src/pages/Organizations.tsx:218 | opening or closing the dialog leaves the lists, the term and the buffers alone |
| OrganizationsPage.EditBuffer | frontend/pixel-perfect-realized-main/src/pages/Organizations.tsx:230-256 | typing into an input changes that buffer only |
| OrganizationsPage.AddOrgBody | frontend/pixel-perfect-realized-main/src/pages/Organizations.tsx:75-80 | the creation body gives the four buffers as name, slug, mail and contact and leaves every other field out, so the backend defaults apply |
| OrganizationsPage.AddOrganization | frontend/pixel-perfect-realized-main/src/pages/Organizations.tsx:70-87 | the dialog posts the four buffers; if fetch returns, the list is refetched and the dialog closes; if it throws, nothing else happens |
| OrganizationsPage.DeleteOrganization | frontend/pixel-perfect-realized-main/src/pages/Organizations.tsx:89-98 | deleting sends one DELETE and, unless fetch threw, a refetch; the page itself is unchanged |
| OrganizationsPage.TransitionsKeepConsistent | frontend/pixel-perfect-realized-main/src/pages/Organizations.tsx:63-68 | every transition keeps the filtered list equal to the filter of the list by the term |
| Palette.StatusColor | frontend/pixel-perfect-realized-main/src/pages/Organizations.tsx:100-111 | green exactly for Active, red exactly for Blocked, gray for everything else |
| Palette.RoleBadgeColor | frontend/pixel-perfect-realized-main/src/pages/OrganizationDetails.tsx:191-195 | green exactly for Admin, yellow otherwise |
| OrganizationDetails.Initial | frontend/pixel-perfect-realized-main/src/pages/OrganizationDetails.tsx:51-63 | the page starts loading, with nothing cached, every dialog closed and no draft |
| OrganizationDetails.Mount | frontend/pixel-perfect-realized-main/src/pages/OrganizationDetails.tsx:77-81 | the page fetches its organisation exactly when the route id is present and non-empty |
| OrganizationDetails.Receive | frontend/pixel-perfect-realized-main/src/pages/OrganizationDetails.tsx:65-75 | a decoded document replaces the cache; a throw keeps it; loading ends either way; nothing else changes |
| OrganizationDetails.ReceiveIdempotent | frontend/pixel-perfect-realized-main/src/pages/OrganizationDetails.tsx:65-75 | receiving the same response twice is receiving it once |
| OrganizationDetails.SetAddUserOpen | frontend/pixel-perfect-realized-main/src/pages/OrganizationDetails.tsx:619 | the add-user dialog flag changes and nothing else on the page does |
| OrganizationDetails.SetEditUserOpen | frontend/pixel-perfect-realized-main/src/pages/OrganizationDetails.tsx:660 | the edit-user dialog flag changes and nothing else on the page does, the targeted user included |
| OrganizationDetails.SetStatusChangeOpen | frontend/pixel-perfect-realized-main/src/pages/OrganizationDetails.tsx:701 | the status dialog flag changes and nothing else on the page does, the selection included |
| OrganizationDetails.SetNewUserName | frontend/pixel-perfect-realized-main/src/pages/OrganizationDetails.tsx:630 | typing the user name changes that buffer and nothing else on the page |
| OrganizationDetails.SetNewUserRole | frontend/pixel-perfect-realized-main/src/pages/OrganizationDetails.tsx:635 | choosing a role changes that buffer and nothing else on the page |
| OrganizationDetails.SetSelectedStatus | frontend/pixel-perfect-realized-main/src/pages/OrganizationDetails.tsx:709 | choosing a status changes the selection and nothing else on the page |
| OrganizationDetails.UserBody | frontend/pixel-perfect-realized-main/src/pages/OrganizationDetails.tsx:89-92 | the user document carries the name and role buffers |
| OrganizationDetails.HandleAddUser | frontend/pixel-perfect-realized-main/src/pages/OrganizationDetails.tsx:83-99 | without an id nothing is sent; otherwise a create scoped to the id, then a refetch and a closed dialog unless fetch threw |
| OrganizationDetails.HandleDeleteUser | frontend/pixel-perfect-realized-main/src/pages/OrganizationDetails.tsx:101-114 | without an id nothing is sent; otherwise one DELETE scoped to the id and, unless fetch threw, a refetch |
| OrganizationDetails.HandleEditUser | frontend/pixel-perfect-realized-main/src/pages/OrganizationDetails.tsx:128-133 | editing targets the user, fills the name and role buffers from it and opens the dialog, and nothing else on the page changes |
| OrganizationDetails.HandleUpdateUser | frontend/pixel-perfect-realized-main/src/pages/OrganizationDetails.tsx:135-155 | without an id or target nothing is sent; otherwise a PUT to the target, then a refetch, a closed dialog and no target unless fetch threw |
| OrganizationDetails.StatusOf | frontend/pixel-perfect-realized-main/src/pages/OrganizationDetails.tsx:263 | the status read from the cache is the document's status; an error document has none |
| OrganizationDetails.QueryText | frontend/pixel-perfect-realized-main/src/pages/OrganizationDetails.tsx:119 | a present value is interpolated as itself; an absent one (the selection preset from an error document) as "undefined" |
| OrganizationDetails.OpenChangeStatus | frontend/pixel-perfect-realized-main/src/pages/OrganizationDetails.tsx:262-265 | the button preselects the cached status and opens the dialog |
| OrganizationDetails.HandleChangeStatus | frontend/pixel-perfect-realized-main/src/pages/OrganizationDetails.tsx:116-126 | without an id nothing is sent; otherwise one status PUT and, unless fetch threw, a refetch; no optimistic update |
| OrganizationDetails.CommitChangeStatus | frontend/pixel-perfect-realized-main/src/pages/OrganizationDetails.tsx:727-730 | the dialog sends the selection and closes whether or not the request went through |
| OrganizationDetails.HandleEditDetails | frontend/pixel-perfect-realized-main/src/pages/OrganizationDetails.tsx:157-160 | edit mode starts with the draft a copy of the cache; nothing else changes |
| OrganizationDetails.HandleCancelEdit | frontend/pixel-perfect-realized-main/src/pages/OrganizationDetails.tsx:162-165 | cancelling leaves edit mode and drops the draft; nothing else changes |
| OrganizationDetails.BodyFields | frontend/pixel-perfect-realized-main/src/pages/OrganizationDetails.tsx:173 | a draft document is sent as its full field set; a draft error document as the keys added to it |
| OrganizationDetails.HandleSaveDetails | frontend/pixel-perfect-realized-main/src/pages/OrganizationDetails.tsx:167-181 | without an id or draft nothing is sent; otherwise a PUT of the whole draft; a returned fetch refetches, leaves edit mode and drops the draft, changing nothing else on the page; a throw keeps the draft |
| OrganizationDetails.ApplyEdit | frontend/pixel-perfect-realized-main/src/pages/OrganizationDetails.tsx:183-189 | one field edit sets that field and keeps every other field of the draft |
| OrganizationDetails.ApplyEditFields | frontend/pixel-perfect-realized-main/src/pages/OrganizationDetails.tsx:183-189 | on an error document, one field edit adds that key with the typed value and keeps every other key |
| OrganizationDetails.EditBody | frontend/pixel-perfect-realized-main/src/pages/OrganizationDetails.tsx:183-189 | a field edit on a draft document edits its row; on an error document it keeps the error |
| OrganizationDetails.HandleOrgFieldChange | frontend/pixel-perfect-realized-main/src/pages/OrganizationDetails.tsx:183-189 | without a draft nothing happens; otherwise only the draft changes |
| OrganizationDetails.EditField | frontend/pixel-perfect-realized-main/src/pages/OrganizationDetails.tsx:339 | form inputs change nothing outside edit mode |
| OrganizationDetails.EditFieldsTouchOnlyDraft | frontend/pixel-perfect-realized-main/src/pages/OrganizationDetails.tsx:339-537 | any series of form edits changes only the draft, and nothing at all without one |
| OrganizationDetails.DraftIsolation | frontend/pixel-perfect-realized-main/src/pages/OrganizationDetails.tsx:157-165 | edit, any edits, cancel: the page is as before, out of edit mode and without a draft |
| OrganizationDetails.SaveRetry | frontend/pixel-perfect-realized-main/src/pages/OrganizationDetails.tsx:167-181 | a save that threw keeps the draft, so saving again sends the same PUT |
| Sync.Serve | backend/routers/organisations.py:8-71 | a read request is served by the read endpoint and never changes the database |
| Sync.ServeKeepsValid | backend/routers/organisations.py:8-71 | every endpoint keeps every schema constraint |
| Sync.DetailResponseOf | frontend/pixel-perfect-realized-main/src/pages/OrganizationDetails.tsx:67-69 | a document reply decodes to that document; a 404 decodes to the error document, not to a throw |
| Sync.ListResponseOf | frontend/pixel-perfect-realized-main/src/pages/Organizations.tsx:44-45 | a list reply decodes to an array whose entry i is the serialised organisation i; any other reply throws |
| Sync.DriveDetailsKeepsValid | frontend/pixel-perfect-realized-main/src/pages/OrganizationDetails.tsx:83-181 | whatever requests the detail page sends, the database stays valid |
| Sync.DriveMutationThenDetail | frontend/pixel-perfect-realized-main/src/pages/OrganizationDetails.tsx:94 | after a mutation and its refetch the page holds the document as it stands after the mutation |
| Sync.DriveMutationThenList | frontend/pixel-perfect-realized-main/src/pages/Organizations.tsx:82 | after a mutation and its refetch the list page holds the list as it stands after the mutation |
| Sync.RefetchedRows | frontend/pixel-perfect-realized-main/src/pages/Organizations.tsx:42-57 | the refetched list has one row per organisation, in table order, with its key, name, logo, pending count and status |
| Scenarios.AddUserScenario | frontend/pixel-perfect-realized-main/src/pages/OrganizationDetails.tsx:83-99 | adding a user with any fitting name and role to any organisation without users ends with the dialog closed and exactly that user shown |
| Scenarios.DeleteUserScenario | frontend/pixel-perfect-realized-main/src/pages/OrganizationDetails.tsx:101-114 | after deleting a user and the refetch, no user with that key is shown, every other user of the organisation still is, and the database stays valid |
| Scenarios.UpdateUserScenario | frontend/pixel-perfect-realized-main/src/pages/OrganizationDetails.tsx:135-155 | after editing a member with a fitting name and role and the refetch, the user is shown under the same key with the dialog's name and role, no other entry has that key, and the dialog is closed |
| Scenarios.UpdateUserWrite | backend/crud.py:74-81 | the edit request of a member with a fitting name and role leaves a valid database holding the user with that name and role under the same key and organisation |
| Scenarios.RefetchShowsUser | backend/crud.py:18-19 | on a valid database the document of a user's organisation lists that user, and no other entry with its key |
| Scenarios.ChangeStatusScenario | frontend/pixel-perfect-realized-main/src/pages/OrganizationDetails.tsx:727-730 | changing to any whitelisted status keeps the cached status until the refetch, then shows the new one; the dialog is closed |
| Scenarios.UnchangedWrite | backend/crud.py:65-72 | writing a row's own full document back succeeds and leaves the database as it was |
| Scenarios.SaveUnchangedDraft | frontend/pixel-perfect-realized-main/src/pages/OrganizationDetails.tsx:157-181 | edit then save without changes leaves the database unchanged and the page out of edit mode with the refetched document |
| Scenarios.SaveWritesDraft | frontend/pixel-perfect-realized-main/src/pages/OrganizationDetails.tsx:167-181 | a successful save writes the draft onto the addressed row under the addressed key, users untouched |
| Scenarios.DeletedOrgGone | backend/routers/organisations.py:39-44 | after the delete endpoint the key is gone and the database is valid |
| Scenarios.DeleteFromListScenario | frontend/pixel-perfect-realized-main/src/pages/Organizations.tsx:89-98 | after deleting from the list the refetched list is one shorter and lacks the key, and a stale detail page's save gets a 404 |
| Scenarios.RowsWithout | frontend/pixel-perfect-realized-main/src/pages/Organizations.tsx:46-53 | a list refetched from a table without a key shows no row with that key |
| Scenarios.AddOrgRow | frontend/pixel-perfect-realized-main/src/pages/Organizations.tsx:75-80 | the list page's creation body is accepted and inserts a row with the generated key, the name, slug, mail and contact buffers, Active and 0 pending |
| Scenarios.AddOrganizationScenario | frontend/pixel-perfect-realized-main/src/pages/Organizations.tsx:70-87 | adding a new organisation ends with the dialog closed and its row in the list (last, in insertion order), shown Active with 0 pending |
| Scenarios.UnknownOrganizationScenario | frontend/pixel-perfect-realized-main/src/pages/OrganizationDetails.tsx:65-75 | opening an unknown key caches the 404 error document as the organisation, so the page does not show its not-found view |

## Behaviour worth noting

- **Input buffers are never cleared.** The user name, role and
  organisation buffers survive both commit and cancel.
  `OrganizationDetails.HandleAddUser` and `OrganizationsPage.AddOrganization`
  keep them.
- **Non-2xx replies count as success.** Only a thrown `fetch` is a
  failure. A 400, 404 or 422 reply still closes the dialog and triggers
  the refetch. A 500 from a refused write is different: it leaves the
  server without the CORS header, so the browser makes `fetch` throw.
- **The status dialog closes unconditionally.** It closes even when the
  request throws (`OrganizationDetails.CommitChangeStatus`).
- **The draft is cleared at once.** It is dropped as soon as the PUT
  returns, not once the refetch has resolved. In the model the refetch
  completes at once, so the two coincide.
- **The profile draft carries the status.** A save writes it back
  (`Scenarios.SaveWritesDraft`), so the status is not changed only
  through the status dialog.
- **A 404 on the detail fetch is not a load failure.** Its error
  document is cached as the organisation
  (`Scenarios.UnknownOrganizationScenario`).
- **Dialogs are four independent flags.** Nothing stops two of them
  being open at once.
- **In-flight requests are not serialised.** The model lets every
  request complete before the next action.

## Left out

- HTTP transport, JSON encoding, CORS and the application entry point are left out. A reply is a status code and a document.
- A 500 reply makes the browser's `fetch` throw, since it carries no CORS header. The page handlers take the outcome of `fetch` as a parameter, and `Sync` does not derive it from the reply. The scenarios pass `Responded` only where the reply is not a 500, or state only what holds once the request succeeded.
- Crud.CreateOrganisation: the new row is appended, so the table keeps insertion order. MySQL's InnoDB returns an unordered `SELECT` in primary-key order, so with random UUID keys a new row can appear anywhere.
- Crud.CreateUser: the new user is appended. The same insertion-order assumption applies to the user table.
- Routes.CreateOrg: the reply's database holds the new row at the end, which rests on the same insertion-order assumption.
- Models.UsersOfAppend: "joins the end" rests on insertion order. With primary-key order the new user can land anywhere in the list.
- Routes.GetOrgs: "table order" here means insertion order, not key order.
- Sync.RefetchedRows: the rows follow insertion order, not key order.
- Scenarios.AddOrganizationScenario: the new row's last position rests on insertion order. Its membership in the list does not.
- SQL sessions, transactions and `db.refresh` are left out. Each write is atomic.
- Timestamps (`created_date`, `updated_date`) and UUID generation are left out. The generated key is a parameter, and the timestamps are absent from the rows.
- The unique name and slug are compared under the table's collation, which nothing in the code fixes. MySQL's default collations are case-insensitive, and MySQL 8's `utf8mb4_0900_ai_ci` is accent-insensitive as well, so names differing only in case or accents may clash. The model uses exact equality.
- Unicode case mapping is left out: `toLowerCase` is modelled on ASCII letters only.
- The list mapping's `||` fallbacks are modelled on the values a JSON reply can carry: a missing, null, zero or empty value falls back. Other JavaScript falsy values, such as `NaN` or `false`, cannot arrive there and are left out. The coordinator picker's `parseInt` is modelled as yielding an integer; a `NaN` from a non-numeric pick is left out.
- Asynchronous interleaving is left out. A refetch completes before the next user action, and a mutation's `fetch` resolves before the page continues.
- Rendering, tabs, navigation, the profile header and the display-only fallbacks of the form inputs are left out.
- The support page and the unscoped user router (`routers/users.py`) are not part of this model.
- A user's foreign key is always set here. The column is nullable, but no endpoint leaves it null.
- pydantic's lax coercion (for example a number given for a string field) is left out. Fields carry values of their declared types.
- The save sends the whole draft with `JSON.stringify`, so `org_id`, `users` and an error document's `detail` go along too. The update document declares none of them, and pydantic ignores unknown keys. The model's update body therefore carries only the organisation fields, and a draft made from a 404 document carries only the keys the form wrote.
- The status query string is not URL-encoded.
