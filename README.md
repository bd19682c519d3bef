# stack-radar in Dafny

A model of the sequential logic of stack-radar. Stack-radar is a "technology radar" admin application: a React front-end over a FastAPI back-end, recording the technologies, projects, teams and users of an organisation. Every network, database, cookie and storage call is an abstract, already-settled result. What remains is modelled as Dafny datatypes, functions, classes and lemmas, with one module per source file or component.

**Front-end**

- `Transport` models `request`: the URL, method, headers and body of the `fetch`, and how a settled response becomes a value or a thrown message.
- `Query` models `buildQuery`, and `Api` models the `api` object's calls.
- `Storage` and `Session` model the cookie jar, `localStorage` and `AuthContext`.
- `ListControl` is the list-page state machine shared by the four list screens: the query, the adopted page, the loading flag, the dialog state and the pagination controls. It is a generic `ListController` class. `Technologies`, `Projects`, `Users` and `Teams` each instantiate it and add their schemas, payloads, handlers, filter bars and table display rules.
- `MultiSelect` and `ProjectForm` model the id/string conversions of the project form.
- `Layout`, `Guards`, `Login` and `Dashboard` model the shell and its screens.
- `Archive` models the admin archive flow: preview, then a gated confirmation, then execution.

**Back-end**

- `Pagination`, `Utils` and `Exceptions` model the core helpers.
- `Sql` and `Listing` model the WHERE clauses and statements the list endpoints build, with their numbered `$n` placeholders.
- `ProjectRoutes`, `TechnologyRoutes`, `TeamRoutes`, `AuthRoutes` and `AdminRoutes` model the routers. Each endpoint is a decision over the lookups of `Store`: the checks it makes and the order it makes them in, and the reply or error it yields.
- `Cli` models the migration planner and `main`'s dispatch. `MigrationManager` is a class over the migrations directory's file list and the tracking table. It reads versions and prints the pending count as the code does; the corrected readings of the two findings below are proved beside it.
- `Config` models the settings as a function of an environment map.

**Across the two halves**

- `EndToEnd` joins the halves: what a back-end error becomes on screen, and that the page sizes, sort keys and sort orders the screens send are ones the back-end accepts.

**What is a parameter or abstract**

- The outcome of every awaited call is a parameter of the handler that awaits it.
- `JSON.parse`/`JSON.stringify` of the stored user are codec parameters.
- zod's e-mail and URL formats are predicate parameters.
- Password verification and token issuing (passlib, jose) are function parameters.
- `input()` and the migration timestamp are parameters.
- The database is the key sets and maps of `Store`.

In these places the model follows the code, though the behaviour may not be intended:

- A sort click does not reset the page to 1, although every filter and page-size change does.
- A 401 reply only throws `Unauthorized`. Nothing clears the session.
- A list load has no guard against a stale reply overtaking a newer one.
- The users screen keeps a role filter that re-runs the reload effect, but `load` never sends it. The back-end's parameter is `is_admin`.
- `migrate down --steps 0` rolls back every applied migration, because `applied[-0:]` is the whole list. This is modelled as written.
- After a successful archive execution, a failing history reload replaces the success banner with its error.

## Model

| member | source | states |
|---|---|---|
| Transport.BaseUrl | frontend/src/api/client.ts:159-163 | the base URL is `VITE_API_BASE_URL` when it is set and non-empty, else `/api/v1` |
| Transport.PrepareRequest | frontend/src/api/client.ts:192-216 | the URL is base + path; the method defaults to GET; a body goes out only when the options carry one; the bearer header is set exactly when `auth !== false` and a token exists, overriding the caller's `Authorization`; otherwise every header is the caller's value or the JSON default |
| Transport.UnauthorizedIgnoresBody | frontend/src/api/client.ts:218-222 | a 401 always rejects with `Unauthorized`, whatever the body |
| Transport.ErrorStatusMessage | frontend/src/api/client.ts:223-232 | any other non-OK status rejects with the body's string `message`, else with `HTTP <status>`, also when the body does not parse |
| Transport.NoContentIgnoresBody | frontend/src/api/client.ts:235-238 | 204 resolves to `undefined` without reading the body |
| Transport.ResolvesIff | frontend/src/api/client.ts:218-239 | `request` resolves exactly for a 2xx status that is 204 or carries valid JSON, and then with that JSON |
| Transport.ExampleServerError | frontend/src/api/client.ts:223-232 | a 500 with an unparsable body rejects with `HTTP 500`; a 404 carrying a `message` rejects with that message |
| Query.OrUndefined | frontend/src/api/client.ts:245 | `s \|\| undefined` is dropped exactly when `s` is empty, and otherwise sent as `s` |
| Query.OptionalNum | frontend/src/api/client.ts:245-246 | an absent number is dropped, a present one is sent as its decimal text |
| Query.SurvivorsAppend | frontend/src/api/client.ts:244-247 | the entries are filtered one by one, so filtering a concatenation filters each part in order |
| Query.NoneKept | frontend/src/api/client.ts:244-247 | entries whose values are all dropped contribute nothing |
| Query.OnlyOneKept | frontend/src/api/client.ts:242-250 | when exactly one entry survives, the query string is `?key=value` for that entry |
| Query.BuildQuery | frontend/src/api/client.ts:242-250 | the loop returns the query string of the surviving entries: `""` when none survives, else `?` and the `&`-joined pairs |
| Query.KeptEntrySurvives | frontend/src/api/client.ts:244-247 | every entry whose value is kept appears among the survivors, stringified |
| Query.SurvivorHasSource | frontend/src/api/client.ts:244-247 | every survivor comes from an entry whose value is kept |
| Query.DroppedValues | frontend/src/api/client.ts:245 | a value is dropped exactly when it is `undefined`, `null` or `""`; `0` and `false` are kept |
| Query.ExamplePageOnly | frontend/src/api/client.ts:242-250 | `{page: 1, q: "", status: undefined}` gives `?page=1` |
| Query.QueryRoundTrip | frontend/src/api/client.ts:242-250 | with `&`- and `=`-free keys and values, splitting the built string gives back exactly the surviving pairs, in order |
| Api.OnlyLoginSkipsAuth | frontend/src/api/client.ts:254-465 | of all the `api` methods, `login` alone passes `auth: false` |
| Api.ReadsAreGets | frontend/src/api/client.ts:267-465 | a call goes out as GET exactly when it is a read; every other call is POST, PUT or DELETE |
| Api.ArchiveQueriesAgree | frontend/src/api/client.ts:435-450 | preview and execute send `?inactive_days=<n>`; a threshold of 0 is still sent |
| Api.UserListNeverSendsIsAdmin | frontend/src/api/client.ts:268-285 | the user list query never carries an `is_admin` key |
| Api.ApiLogin | frontend/src/api/client.ts:254-262 | login is sent without authentication; on success the token cookie is set and the user is returned; a failure leaves the cookies unchanged; local storage is never touched |
| Api.ApiLogout | frontend/src/api/client.ts:263-265 | logout removes the token cookie and nothing else |
| Storage.Browser.SetTokenCookie | frontend/src/api/client.ts:169-176 | sets a token cookie that lasts one day, is same-site `lax`, and is secure exactly on https; nothing else changes |
| Storage.Browser.ClearTokenCookie | frontend/src/api/client.ts:178-180 | removes only the token cookie |
| Session.StoredUser | frontend/src/contexts/AuthContext.tsx:16-26 | the restored user is the stored value when it is non-empty and parses; otherwise there is none |
| Session.Persisted | frontend/src/contexts/AuthContext.tsx:29-35 | persisting writes the user's JSON under `sr_user`, or removes the key for `null`; every other key is kept |
| Session.PersistThenRestore | frontend/src/contexts/AuthContext.tsx:16-35 | persisting a user and mounting again restores that same user when the codec round-trips it; persisting `null` starts signed out |
| Session.IsAdmin | frontend/src/contexts/AuthContext.tsx:37 | `isAdmin` holds exactly when a user is signed in whose `is_admin` is set |
| Session.UseAuth | frontend/src/contexts/AuthContext.tsx:46-52 | `useAuth` returns the provider's value, and throws its fixed message outside a provider |
| Session.AuthProvider.Value | frontend/src/contexts/AuthContext.tsx:37-40 | the context value carries the user and an `isAdmin` flag that agrees with it |
| Session.AuthProvider.Persist | frontend/src/contexts/AuthContext.tsx:29-35 | the persist effect leaves local storage as `Persisted` says, and the cookies unchanged |
| Session.AuthProvider.Mount | frontend/src/contexts/AuthContext.tsx:13-35 | after the first commit, the user is the stored user and storage holds what persisting that user leaves |
| Session.AuthProvider.SetUser | frontend/src/contexts/AuthContext.tsx:29-37 | `setUser` adopts the new user, its admin flag follows, and storage is persisted for it |
| ListControl.PageSizeOptions | frontend/src/features/technologies/components/TechnologyFilters.tsx:79-81 | the page-size select offers `String(size)` for each of the sizes, in order |
| ListControl.PageSizeOptionRoundTrip | frontend/src/features/technologies/components/TechnologyFilters.tsx:72-81 | `Number(v)` of an offered option is one of the page sizes, and `String` of it is `v` again, so the select shows the chosen option |
| ListControl.IdOptions | frontend/src/features/technologies/components/TechnologyFilters.tsx:65-70 | an id filter select offers `all`, then `String(id)` for each loaded id |
| ListControl.Ids | frontend/src/features/technologies/components/TechnologyFilters.tsx:67-69 | a filter select lists the loaded records' ids, one per record, in order |
| ListControl.IdOptionRoundTrip | frontend/src/features/technologies/components/TechnologyFilters.tsx:58-60 | `all` clears the id filter; any other offered option sets one of the listed ids, and the select then shows that option |
| ListControl.TextOptionRoundTrip | frontend/src/features/technologies/components/TechnologyFilters.tsx:41-43 | `all` is stored as `""`, any other value as itself; the stored value is empty exactly for `all` or `""` |
| ListControl.Toggle | frontend/src/features/technologies/hooks/useTechnologies.ts:84-91 | `onSort` always sorts by the clicked column; the active column flips its order, another column starts ascending |
| ListControl.ToggleTwice | frontend/src/features/technologies/hooks/useTechnologies.ts:84-91 | clicking the active column twice restores its order; clicking a new column twice leaves it descending |
| ListControl.AfterLoad | frontend/src/features/technologies/hooks/useTechnologies.ts:59-77 | after a reply: `items ?? []`, `total`, and `total_pages \|\| 1`, which is never 0; after a rejection the previous page stays |
| ListControl.ZeroPagesBecomeOne | frontend/src/features/technologies/hooks/useTechnologies.ts:73 | a reply that reports 0 pages leaves one page to show |
| ListControl.PageLinks | frontend/src/features/technologies/components/TechnologiesTable.tsx:164-177 | the pager shows links `1..min(totalPages, 5)`, each active exactly when it is the current page |
| ListControl.PagerSteps | frontend/src/features/technologies/components/TechnologiesTable.tsx:158-183 | an enabled previous or next button moves exactly one page, and clamping keeps the page within `1..totalPages` |
| ListControl.OneActiveLink | frontend/src/features/technologies/components/TechnologiesTable.tsx:164-177 | exactly one link is active when the current page is among the links, and none otherwise |
| ListControl.BodyOf | frontend/src/features/technologies/components/TechnologiesTable.tsx:75-147 | the table shows a loading row while loading, else an empty row for no items, else one row per item in order |
| ListControl.IconFor | frontend/src/features/technologies/components/TechnologiesTable.tsx:41-44 | the sort icon is neutral off the active column, and up or down on it by the order |
| ListControl.ListController.constructor | frontend/src/features/technologies/hooks/useTechnologies.ts:19-35 | the initial state: page 1 of 10, sorted by the entity's initial column descending, nothing loaded, one page, no dialog open |
| ListControl.ListController.SetPage | frontend/src/features/technologies/hooks/useTechnologies.ts:22 | `setPage` sets the page |
| ListControl.ListController.SetPageSize | frontend/src/features/technologies/hooks/useTechnologies.ts:23 | `setPageSize` sets the size |
| ListControl.ListController.SetFilters | frontend/src/features/technologies/hooks/useTechnologies.ts:26-28 | the filter setters set the filters and nothing else |
| ListControl.ListController.ChangeFilters | frontend/src/features/technologies/components/TechnologyFilters.tsx:36-60 | a filter-bar change stores the new filters and goes back to page 1 |
| ListControl.ListController.ChoosePageSize | frontend/src/features/technologies/components/TechnologyFilters.tsx:72-74 | choosing a size stores `Number(v)` and goes back to page 1; the select then shows `v` |
| ListControl.ListController.OnSort | frontend/src/features/technologies/hooks/useTechnologies.ts:84-91 | the sort becomes `Toggle` of the old sort; the page is left as it is |
| ListControl.ListController.StartLoad | frontend/src/features/technologies/hooks/useTechnologies.ts:59-70 | `load` raises the loading flag and sends the request of the current query |
| ListControl.ListController.FinishLoad | frontend/src/features/technologies/hooks/useTechnologies.ts:71-76 | once the request settles, the view becomes `AfterLoad`; the flag drops on success and failure alike; a failure is passed on |
| ListControl.ListController.Load | frontend/src/features/technologies/hooks/useTechnologies.ts:59-77 | `load` sends exactly one request, for the current query, and adopts its outcome as `AfterLoad` says |
| ListControl.ListController.Render | frontend/src/features/technologies/hooks/useTechnologies.ts:79-82 | the reload effect runs `load` exactly when the query differs from the one it last ran for |
| ListControl.ListController.ClickPrevious | frontend/src/features/technologies/components/TechnologiesTable.tsx:158-162 | previous does nothing on page 1, else sets `max(1, page - 1)` |
| ListControl.ListController.ClickNext | frontend/src/features/technologies/components/TechnologiesTable.tsx:179-183 | next does nothing on the last page, else sets `min(totalPages, page + 1)` |
| ListControl.ListController.ClickPageLink | frontend/src/features/technologies/components/TechnologiesTable.tsx:168-173 | a page link sets that page |
| ListControl.ListController.SetCreateOpen | frontend/src/features/technologies/hooks/useTechnologies.ts:32 | sets whether the create dialog is open |
| ListControl.ListController.OpenEdit | frontend/src/features/technologies/hooks/useTechnologies.ts:117-127 | `onOpenEdit` remembers the item and opens the edit dialog |
| ListControl.ListController.SetEditOpen | frontend/src/features/technologies/hooks/useTechnologies.ts:33 | sets whether the edit dialog is open |
| ListControl.ListController.SetDeleteId | frontend/src/features/technologies/hooks/useTechnologies.ts:35 | sets the id awaiting delete confirmation |
| ListControl.ListController.AfterCreate | frontend/src/features/technologies/hooks/useTechnologies.ts:104-115 | a rejected create changes nothing; otherwise the dialog closes and the current query is reloaded |
| ListControl.ListController.SubmitEdit | frontend/src/features/technologies/hooks/useTechnologies.ts:129-141 | a no-op without `editing`; otherwise the update targets the edited id, and on success the dialog closes, `editing` clears and the current query is reloaded; a failure changes nothing |
| ListControl.ListController.ConfirmDelete | frontend/src/features/technologies/hooks/useTechnologies.ts:143-149 | a no-op when `deleteId` is absent or 0; otherwise that id is deleted, `deleteId` clears and the same query is reloaded; a failure changes nothing |
| Pagination.MakePagination | backend/core/pagination.py:14-21 | accepted exactly when page ≥ 1 and 1 ≤ size ≤ 100, with the defaults 1 and 20; the offset is `(page - 1) * size` |
| Pagination.MakeSort | backend/core/pagination.py:28-34 | `sort_by` defaults to `created_at`; `sort_order` must match `^(asc\|desc)$`, defaults to `desc`, and is stored as given |
| Pagination.SortOrderIsLowerCase | backend/core/pagination.py:31-34 | an accepted order is `asc` or `desc`, and lower-casing leaves it unchanged |
| Pagination.TotalPages | backend/core/pagination.py:68 | the page count is the ceiling of total over size, the fewest pages that hold the total, and 0 for a size that is not positive |
| Pagination.TotalPagesBounds | backend/core/pagination.py:68 | the count is never negative, is 0 exactly for no rows, and is at most 1 when the rows fit on one page |
| Pagination.TotalPagesExamples | backend/core/pagination.py:68 | 25 rows of 10 make 3 pages, 20 make 2, 0 make 0, and a size of 0 gives 0 |
| Pagination.TotalPagesUnique | backend/core/pagination.py:68 | the ceiling is the only count with that bound |
| Pagination.OffsetWithinTotal | backend/core/pagination.py:21-68 | a valid page has rows exactly when it is among the reported pages |
| Pagination.RowOnPage | backend/core/pagination.py:21-68 | row `i` lies on page `i / size + 1`, which is one of the reported pages |
| Pagination.Paginate | backend/core/pagination.py:50-78 | the reply echoes the rows, total, page, size and sort, with the ceiling page count |
| Technologies.FilterPairsSurvive | frontend/src/features/technologies/hooks/useTechnologies.ts:65-67 | of the filters, the search text and the status are sent only when non-empty, and the category only when one is chosen |
| Technologies.SentPairsSurvive | frontend/src/features/technologies/hooks/useTechnologies.ts:62-70 | the list request sends page, size, sort column and order, in that order, then the filters that survive |
| Technologies.EntriesSafe | frontend/src/features/technologies/hooks/useTechnologies.ts:62-70 | with `&`-free text filters, no entry of the request needs encoding |
| Technologies.LoadRequest | frontend/src/features/technologies/hooks/useTechnologies.ts:59-70 | `load` requests `/technologies` with that query string, and reading the string back yields exactly the sent pairs |
| Technologies.NewController | frontend/src/features/technologies/hooks/useTechnologies.ts:19-35 | on mount: page 1 of 10, newest first, no filters, nothing loaded, no dialog open |
| Technologies.SchemaIff | frontend/src/features/technologies/hooks/useTechnologies.ts:8-14 | the form passes exactly when it has a name, a positive category and a status; each failure is reported once with its message |
| Technologies.DefaultsNeedName | frontend/src/features/technologies/hooks/useTechnologies.ts:42-51 | the default values fail only for the missing name |
| Technologies.PayloadOf | frontend/src/features/technologies/hooks/useTechnologies.ts:105-111 | the body sent carries the form's fields, with a missing description or website sent as `""` |
| Technologies.UnchangedEditResends | frontend/src/features/technologies/hooks/useTechnologies.ts:117-137 | saving the edit form unchanged sends the technology's own editable fields back |
| Technologies.CreateValues | frontend/src/features/technologies/hooks/useTechnologies.ts:93-100 | the create form starts empty with status `stable`, and the first category's id, or 1 when there is no category or its id is 0 |
| Technologies.CreateWithoutCategories | frontend/src/features/technologies/hooks/useTechnologies.ts:93-100 | with no categories loaded, the create form starts from the schema defaults |
| Technologies.OnOpenCreate | frontend/src/features/technologies/hooks/useTechnologies.ts:93-102 | the form is reset to `CreateValues` and the create dialog opens |
| Technologies.OnSubmitCreate | frontend/src/features/technologies/hooks/useTechnologies.ts:104-115 | sends the create call with `PayloadOf`; a rejection changes nothing; otherwise the dialog closes and the current query reloads; the usage statistics are asked for again exactly when the create and the reload both resolved, and adopted when that request resolves |
| Technologies.OnOpenEdit | frontend/src/features/technologies/hooks/useTechnologies.ts:117-127 | remembers the technology, fills the form with its fields and opens the edit dialog |
| Technologies.OnSubmitEdit | frontend/src/features/technologies/hooks/useTechnologies.ts:129-141 | nothing is sent without `editing`; otherwise the update goes to the edited id, and on success the dialog closes, `editing` clears and the list reloads |
| Technologies.OnConfirmDelete | frontend/src/features/technologies/hooks/useTechnologies.ts:143-149 | nothing is sent for a falsy `deleteId`; otherwise that id is deleted, the id clears and the list reloads; the usage statistics are asked for again exactly when the delete and the reload both resolved |
| Technologies.Catalog.constructor | frontend/src/features/technologies/hooks/useTechnologies.ts:20-40 | no categories, statuses or usage statistics yet, both dialogs closed, empty inputs |
| Technologies.Catalog.Mount | frontend/src/features/technologies/hooks/useTechnologies.ts:53-57 | the three mount requests in order; each list that resolves is adopted as `?? []`, the statistics as received; a rejection is ignored |
| Technologies.Catalog.RefreshStats | frontend/src/features/technologies/hooks/useTechnologies.ts:56 | the usage statistics request: a resolved request replaces the statistics, a rejection keeps them |
| Technologies.Catalog.OnCreateCategory | frontend/src/features/technologies/hooks/useTechnologies.ts:151-158 | a blank trimmed name sends nothing; otherwise it creates the trimmed name, lists the categories again, selects the new id in the form and closes the dialog; a failure stops the chain and changes nothing |
| Technologies.Catalog.OnCreateStatus | frontend/src/features/technologies/hooks/useTechnologies.ts:160-168 | a blank trimmed name sends nothing; otherwise it creates it, lists the statuses again, selects it in the form and closes the dialog; a failure stops the chain |
| Technologies.CreatedStatusIsValid | frontend/src/features/technologies/hooks/useTechnologies.ts:160-166 | a status created from the dialog passes the schema's status check, whatever padding was typed |
| Technologies.StatusSelectRoundTrip | frontend/src/features/technologies/components/TechnologyFilters.tsx:41-43 | choosing a non-empty status makes the select show that option again |
| Technologies.CategorySelectRoundTrip | frontend/src/features/technologies/components/TechnologyFilters.tsx:58-60 | a category option sets the filter to that category's id, or none for `all`; the select then shows the chosen option, unless the id is 0 |
| Technologies.OnSearchChange | frontend/src/features/technologies/components/TechnologyFilters.tsx:36 | a search change stores the text verbatim and goes back to page 1 |
| Technologies.OnStatusChange | frontend/src/features/technologies/components/TechnologyFilters.tsx:43 | a status change stores `""` for `all` and the value otherwise, and goes back to page 1 |
| Technologies.OnCategoryChange | frontend/src/features/technologies/components/TechnologyFilters.tsx:60 | a category change stores none for `all` and `Number(v)` otherwise, and goes back to page 1 |
| Technologies.OnPageSizeChange | frontend/src/features/technologies/components/TechnologyFilters.tsx:74 | a size change stores `Number(v)`, one of the sizes, and goes back to page 1 |
| Technologies.StatusBadgeIgnoresCase | frontend/src/features/technologies/components/TechnologiesTable.tsx:31-39 | the badge colour depends on the status only up to case, and every status not listed is secondary |
| Technologies.CategoryCellFinds | frontend/src/features/technologies/components/TechnologiesTable.tsx:90 | the category cell shows the name of the first category with the id, or the raw id when none has it |
| Technologies.DescriptionLine | frontend/src/features/technologies/components/TechnologiesTable.tsx:95-97 | the line under the name is the description, and it is shown exactly when the description is non-empty |
| Technologies.WebsiteCell | frontend/src/features/technologies/components/TechnologiesTable.tsx:105-117 | the cell links to the official website exactly when its address is non-empty, and shows `—` otherwise |
| Projects.FilterPairsSurvive | frontend/src/features/projects/hooks/useProjects.ts:65-67 | of the filters, the search text and the status are sent only when non-empty, and the team whenever one is chosen, id 0 included |
| Projects.SentPairsSurvive | frontend/src/features/projects/hooks/useProjects.ts:62-70 | the list request sends page, size, sort column and order, in that order, then the filters that survive |
| Projects.EntriesSafe | frontend/src/features/projects/hooks/useProjects.ts:62-70 | with `&`-free text filters, no entry of the request needs encoding |
| Projects.LoadRequest | frontend/src/features/projects/hooks/useProjects.ts:59-70 | `load` requests `/projects` with that query string, and reading the string back yields exactly the sent pairs |
| Projects.NewController | frontend/src/features/projects/hooks/useProjects.ts:21-39 | on mount: page 1 of 10, newest first, no filters, nothing loaded, no dialog open |
| Projects.Lookups.constructor | frontend/src/features/projects/hooks/useProjects.ts:22-23 | the team and technology lookups start empty |
| Projects.Lookups.Mount | frontend/src/features/projects/hooks/useProjects.ts:54-57 | the mount effect asks for all teams and for 100 technologies; each reply's items (or none) are adopted, a rejection keeps the old list |
| Projects.MountQueries | frontend/src/features/projects/hooks/useProjects.ts:55-56 | the team request has no query string and the technology request only `?page_size=100` |
| Projects.SchemaIff | frontend/src/features/projects/hooks/useProjects.ts:8-16 | a value passes exactly when name and status are non-empty and the repository URL is absent, empty or a URL |
| Projects.DefaultsNeedName | frontend/src/features/projects/hooks/useProjects.ts:43-51 | the blank form fails with exactly one issue: the missing name |
| Projects.PayloadOf | frontend/src/features/projects/hooks/useProjects.ts:107-115 | the body sent keeps name, status, team and technologies, turns an absent description or URL into `""`, and sends a start date only when it is non-empty |
| Projects.EmptyDateIsNull | frontend/src/features/projects/hooks/useProjects.ts:113 | an empty start date is sent as `null`, exactly as an absent one |
| Projects.UnchangedEditResends | frontend/src/features/projects/hooks/useProjects.ts:120-144 | saving the edit form unchanged sends the project's own fields and linked technology ids back, an empty date as `null` |
| Projects.CreateValues | frontend/src/features/projects/hooks/useProjects.ts:94-102 | the create form holds the defaults, with the first team's id unless there is no team or that id is 0 |
| Projects.OnOpenCreate | frontend/src/features/projects/hooks/useProjects.ts:93-104 | `onOpenCreate` loads those values and opens the create dialog |
| Projects.OnSubmitCreate | frontend/src/features/projects/hooks/useProjects.ts:106-118 | the create call carries the payload; a failure changes nothing, a success closes the dialog and reloads the current query |
| Projects.OnOpenEdit | frontend/src/features/projects/hooks/useProjects.ts:120-132 | `onOpenEdit` remembers the project, loads its values and opens the edit dialog |
| Projects.OnSubmitEdit | frontend/src/features/projects/hooks/useProjects.ts:134-148 | the handler as intended, with an update call the client would provide: without an edited project nothing is sent; otherwise its id and the payload are sent, and a success closes the dialog, forgets the project and reloads |
| Projects.OnSubmitEditAsWritten | frontend/src/features/projects/hooks/useProjects.ts:134-148 | as the code stands: with an edited project the missing `api.updateProject` throws before any request, so the handler rejects with the dialog open, the project kept and nothing sent or reloaded; without one nothing happens |
| Projects.OnConfirmDelete | frontend/src/features/projects/hooks/useProjects.ts:150-155 | a missing or zero `deleteId` sends nothing; otherwise the delete is sent, and a success clears the id and reloads |
| Projects.StatusSelectShows | frontend/src/features/projects/components/ProjectFilters.tsx:43-60 | after picking "all" the stored filter is `""`, which no option matches; every other option is shown as picked |
| Projects.TeamSelectRoundTrip | frontend/src/features/projects/components/ProjectFilters.tsx:63-80 | "all" and only "all" clears the team filter; any other option sets a listed team's id, and the select then shows that option again |
| Projects.OnSearchChange | frontend/src/features/projects/components/ProjectFilters.tsx:35-38 | typing sets the search text and goes back to page 1 |
| Projects.OnStatusChange | frontend/src/features/projects/components/ProjectFilters.tsx:45-48 | picking a status sets it ("all" clears it) and goes back to page 1 |
| Projects.OnTeamChange | frontend/src/features/projects/components/ProjectFilters.tsx:65-68 | picking a team sets its id ("all" clears it) and goes back to page 1 |
| Projects.OnPageSizeChange | frontend/src/features/projects/components/ProjectFilters.tsx:86-89 | picking a size sets one of the offered sizes and goes back to page 1 |
| Projects.StatusBadgeIgnoresCase | frontend/src/features/projects/components/ProjectsTable.tsx:31-39 | the status colour ignores case, and every unlisted status is secondary |
| Projects.TeamCellMissing | frontend/src/features/projects/components/ProjectsTable.tsx:107 | a project without a team, or whose team is not loaded, shows "—" |
| Projects.TeamCellFinds | frontend/src/features/projects/components/ProjectsTable.tsx:107 | otherwise the cell shows the name of the first team with that id |
| Projects.DescriptionLine | frontend/src/features/projects/components/ProjectsTable.tsx:112-114 | the line under the name is the description, and it is shown exactly when the description is non-empty |
| Projects.RepositoryCell | frontend/src/features/projects/components/ProjectsTable.tsx:122-134 | the cell links to the repository exactly when its address is non-empty, and shows `—` otherwise |
| ProjectForm.TechOptions | frontend/src/features/projects/components/ProjectForm.tsx:20 | one option per technology, in order, labelled by its name and keyed by its id |
| ProjectForm.SelectedValues | frontend/src/features/projects/components/ProjectForm.tsx:102 | the multi-select is given each id of the form as text, or nothing when the form has none |
| ProjectForm.IdsOf | frontend/src/features/projects/components/ProjectForm.tsx:103 | the values read back are the numbers the texts denote, one per value |
| ProjectForm.IdsRoundTrip | frontend/src/features/projects/components/ProjectForm.tsx:102-103 | ids shown in the multi-select and read back are the same ids in the same order |
| ProjectForm.IdsMembership | frontend/src/features/projects/components/ProjectForm.tsx:103 | an id is read back exactly when its text is among the values |
| ProjectForm.HandleSelectCanonical | frontend/src/features/projects/components/ProjectForm.tsx:100-104 | a click on a technology's option keeps the selected values readable as ids |
| ProjectForm.SelectedMembership | frontend/src/features/projects/components/ProjectForm.tsx:102 | an id is selected exactly when its text is among the selected values |
| ProjectForm.ToggleTechnology | frontend/src/features/projects/components/ProjectForm.tsx:100-104 | clicking a technology toggles its id in `technology_ids` and keeps every other id's membership |
| ProjectForm.TeamOptions | frontend/src/features/projects/components/ProjectForm.tsx:56-60 | one option per team, its id as text |
| ProjectForm.TeamChoiceRoundTrip | frontend/src/features/projects/components/ProjectForm.tsx:46-60 | choosing a team stores that team's id, which the select shows as the same option |
| ProjectForm.DateInputValue | frontend/src/features/projects/components/ProjectForm.tsx:147 | the date input shows the stored date, or nothing when there is none |
| MultiSelect.Without | frontend/src/components/ui/multi-select.tsx:37 | removing a value keeps exactly the other values |
| MultiSelect.HandleSelectToggles | frontend/src/components/ui/multi-select.tsx:35-41 | a click flips the clicked value's membership, appends it when absent, and leaves every other value alone |
| MultiSelect.HandleSelectKeepsDistinct | frontend/src/components/ui/multi-select.tsx:35-41 | clicks never select a value twice |
| MultiSelect.HandleSelectTwice | frontend/src/components/ui/multi-select.tsx:35-41 | clicking an unselected value twice restores the selection exactly |
| MultiSelect.HandleSelectTwiceSelected | frontend/src/components/ui/multi-select.tsx:35-41 | clicking a selected value twice keeps the same values, that one moved to the end |
| MultiSelect.LabelOf | frontend/src/components/ui/multi-select.tsx:44 | the label found is that of the first option with that value, and none is found exactly when no option has it |
| MultiSelect.SelectedLabels | frontend/src/components/ui/multi-select.tsx:43-45 | the badges are non-empty labels, at most one per selected value, each the label of one of the selected values |
| MultiSelect.SelectedLabelsSnoc | frontend/src/components/ui/multi-select.tsx:43-45 | the badges follow the selection order: one more selected value appends its label, when it has a non-empty one, after the earlier badges |
| MultiSelect.KnownSelectionShown | frontend/src/components/ui/multi-select.tsx:43-45 | every selected value whose option has a non-empty label shows that label |
| MultiSelect.ClickFlipsBox | frontend/src/components/ui/multi-select.tsx:56-74 | clicking an option flips its own check box, and the placeholder shows exactly when nothing is left selected |
| Users.SentPairsSurvive | frontend/src/features/users/hooks/useUsers.ts:68-74 | the list request sends page, size, sort column and order, in that order, then the search text when non-empty |
| Users.LoadRequest | frontend/src/features/users/hooks/useUsers.ts:65-74 | `load` requests `/users` with that query string; the role filter never reaches it, so two queries differing only in the role send the same request |
| Users.NewController | frontend/src/features/users/hooks/useUsers.ts:27-42 | on mount: page 1 of 10, newest first, no search, every role, nothing loaded, no dialog open |
| Users.ChooseRoleThenRender | frontend/src/features/users/hooks/useUsers.ts:83-86 | choosing another role re-runs the effect, which sends again the very request it sent before |
| Users.SchemasAgree | frontend/src/features/users/hooks/useUsers.ts:8-21 | create passes exactly for a valid email, a password of at least six UTF-16 code units, as `min(6)` counts `length` and a name; edit is the same check without the password, so a valid create form is a valid edit form |
| Users.EmojiPasswordLongEnough | frontend/src/features/users/hooks/useUsers.ts:10 | a password of an emoji and four letters, five characters but six code units, passes the six-unit bound |
| Users.UnchangedEditResends | frontend/src/features/users/hooks/useUsers.ts:114-127 | saving the edit form unchanged sends the user's own email, name and flags back |
| Users.DefaultsAreActiveNonAdmin | frontend/src/features/users/hooks/useUsers.ts:44-63 | a new user is active and not an admin unless the form says otherwise, and the blank create form fails |
| Users.OnOpenCreate | frontend/src/features/users/hooks/useUsers.ts:97-106 | `onOpenCreate` loads the defaults and opens the create dialog |
| Users.OnSubmitCreate | frontend/src/features/users/hooks/useUsers.ts:108-112 | the values go to `createUser` as they are; a failure changes nothing, a success closes the dialog and reloads |
| Users.OnOpenEdit | frontend/src/features/users/hooks/useUsers.ts:114-123 | `onOpenEdit` remembers the user, loads their editable fields and opens the edit dialog |
| Users.OnSubmitEdit | frontend/src/features/users/hooks/useUsers.ts:125-131 | without an edited user nothing is sent; otherwise the update goes to that user's id, and a success closes the dialog, forgets the user and reloads |
| Users.OnConfirmDelete | frontend/src/features/users/hooks/useUsers.ts:133-138 | a missing or zero `deleteId` sends nothing; otherwise the delete is sent, and a success clears the id and reloads |
| Users.OnSearchChange | frontend/src/features/users/components/UserFilters.tsx:30-33 | typing sets the search text and goes back to page 1 |
| Users.OnRoleChange | frontend/src/features/users/components/UserFilters.tsx:40-43 | picking a role stores the option as is, "all" included, and goes back to page 1 |
| Users.OnPageSizeChange | frontend/src/features/users/components/UserFilters.tsx:56-59 | picking a size sets one of the offered sizes and goes back to page 1 |
| Users.NameCell | frontend/src/features/users/components/UsersTable.tsx:93 | the name cell is never empty and shows the full name when there is one |
| Users.BadgesDistinguishFlags | frontend/src/features/users/components/UsersTable.tsx:96-106 | the role badge tells admins from users and the status badge active from inactive; only an inactive user gets the destructive badge |
| Teams.SentPairsSurvive | frontend/src/features/teams/hooks/useTeams.ts:52-58 | the list request sends page, size, sort column and order, in that order, then the search text when non-empty |
| Teams.LoadRequest | frontend/src/features/teams/hooks/useTeams.ts:49-58 | `load` requests `/teams` with that query string, and with an `&`-free search it parses back into exactly the sent pairs |
| Teams.EntriesSafe | frontend/src/features/teams/hooks/useTeams.ts:52-58 | with an `&`-free search no entry of the request needs encoding |
| Teams.NewController | frontend/src/features/teams/hooks/useTeams.ts:17-32 | on mount: page 1 of 10, newest first, no search, nothing loaded, no dialog open |
| Teams.Directory.constructor | frontend/src/features/teams/hooks/useTeams.ts:18 | the user lookup starts empty |
| Teams.Directory.Mount | frontend/src/features/teams/hooks/useTeams.ts:43-47 | the mount effect asks for 100 users and adopts the reply's items (or none); a rejection keeps the old list |
| Teams.MountQuery | frontend/src/features/teams/hooks/useTeams.ts:46 | that request's query string is exactly `?page_size=100` |
| Teams.SchemaIff | frontend/src/features/teams/hooks/useTeams.ts:8-12 | a form passes exactly when it has a name, whatever its description and lead; the blank form fails on the name alone |
| Teams.PayloadOf | frontend/src/features/teams/hooks/useTeams.ts:91-95 | the body keeps name and lead and turns a missing description into `""` |
| Teams.UnchangedEditResends | frontend/src/features/teams/hooks/useTeams.ts:100-116 | saving the edit form unchanged sends the team's own name, description and lead back |
| Teams.OnOpenCreate | frontend/src/features/teams/hooks/useTeams.ts:81-88 | `onOpenCreate` loads the defaults and opens the create dialog |
| Teams.OnSubmitCreate | frontend/src/features/teams/hooks/useTeams.ts:90-98 | the create call carries the payload; a failure changes nothing, a success closes the dialog and reloads |
| Teams.OnOpenEdit | frontend/src/features/teams/hooks/useTeams.ts:100-108 | `onOpenEdit` remembers the team, loads its values and opens the edit dialog |
| Teams.OnSubmitEdit | frontend/src/features/teams/hooks/useTeams.ts:110-120 | without an edited team nothing is sent; otherwise the update goes to that team's id, and a success closes the dialog, forgets the team and reloads |
| Teams.OnConfirmDelete | frontend/src/features/teams/hooks/useTeams.ts:122-127 | a missing or zero `deleteId` sends nothing; otherwise the delete is sent, and a success clears the id and reloads |
| Teams.OnSearchChange | frontend/src/features/teams/components/TeamFilters.tsx:27-30 | typing stores the text untrimmed and goes back to page 1; sort, order and page size stay |
| Teams.OnPageSizeChange | frontend/src/features/teams/components/TeamFilters.tsx:37-40 | picking a size sets one of the offered sizes and goes back to page 1, leaving search and sort alone |
| Teams.FindUser | frontend/src/features/teams/components/TeamsTable.tsx:37 | the user found is the first listed user with that id, and none is found exactly when no listed user has it |
| Teams.LeadCellCases | frontend/src/features/teams/components/TeamsTable.tsx:35-39 | no lead (or id 0) shows "—", a known lead their name, an unknown one `ID: <id>`, from which the id reads back |
| Teams.DescriptionCell | frontend/src/features/teams/components/TeamsTable.tsx:90 | the description cell is never empty and shows the description when there is one |
| Layout.Visible | frontend/src/components/layout/AppLayout.tsx:31 | the visible items are never more than the items |
| Layout.VisibleMembers | frontend/src/components/layout/AppLayout.tsx:31 | an item is visible exactly when it is listed and it is not admin-only or the visitor is an admin |
| Layout.VisibleAppend | frontend/src/components/layout/AppLayout.tsx:31 | filtering keeps the items' relative order |
| Layout.VisibleExtremes | frontend/src/components/layout/AppLayout.tsx:31 | an admin, or a list with no admin-only item, keeps every item; a non-admin loses every admin-only one |
| Layout.SidebarForRoles | frontend/src/components/layout/AppLayout.tsx:18-31 | a non-admin sees the first four entries, an admin all six |
| Layout.AtMostOneActive | frontend/src/components/layout/AppLayout.tsx:44 | among items with distinct targets at most one is highlighted on any path |
| Layout.SidebarEntries | frontend/src/components/layout/AppLayout.tsx:18-50 | every sidebar entry is a link keyed by its target, and the visible targets are distinct |
| Guards.RequireAuth | frontend/src/components/RequireAuth.tsx:6-13 | the page renders exactly when the token cookie is non-empty; otherwise the visitor is sent to `/login`, replacing the entry and remembering where they were |
| Guards.RedirectIfAuth | frontend/src/components/RequireAuth.tsx:15-21 | the login page renders exactly when there is no non-empty token; otherwise the visitor is sent home, replacing the entry |
| Guards.ExactlyOneOutlet | frontend/src/components/RequireAuth.tsx:6-21 | whatever the cookie holds, exactly one of the two guards renders its page |
| Guards.OnlyTruthinessMatters | frontend/src/components/RequireAuth.tsx:7-17 | a missing and an empty cookie are treated alike, and any two non-empty tokens alike |
| Guards.GuardsReadTheTokenCookie | frontend/src/components/RequireAuth.tsx:4-9 | the guards read the `sr_token` cookie the login call writes |
| Login.SchemaIff | frontend/src/pages/Login.tsx:19-22 | login accepts a valid email with a password of at least four UTF-16 code units, so a password of four or five units signs in but is refused when an administrator creates that user |
| Login.EmojiPasswordLongEnough | frontend/src/pages/Login.tsx:21 | a password of an emoji and two letters, three characters but four code units, passes the four-unit bound |
| Login.RedirectTarget | frontend/src/pages/Login.tsx:29 | the page to return to is the remembered path when non-empty, else `/` |
| Login.GuardThenLogin | frontend/src/pages/Login.tsx:29 | a visitor stopped by the guard on a page is sent to the login page and comes back to that page after signing in |
| Login.SubmitErrorOf | frontend/src/pages/Login.tsx:48 | the error shown is the thrown message, even an empty one, and `Login failed` only when there is none |
| Login.LoginPage.constructor | frontend/src/pages/Login.tsx:27-31 | the page starts with no error shown and no navigation, and knows where to return |
| Login.LoginPage.OnSubmit | frontend/src/pages/Login.tsx:41-50 | the login call carries email and password; a success adopts the user, stores token and user, and replaces the entry with the target; a failure shows the error and changes nothing else |
| Login.LoginPage.HandleSubmit | frontend/src/pages/Login.tsx:33-62 | the handler runs only on values the schema accepts, the password measured in UTF-16 code units; otherwise nothing is sent or changed |
| Dashboard.ErrorOf | frontend/src/features/dashboard/hooks/useDashboard.ts:17 | the banner is never empty: the thrown message when non-empty, else `Failed to load dashboard` |
| Dashboard.DashboardHook.constructor | frontend/src/features/dashboard/hooks/useDashboard.ts:6-8 | before loading, no data, the spinner on and no error |
| Dashboard.DashboardHook.Load | frontend/src/features/dashboard/hooks/useDashboard.ts:10-25 | one statistics call; a success stores the stats and clears the error, a failure keeps the old stats and shows the error; the spinner stops either way |
| Archive.PreviewHook.constructor | frontend/src/features/admin/hooks/useAdmin.ts:22-24 | the preview starts empty, with a count of 0 and no spinner |
| Archive.PreviewHook.Preview | frontend/src/features/admin/hooks/useAdmin.ts:26-35 | one preview call for that threshold; a reply replaces both the list and the count, a rejection keeps both; the spinner stops either way |
| Archive.ExecuteHook.constructor | frontend/src/features/admin/hooks/useAdmin.ts:41 | execution starts without a spinner |
| Archive.ExecuteHook.Execute | frontend/src/features/admin/hooks/useAdmin.ts:43-51 | one execute call for that threshold, settling as the request settles with the server's reply unchanged |
| Archive.HistoryHook.constructor | frontend/src/features/admin/hooks/useAdmin.ts:57-58 | the history starts empty, without a spinner |
| Archive.HistoryHook.Load | frontend/src/features/admin/hooks/useAdmin.ts:60-68 | one history call with that limit; a reply replaces the entries, a rejection keeps them |
| Archive.HistoryHook.Reload | frontend/src/features/admin/hooks/useAdmin.ts:60-75 | the mount effect and `reload` load ten entries |
| Archive.SuccessMessage | frontend/src/features/admin/components/ArchiveManager.tsx:29 | the success banner is never empty and never the failure banner |
| Archive.SuccessMessageNamesCount | frontend/src/features/admin/components/ArchiveManager.tsx:29 | different archived counts give different banners |
| Archive.ArchiveManager.constructor | frontend/src/features/admin/components/ArchiveManager.tsx:12-19 | the screen starts at 180 days, no preview, no dialog, no banner, and execution disabled |
| Archive.ArchiveManager.SetInactiveDays | frontend/src/features/admin/components/ArchiveManager.tsx:71 | the threshold input sets the threshold and nothing else |
| Archive.ArchiveManager.HandlePreview | frontend/src/features/admin/components/ArchiveManager.tsx:21-24 | the preview is asked for the current threshold; once it resolves it is shown and execution is enabled exactly when it found projects; a rejection changes nothing else |
| Archive.ArchiveManager.ClickExecute | frontend/src/features/admin/components/ArchiveManager.tsx:89-93 | the execute button opens the confirmation only when a preview with projects is shown |
| Archive.ArchiveManager.CancelConfirm | frontend/src/features/admin/components/ArchiveManager.tsx:186-197 | cancelling or closing the dialog closes it |
| Archive.ArchiveManager.HandleExecute | frontend/src/features/admin/components/ArchiveManager.tsx:26-36 | archiving uses the current threshold; a failure shows the failure banner and keeps dialog, preview and history; a success closes both and reloads the history, and the banner reports the count unless that reload fails |
| Archive.PreviewThenExecute | frontend/src/features/admin/components/ArchiveManager.tsx:21-36 | from a fresh screen a preview with candidates enables execution, and a confirmed successful execution disables it until the next preview |
| Exceptions.NewApiException | backend/core/exceptions.py:5-12 | an application error keeps its message and defaults to status 400 |
| Exceptions.NotFoundError | backend/core/exceptions.py:15-20 | a not-found error is always 404, with `Resource not found` by default |
| Exceptions.ValidationError | backend/core/exceptions.py:23-29 | a validation error is always 400, with `Validation error` by default, and keeps its errors |
| Exceptions.ConflictError | backend/core/exceptions.py:32-37 | a conflict error is always 409, with `Resource already exists` by default |
| Exceptions.HandleApiException | backend/core/exceptions.py:40-58 | the reply has the error's status and its message, and an `errors` member exactly for a validation error with non-empty errors |
| Exceptions.HandleGeneral | backend/core/exceptions.py:61-75 | any other failure answers 500 with only a message: the fixed prefix and the failure's text |
| Exceptions.HandleHttpException | backend/routers/admin.py:11 | a framework HTTP error answers with its status and only a `detail` member |
| Exceptions.IdMessageInjective | backend/routers/projects.py:133 | a not-found sentence tells which id was looked up |
| Exceptions.StatusIdentifiesClass | backend/core/exceptions.py:15-58 | each subclass answers with its own code whatever the message, and only a validation error with errors adds `errors` |
| Utils.BuildSearchCondition | backend/core/utils.py:4-28 | no query or no columns gives `TRUE` and no parameters; otherwise one `column ILIKE $i` per column, numbered from 1 and OR-ed in parentheses, each bound to `%query%` |
| Utils.ValidateSortField | backend/core/utils.py:31-45 | a whitelisted field maps to its column, else the default field's column, else the default itself |
| Utils.SortFieldWhitelisted | backend/core/utils.py:31-45 | whatever the request asks, the column is a whitelisted one or the caller's default |
| Utils.FormatDatetime | backend/core/utils.py:48-62 | none stays none, a date gives its ISO text, anything else its string form |
| Sql.LikeTerms | backend/routers/projects.py:57-59 | one `column ILIKE $i` term per search column, numbered consecutively from the first placeholder |
| Sql.ConditionSlots | backend/routers/projects.py:57-71 | a filter's condition uses the next `Width` placeholders, one per argument it binds |
| Sql.ConditionsSlots | backend/routers/projects.py:53-71 | the conditions of several filters use `first, first + 1, …` once each, one per argument |
| Sql.ConditionsSnoc | backend/routers/projects.py:63-71 | a filter added at the end is numbered after all earlier arguments, which it follows |
| Sql.WhereNumbered | backend/routers/projects.py:53-75 | the placeholders of a WHERE clause built from filters are exactly `$1 … $n` for its `n` arguments, in order |
| Sql.WhereTrueIffNoFilter | backend/routers/projects.py:73-75 | the clause is the constant `TRUE` exactly when no filter applies |
| Sql.RenderJoin | backend/routers/projects.py:73 | joining fragments and rendering them is rendering each and joining the texts |
| Sql.SearchRendering | backend/routers/projects.py:59 | a search renders as `(a ILIKE $i OR b ILIKE $i+1 …)` |
| Sql.EqualsRendering | backend/routers/projects.py:63-71 | an equality filter renders as `column = $i` |
| Sql.StatementsNumbered | backend/services/projects.py:9-32 | the count and page statements keep the clause's numbering, LIMIT and OFFSET taking `$n+1` and `$n+2` with page size and offset bound last |
| Sql.CountOf | backend/services/projects.py:12 | the count is the row's value, or 0 when no row came back |
| Listing.RestrictSort | backend/routers/projects.py:41-51 | an unknown sort field is rewritten to `created_at` before lookup, a known one is kept, and the order is untouched |
| Listing.OrderKeyword | backend/routers/projects.py:82 | a validated order upper-cases to `ASC` or `DESC` |
| Listing.FilteredStatementsNumbered | backend/routers/projects.py:53-86 | both statements of a filtered list are numbered `$1 … $n+2`, the filters' arguments followed by page size and offset |
| Listing.Extend | backend/routers/projects.py:63-71 | one builder step: a filter appended takes the placeholders after all bound arguments |
| Listing.AddCondition | backend/routers/projects.py:63-66 | appending a condition numbered one past the bound arguments keeps the lists built |
| Listing.Finish | backend/routers/projects.py:73-75 | the finished clause is numbered, and `TRUE` exactly when no filter was added |
| ProjectRoutes.ProjectFilterStages | backend/routers/projects.py:57-71 | a non-empty search adds the two-column search, a non-empty status then the status test, a non-zero team then the team test; anything else adds nothing |
| ProjectRoutes.ProjectWhere | backend/routers/projects.py:53-75 | the WHERE clause is those filters numbered `$1 … $n` in that order, with their arguments, and `TRUE` exactly when none applies |
| ProjectRoutes.ListProjects | backend/routers/projects.py:20-89 | both statements are numbered, page size and offset are bound after the filters, the sort field is whitelisted with `created_at` as fallback, and the reply carries the rows, the count (0 without a row) and the page count |
| ProjectRoutes.AllFiltersNumbering | backend/routers/projects.py:57-71 | with every filter given the search takes `$1`/`$2`, the status `$3`, the team `$4`, and LIMIT and OFFSET `$5`/`$6` |
| ProjectRoutes.TeamCheck | backend/routers/projects.py:106-109 | a team that is given and not 0 must exist, else 404 naming its id |
| ProjectRoutes.CreateProject | backend/routers/projects.py:92-113 | creating checks only the team, and fails with 404 naming it |
| ProjectRoutes.FindProject | backend/routers/projects.py:130-133 | reading, deleting and listing the technologies of a project need it to exist, else 404 naming its id |
| ProjectRoutes.UpdateProject | backend/routers/projects.py:153-160 | an update needs the project, then its new team, in that order |
| ProjectRoutes.AddTechnology | backend/routers/projects.py:224-239 | adding a technology proceeds exactly when project, technology and any given version of that technology exist and the link is new; each failing lookup ends with its own 404 |
| ProjectRoutes.AddTechnologyStatuses | backend/routers/projects.py:224-239 | 404 exactly when a lookup fails, 409 with the duplicate message exactly when all succeed but the link exists; a version of another technology counts as missing |
| ProjectRoutes.RemoveTechnology | backend/routers/projects.py:258-260 | removing checks only the link, else 404 |
| ProjectRoutes.MissingProjectReportedFirst | backend/routers/projects.py:138-226 | a missing project is reported whatever else the request names |
| TechnologyRoutes.CreateCategory | backend/routers/technologies.py:45-47 | a category is created exactly when its name is new, else 409 naming it |
| TechnologyRoutes.CreateStatus | backend/routers/technologies.py:78-83 | a status is created exactly when it is new, answering the fixed success message, else 409 naming it |
| TechnologyRoutes.TechnologyFilterStages | backend/routers/technologies.py:134-148 | a non-empty search adds the two-column search, a non-empty status then the status test, a non-zero category then the category test; anything else adds nothing |
| TechnologyRoutes.TechnologyWhere | backend/routers/technologies.py:130-150 | the WHERE clause is those filters numbered `$1 … $n` in that order, with their arguments, and `TRUE` exactly when none applies |
| TechnologyRoutes.ListTechnologies | backend/routers/technologies.py:102-164 | both statements are numbered, page size and offset are bound after the filters, the sort field is whitelisted with `created_at` as fallback, and the reply carries the rows, the count and the page count |
| TechnologyRoutes.CategoryAndStatus | backend/routers/technologies.py:181-189 | a write needs the category by id, then the status by name, whose id is stored; each missing one gives its own 404 |
| TechnologyRoutes.CreateTechnology | backend/routers/technologies.py:181-191 | creating makes exactly those two checks |
| TechnologyRoutes.FindTechnology | backend/routers/technologies.py:213-216 | reading or deleting needs the technology, else 404 naming its id |
| TechnologyRoutes.UpdateTechnology | backend/routers/technologies.py:236-248 | an update needs the technology, then the category, then the status |
| TechnologyRoutes.UpdateTechnologyNamesFirstFailure | backend/routers/technologies.py:236-246 | the update fails with 404 exactly when some check fails, and its message names the first failed one; the three messages differ |
| TechnologyRoutes.ShapeResult | backend/routers/technologies.py:193-194 | the written row gets the requested status name in place of its status id, all else unchanged; a row without a status id fails |
| AuthRoutes.Public | backend/routers/auth.py:43-51 | the user returned keeps the row's id, email, name and flags |
| AuthRoutes.Login | backend/routers/auth.py:13-53 | the active user with that email whose hash the password matches gets a token for their id and email and their public row; everyone else gets the same 401 |
| AuthRoutes.SignedInUserIsStored | backend/routers/auth.py:27-41 | when the lookups by email and by id read one table, whoever signs in is a stored, active user with the email typed, and the reply carries that row |
| AuthRoutes.LoginFailuresAlike | backend/routers/auth.py:29-39 | any two failed logins get the same 401 response, so a caller cannot tell an unknown email from a wrong password |
| AuthRoutes.UserFilterStages | backend/routers/auth.py:89-98 | a non-empty search adds the email/name search, and a given `is_admin` then the flag test, `false` included |
| AuthRoutes.UserWhere | backend/routers/auth.py:85-100 | the WHERE clause is those filters numbered `$1 … $n`, `TRUE` exactly without search and flag, the flag bound last |
| AuthRoutes.ListUsers | backend/routers/auth.py:56-115 | both statements are numbered, page size and offset are bound after the filters, the sort field is whitelisted with `created_at` as fallback, and the reply carries the rows, the count and the page count |
| AuthRoutes.GetUser | backend/routers/auth.py:132-137 | a user's public row, or 404 naming the id |
| AuthRoutes.CreateUser | backend/routers/auth.py:159-162 | creating is refused with a validation error exactly when an active user has the email |
| AuthRoutes.UpdateUser | backend/routers/auth.py:198-206 | the user must exist (404) before the email is looked at; the email may be the user's own but not another active user's (400) |
| AuthRoutes.DeleteUser | backend/routers/auth.py:236-243 | deleting oneself is refused (400) before the user is looked up; otherwise a missing user is 404 |
| AuthRoutes.UserCheckStatuses | backend/routers/auth.py:132-243 | each user check answers 404 exactly when the user is missing and 400 exactly when its own rule is broken |
| AuthRoutes.UserMissingNamesId | backend/routers/auth.py:135 | the not-found message names the missing user's id |
| TeamRoutes.TeamWhere | backend/routers/teams.py:36-46 | `TRUE` without a search, otherwise name and description matched against `$1` and `$2`, both bound to `%q%` |
| TeamRoutes.ListTeams | backend/routers/teams.py:12-60 | both statements are numbered, page size and offset are bound after the search, the sort field is whitelisted with `created_at` as fallback, and the reply carries the rows, the count and the page count |
| TeamRoutes.LeadCheck | backend/routers/teams.py:77-80 | a lead that is given and not 0 must be an existing user, else 404 naming the id |
| TeamRoutes.CreateTeam | backend/routers/teams.py:63-84 | creating checks only the lead |
| TeamRoutes.FindTeam | backend/routers/teams.py:101-104 | reading or deleting needs the team, else 404 naming its id |
| TeamRoutes.UpdateTeam | backend/routers/teams.py:124-131 | an update needs the team, then its new lead, in that order |
| TeamRoutes.UpdateTeamReportsTeamFirst | backend/routers/teams.py:124-131 | a missing team is reported whatever the lead, with a message that differs from the lead's |
| AdminRoutes.RequireAdmin | backend/routers/admin.py:8-12 | the user passes unchanged exactly when `is_admin` is truthy, else 403 |
| AdminRoutes.AdminFlagDecides | backend/routers/admin.py:10-11 | with a boolean flag, exactly the admins pass and everyone else gets 403 |
| AdminRoutes.PreviewArchive | backend/routers/admin.py:15-35 | admins get the candidates for the threshold (180 days by default), their count and the threshold; others get the guard's refusal |
| AdminRoutes.ExecuteArchive | backend/routers/admin.py:38-58 | admins get success with the number archived on behalf of their id; a user row without an id crashes |
| AdminRoutes.ArchiveHistory | backend/routers/admin.py:61-77 | admins get the last operations, 10 unless a limit is given |
| Cli.RemoveAll | backend/cli.py:80 | `replace` with an empty replacement never lengthens the name |
| Cli.RemoveAllAbsent | backend/cli.py:80 | a name in which the pattern does not occur is left unchanged by `replace` |
| Cli.RemoveAllShortens | backend/cli.py:80 | `replace` removes at least one occurrence of a pattern that occurs in the name |
| Cli.RemoveAllShortensTwice | backend/cli.py:80 | two non-overlapping occurrences make `replace` remove at least two |
| Cli.VersionOfNamed | backend/cli.py:79-81 | naming a version's up file and reading its version back are inverse |
| Cli.UpFileOfVersion | backend/cli.py:79-81 | every up file is its version followed by `.up.sql` |
| Cli.RemoveAllWithoutDots | backend/cli.py:80 | for a stem without dots, removing `.up` removes only the final one |
| Cli.VersionsAgree | backend/cli.py:80 | for a version without dots, as every generated timestamp name is, the code's reading and the intended one agree |
| Cli.FilesEndingWith | backend/cli.py:79 | the glob keeps exactly the names with that suffix |
| Cli.UpFiles | backend/cli.py:79 | the up files are sorted and are exactly the names ending in `.up.sql` |
| Cli.CandidatesMember | backend/cli.py:79-84 | an entry is kept exactly when its up file is listed, its version is read from it, and the down file of that version exists |
| Cli.AvailableAsWrittenMember | backend/cli.py:70-86 | as written, a migration is available exactly when the directory holds a `*.up.sql` file, its version is that file's stem with every `.up` removed, and the down file of that version exists |
| Cli.AvailableMember | backend/cli.py:80 | the corrected reading of the cli.py:80 finding: read by suffix, a migration is available exactly when the directory holds its up file and the down file of the same version |
| Cli.CreatedIsAvailable | backend/cli.py:242-255 | the two files `migrate create` writes make their version available, whatever the name |
| Cli.CreatedUpFiles | backend/cli.py:79 | of the two files `migrate create` writes for any version, only the up file matches `*.up.sql` |
| Cli.DottedVersionShortened | backend/cli.py:80 | as written, the version read from the up file created for a name containing `.up` is at least three characters shorter than the created version |
| Cli.DottedNameUpFiles | backend/cli.py:79 | of the files created for the name `a.up`, only the up file matches the glob |
| Cli.DottedNameVersion | backend/cli.py:80 | as written, `1_a.up.up.sql` reads as version `1_a`; the intended reading is `1_a.up` |
| Cli.DottedNameAsWritten | backend/cli.py:70-86 | as written, the files created for `a.up` yield no available migration |
| Cli.DottedNameCorrected | backend/cli.py:70-86 | read by suffix, the same files yield exactly the created migration |
| Cli.AsWrittenLosesDottedName | backend/cli.py:80 | for every timestamp and every name containing `.up`, the two files `migrate create` writes yield, as written, no available migration |
| Cli.AsWrittenNeverPairs | backend/cli.py:70-86 | in any directory, the up file written for a name containing `.up` is never read, as written, with its created version or paired with its down file |
| Cli.VersionsOf | backend/cli.py:159-160 | the versions of the entries, in order |
| Cli.UpScripts | backend/cli.py:159-160 | the up files of the entries, in order |
| Cli.Pending | backend/cli.py:142-146 | pending entries are exactly the available ones whose version is not applied |
| Cli.UpTo | backend/cli.py:152-157 | with a target, exactly the pending entries whose version is at most the target, compared as strings |
| Cli.UpPlanMembers | backend/cli.py:139-160 | nothing runs exactly when every available version is applied, even if the target excludes all; otherwise the plan holds exactly the unapplied entries up to the target, so no applied version is applied again |
| Cli.SliceStart | backend/cli.py:180 | Python's slice start lies within the list |
| Cli.RollbackSliceCases | backend/cli.py:180 | `applied[-steps:]` is the newest `steps` versions for `0 < steps <= len`, all of them for 0 or `steps >= len`, and for a negative count all but the oldest `-steps` |
| Cli.Reversed | backend/cli.py:182 | the versions in reverse order |
| Cli.DownForMember | backend/cli.py:174 | a version is in the dictionary exactly when an entry has it, and maps to that entry's down file |
| Cli.FoundMember | backend/cli.py:182-188 | a version is rolled back exactly when it is in the order and its files are known |
| Cli.DownScriptsCount | backend/cli.py:182-188 | one down file is run per version found, none for the others |
| Cli.WithoutMember | backend/cli.py:124 | deleting a version removes every row of it and keeps all others |
| Cli.WithoutAllMember | backend/cli.py:182-188 | after the loop a row remains exactly when its version was not rolled back |
| Cli.RollbackStep | backend/cli.py:182-188 | each version of the order adds one deletion and one down file when known, and nothing otherwise |
| Cli.StatusLines | backend/cli.py:232-234 | one line per available version, marked applied exactly when it is |
| Cli.PendingIsUnmarked | backend/cli.py:232-239 | the intended pending count, the unapplied available versions, equals the number of `[PENDING]` lines |
| Cli.PrintedPendingCounterexample | backend/cli.py:239 | as written, with table rows whose files are gone, the printed count is -1 while one line says `[PENDING]` |
| Cli.ResetKeeps | backend/cli.py:192-213 | rolling back every applied version, newest first, keeps exactly the rows whose files are gone |
| Cli.StatusStep | backend/cli.py:232-234 | one more entry adds its line and, when unapplied, one to the count |
| Cli.StatusOf | backend/cli.py:232-234 | the loop produces one line per available version, in order, marked exactly when that version is applied |
| Cli.MigrationManager.constructor | backend/cli.py:20-23 | a manager over a directory listing and a table, nothing executed yet |
| Cli.MigrationManager.Applied | backend/cli.py:58-68 | the applied versions are the table's rows, sorted |
| Cli.MigrationManager.GetAvailableMigrations | backend/cli.py:70-86 | the loop yields exactly the up files whose version, read as `stem.replace(".up", "")`, has its down file in the directory, in sorted order |
| Cli.MigrationManager.ApplyMigration | backend/cli.py:88-107 | the up file runs, then the version is recorded |
| Cli.MigrationManager.RollbackMigration | backend/cli.py:109-128 | the down file runs, then every row of the version is deleted |
| Cli.MigrationManager.ApplyAll | backend/cli.py:159-160 | each planned entry is applied in order |
| Cli.MigrationManager.MigrateUp | backend/cli.py:130-162 | over the migrations the code finds: without pending work nothing changes; otherwise the plan is applied in order and its length reported |
| Cli.MigrationManager.RollbackAll | backend/cli.py:182-188 | each version whose files are known is rolled back in the order given, the others skipped |
| Cli.MigrationManager.MigrateDown | backend/cli.py:164-190 | without applied versions nothing changes; otherwise the slice is rolled back newest first, each down file taken from the migrations the code finds, and the count printed is the slice's length even when some were skipped |
| Cli.MigrationManager.MigrateReset | backend/cli.py:192-213 | with something applied and either `force` or the answer `yes` in any case, every applied version is rolled back and only those the code finds no files for stay; otherwise nothing changes |
| Cli.MigrationManager.MigrateStatus | backend/cli.py:215-240 | nothing when the code finds no migration; otherwise one line per migration found, the totals, and as pending `len(available) - len(applied)`, as printed |
| Cli.ServeCommand | backend/cli.py:357-360 | `serve` takes host `0.0.0.0`, port 8000 and one worker when the options are absent |
| Cli.DownCommand | backend/cli.py:371 | `migrate down` rolls back one step when `--steps` is absent |
| Cli.Dispatch | backend/cli.py:462-515 | `main` exits with 1 exactly for a missing, unknown or incomplete command, printing help or the error; otherwise it runs the command, with a single worker under `--reload` |
| Cli.ReloadForcesOneWorker | backend/cli.py:481 | `--reload` always runs a single worker, whatever `--workers` says |
| Config.DsnRoundTrip | backend/config.py:19-21 | the connection string reads back to the configured user, password, host, port and database whenever the user has no `:`, the password no `@` and the host no `:` |
| Config.Getenv | backend/config.py:61 | a variable's value when it is set, else the default |
| Config.GetSettings | backend/config.py:54-78 | each setting is its variable or its default; the integer settings fail to load exactly when one is not an integer; `DEBUG` is compared lower-cased; the origins split on commas rejoin to the variable |
| Config.DefaultNumerals | backend/config.py:62-72 | the integer defaults denote 5432, 5, 20 and 1440 |
| Config.DefaultOriginList | backend/config.py:76 | the default origins are the two local front-end addresses |
| Config.DefaultSettings | backend/config.py:59-78 | with no variable set every setting takes its default: localhost:5432, pools 5/20, HS256, 1440 minutes, debug off, `/api/v1` |
| Config.DebugFlag | backend/config.py:75 | `DEBUG` is read without regard to case, and anything but `true` means off |
| Config.OriginsKeepSpaces | backend/config.py:76 | origins are not trimmed: a space after a comma stays in the next origin |
| EndToEnd.ApiErrorKeepsMessage | backend/core/exceptions.py:40-58 | an application error reaches the screen as its own message |
| EndToEnd.RaisedErrorsKeepMessage | backend/core/exceptions.py:15-58 | so does every not-found, validation and conflict error an endpoint raises |
| EndToEnd.MissingProjectShown | backend/routers/projects.py:130-133 | a missing project's 404 is shown as the server's sentence naming its id |
| EndToEnd.AdminRefusalShownAsStatus | backend/routers/admin.py:10-11 | a non-admin's refusal carries only `detail`, which the client does not read, so it is shown as `HTTP 403` |
| EndToEnd.LoginRefusalShownAsUnauthorized | backend/routers/auth.py:29-39 | a refused login is shown as `Unauthorized`, not as the server's sentence |
| EndToEnd.CrashShownWithPrefix | backend/core/exceptions.py:61-75 | any other failure is shown as the catch-all's prefixed text |
| EndToEnd.ShownPages | backend/core/pagination.py:68 | the page count shown is the server's, except that an empty result, counted as 0 pages, shows one |
| EndToEnd.OfferedPageSizesAccepted | backend/core/pagination.py:14-21 | every page size a screen offers is within the server's limit, on every page |
| EndToEnd.SentSortOrdersAccepted | backend/core/pagination.py:28-34 | the sort orders a screen sends are accepted and reach SQL as `ASC` or `DESC` |
| EndToEnd.SortKeysWhitelisted | backend/routers/technologies.py:123 | every column a screen can sort by is one its endpoint whitelists, so none falls back to `created_at` |
| EndToEnd.ArchiveDefaultsAgree | backend/routers/admin.py:17-63 | screen and server agree on the 180-day threshold and the ten-entry history |
| Pagination.CeilDiv | backend/core/pagination.py:68 | the page count `ceil(total / size)` is the least number of pages of `size` rows that hold `total` rows |
| Text.SortStringsCorrect | backend/cli.py:79 | the migration files taken in sorted order: the result is ordered and holds the same names, each as often |
| Text.JoinSplit | backend/config.py:76 | splitting a setting on a separator and joining the parts back with it gives the setting unchanged |
| Text.SplitJoin | backend/config.py:76 | parts free of the separator, once joined, split back into exactly those parts |
| Text.ParseIntToString | backend/config.py:64-72 | the decimal rendering of an integer parses back to that integer, both as Python's `int()` and as the front-end's `Number` |
| Text.ToLowerIdempotent | backend/config.py:75 | lower-casing an already lower-cased text changes nothing |
| Text.TrimEmptyIffBlank | frontend/src/features/technologies/hooks/useTechnologies.ts:151 | a name trims to nothing, and `onCreateCategory` sends nothing, exactly when every character is JavaScript white space or a line terminator, U+00A0 and U+FEFF included |
| Text.Utf16Length | frontend/src/features/users/hooks/useUsers.ts:10 | JavaScript `length` counts a character beyond U+FFFF twice: between one and two units per character, exactly one each when none lies beyond U+FFFF |
| Text.Utf16LengthAppend | frontend/src/pages/Login.tsx:21 | the code units of a concatenation are the sum of the parts' |

## Left out

- Percent-encoding in `URLSearchParams` is not modelled: a pair is rendered as `key=value` unchanged. The round-trip lemmas are stated for keys free of `&` and `=` and for values free of `&`.
- JavaScript `Number` is modelled on optional `-` plus decimal digits, with `""` giving 0. Fractions, exponents, surrounding whitespace and hexadecimal give `None`. The modelled code only converts ids and page sizes.
- Python `int()` is modelled on optional `-` plus decimal digits. It does not accept surrounding whitespace, `+` or `_` separators.
- `lower()` and `upper()` are ASCII-only. Non-ASCII case mapping is left out.
- `ceil(total / page_size)` is computed on floats in the source. The model uses exact integer ceiling division, which agrees with it for every count a database can return.
- JSON numbers are integers: every number the modelled code inspects is an id, a count or a status code.
- `JSON.parse`/`JSON.stringify`, zod's e-mail and URL grammars, and jose/passlib are abstract parameters, not implementations.
- The asyncpg pool, `backend/core/database.py`, `backend/main.py` and `backend/routers/dashboard.py` are not part of this model. They are wiring and aggregation.
- The SQL each service sends is not modelled, and neither are the rows it returns. Stored rows are key sets and maps. From the services, the model keeps only two facts: the LIMIT/OFFSET placeholder numbering and the count falling back to 0.
- `backend/schemas/*.py` only shape the datatypes. Pydantic's validation of request bodies is not modelled, except the query limits of paging and sorting: a rejected query is `None`.
- `ProjectUpdate` and `ProjectService.update_project` are not part of this model, so the project update's write is an abstract outcome. Only its checks are modelled.
- The client defines no `api.updateProject` (see Findings). The intended handler `Projects.OnSubmitEdit` takes the update's outcome as a parameter.
- A project's `technologies` field is not defined by the client, so the linked technology ids are a parameter.
- Cli: the asyncpg connection, `ensure_migrations_table` and the tracking table's UNIQUE constraint are not modelled. Neither are the SQL files' contents, file writes, printed banners, `uvicorn.run` or the exit of an uncaught exception. A command line `argparse` rejects never reaches `main` here. The tracking table is a list of versions.
- Cli: `user create` is modelled only as what `main` dispatches. The user manager's lookup and insert are database calls.
- Cli.RemoveAll: its contract is only that the name never lengthens. `Cli.RemoveAllAbsent` covers a name without the pattern, `Cli.RemoveAllShortens` and `Cli.RemoveAllShortensTwice` one and two occurrences, and `Cli.RemoveAllWithoutDots` the dot-free versions `migrate create` writes.
- Cli.MigrationManager.Applied: the versions are ordered by code point, standing for `ORDER BY version` under the database's collation. The two agree on the timestamp-prefixed versions `migrate create` writes, but can differ for hand-named files, which changes the slice `migrate down` rolls back.
- `lru_cache` on `get_settings` is not modelled. Settings are a pure function of the environment map.
- DSN percent-encoding is not modelled: user names, passwords and hosts are copied into the connection string unchanged.
- Dates are opaque strings. Their formatting on screen is left out.
- React's effect scheduling, re-renders and concurrent requests are not modelled. Each handler is one atomic step over its awaited outcome.
- The presentational components are not modelled: the dialogs, `TeamForm`, `TechnologyForm`, `UserForm`, the pages' markup, the dashboard charts and `UserStats`. So is the `cn` class-name helper in `lib/utils.ts`. They hold no logic beyond what the modelled hooks and tables pass them.

## Findings

| source | as written | input that shows it | evidently intended | confidence | as-written member | corrected member |
|---|---|---|---|---|---|---|
| backend/cli.py:239 | `migrate status` prints pending as `len(available) - len(applied)` | one available migration `a`, with `b` and `c` in the tracking table but no longer on disk: prints -1, while one line is marked `[PENDING]` | the number of available migrations not yet applied, that is the lines marked `[PENDING]` | not executed | Cli.PrintedPendingCounterexample | Cli.PendingIsUnmarked |
| backend/cli.py:80 | the version is `up_file.stem.replace(".up", "")`, which removes every `.up` | `migrate create a.up` writes `1_a.up.up.sql` and `1_a.up.down.sql`; the version read back is `1_a`, whose `1_a.down.sql` does not exist, so the migration is never available | strip only the trailing `.up` of the stem, so every created migration is available | not executed | Cli.AsWrittenLosesDottedName | Cli.CreatedIsAvailable |
| frontend/src/features/projects/hooks/useProjects.ts:136 | `await api.updateProject(editing.id, …)`, a method the `api` object in `client.ts` does not define | open any project for editing and submit a valid form: the call throws `TypeError: api.updateProject is not a function`, nothing is sent, the dialog stays open | an `updateProject` that sends the payload to the back-end's `PUT /projects/{id}`, after which the dialog closes and the list reloads | not executed | Projects.OnSubmitEditAsWritten | Projects.OnSubmitEdit |
