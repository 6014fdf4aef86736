# Admin panel providers: a verified model

This project models the two in-repository pieces of logic of a small
"blog posts" admin panel built on a web-application framework:

- the **auth provider** (`src/providers/authProvider.ts`): a mock directory of
  registered emails plus at most one stored session, with `login`, `check`,
  `logout`, `onError`, `getPermissions`, `getIdentity`, `register` and the two
  password stubs `forgotPassword` and `updatePassword`;
- the **REST data provider** (`src/providers/data-provider.ts`): how each
  generic data operation (`getList`, `getOne`, `create`, `update`,
  `deleteOne`, `getMany`, `updateMany`, `createMany`, `deleteMany`, `custom`,
  `getApiUrl`) becomes one HTTP request: URL shape, verb, body, and the
  pagination, sort and filter parameters.

Files:

- `wrappers.dfy`: `Option`, for absent fields and `null` results.
- `strings.dfy` (module `Strings`): `Join` (`Array.prototype.join`) and its
  inverse `Split`, with both round-trip lemmas.
- `auth_provider.dfy` (module `AuthProvider`): the state
  `State(users, session)`, one pure function per provider operation, returning
  `(response, next state)` when the operation changes the state. It also holds a
  `Step`/`Run` interpreter over call sequences with the invariants a session of
  calls keeps.
- `data_provider.dfy` (module `DataProvider`): filters, pagination, sorting,
  URL builders and one function per data operation returning the `Request`
  it sends.

Modelling choices:

- The browser storage entry `auth` is the `session` field. The module-level
  `mockUsers` array is the `users` field. Its records carry only an email, so
  a successful login stores `User(email, roles := None)`.
- `mapOperator` belongs to a library that is not part of this model. Every
  function that serializes filters takes it as a parameter `mapOp`, so every
  property holds for every operator mapping. `stringify` is not part of this
  model either: a query string is represented by its ordered groups of
  parameters (`seq<Query>`, one map per `stringify` call), not by encoded text.
  The one query string built without `stringify`, the `ids` parameter of the
  `deleteMany` URL, is modelled character for character.
- Request payloads are a type parameter `P`: the provider never looks inside
  them. Operations that never send a payload use the unit type `()`.
- Record ids are strings, already rendered as they appear in a URL.
- A field absent from a response object is `None`, or `false` for the
  `logout` flag.

Details of the code the model keeps as written:

- The code swaps the `name` and `message` fields between the two errors. The
  login error is named `Invalid email or password` with message `Login Error`.
  The register error is named `Register Error` with message `User already exists`.
- The login session holds only the email; it carries no roles or token.
- An unknown filter operator does not fail in this code. It is passed to
  `mapOperator`, and the model is generic in that mapping.
- Page numbers and sizes are not validated. `_start` and `_end` are computed
  for any integers. JavaScript number semantics are not modelled; see
  `EffectivePage` under "## Left out".
- `custom` sends `head` and `options` requests as GET requests, through its
  default branch.
- The filter query is a plain object (`{}`). A filter whose key comes out as
  `__proto__` assigns through the prototype setter instead of creating a key,
  and `stringify` encodes only own keys, so such a filter is never sent. The
  model never stores that key (`ProtoKey`).

## Model

| member | source | states |
|---|---|---|
| AuthProvider.Boot | src/providers/authProvider.ts:3 | each page load starts from a directory of exactly the two distinct mock emails, together with whatever session the browser storage still holds |
| AuthProvider.Login | src/providers/authProvider.ts:6-26 | login succeeds exactly for an email in the directory. On success it redirects to `/` and stores that user's record as the session. On failure it returns the fixed `Invalid email or password` error and the whole state is unchanged. The directory is never changed |
| AuthProvider.Check | src/providers/authProvider.ts:28-46 | authenticated exactly when a session is stored; otherwise asks for logout, redirects to `/login` and reports the `Unauthorized` error |
| AuthProvider.Logout | src/providers/authProvider.ts:48-54 | always succeeds with a redirect to `/login`, clears the session and keeps the directory |
| AuthProvider.OnError | src/providers/authProvider.ts:56-66 | forces logout exactly for status 401 or 403, then redirecting to `/login` and passing the same error on; any other error gets the empty response |
| AuthProvider.OnErrorStatusOnly | src/providers/authProvider.ts:56-66 | the decision depends only on the status: errors with equal status get the same logout flag and redirect, and a passed-on error is the one received |
| AuthProvider.GetPermissions | src/providers/authProvider.ts:68-78 | `null` exactly when no session is stored, otherwise the stored roles field |
| AuthProvider.GetIdentity | src/providers/authProvider.ts:80-95 | `null` exactly when no session is stored, otherwise the stored email and roles with the fixed name `John Doe` and the fixed avatar URL |
| AuthProvider.Register | src/providers/authProvider.ts:97-116 | a known email fails with `User already exists` and leaves the directory unchanged. A new email is appended at the end and redirects to `/login`. The session is never touched |
| AuthProvider.ForgotPassword | src/providers/authProvider.ts:118-126 | always succeeds and redirects to `/login`, because the function returns before its failure branch |
| AuthProvider.UpdatePassword | src/providers/authProvider.ts:137-145 | always succeeds and redirects to `/login`, because the function returns before its failure branch |
| AuthProvider.LoginIgnoresPassword | src/providers/authProvider.ts:6-8 | the login outcome and next state do not depend on the password |
| AuthProvider.LoginThenCheck | src/providers/authProvider.ts:6-46 | after a successful login `check` is authenticated; after a failed one `check` answers as before |
| AuthProvider.LogoutThenCheck | src/providers/authProvider.ts:28-95 | after logout, `check` is unauthenticated and redirects to `/login`, and permissions and identity are both `null` |
| AuthProvider.IdentityMatchesPermissions | src/providers/authProvider.ts:68-95 | identity and permissions are present together, and the identity's roles are the permissions |
| AuthProvider.RegisterThenLogin | src/providers/authProvider.ts:6-116 | whatever `register` answers, `check` is unaffected and the email can log in afterwards |
| AuthProvider.RegisterTwice | src/providers/authProvider.ts:97-116 | registering the same email again is refused and changes nothing |
| AuthProvider.RegisterSize | src/providers/authProvider.ts:97-116 | the directory grows by exactly one entry on success and by none on failure |
| AuthProvider.StepWellFormed | src/providers/authProvider.ts:3-116 | every call keeps the directory free of duplicates and any stored session pointing at a directory email |
| AuthProvider.RunWellFormed | src/providers/authProvider.ts:3-116 | any sequence of calls keeps that invariant |
| AuthProvider.RunGrowsDirectory | src/providers/authProvider.ts:3-155 | no sequence of calls removes or reorders directory entries: the old directory is a prefix of the new one |
| AuthProvider.NoLoginNoSession | src/providers/authProvider.ts:6-155 | from a logged-out state, no sequence of calls without a login creates a session; registering in particular does not log in |
| Strings.Join | src/providers/data-provider.ts:192 | joining no ids gives the empty string, and the first id always begins the result |
| Strings.SplitJoin | src/providers/data-provider.ts:192 | splitting a comma-joined list gives the original ids back, when there is at least one id and no id contains a comma |
| Strings.JoinSplit | src/providers/data-provider.ts:192 | joining the pieces of any split string gives that string back |
| DataProvider.FilterMap | src/providers/data-provider.ts:25-33 | for every key, the folded query's entry is the value of the last field filter writing that key, and the key is absent when no filter writes it; a generated `__proto__` key is never written, because the plain object at :25 routes that assignment to the prototype setter |
| DataProvider.GenerateFilters | src/providers/data-provider.ts:24-36 | an absent filter list gives the empty query; a present one gives the fold of its filters |
| DataProvider.LastValueIsLastWriter | src/providers/data-provider.ts:27-33 | a key has a value exactly when some field filter writes it, and then it is the value of a filter that no later filter overrides |
| DataProvider.FilterMapKeys | src/providers/data-provider.ts:25-33 | the query's key set is exactly the set of `field + mapOperator(operator)` keys of the field filters less `__proto__`, which is never a key, each holding the value of its last writer |
| DataProvider.FilterMapAppend | src/providers/data-provider.ts:27-33 | folding a concatenation gives the first part's query overridden by the second part's query |
| DataProvider.ConditionalFiltersIgnored | src/providers/data-provider.ts:28-32 | filters without a `field` contribute nothing: dropping them gives the same query |
| DataProvider.LaterFilterWins | src/providers/data-provider.ts:25-31 | of two filters producing the same key, the later one's value is sent; when that key is `__proto__`, neither is sent and the query is what the earlier filters gave |
| DataProvider.ProtoFilterNotSent | src/providers/data-provider.ts:25-31 | a filter on field `__proto__` with operator `eq` (mapped to no suffix) sends no filter parameter |
| DataProvider.EffectivePage | src/providers/data-provider.ts:44 | the page defaults to 1 and the page size to 10, each only when it is absent |
| DataProvider.PageWindow | src/providers/data-provider.ts:52-53 | the range `[_start, _end)` always spans exactly one page size, and page 1 starts at 0 |
| DataProvider.PagesAdjacent | src/providers/data-provider.ts:52-53 | page k+1's `_start` is page k's `_end` |
| DataProvider.PagesOrdered | src/providers/data-provider.ts:52-53 | for a non-negative page size, earlier pages end at or before the start of later ones |
| DataProvider.PageOfIndex | src/providers/data-provider.ts:52-53 | for a positive page size, record index `i` lies in the range of page `i / size + 1` |
| DataProvider.PageOfIndexUnique | src/providers/data-provider.ts:52-53 | for a positive page size, no other page from 1 on contains index `i`, so the pages tile the record indexes |
| DataProvider.SortQuery | src/providers/data-provider.ts:56-59 | `_sort` and `_order` are present together, exactly when the sorter list is non-empty, and hold the field and order of the first sorter |
| DataProvider.SortUsesFirstOnly | src/providers/data-provider.ts:56-59 | sorters after the first have no effect |
| DataProvider.ListParams | src/providers/data-provider.ts:44-59 | the list parameters hold `_start = (page-1)*size` and `_end = page*size` for the defaulted page and size, with `_end - _start` equal to the size, plus the sort parameters and nothing else |
| DataProvider.GetList | src/providers/data-provider.ts:41-65 | `getList` sends a GET to `apiUrl/resource`: pagination and sort parameters as the first group, folded filters as the second |
| DataProvider.Create | src/providers/data-provider.ts:75-78 | `create` sends a POST of the variables to `apiUrl/resource` |
| DataProvider.Update | src/providers/data-provider.ts:85-88 | `update` sends a PATCH of the variables to `apiUrl/resource/id` |
| DataProvider.GetOne | src/providers/data-provider.ts:95-98 | `getOne` sends a GET with no body to `apiUrl/resource/id` |
| DataProvider.DeleteOne | src/providers/data-provider.ts:105-110 | `deleteOne` sends a DELETE to `apiUrl/resource/id`, with the variables as body when given |
| DataProvider.OptionalBody | src/providers/data-provider.ts:108-110 | a delete has a body exactly when variables are given |
| DataProvider.UpdateMany | src/providers/data-provider.ts:117-119 | `updateMany` sends a PATCH of `{ids, variables}` to `apiUrl/resource/bulk` |
| DataProvider.CreateMany | src/providers/data-provider.ts:200-202 | `createMany` sends a POST of `{values: variables}` to `apiUrl/resource/bulk` |
| DataProvider.DeleteMany | src/providers/data-provider.ts:191-193 | `deleteMany` sends a DELETE with no body to `apiUrl/resource/bulk?ids=` followed by exactly the ids joined with `,`, for every id list; no ids leave the parameter empty |
| DataProvider.DeleteManyIds | src/providers/data-provider.ts:192 | with at least one id and no id containing a comma, splitting the text after `?ids=` on commas gives the ids back in order; no ids and the single empty id give the same URL |
| DataProvider.GetMany | src/providers/data-provider.ts:181-184 | `getMany` sends a GET to `apiUrl/resource` with the ids as one `id` parameter |
| DataProvider.GetApiUrl | src/providers/data-provider.ts:39 | `getApiUrl` returns the configured base URL unchanged |
| DataProvider.ResourceUrl | src/providers/data-provider.ts:42 | the resource URL is `apiUrl`, then `/`, then exactly the resource name |
| DataProvider.RecordUrl | src/providers/data-provider.ts:86 | a record URL is its resource URL, then `/`, then exactly the id |
| DataProvider.BulkUrl | src/providers/data-provider.ts:118 | the bulk URL is its resource URL, then `/`, then exactly `bulk` |
| DataProvider.RecordUrlInjective | src/providers/data-provider.ts:86 | different ids of one resource give different record URLs |
| DataProvider.BulkIsRecordBulk | src/providers/data-provider.ts:86-118 | the bulk endpoint is the same URL as the record whose id is `bulk` |
| DataProvider.CustomQuery | src/providers/data-provider.ts:135-152 | `custom` appends a sort group when there are sorters, then a filter group whenever a filter list is given, even an empty one, then the caller's query when given, in that order |
| DataProvider.Custom | src/providers/data-provider.ts:126-179 | `put`, `post`, `patch` and `delete` go to the bare `url` with their own verb and the payload as body. Every other method is sent as a GET with no body to `url?` plus the query groups. Headers are passed through in every case |
| DataProvider.CustomWriteIgnoresQuery | src/providers/data-provider.ts:155-168 | for the four write methods, sorters, filters and query have no effect on the request |
| DataProvider.CustomReadIgnoresPayload | src/providers/data-provider.ts:169-173 | for the GET branch the payload has no effect on the request |
| DataProvider.CustomMatchesList | src/providers/data-provider.ts:56-148 | a `custom` GET serializes sorters and filters exactly as `getList` does. With sorters, its groups are `getList`'s first group minus `_start` and `_end`, then `getList`'s filter group. Without sorters, its one group is `getList`'s filter group |
| DataProvider.UrlFamilies | src/providers/data-provider.ts:75-202 | `getOne`, `update` and `deleteOne` share one URL; `getList` and `create` share another; `updateMany` and `createMany` share the bulk URL, which `deleteMany` extends with `?ids=` |
| DataProvider.ListExample | src/providers/data-provider.ts:41-64 | page 2 of size 10, sorted by title ascending and filtered on status `eq` published, asks for `_start` 10, `_end` 20, `_sort` title, `_order` asc and `status` published |

## Left out

- Network I/O: the HTTP calls and the response error interceptor at
  `src/providers/data-provider.ts:9-22`. The model stops at the request, and
  response data are not modelled.
- The total count of `getList` (`src/providers/data-provider.ts:67`). It is a
  numeric coercion of a response header, which yields NaN (floating point) for
  a missing or non-numeric header.
- The encoding done by `stringify` and the separators around its output (`?`,
  `&`). Queries are kept as ordered parameter groups.
- The mapping `mapOperator` itself, which comes from a library. The model is
  generic in it, so nothing is assumed about unknown operators.
- `src/App.tsx`: routing, layout, theming, and the token-refresh interceptor
  built on a foreign library and browser storage. The framework's reaction to
  `logout: true` (calling `logout`) happens outside the providers and is not
  modelled either.
- The failure branches of `forgotPassword` and `updatePassword`, which are
  unreachable after the early return.
- JSON serialization of the stored session: the session is a `User` record.
- The loss of registered users on a page reload, while the stored session
  survives. `Boot` models one load; the invariants are stated within a load.
- EffectivePage: pagination uses unbounded integers, not JavaScript numbers (doubles). The model is exact
  only for whole-number page and size with |current × pageSize| ≤ 2^53.
  Non-integer, NaN and `null` page values cannot be expressed. With
  `{current: null}`, for instance, the source does not apply the default and
  computes with 0.
- Numeric record ids and non-string filter values are represented as
  strings and `Param` values.
- The `key` field of conditional filters; the fold never reads it.
- The prototype of the filter query object, which an array-valued
  `__proto__` filter replaces. Only own keys are sent, so it does not change
  any request.
