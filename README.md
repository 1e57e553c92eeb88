# p3 client state, modelled in Dafny

This project models the client-state layer of the p3 forum client, a React single-page
application. It covers:

- **Load lifecycles.** The generic hook `useApi`, plus the hand-rolled hooks of the forum list, the
  post detail page, the comments and the login/logout flow. Each keeps `data`, `loading` and
  `error` and moves them through one fixed sequence per call.
- **Stores.** The session store (anonymous or authenticated) and the forum-list and data1 caches.
  The data1 cache keeps "not loaded" (null) apart from "loaded, empty".
- **Services.** These turn the result of an API call into store writes.
- **Request layer.** The `beforeRequest` hook attaches `X-Session-ID` only when a session id is
  present. The forum API client builds the method, path and body of each operation.
- **Mock backend.** Credential matching and lookup by id over fixed tables, answering 401 or 404
  on a miss.
- **`LoadingErrorWrapper`.** Loading takes precedence over an error, and an error over the page content.

An awaited API call is a parameter, not I/O. It is an `Outcome`: either the call returned a
`Result` (`Ok(value)` or `Err(ApiError)`), or it threw. Where the source passes arguments to the
call (`useApi` variables, the login request, a post id), the parameter is a total function of
those arguments, so contracts show what the call was given. Each hook or service call is one
atomic step. `UseApi.Begin` and `UseApi.Settle` split `execute` at its await so that overlapping
calls can also be described.

JavaScript library behaviour that the core depends on is written out in module `Js`:

- `parseInt(s, 10)`: leading white space, sign, and the longest digit prefix.
- `isNaN(Number(s))`: the StringNumericLiteral grammar of ECMAScript, including `Infinity`,
  decimals, exponents and `0x`/`0o`/`0b` literals.
- The template-literal formatting of integers.

`execute` clears `error` only at its start. The success branch (src/hooks/useApi.ts:30-31)
leaves `error` alone. `UseApi.OverlapKeepsStaleError` shows the consequence: when one call
fails and an overlapping later call succeeds, the earlier error stays next to the new data.

## Model

| member | source | states |
|---|---|---|
| Seqs.FindIndex | src/lib/useForums.ts:29 | the index of the first element satisfying the predicate, every earlier element fails it, and `None` exactly when no element satisfies it (`Array.prototype.find`) |
| Js.TrimStart | src/lib/api/mock/handlers.ts:41 | the white space `parseInt` skips: the result is a suffix of the input, every character removed is white space, and the result does not start with white space |
| Js.ParseInt10SkipsWhiteSpace | src/lib/api/mock/handlers.ts:41 | `parseInt(w + s, 10) == parseInt(s, 10)` whenever `w` is all white space |
| Js.ParseInt10ReadsPrefix | src/lib/api/mock/handlers.ts:41 | `parseInt` reads a formatted integer back even when non-digit text follows it |
| Js.ParseInt10RoundTrip | src/lib/api/forum.ts:18-29 | `parseInt` of the decimal text of an id gives the id back |
| Js.NumberToStringInjective | src/lib/api/forum.ts:18-29 | distinct ids format to distinct path segments |
| Js.NumberToStringShape | src/lib/api/forum.ts:18-29 | a formatted id is non-empty and consists of digits, with at most a leading '-'; so it never contains '/' |
| Js.ParseInt10 | src/lib/api/mock/handlers.ts:41 | `parseInt(s, 10)`: leading white space skipped, an optional sign, then the longest run of decimal digits; `None` (NaN) when there are none (a definition; its properties are stated by the `Js.ParseInt10…` lemmas) |
| Js.NumberToString | src/lib/api/forum.ts:18-29 | an integer in a template literal: an optional '-' and the decimal digits (a definition; its properties are stated by `Js.NumberToStringShape`, `Js.NumberToStringInjective` and `Js.ParseInt10RoundTrip`) |
| Js.NumberIsNaN | src/pages/ForumPostDetailPage.tsx:81-87 | `isNaN(Number(s))`: the text, trimmed of white space, is neither empty nor a StringNumericLiteral (a definition; its behaviour is stated by `Js.NumberToStringIsNumber` and the id-check lemmas of `ForumPostDetailPage`) |
| Js.NumberToStringIsNumber | src/pages/ForumPostDetailPage.tsx:81-87 | the decimal text of every integer is a numeric literal for `Number`, i.e. not NaN |
| Api.BeforeRequest | src/lib/api/index.ts:13-18 | when the store's session id is truthy, sets `X-Session-ID` to it as `Headers.set` stores it, which means white space stripped at both ends; it throws, with the headers unchanged, exactly when `Headers.set` rejects the id; when the id is not truthy, the headers are unchanged; no other header is added, removed or changed |
| Api.StripLeading | src/lib/api/index.ts:16 | the leading HTTP white space that `Headers.set` drops: a suffix of the value, every removed character white space, the rest not starting with white space |
| Api.StripTrailing | src/lib/api/index.ts:16 | the trailing HTTP white space that `Headers.set` drops: a prefix of the value, every removed character white space, the rest not ending with white space |
| Api.PlainSessionIdSentVerbatim | src/lib/api/index.ts:14-16 | a session id of printable ASCII without spaces (such as the mock backend's) is accepted and sent exactly as stored |
| Api.PaddedSessionIdTrimmed | src/lib/api/index.ts:14-16 | white space around a plain session id is dropped from the header value, and the header is still set |
| Api.BrokenSessionIdThrows | src/lib/api/index.ts:16 | a session id with a line break inside makes `Headers.set` throw |
| AuthStore.AuthState.constructor | src/stores/authStore.ts:17-21 | the store starts anonymous (all fields null, not authenticated), which satisfies the invariant |
| AuthStore.AuthState.Login | src/stores/authStore.ts:23-29 | all four fields are overwritten with the arguments and `isAuthenticated`, whatever the previous state (last login wins); the invariant holds after |
| AuthStore.AuthState.Logout | src/stores/authStore.ts:31-37 | from any state, the result is the initial anonymous state; so logout is idempotent and login followed by logout is the initial state |
| ForumStore.ForumState.constructor | src/stores/forumStore.ts:9-10 | the forum list starts empty |
| ForumStore.ForumState.SetForums | src/stores/forumStore.ts:11 | the list becomes exactly the argument (wholesale replacement, so idempotent) |
| Data1Store.Data1State.constructor | src/stores/data1Store.ts:13-14 | the store starts null, meaning "not loaded" |
| Data1Store.Data1State.Set | src/stores/data1Store.ts:15 | the store becomes exactly the argument, null and `[]` included; one write is counted |
| UseApi.ResultOf | src/hooks/useApi.ts:38-46 | `execute` returns exactly the API function's result; when the function throws, it returns the hand-built stub instead, which is not ok and whose `.error` is `{"Unexpected error occurred", 500}` |
| UseApi.Begin | src/hooks/useApi.ts:22-23 | the state while the call is awaited: `loading` set and `error` cleared, `data` kept (a definition; its properties are stated by `UseApi.ExecuteReflectsResult`) |
| UseApi.Settle | src/hooks/useApi.ts:30-43 | the state once the call settles: Ok writes `data` and leaves `error`; Err, or a throw, writes the error and clears `data`; `loading` is cleared (a definition; its properties are stated by `UseApi.ExecuteReflectsResult` and `UseApi.OverlapKeepsStaleError`) |
| UseApi.ExecuteReflectsResult | src/hooks/useApi.ts:21-47 | after any completed `execute`, `loading` is false and the state agrees with the returned value: `isOk()` exactly when data is held; then the value and no error; otherwise the returned `.error` and no data; never both data and an error |
| UseApi.OverlapKeepsStaleError | src/hooks/useApi.ts:22-34 | when two calls overlap and the first fails before the second succeeds, `data` and `error` are both set, because the Ok branch does not clear `error` |
| UseApi.ApiHook.constructor | src/hooks/useApi.ts:15-19 | `immediate` defaults to true, `variables` is the option's, and the state starts with no data, not loading, no error |
| UseApi.ApiHook.Execute | src/hooks/useApi.ts:21-48 | calls the API function with the `execute` variables if given, else the option's; returns its result; the new state is `Settle(Begin(old state), outcome)`, not loading, and exclusive |
| UseApi.ApiHook.OnDependenciesChanged | src/hooks/useApi.ts:57-62 | the effect runs `execute()` with the option's variables exactly when `immediate` holds; otherwise it changes nothing |
| UseApi.ApiHook.Reset | src/hooks/useApi.ts:50-54 | from any state, returns to the initial state, so a reset is idempotent |
| ForumQuery.ForumById | src/lib/useForums.ts:23-30 | `None` for an absent cache; otherwise the first forum in list order whose id matches; a returned forum always has the id asked for; `None` exactly when the cache is absent or has no forum with that id |
| ForumQuery.UnloadedAndMissingLookAlike | src/lib/useForums.ts:27-29 | an absent cache and a cache without the forum both give `None` |
| UseForums.AutoLoadGuard | src/hooks/useForums.ts:29 | the effect's condition: `forums.length === 0 && !loading && !error` (a definition; its behaviour is stated by `UseForums.ForumsHook.AutoLoad`, `UseForums.FailedLoadStopsAutoLoad` and `UseForums.EmptyLoadReopensGuard`) |
| UseForums.ForumsHook.ShouldAutoLoad | src/hooks/useForums.ts:28-32 | the guard over the shared store's list and the hook's own `loading` and `error` (a definition, used by `UseForums.ForumsHook.AutoLoad`) |
| UseForums.FailedLoadStopsAutoLoad | src/hooks/useForums.ts:20-32 | from any hook state, after a load fails with `e`, the next auto-load does not fire; `error` stays `e`, `loading` is false and the list is unchanged |
| UseForums.ForumsHook.constructor | src/hooks/useForums.ts:7-10 | the hook starts not loading and with no error, over the shared forum store |
| UseForums.ForumsHook.LoadForums | src/hooks/useForums.ts:12-25 | on Ok the store's list becomes the value and `error` stays clear; on Err `error` is set and the list is left as it was; both end with `loading` false; a throw leaves `loading` true |
| UseForums.ForumsHook.AutoLoad | src/hooks/useForums.ts:28-32 | loads exactly when `forums.length == 0 && !loading && !error`, and then the state is that of `loadForums` for the outcome (Ok: the list is the value, no error, not loading; Err: list unchanged, the error, not loading; throw: list unchanged, no error, still loading); otherwise nothing changes; after a failed load the guard is closed |
| UseForums.EmptyLoadReopensGuard | src/hooks/useForums.ts:18-29 | after a successful load of an empty list the guard is open again, so the effect keeps reloading |
| ForumService.LoadForums | src/services/forumService.ts:7-15 | on Ok the forum store becomes the value; on Err it is left unchanged; the promise rejects only when the call throws |
| ForumService.GetForumPosts | src/services/forumService.ts:17-26 | the posts on Ok and `[]` on Err, never an error value; rejects only when the call throws |
| Data1Service.LoadAll | src/services/data1Service.ts:5-13 | on Ok the store becomes exactly the value, never null, with one write; on Err or a throw the store is unchanged with no write |
| AuthService.Login | src/services/authService.ts:6-16 | calls login with the username and password; on success the store holds the server's session id and user id and the caller's username (never the password); on an error or a throw the store is unchanged |
| AuthService.Logout | src/services/authService.ts:18-23 | once the logout call returns, the store is anonymous, whatever the call returned; a throw escapes first and leaves the store |
| UseAuth.AuthHook.constructor | src/hooks/useAuth.ts:10-12 | the hook starts not loading and with no error |
| UseAuth.AuthHook.Login | src/hooks/useAuth.ts:14-33 | on Ok the store is logged in with the server's ids and the argument's username, and `error` stays clear; on Err `error` is set and the store is unchanged; both end with `loading` false |
| UseAuth.AuthHook.Logout | src/hooks/useAuth.ts:35-43 | once the call returns, the store is anonymous whatever it returned, and `loading` ends false; `error` is never modified |
| ForumApi.GetForums | src/lib/api/forum.ts:16 | GET with no body, decoding to the `getForums` operation |
| ForumApi.GetForum | src/lib/api/forum.ts:18 | GET `forums/<id>` with no body, decoding back to `getForum` with the same id |
| ForumApi.GetForumPosts | src/lib/api/forum.ts:20 | GET `forums/<id>/posts` with no body, decoding back to `getForumPosts` with the same id |
| ForumApi.GetPost | src/lib/api/forum.ts:22 | GET `posts/<id>` with no body, decoding back to `getPost` with the same id |
| ForumApi.GetPostComments | src/lib/api/forum.ts:24 | GET `posts/<id>/comments` with no body, decoding back to `getPostComments` with the same id |
| ForumApi.CreatePost | src/lib/api/forum.ts:26 | POST with the request unchanged as the body, decoding back to `createPost` with that request |
| ForumApi.CreateComment | src/lib/api/forum.ts:28-29 | POST with the request unchanged as the body, to a path whose id is the request's own `postId`; decodes back to `createComment` with that request |
| ForumApi.Encode | src/lib/api/forum.ts:15-30 | every operation's call decodes back to that operation and its arguments |
| ForumApi.CallsIdentifyOperations | src/lib/api/forum.ts:15-30 | two operations that make the same call are equal, arguments included |
| MockHandlers.Login | src/lib/api/mock/handlers.ts:17-27 | succeeds iff some user matches both the username and the password, answering with that user's session id and user id; otherwise 401 "Invalid credentials" |
| MockHandlers.LoginExamples | src/lib/api/mock/handlers.ts:3-27 | each fixed user logs in with their own credentials and gets their own session; a right username with a wrong password gets 401 |
| MockHandlers.Logout | src/lib/api/mock/handlers.ts:29-32 | always answers "Logged out successfully" |
| MockHandlers.ListData1 | src/lib/api/mock/handlers.ts:34-37 | answers the whole fixed table, in order |
| MockHandlers.Data1ById | src/lib/api/mock/handlers.ts:39-47 | answers an entry whose id equals `parseInt(id, 10)`, and only if one exists; otherwise 404 "Data not found", including for an id that does not parse |
| MockHandlers.Data1WithId | src/lib/api/mock/handlers.ts:41-46 | the `find` over the table by an already parsed id: an entry exactly when some entry has that id, and then one with that id; 404 "Data not found" otherwise, `NaN` included |
| MockHandlers.Data1WithIdTable | src/lib/api/mock/handlers.ts:8-45 | id `k` finds the `k`-th entry exactly when `1 <= k <= 3`; every other id gives 404 |
| MockHandlers.Data1ByParsedId | src/lib/api/mock/handlers.ts:39-47 | an id that parses to `k` gets the `k`-th entry when `1 <= k <= 3`, and 404 otherwise |
| MockHandlers.Data1ByIdFinds | src/lib/api/mock/handlers.ts:41-43 | `"2"` finds the second entry |
| MockHandlers.Data1ByIdSkipsWhiteSpace | src/lib/api/mock/handlers.ts:41-43 | `" 3"` finds the third entry, because `parseInt` skips leading white space |
| MockHandlers.Data1ByIdIgnoresTrailingText | src/lib/api/mock/handlers.ts:41-43 | `"2abc"` finds the second entry, because `parseInt` stops at the first non-digit |
| MockHandlers.Data1ByIdRejectsText | src/lib/api/mock/handlers.ts:41-45 | `"abc"` does not parse and gets 404 |
| MockHandlers.Data1ByIdMissing | src/lib/api/mock/handlers.ts:41-45 | `"4"` parses but is not in the table and gets 404 |
| LoadingErrorWrapper.Render | src/components/shared/loading-error-wrapper.tsx:11-37 | loading shows the loading message whatever the error is; otherwise an error shows `prefix + ": " + message`; the children are shown unchanged exactly when neither; the optional props take their defaults |
| LoadingErrorWrapper.DefaultTexts | src/components/shared/loading-error-wrapper.tsx:14-15 | with the optional props left out, the texts are "Loading..." and "Error: " followed by the message |
| ForumPostDetailPage.PostDetailHook.constructor | src/pages/ForumPostDetailPage.tsx:11-14 | starts with no post, not loading, no error |
| ForumPostDetailPage.PostDetailHook.LoadPost | src/pages/ForumPostDetailPage.tsx:16-30 | fetches the hook's own post id; on Ok stores the post with `error` clear; on Err stores the error and clears the post; both end with `loading` false; never a post next to an error |
| ForumPostDetailPage.CommentsHook.constructor | src/pages/ForumPostDetailPage.tsx:45-48 | starts with `comments == []`, not loading, no error |
| ForumPostDetailPage.CommentsHook.LoadComments | src/pages/ForumPostDetailPage.tsx:50-64 | on Ok stores the list with `error` clear; on Err stores the error and resets the list to `[]`, not null; both end with `loading` false |
| ForumPostDetailPage.PostIdRejected | src/pages/ForumPostDetailPage.tsx:81-87 | rejects when `!postId` or `isNaN(Number(postId))` holds (a definition; its behaviour is stated by the lemmas in the rows below) |
| ForumPostDetailPage.FormattedIdAccepted | src/pages/ForumPostDetailPage.tsx:81-87 | every id the client formats into a URL passes the invalid-id check |
| ForumPostDetailPage.MissingIdRejected | src/pages/ForumPostDetailPage.tsx:87 | a missing or empty route parameter is rejected |
| ForumPostDetailPage.TextIdRejected | src/pages/ForumPostDetailPage.tsx:81-87 | `"abc"` is NaN and is rejected |
| ForumPostDetailPage.TrailingTextRejected | src/pages/ForumPostDetailPage.tsx:81-87 | `"12abc"` is rejected, because `Number` needs the whole text to be numeric, unlike `parseInt` |
| ForumPostDetailPage.BlankIdAccepted | src/pages/ForumPostDetailPage.tsx:81-87 | `" "` passes the check, because `Number(" ")` is 0 |
| ForumPostDetailPage.ExponentIdAccepted | src/pages/ForumPostDetailPage.tsx:81-87 | `"1e3"` passes the check |
| ForumPostDetailPage.HexIdAccepted | src/pages/ForumPostDetailPage.tsx:81-87 | `"0x1F"` passes the check |
| ForumPostDetailPage.InfinityIdAccepted | src/pages/ForumPostDetailPage.tsx:81-87 | `"Infinity"` passes the check |
| ForumPostDetailPage.WrapperErrorAsWritten | src/pages/ForumPostDetailPage.tsx:96-100 | the `ApiError` handed to the wrapper is an error with no `message` |
| ForumPostDetailPage.PostErrorLosesMessage | src/pages/ForumPostDetailPage.tsx:96-100 | as written, a failed post load renders "Error loading post: " with nothing after it |
| ForumPostDetailPage.WrapperError | src/pages/ForumPostDetailPage.tsx:96-100 | the error prop is present exactly when there is an `ApiError`, and its message is that error's text |
| ForumPostDetailPage.SectionView | src/pages/ForumPostDetailPage.tsx:96-141 | for the post and for the comments: the section's loading text ("Loading post...", "Loading comments...") while loading; otherwise its error prefix followed by ": " and the server's message on an error; otherwise the section's content |

## Left out

- Page markup, routing (`AuthGuard` in src/router.ts), the MSW bootstrap, the layout and the form
  schemas: these are presentation and library configuration.
- `apiClient` (used by src/lib/api/forum.ts) and `parseApiError` (used by src/lib/api/data1.ts)
  are not part of this model. The forum client is modelled as the method, path and body it hands
  to `apiClient`. How the client turns a response into a `Result` is an abstract outcome.
- ky itself, including the `/api` prefix it adds to every path: the forum paths are relative to
  that prefix. Header names are compared exactly, without HTTP's case folding.
- react-query: the permanent-cache configuration, `useForums` in src/lib/useForums.ts and
  `useRefreshForums`. `useForumById` is modelled over the cache snapshot as an optional list.
- The zustand `persist`/`devtools` middleware, meaning local storage under "auth-storage" and
  "data1-storage".
- Toasts, `navigate(...)` and `window.location.href`: these are side effects outside the state.
- The `sleep` delays of the mock handlers, and the scheduling of async calls. Each call is one
  atomic step. Overlap is described only through `UseApi.Begin`/`UseApi.Settle` and
  `UseApi.OverlapKeepsStaleError`.
- React's batching of state updates. Each field written by a hook is written in program order.
- JavaScript numbers are modelled as unbounded integers. Fractions, `NaN` and the exponent form
  that `String` uses from 1e21 upward are not modelled. The page's hooks are therefore given an
  integer post id, and they do not model the page still fetching `getPost(NaN)` before it shows
  "Invalid post URL".
- Dates are opaque values (epoch milliseconds), and `formatDate` is not modelled.
- src/pages/ForumPostDetailPage.tsx:80 reads `getForumById` from the forum store, but
  src/stores/forumStore.ts:4-12 defines no such member. As written, the call at line 82 calls
  `undefined` and throws a TypeError on every render of the page. That happens before the hooks
  (lines 83-84), the invalid-id check (line 87) and the wrapper (line 96) are reached. The page
  model (`ForumPostDetailPage`) describes the page as it would behave with a store that defines
  `getForumById`. The lookup itself and the forum title of the back link are not modelled.
- The `Data1` type is not declared in src/types.ts. Its fields (`id`, `name`, `tags`)
  are taken from the mock table in src/lib/api/mock/handlers.ts.
- src/lib/api/auth.ts, the throwing wrapper over ky, is not modelled. Login and logout calls are
  abstract outcomes of type `LoginResponse` and `LogoutResponse`.
- UseApi.ResultOf: the error stub is modelled as a value that is not ok and carries `.error`. A
  caller that called `isErr()`, `.value` or `match` on it would throw; that throw is not modelled
  (the callers in the source use only `isOk()`).
- Api.BeforeRequest: header names are not validated, and the forbidden-header rules of the
  request guard are not modelled (`X-Session-ID` is not a forbidden name).
- UseApi.ApiHook.Execute: `setLoading`, `setError` and `setData` run as plain assignments in one
  step. The intermediate renders React would show are not modelled.

## Findings

| source | as written | input that shows it | evidently intended | confidence | as-written member | corrected member |
|---|---|---|---|---|---|---|
| src/pages/ForumPostDetailPage.tsx:96-100 with src/components/shared/loading-error-wrapper.tsx:30 | the page passes its `ApiError` (`{error, code}`) as the wrapper's `error` prop, and the wrapper prints `error.message`, which an `ApiError` does not have | with a forum store that defines `getForumById` (as written, the page already throws at line 82; see "Left out"), any failed post load, e.g. `Err({error: "Post not found", code: 404})`, renders "Error loading post: " with nothing after it | the server's message after the prefix: "Error loading post: Post not found" | medium, not executed | ForumPostDetailPage.PostErrorLosesMessage | ForumPostDetailPage.SectionView |
