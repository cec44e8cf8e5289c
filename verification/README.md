# Operations console client: request helper, auth session and task list

A Dafny model of three small pieces of logic in the operations console's web client:

- **The request helper** (`src/lib/api.ts`). It selects `API_BASE`, resolves paths against it (`absolute`) and builds the request init (`buildInit`). It also decodes a response into a value or an error message (`asJSON`). `fetch` is not modelled: a request is a value (`Api.Request`) and the response is an input (`Api.Response`). `JSON.parse` and `JSON.stringify` are left uninterpreted. They are the two function fields of `Json.Codec`. Parsed values are a small `Json` datatype, so the truthiness of `json?.error` can be stated. Objects keep their fields in text order. The order in which `JSON.stringify` writes them is left to the codec, because JavaScript lists integer-like keys first.
- **The auth session** (`src/hooks/useAuth.tsx`) and the render gate in `src/App.tsx`. The provider's state is `user` plus `authReady`, and `loading` is derived from it. The asynchronous auth-change handler can be suspended on its token fetch or its `sessionLogin` post, so the model keeps those suspended runs explicitly (`Auth.AuthState.runs`). Events resume them in any order. Firebase calls and backend requests are recorded as effects. Their results come back as events (`Auth.Event`). There is deliberately no generation counter and no stale-result check, and nothing reacts to 401/403: the code has none. The Nav "Log out" button calls the Firebase-only `logout` in `src/firebase.ts`. The provider sees it only as a null identity report (`Reported(None)`).
- **The project page's pure logic** (`src/pages/ProjectDetail.tsx`). This covers tab resolution from the query string, `setTab` and the header labels. It also covers the tasks tab's state updates: `toggle`, `addTask`, the initial load and `group`. The query string is modelled as `URLSearchParams` holds it (`SearchParams`). The task record and its enumerations come from `src/types.ts` (`Types`).

Modules: `Wrappers` (Option, Result), `Json`, `Decimal` (rendering of the status code), `Api`, `Auth`, `App`, `SearchParams`, `Types`, `ProjectDetail`.

The session state is only `user` and `authReady`. There is no exchanging or exchange-failed status, no generation counter that discards stale exchange results, and no handling of 401/403 responses. An identity whose backend exchange failed still passes the gate. `App.ExchangeFailureStillAuthed`, `App.StaleRunOpensGateForNewUser` and `Api.AsJsonOutcomeIgnoresStatus` state these facts about the code.

## Model

| member | source | states |
|---|---|---|
| Api.ApiBase | src/lib/api.ts:3-8 | `API_BASE` is never empty. It is "/api" in production; otherwise it is `VITE_API_BASE2` when that is set and non-empty, else "/api". |
| Api.Absolute | src/lib/api.ts:33-35 | A path starting with "http" is returned unchanged. Any other path is appended to the base with at least one leading "/": one is inserted only when the path has none. |
| Api.AbsoluteUnderBase | src/lib/api.ts:34 | A relative path always ends up under the base: the base is never omitted. Stripping the base gives the path back with a "/" added only when it had none, so the join never inserts a second slash. |
| Api.AbsoluteDoublesRelativeBase | src/lib/api.ts:34 | No existing base prefix is detected. With a "/"-rooted base, resolving an already-resolved path adds the base a second time. |
| Api.AbsoluteIdempotentForHttpBase | src/lib/api.ts:34 | With an "http..." base, resolving an already-resolved path changes nothing. |
| Api.ProductionBaseDoubled | src/lib/api.ts:7-8 | In production, `absolute("/api" + rest)` is "/api/api" + rest. |
| Api.BuildInit | src/lib/api.ts:23-31 | Credentials are always "include" and the JSON content type is always set. A body is present exactly when the argument is not `undefined`, and it is the stringified argument. |
| Api.BuildInitBodyRoundTrip | src/lib/api.ts:29 | When the codec reads a value's stringification back, the request body parses back to the argument. |
| Api.GetRequest | src/lib/api.ts:37-40 | `getJSON` sends the init `buildInit('GET')` to the resolved path: credentialed, JSON header, no body. |
| Api.PostRequest | src/lib/api.ts:41-44 | `postJSON` sends the init `buildInit('POST', body)` to the resolved path: credentialed, JSON header, the stringified body exactly when one is given. |
| Api.PatchRequest | src/lib/api.ts:45-48 | `patchJSON` sends the init `buildInit('PATCH', body)` to the resolved path: credentialed, JSON header, the stringified body exactly when one is given. |
| Api.DeleteRequest | src/lib/api.ts:49-52 | `delJSON` sends the init `buildInit('DELETE')` to the resolved path: credentialed, JSON header, no body. |
| Api.AsJson | src/lib/api.ts:12-21 | Empty text decodes to `{}`. Unparsable text is thrown as its own message, whatever the status. A non-ok status with a decoded body throws the status message. An ok status returns the value. |
| Api.AsJsonSucceedsIff | src/lib/api.ts:15-20 | A value comes back if and only if the status is ok and the text is empty or parses. |
| Api.AsJsonEmptyTextSkipsParse | src/lib/api.ts:15 | Empty text never reaches the parser: any two codecs decode it alike. |
| Api.NonJsonFallbackUnreachable | src/lib/api.ts:15 | The 'Non-JSON response' message surfaces only if the server sent exactly that text, so the fallback branch is dead. |
| Api.StatusFailureStartsWithDigit | src/lib/api.ts:16-18 | Every error raised after a successful decode starts with the status code in decimal followed by a space, so its first character is a digit. |
| Api.AsJsonOutcomeIgnoresStatus | src/lib/api.ts:16 | Whether decoding succeeds does not depend on the status code or status text. 401 and 403 get no special handling. |
| Api.AsJsonNotOkMessage | src/lib/api.ts:16-18 | A non-ok response with a decodable body throws "<status> <statusText>". ": <json>" is appended only when the body's `error` field is truthy. |
| Api.AsJsonRoundTrip | src/lib/api.ts:15-20 | An ok response whose text is the stringification of a value that the codec reads back decodes to that value. |
| Api.StatusMessage | src/lib/api.ts:17 | The error message of a non-ok response is "<status> <statusText>", followed by ": " and the stringified body exactly when its `error` field is truthy. |
| Api.Settle | src/lib/api.ts:38-39 | A rejected fetch propagates its error unchanged. A response goes through `asJSON`. |
| Decimal.DecimalRoundTrip | src/lib/api.ts:17 | The decimal rendering of a status code reads back as the same number. |
| Json.Property | src/lib/api.ts:17 | `json?.error` is defined only on an object that has that field, and is then the value of its last occurrence. It is `undefined` for null, primitives and arrays. |
| Auth.ContextValue | src/hooks/useAuth.tsx:78-87 | The context exposes `user` and `authReady`, and `loading` is always `!authReady`. |
| Auth.InitialContextIsDefault | src/hooks/useAuth.tsx:24-42 | The provider starts with user null and not ready, the same as the context default (loading). |
| Auth.OnReported | src/hooks/useAuth.tsx:45-57 | `user` is set to the reported value first. A null report calls nothing and ends at once with `authReady` true. A non-null report requests a force-refreshed token and suspends under the next label. When run labels are fresh, every earlier suspended run is kept unchanged. |
| Auth.ReplayLabelsFresh | src/hooks/useAuth.tsx:45-57 | In every state reached from the initial one, each suspended run's label is below the next label. |
| Auth.ReportKeepsEarlierRuns | src/hooks/useAuth.tsx:45-57 | After any event sequence, a new report never drops or alters a pending handler run. |
| Auth.OnTokenSettled | src/hooks/useAuth.tsx:49-57 | After a token arrives, the run moves on to posting it to `sessionLogin`. A token failure ends the run with `authReady` true. `user` is never written, and every other suspended run is left as it was. |
| Auth.OnExchangeSettled | src/hooks/useAuth.tsx:51-57 | A settled exchange, success or failure, ends the run with `authReady` true. No call is made, `user` is never written, and every other suspended run is left as it was. |
| Auth.SessionLoginRequest | src/hooks/useAuth.tsx:51 | The exchange is `postJSON` of `{ idToken }` to the base-prefixed `sessionLogin` path, resolved again by `absolute`. |
| Auth.SessionLogoutRequest | src/hooks/useAuth.tsx:70 | The teardown is `postJSON` of `{}` to the base-prefixed `sessionLogout` path, resolved again by `absolute`. |
| Auth.Logout | src/hooks/useAuth.tsx:68-76 | The teardown post and then `signOut` are called. `user` becomes null only when `signOut` completes. A `signOut` error rejects the call and leaves the state unchanged. |
| Auth.LogoutDirect | src/hooks/useAuth.tsx:112-120 | Same teardown and `signOut` calls as `logout`, but the context state is never written. |
| Auth.UserIsLastReported | src/hooks/useAuth.tsx:45-75 | Over any event sequence, `user` is the most recently reported identity (or null after a completed logout), whatever order the suspended runs finish in. |
| Auth.StepReady | src/hooks/useAuth.tsx:53-57 | One event makes the app ready exactly when it was ready already or the event ends a handler run (success or failure). |
| Auth.AuthReadyMonotone | src/hooks/useAuth.tsx:42-56 | Once `authReady` is true it stays true for every continuation: loading never comes back. |
| Auth.ReadyIffSomeRunFinished | src/hooks/useAuth.tsx:53-57 | After any event sequence the app is ready exactly when some handler run has reached its `finally`. |
| Auth.ExchangeNeedsFreshToken | src/hooks/useAuth.tsx:48-51 | A `sessionLogin` request is made only when resuming a run that was waiting for its force-refreshed token and got one. |
| Auth.LoginLogoutUrlsDiffer | src/hooks/useAuth.tsx:51-70 | The session login and logout endpoints resolve to different URLs for every base. |
| Auth.NullReportsCallNothing | src/hooks/useAuth.tsx:48 | Event sequences made only of null reports call neither Firebase nor the backend. |
| Auth.LogoutTeardownSwallowed | src/hooks/useAuth.tsx:68-74 | A failed `sessionLogout` is swallowed: same state, same result, and `signOut` is still called. |
| Auth.SessionLoginUrl | src/hooks/useAuth.tsx:51 | The exchange path is resolved again by `absolute`. With base "/api" it goes to "/api/api/auth/sessionLogin"; with an "http..." base it is used verbatim. |
| App.Gate | src/App.tsx:30-38 | While loading, only the loading screen shows, whatever the user. Otherwise a user gets the signed-in app and no user gets the login page. |
| App.GateAfterEvents | src/App.tsx:31-35 | After any event sequence, the signed-in app shows exactly when some handler run has finished and the last reported identity is non-null. |
| App.ExchangeFailureStillAuthed | src/hooks/useAuth.tsx:53-57 | A user whose `sessionLogin` failed still reaches the signed-in app. |
| App.TokenFailureStillAuthed | src/hooks/useAuth.tsx:49-57 | A user whose token fetch failed still reaches the signed-in app. |
| App.StaleRunOpensGateForNewUser | src/hooks/useAuth.tsx:45-57 | With no stale-result check, a first user's run finishing after a second report opens the app for the second user while that user's own token fetch is still pending. |
| App.NavLogoutIsNullReport | src/components/Nav.tsx:17 | The Nav logout reaches the provider only as a null report: the login page shows and no backend call is made. |
| App.Route | src/App.tsx:18-24 | Each of the five literal paths opens its own page, as listed in `FixedRoutes`. "/projects/:id" is matched exactly by one non-empty segment after "/projects/", and the page gets that id. |
| App.RedirectIffUnlisted | src/App.tsx:18-24 | A path is redirected to "/" exactly when it is none of the five literal routes and not a project path. |
| App.ProjectRoute | src/App.tsx:20 | "/projects/" + id opens that project exactly when the id is non-empty and has no "/". |
| SearchParams.Get | src/pages/ProjectDetail.tsx:13 | `params.get(name)` has a value exactly when some pair carries the name, and it is the value of the first such pair. |
| SearchParams.SetThenGet | src/pages/ProjectDetail.tsx:22 | After `params.set(name, v)`, `get(name)` is v and exactly one pair carries the name. Every other name reads as before. |
| ProjectDetail.ResolveTab | src/pages/ProjectDetail.tsx:13 | The active tab is the non-empty `tab` query value, else "details". It is never checked against the tab list. |
| ProjectDetail.SetTab | src/pages/ProjectDetail.tsx:22 | After `setTab(t)` the query holds exactly one `tab` pair, and reading it gives t. |
| ProjectDetail.SetTabRoundTrip | src/pages/ProjectDetail.tsx:13-22 | After `setTab(t)` for a listed tab, the resolved tab is t, and every other name reads as before. |
| ProjectDetail.Label | src/pages/ProjectDetail.tsx:32 | A header label is the tab name with its first character upper-cased and the rest unchanged, so the length is preserved. |
| ProjectDetail.LabelRoundTrip | src/pages/ProjectDetail.tsx:7-32 | Lower-casing a label's first character gives the tab name back. |
| ProjectDetail.TabLabels | src/pages/ProjectDetail.tsx:31-33 | The five labels are Details, Tasks, Equipment, Marketing and Invoicing. |
| ProjectDetail.ActiveHeaders | src/pages/ProjectDetail.tsx:31-33 | A header is marked active exactly when its tab equals the active tab. |
| ProjectDetail.PanelFor | src/pages/ProjectDetail.tsx:35-39 | A panel renders exactly when the tab is one of the five listed, and it is that tab's own panel (`Panels` is aligned with `Tabs`). |
| ProjectDetail.UnknownTabShowsNothing | src/pages/ProjectDetail.tsx:31-39 | An unlisted tab value marks no header active and renders no panel. A listed one marks a header and renders a panel. |
| ProjectDetail.NextStatus | src/pages/ProjectDetail.tsx:103 | `toggle` always requests a status different from the current one. |
| ProjectDetail.NextStatusInvolution | src/pages/ProjectDetail.tsx:103 | Over the two-valued status, toggling twice restores the status. |
| ProjectDetail.ToggleRequest | src/pages/ProjectDetail.tsx:103 | `toggle` sends `buildInit('POST', { status })` with the next status to the task's own path: credentialed, JSON header. |
| ProjectDetail.AddBody | src/pages/ProjectDetail.tsx:96 | The posted object has exactly the fields title, stage and dueDate, in that order, holding the form's title, the stage's wire name and the due date. |
| ProjectDetail.AddRequest | src/pages/ProjectDetail.tsx:96 | `addTask` posts the stringified form object to the project's task list path. |
| ProjectDetail.ClickAdd | src/pages/ProjectDetail.tsx:120 | The Add button sends the add request exactly when the title is non-empty. |
| ProjectDetail.ReplaceById | src/pages/ProjectDetail.tsx:104 | The length is kept. Entries with the toggled id become the returned task, and every other entry stays in place unchanged. |
| ProjectDetail.ReplaceByIdIsUpdate | src/pages/ProjectDetail.tsx:104 | With unique ids, replace-by-id is a single positional update. |
| ProjectDetail.ReplaceAbsentId | src/pages/ProjectDetail.tsx:104 | An id that is not in the list leaves it unchanged. |
| ProjectDetail.ApplyToggle | src/pages/ProjectDetail.tsx:101-106 | A settled toggle replaces by id. A failure only records its text. |
| ProjectDetail.ApplyAdd | src/pages/ProjectDetail.tsx:94-99 | A successful add prepends the returned task with the old list intact after it, and resets the form to '', 'Pre-production', ''. A failure only records its text. |
| ProjectDetail.ApplyLoad | src/pages/ProjectDetail.tsx:89-92 | A successful load replaces the list. A failure only records its text. |
| ProjectDetail.Group | src/pages/ProjectDetail.tsx:108 | A group holds exactly the tasks of its stage. |
| ProjectDetail.GroupAppend | src/pages/ProjectDetail.tsx:108 | Grouping preserves order: the group of a concatenation is the concatenation of the groups. |
| ProjectDetail.GroupsPartition | src/pages/ProjectDetail.tsx:123-128 | The three rendered groups partition the task list as a multiset. |
| ProjectDetail.AddTaskGroups | src/pages/ProjectDetail.tsx:97 | A new task appears at the head of its own stage's group. The other groups are unchanged. |
| Types.NamesInjective | src/types.ts:17-18 | The wire names of the statuses and stages are distinct. |

## Left out

- React rendering, JSX, styling, `useEffect`/`useMemo` scheduling and context plumbing are not modelled. Only the state values and their transitions are.
- The Firebase SDK (`onAuthStateChanged`, `getIdToken`, `signInWithPopup`, `signOut`) and `fetch` are foreign calls. Calls to them are effects and their results are event inputs. `signInWithGoogle` is only a popup call: its effect on the provider is the identity report that follows.
- Auth.Logout: collapses the two awaits of `logout` into one event, so no other event is modelled as arriving between the teardown post and `signOut`. The identity report that Firebase emits on `signOut` is a separate `Reported(None)` event.
- `JSON.parse` and `JSON.stringify` are uninterpreted fields of `Json.Codec`. The JSON grammar is not modelled. JSON numbers are reals, not IEEE doubles, and the `Infinity` that `JSON.parse` yields for out-of-range literals is not represented.
- Api.BuildInitBodyRoundTrip and Api.AsJsonRoundTrip: proved only for values the codec reads back from their own stringification. Not every value qualifies in JavaScript (`Infinity` stringifies to `null`).
- `watchAuth` and the hooks `useAuth`/`useUser`/`useAuthReady` are thin wrappers with no logic of their own.
- `src/lib/auth.ts` is not part of this model. Nothing shown imports it. It imports a named `api` that `src/lib/api.ts` does not export and calls functions that do not exist there.
- `src/firebase.ts` and `src/components/Nav.tsx` are configuration and SDK wrappers. Their one relevant fact is that the Nav logout is local-only, and it appears as a null report. The configuration log line that prints a key prefix is deliberately not reproduced.
- The CRUD pages (`Projects`, `Inventory`, `Documents`, `AIAssistant`, `Dashboard`, `Login`) and the other project tabs are network and UI glue. Their one list update repeats the prepend already modelled.
- Floating-point and locale code is not modelled: the invoice total, `toFixed` money formatting and `toLocaleDateString`.
- App.Route: models exact matching only. The router's case-insensitive matching, trailing-slash tolerance and percent-decoding of `:id` are library behaviour that is not visible here.
- ProjectDetail.Label: requires a non-empty name. The code applies it only to the five tab names; on an empty string `t[0].toUpperCase()` would throw. Upper-casing is modelled for ASCII letters only.
- ProjectDetail.ApplyToggle, ProjectDetail.ApplyAdd and ProjectDetail.ApplyLoad take the settled result as an input. A failure carries the text `String(e)` produces. A response without a `task` field is not modelled.
- The project page's own load and error screens (`project`/`err` state) are not modelled; they are plain rendering.
- `vite.config.ts` is dev-server proxy configuration whose rewrite is the identity.
