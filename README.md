# Lead-management client: session and teams stores, verified

This project models, in Dafny, the client-side state of a small
lead-management web client:

- the **teams store** (`src/features/teams/teamsSlice.js`) — a cache of team
  records with member lists, a loading flag and an error slot, and the
  pending / fulfilled / rejected reducer cases of its seven operations (fetch,
  create, update and delete a team; add, remove a member and update a
  member's role);
- the **session store** (`src/features/auth/authSlice.js`) — user, bearer
  token, loading flag, error slot and authenticated flag, plus the one
  persisted browser slot `localStorage['userToken']`, with rehydrate, logout,
  clear-error and the login / register / forgot-password reducer cases;
- the **error classification** every operation's `catch` applies — a server
  response, a request without a response, or a request that could not be
  built;
- the shared HTTP client's **interceptors** (`src/api/axiosInstance.js`) —
  attach `Authorization: Bearer <token>` when the session holds a token, and
  sign the session out when a request fails with 401 or 403, always handing
  the outcome on unchanged;
- the dashboard's **lead filter** (`vite-project/src/App.jsx`) — search by name
  or company ignoring case, restricted by status unless the filter is "All".

Files and modules:

| file | module | what it holds |
|---|---|---|
| `js_value.dfy` | `JsValue` | `Option`, string truthiness, `a \|\| b` |
| `js_array.dfy` | `JsArray` | `findIndex`, `filter`, and `UpdateFirst`, a recursive reference definition of "assign at the first match" |
| `rejection.dfy` | `Rejection` | the three-way error classification |
| `teams_slice.dfy` | `TeamsSlice` | team and member records, the `TeamsStore` class, the team-list functions and their lemmas |
| `auth_slice.dfy` | `AuthSlice` | the `SessionStore` class, its invariant, the auth operations' messages |
| `axios_interceptors.dfy` | `AxiosInterceptors` | request and response interceptors over a `SessionStore` |
| `lead_filter.dfy` | `LeadFilter` | the lead filter and its soundness and completeness |

The reducers update a draft of the state in place, so both stores are classes
whose methods assign their fields; every fulfilled case that the source
writes as `findIndex` followed by an index assignment is written that way and
proved equal to a recursive reference definition (`JsArray.UpdateFirst`),
about which the properties are proved as lemmas.

Behaviour a reader might expect that the code does not have, and what the
model does instead:

- `isAuthenticated` is **not** equivalent to holding a token. A login answered
  without a token authenticates (`authSlice.js:99-101`);
  `AuthSlice.LoginWithoutTokenScenario` shows it. What does hold, and is kept
  by every reducer case as `SessionStore.Valid()`, is the one direction
  "a token in the store is non-empty and implies `isAuthenticated`".
- A failed login clears the token in memory but leaves the persisted token in
  place (`authSlice.js:107-113`), so a reload authenticates again
  (`AuthSlice.ReloadAfterFailedLoginScenario`).
- `logout` leaves `isLoading` as it was (`authSlice.js:80-86`); it does not
  reset every field.
- The 401/403 logout is dispatched through a dynamic `import(...).then`
  (`axiosInstance.js:30-32`), so it runs asynchronously, not before the
  caller's error handler. The model applies it within the interceptor step
  and claims nothing about its order relative to the caller.
- `setupAxiosInterceptors` is not called by `src/main.jsx` or
  `src/store/redux.js`, so in the shipped wiring the interceptors are never
  installed. The model describes what they do once installed.

## Model

| member | source | states |
|---|---|---|
| `JsArray.FindIndex` | src/features/teams/teamsSlice.js:180 | the result is -1 or an index in range; an index result satisfies the test and no earlier element does; -1 means no element does |
| `JsArray.Filter` | src/features/teams/teamsSlice.js:195 | the result is no longer than the input and every element of it passes the test |
| `JsArray.FilterCounts` | src/features/teams/teamsSlice.js:195 | every passing value occurs in the result exactly as often as in the input, every failing value not at all |
| `JsArray.FilterIsSubsequence` | src/features/teams/teamsSlice.js:195 | the result is the input with elements deleted, order kept |
| `JsArray.FilterIdempotent` | src/features/teams/teamsSlice.js:195 | filtering twice by the same test equals filtering once |
| `JsArray.UpdateFirst` | src/features/teams/teamsSlice.js:180-183 | the recursive "update the first match" equals the index assignment at `FindIndex`, and is the input itself when nothing matches |
| `JsValue.Or` | src/features/teams/teamsSlice.js:230 | `a \|\| b` on optional strings: `a` when it is truthy, `b` otherwise, and the result is truthy exactly when one of the two is |
| `JsValue.OrElse` | src/features/auth/authSlice.js:112 | `a \|\| fallback`: `a`'s text when truthy, the fallback otherwise; the result is non-empty exactly when `a` is truthy or the fallback is non-empty |
| `TeamsSlice.Identity` | src/features/teams/teamsSlice.js:230 | a member's identity is its user id when that is present and non-empty, its email otherwise |
| `TeamsSlice.RejectValue` | src/features/teams/teamsSlice.js:19-26 | a team operation rejects with a non-empty message: the server's message or the operation's default when a response came, the connection message without response, `Error: <message>.` otherwise |
| `TeamsSlice.TeamsStore.constructor` | src/features/teams/teamsSlice.js:7-11 | the store starts with no teams, not loading, no error |
| `TeamsSlice.TeamsStore.ClearTeamsError` | src/features/teams/teamsSlice.js:144-146 | only the error slot changes, to none |
| `TeamsSlice.TeamsStore.Pending` | src/features/teams/teamsSlice.js:150-153 | every pending case sets loading, clears the error and keeps the teams |
| `TeamsSlice.TeamsStore.Rejected` | src/features/teams/teamsSlice.js:158-161 | every rejected case clears loading, stores the payload as the error and keeps the teams |
| `TeamsSlice.TeamsStore.FetchTeamsFulfilled` | src/features/teams/teamsSlice.js:154-157 | the fetched list replaces the teams; the error slot is kept |
| `TeamsSlice.TeamsStore.CreateTeamFulfilled` | src/features/teams/teamsSlice.js:166-169 | the teams become the old teams with the returned team appended at the end |
| `TeamsSlice.TeamsStore.UpdateTeamFulfilled` | src/features/teams/teamsSlice.js:178-184 | the index assignment at the first team with the payload's id yields `UpdatedTeam` of the old teams |
| `TeamsSlice.TeamsStore.DeleteTeamFulfilled` | src/features/teams/teamsSlice.js:193-196 | the teams become the old teams without any team of that id |
| `TeamsSlice.TeamsStore.AddMemberFulfilled` | src/features/teams/teamsSlice.js:205-215 | creating the empty list when absent and pushing yields `AddedMember` of the old teams |
| `TeamsSlice.TeamsStore.RemoveMemberFulfilled` | src/features/teams/teamsSlice.js:224-233 | filtering the first matching team's members yields `RemovedMember` of the old teams |
| `TeamsSlice.TeamsStore.UpdateMemberRoleFulfilled` | src/features/teams/teamsSlice.js:242-254 | the nested find-and-assign yields `UpdatedRole` of the old teams |
| `TeamsSlice.UpdatedTeam` | src/features/teams/teamsSlice.js:178-184 | the list keeps its length and every position its id; every team with another id is kept as it was |
| `TeamsSlice.DeletedTeam` | src/features/teams/teamsSlice.js:193-196 | the list does not grow and no team with the deleted id remains |
| `TeamsSlice.AddedMember` | src/features/teams/teamsSlice.js:205-215 | the list keeps its length and every position its id; every team with another id is kept as it was |
| `TeamsSlice.RemovedMember` | src/features/teams/teamsSlice.js:224-233 | the list keeps its length and every position its id; every team with another id is kept as it was |
| `TeamsSlice.UpdatedRole` | src/features/teams/teamsSlice.js:242-254 | the list keeps its length and every position its id; every team with another id is kept as it was |
| `TeamsSlice.UpdatedTeamReplacesFirstMatch` | src/features/teams/teamsSlice.js:178-184 | length kept; every team with another id is unchanged; of the teams with the payload's id only the first becomes the payload, later duplicates are kept; an unknown id changes nothing |
| `TeamsSlice.DeletedTeamRemovesExactly` | src/features/teams/teamsSlice.js:193-196 | no team with the id remains, every other team keeps its multiplicity and order, and deleting again changes nothing |
| `TeamsSlice.AddedMemberAppends` | src/features/teams/teamsSlice.js:205-215 | the first matching team's members become its old members (or none) plus the new one; every other team is unchanged; an unknown team is a no-op |
| `TeamsSlice.RemovedMemberKeepsOthers` | src/features/teams/teamsSlice.js:224-233 | the first matching team keeps its id and name, and in it exactly the members with another identity remain, in order and multiplicity; other teams unchanged; a missing team or member list is a no-op |
| `TeamsSlice.RemovedMemberIdempotent` | src/features/teams/teamsSlice.js:224-233 | removing the same identity twice equals removing it once |
| `TeamsSlice.UpdatedRoleReplacesFirstMatch` | src/features/teams/teamsSlice.js:242-254 | the first matching team keeps its id and name; only its first member with the updated member's identity is replaced, the member count is kept, other teams unchanged, and a missing team, list or member is a no-op |
| `TeamsSlice.CreatedTeamWellFormed` | src/features/teams/teamsSlice.js:166-169 | appending keeps team ids and member identities unique exactly when the new team is itself well formed and its id is new |
| `TeamsSlice.UpdatedTeamKeepsWellFormed` | src/features/teams/teamsSlice.js:178-184 | replacing a team by a well-formed payload keeps ids and identities unique |
| `TeamsSlice.DeletedTeamKeepsWellFormed` | src/features/teams/teamsSlice.js:193-196 | deleting keeps ids and identities unique |
| `TeamsSlice.AddedMemberWellFormed` | src/features/teams/teamsSlice.js:205-215 | adding keeps identities unique exactly when the team is missing or has no member with the new member's identity |
| `TeamsSlice.RemovedMemberKeepsWellFormed` | src/features/teams/teamsSlice.js:224-233 | removing members keeps ids and identities unique |
| `TeamsSlice.UpdatedRoleKeepsWellFormed` | src/features/teams/teamsSlice.js:242-254 | replacing a member by one of the same identity keeps ids and identities unique |
| `TeamsSlice.RemoveOnlyMemberExample` | src/features/teams/teamsSlice.js:224-233 | removing the only member `u1` of team `t1` leaves an empty list, and a second removal changes nothing |
| `TeamsSlice.CreateTeamRejectedScenario` | src/features/teams/teamsSlice.js:31-47 | a create that fails with server message "Name required" leaves that message as the error and the teams as they were |
| `Rejection.Classify` | src/features/teams/teamsSlice.js:20-26 | with a response the result is the server's message when it is non-empty and the fallback otherwise (an empty message never comes through); without response but sent, the connection message; otherwise prefix, diagnostic and suffix |
| `Rejection.DiagnosticRoundTrip` | src/features/teams/teamsSlice.js:25 | stripping `Error: ` and the suffix off a construction-failure message gives back the client's diagnostic |
| `Rejection.ClassifyIsTruthy` | src/features/auth/authSlice.js:22-28 | with a non-empty fallback the rejection message is never empty |
| `Rejection.ClassifyIgnoresStatus` | src/features/teams/teamsSlice.js:20-21 | the classified message does not depend on the HTTP status |
| `AuthSlice.RejectValue` | src/features/auth/authSlice.js:22-28 | an auth operation rejects with a non-empty message: the server's message or the operation's default when a response came, the connection message without response; the construction branch ends in `. Please try again.` for login and register and `.` for forgot-password |
| `AuthSlice.RejectValueReachesErrorSlot` | src/features/auth/authSlice.js:107-113 | a rejection from an operation's own `catch` reaches the error slot unchanged; only a rejection without payload gets the unknown-error default |
| `AuthSlice.SessionStore.Valid` | src/features/auth/authSlice.js:97-106 | the invariant every reducer keeps: a token in the store is non-empty and implies authenticated; so in a valid store a present token is always truthy and gets attached to requests |
| `AuthSlice.SessionStore.constructor` | src/features/auth/authSlice.js:7-13 | no user, no token, not loading, no error, not authenticated; the persisted slot is whatever the browser holds; the invariant holds |
| `AuthSlice.SessionStore.SetAuthFromLocalStorage` | src/features/auth/authSlice.js:73-79 | a truthy persisted token becomes the token and authenticates; otherwise nothing changes; the user is never touched |
| `AuthSlice.SessionStore.Logout` | src/features/auth/authSlice.js:80-86 | user, token, error cleared, not authenticated, persisted token removed, loading flag kept; the result does not depend on the old state, so logout is idempotent |
| `AuthSlice.SessionStore.ClearAuthError` | src/features/auth/authSlice.js:87-89 | only the error slot changes |
| `AuthSlice.SessionStore.Pending` | src/features/auth/authSlice.js:93-96 | every auth pending case sets loading and clears the error, nothing else |
| `AuthSlice.SessionStore.LoginFulfilled` | src/features/auth/authSlice.js:97-106 | authenticated unconditionally; user and token fall back to none; the persisted slot is written only for a truthy token |
| `AuthSlice.SessionStore.LoginRejected` | src/features/auth/authSlice.js:107-113 | not authenticated, user and token cleared, error is the payload or the default, persisted token untouched |
| `AuthSlice.SessionStore.AccountRequestFulfilled` | src/features/auth/authSlice.js:118-121 | register and forgot-password success change only loading (to false) and error (to none) |
| `AuthSlice.SessionStore.AccountRequestRejected` | src/features/auth/authSlice.js:122-125 | register and forgot-password failure set the error to the payload or the operation's default and leave the session alone |
| `AuthSlice.LoginWithoutTokenScenario` | src/features/auth/authSlice.js:97-106 | a login answered without a token leaves the session authenticated with no token |
| `AuthSlice.ReloadAfterLoginScenario` | src/features/auth/authSlice.js:73-79 | after a login returning `tok123`, a fresh store rehydrated from the persisted slot is authenticated with that token |
| `AuthSlice.ReloadAfterFailedLoginScenario` | src/features/auth/authSlice.js:107-113 | after a successful login and a login that fails with a 400 (which the response interceptor does not turn into a sign-out), a reload authenticates again with the old token |
| `AxiosInterceptors.WithBearer` | src/api/axiosInstance.js:15-18 | a truthy token adds `Authorization: Bearer <token>`; no token or an empty one leaves the headers as they were; every other header is kept |
| `AxiosInterceptors.BearerRoundTrip` | src/api/axiosInstance.js:17 | the token can be read back from the header value after the `Bearer ` prefix |
| `AxiosInterceptors.OnRequest` | src/api/axiosInstance.js:14-20 | the request's own headers become `WithBearer` of the old headers and the store's current token; the same configuration is returned |
| `AxiosInterceptors.TriggersLogout` | src/api/axiosInstance.js:29 | a failure without a response never signs out, nor does one whose status is other than 401 and 403 |
| `AxiosInterceptors.OnSettled` | src/api/axiosInstance.js:26-36 | every outcome, success or failure, is handed on unchanged; a 401 or 403 failure signs the session out, anything else leaves it untouched |
| `AxiosInterceptors.ForbiddenLogsOutScenario` | src/api/axiosInstance.js:29-34 | signed in with a token, a 403 leaves no token, not authenticated, nothing persisted, and the caller still sees the 403 |
| `LeadFilter.ToLower` | vite-project/src/App.jsx:41 | lower-casing keeps the length and maps each character by ASCII case folding |
| `LeadFilter.Includes` | vite-project/src/App.jsx:41-42 | `includes` holds for the empty needle, and only for a needle no longer than the text |
| `LeadFilter.OccursAtIncludes` | vite-project/src/App.jsx:41-42 | an occurrence of the needle at some offset makes `includes` hold |
| `LeadFilter.IncludesOffset` | vite-project/src/App.jsx:41-42 | when `includes` holds, an offset where the needle occurs exists |
| `LeadFilter.IncludesAtOffset` | vite-project/src/App.jsx:41-42 | `includes` holds exactly when the needle occurs at some offset |
| `LeadFilter.FilteredLeadsSoundAndComplete` | vite-project/src/App.jsx:39-45 | shown leads are a subsequence in original order; each matches search and status; each lead matching both is shown as often as it occurs, no other lead is; filtering again yields the same list |
| `LeadFilter.MatchesSearch` | vite-project/src/App.jsx:40-42 | a lead matches exactly when the lower-cased search occurs at some offset of its lower-cased name or company; the empty search matches every lead |
| `LeadFilter.MatchesStatus` | vite-project/src/App.jsx:43 | "All" admits every lead; any other value admits exactly the leads with that status |
| `LeadFilter.FilteredLeads` | vite-project/src/App.jsx:39-45 | the shown list is no longer than the list, and each shown lead matches both the search and the status filter |
| `LeadFilter.EmptySearchFiltersByStatusOnly` | vite-project/src/App.jsx:40-43 | with an empty search only the status filter applies |
| `LeadFilter.AllStatusesFiltersBySearchOnly` | vite-project/src/App.jsx:43 | with the status filter "All" only the search applies |
| `LeadFilter.NoFilterShowsEverything` | vite-project/src/App.jsx:39-45 | with an empty search and "All" the list is shown unchanged |

## Left out

- Network I/O and the asynchronous operation lifecycle (`createAsyncThunk`,
  the HTTP calls): an operation's outcome enters the model as the payload or
  the `HttpError` it produces.
- Interleaving of operations in flight, and the order of the interceptor's
  asynchronous logout relative to the caller's handler.
- The browser's `localStorage` is the `storedToken` field of the session
  store; it is carried to a fresh store by passing it to the constructor.
- The request interceptor's error handler (`axiosInstance.js:21-23`) only
  re-rejects the error it is given; it changes no state and has no separate
  member.
- `null` and `undefined` are not distinguished; both are `None`.
- A server reply whose `data` is `null` would make the `catch` itself throw;
  the model takes `data.message` as an optional string.
- A fetch reply without a `teams` array is not modelled: the fetched list is
  always a sequence.
- Server records carry only the fields the reducers read (`_id`, `name`,
  `members`; `userId`, `email`, `role`); other fields are not modelled.
- Header names are compared exactly; the HTTP client's case-insensitive
  header object is not modelled.
- `LeadFilter.ToLower`: ASCII letters only, not full Unicode case mapping.
- View components, routing (`src/App.jsx`), start-up (`src/main.jsx`) and store
  wiring (`src/store/redux.js`) are not part of this model.
