# Friday-app store core, in Dafny

This project models the client-side state logic of Friday-app, a flash-card
learning web application. The model covers:

- **The packs slice** (`src/redux/packsReducer.ts`). Its state is the pack list page: the owner filter, the name filter, the card-count slider, the sort code, the page and the fetched list. It has a reducer over eight actions.
- **The auth slice** (`src/redux/authReducer.ts`). Its state holds the sign-up and login flags, the password-recovery flow and the user's profile. It has a reducer over seven actions.
- **The thunks of both slices.** These are the asynchronous coordinators that await their API request (the create, delete and update thunks then await a list or cards refresh), dispatch results or a catch block, and end with a lifecycle status. `setNewPassTC` never dispatches the loading status, and `forgotTC` and `setNewPassTC` have no `finally` block.
- **The sort-string toggle of the cards table** (`src/components/CardsTable.tsx`).
- **The "All"/"My" click handler of the pack list** (`src/feature/packsList/ShowPacksCards.tsx`).
- **The response parsers** (`src/api/responseParsers.ts`).

Modules, one per file:

- `Wrappers` holds `Option`, `Result` and JavaScript string truthiness.
- `PacksSlice` and `AuthSlice` hold the state records, the actions (one constructor per action creator), the initial states and the reducers. Each reducer's contract states its frame through a field view: `Get(state, field)` returns one field. The contract says every field an action writes takes the written value, and every other field keeps its old value. `FieldsDetermineState` shows that this view is complete.
- `Store` holds the root action type (slice actions plus the lifecycle, error and info actions of the app slice) and the API requests. An *effect* is a dispatch, a request, or the nested cards fetch. `Run` folds a trace of effects through the reducers. The `Store` class keeps the state together with every effect since it was created, under the invariant `state == Run(initial, effects)`. The module also has the shared catch block and the generic try/catch/finally shape `Attempt`.
- `PacksThunks` and `AuthThunks` hold each thunk twice:
  - a *trace function* of the request's outcome, which is the specification;
  - a *method* that dispatches into a `Store` step by step, proved to append exactly that trace.

  Lemmas state what each trace does to the state and which requests it sends.
- `CardsTable`, `ShowPacksCards` and `ResponseParsers` model the remaining three source files.

Two behaviours of the code worth stating:

- A successful `SET-PACKS-CARD` overwrites the six list fields only (`src/redux/packsReducer.ts:55-57`). It never touches the slider, so a fetched list never changes the slider bounds.
- A reset-mode fetch resets the filters only after its request has succeeded (`src/redux/packsReducer.ts:140-144`). A failed reset-mode fetch resets nothing.

A profile resolved by the login parser has no `id`, so a "My" fetch after a login sends no owner (`PacksThunks.LoginThenMyQuery`).

## Model

| member | source | states |
|---|---|---|
| PacksSlice.Reduce | src/redux/packsReducer.ts:50-92 | every field an action writes takes the action's value and every other field, top-level or in the slider, keeps its value: SET-PACKS-CARD writes exactly the six list fields, SET-MIN-MAX-VALUE exactly slider min and max, each other action exactly its one field |
| PacksSlice.FieldsDetermineState | src/redux/packsReducer.ts:33-47 | two packs states equal on every field are equal, so the frame in Reduce's contract determines the whole new state |
| PacksSlice.SetPacksCardRoundTrip | src/redux/packsReducer.ts:55-57 | storing a response and reading the six list fields back gives the response; the slider, owner filter, name filter and sort code are untouched |
| AuthSlice.Reduce | src/redux/authReducer.ts:36-76 | each action writes exactly its one field (a top-level flag, the profile, or one of the four recovery-flow fields) and every other field keeps its value |
| AuthSlice.FieldsDetermineState | src/redux/authReducer.ts:29-34 | two auth states equal on every field are equal |
| Store.Reduce | src/redux/packsReducer.ts:88-90 | a packs action reaches only the packs slice, an auth action only the auth slice; any other action leaves a slice unchanged |
| Store.CatchTrace | src/redux/authReducer.ts:116-120 | the shared catch block reports the message, dispatches `setIsLoginAC(false)` exactly when the status is 401, and ends with the error status |
| Store.CatchEffect | src/redux/authReducer.ts:116-120 | the catch block sends no request, changes no pack field, and changes the auth slice only by signing out on 401 |
| Store.Store.Dispatch | src/redux/packsReducer.ts:138 | a dispatch runs the action through the root reducer and records it; the store invariant is kept |
| Store.Catch | src/redux/packsReducer.ts:148-152 | running the catch block appends exactly its trace |
| PacksThunks.DeriveParams | src/redux/packsReducer.ts:122-135 | reset mode sends no parameter; filtered mode copies name, slider min and max, page, page size and sort code, with owner = profile id for "My" and "" for "All" |
| PacksThunks.GetPacksTrace | src/redux/packsReducer.ts:137-155 | the last lifecycle action of a fetch is succeeded on every path |
| PacksThunks.ResetFiltersEffect | src/redux/packsReducer.ts:140-144 | the reset dispatches send no request and set slider 0..0, empty name, "0updated", "All", leaving everything else |
| PacksThunks.GetPacksRequests | src/redux/packsReducer.ts:137-139 | a fetch sends exactly one request, carrying the query derived from the state it starts in |
| PacksThunks.GetPacksResetSuccess | src/redux/packsReducer.ts:140-144 | a successful reset fetch ends with every filter at its default and stores nothing of the response |
| PacksThunks.GetPacksFilteredSuccess | src/redux/packsReducer.ts:145-147 | a successful filtered fetch stores the response through SET-PACKS-CARD and changes nothing else |
| PacksThunks.GetPacksFailure | src/redux/packsReducer.ts:148-155 | a failed fetch in either mode changes no pack field and signs out exactly on 401 |
| PacksThunks.ResetThenFilteredQuery | src/redux/packsReducer.ts:122-144 | after a successful reset fetch, the next filtered fetch asks for the default filters |
| PacksThunks.LoginThenMyQuery | src/redux/packsReducer.ts:133 | after a login whose profile came from the login parser, a "My" fetch sends no owner |
| PacksThunks.MutationTrace | src/redux/packsReducer.ts:158-172 | the last lifecycle action of a create, delete or update is succeeded on every path |
| PacksThunks.MutationRequests | src/redux/packsReducer.ts:158-172 | the mutating request comes first; the refresh's requests follow it only when the mutation succeeded |
| PacksThunks.MutationEffect | src/redux/packsReducer.ts:158-172 | on success the state ends as the refresh leaves it; on failure there is no refresh and the user is signed out exactly on 401 |
| PacksThunks.CreatePackTrace | src/redux/packsReducer.ts:158-172 | the last lifecycle action of a create is succeeded |
| PacksThunks.DeletePackTrace | src/redux/packsReducer.ts:174-188 | the last lifecycle action of a delete is succeeded |
| PacksThunks.ChangePackTrace | src/redux/packsReducer.ts:190-207 | the last lifecycle action of an update is succeeded |
| PacksThunks.CreatePackRequests | src/redux/packsReducer.ts:160-162 | a create sends the POST, then the filtered list fetch only if the POST succeeded |
| PacksThunks.DeletePackRequests | src/redux/packsReducer.ts:176-178 | a delete sends the DELETE, then the filtered list fetch only if it succeeded |
| PacksThunks.ChangePackRefresh | src/redux/packsReducer.ts:194-197 | an update refreshes the cards of `payload._id` exactly when it succeeded with `isFetchCards`, and the pack list when it succeeded without |
| PacksThunks.CreatePackSuccess | src/redux/packsReducer.ts:158-163 | a successful create with a successful refresh stores the fresh list and nothing else |
| PacksThunks.DeletePackFailure | src/redux/packsReducer.ts:180-187 | a failed delete changes no pack field whatever the refresh would have returned, and signs out exactly on 401 |
| PacksThunks.GetPacksCardTC | src/redux/packsReducer.ts:119-156 | the fetch appends exactly the trace of its outcome, with the query built from the state by reassigning `params` |
| PacksThunks.Refresh | src/redux/packsReducer.ts:196-197 | the refresh is the nested cards fetch or a filtered list fetch |
| PacksThunks.Mutate | src/redux/packsReducer.ts:193-206 | the shared try/catch/finally of the mutating thunks appends exactly the mutation trace |
| PacksThunks.CreatePackTC | src/redux/packsReducer.ts:158-172 | `createPackTC` appends exactly its trace and leaves the state that trace produces |
| PacksThunks.DeletePackTC | src/redux/packsReducer.ts:174-188 | `deletePackTC` appends exactly its trace and leaves the state that trace produces |
| PacksThunks.ChangePackTC | src/redux/packsReducer.ts:190-207 | `changePackTC` appends exactly its trace and leaves the state that trace produces |
| AuthThunks.SingUpTrace | src/redux/authReducer.ts:110-124 | the last lifecycle action of a sign-up is succeeded on both paths |
| AuthThunks.LoginTrace | src/redux/authReducer.ts:126-141 | the last lifecycle action of a login is idle on both paths |
| AuthThunks.ForgotTrace | src/redux/authReducer.ts:143-156 | with no finally block, the last lifecycle action is succeeded on success and error on failure |
| AuthThunks.SetNewPassTrace | src/redux/authReducer.ts:158-178 | with no finally block, the last lifecycle action is succeeded on success and error on failure |
| AuthThunks.ProfileUpdatePayload | src/redux/authReducer.ts:185-192 | the body has an `avatar` key iff a file is given, holding its encoding, and a `name` key iff the name is a non-empty string |
| AuthThunks.ChangeProfileDataTrace | src/redux/authReducer.ts:180-204 | the last lifecycle action of a profile update is idle on both paths |
| AuthThunks.LogoutTrace | src/redux/authReducer.ts:206-220 | the last lifecycle action of a logout is idle on both paths |
| AuthThunks.FailureSignsOutOn401 | src/redux/authReducer.ts:116-120 | on failure every auth thunk leaves `isLogin` false on 401 and the whole state unchanged otherwise |
| AuthThunks.SingUpSuccess | src/redux/authReducer.ts:113-115 | a successful sign-up sets `isSingUp` and nothing else |
| AuthThunks.LoginSuccess | src/redux/authReducer.ts:129-132 | a successful login stores exactly the parsed profile and sets `isLogin`; nothing else changes |
| AuthThunks.ForgotSuccess | src/redux/authReducer.ts:146-149 | a successful recovery request records the e-mail and the verification flag and nothing else |
| AuthThunks.SetNewPassSuccess | src/redux/authReducer.ts:167-171 | a successful password change records the password and the server's message and nothing else |
| AuthThunks.SetNewPassNeverLoading | src/redux/authReducer.ts:162 | the loading action is never dispatched: the request is the first effect on both paths |
| AuthThunks.ChangeProfileDataSuccess | src/redux/authReducer.ts:193-195 | a successful profile update sends one request with the built body, stores the parsed profile and sets `isLogin`; nothing else changes |
| AuthThunks.LogoutSuccess | src/redux/authReducer.ts:209-211 | a successful logout clears `isLogin` and nothing else |
| AuthThunks.SingUpTC | src/redux/authReducer.ts:110-124 | `singUpTC` appends exactly its trace and leaves the state that trace produces |
| AuthThunks.LoginTC | src/redux/authReducer.ts:126-141 | `loginTC` appends exactly its trace and leaves the state that trace produces |
| AuthThunks.ForgotTC | src/redux/authReducer.ts:143-156 | `forgotTC` appends exactly its trace and leaves the state that trace produces |
| AuthThunks.SetNewPassTC | src/redux/authReducer.ts:158-178 | `setNewPassTC` appends exactly its trace and leaves the state that trace produces |
| AuthThunks.BuildProfileUpdate | src/redux/authReducer.ts:185-192 | building the body by successive reassignment gives `ProfileUpdatePayload` |
| AuthThunks.ChangeProfileDataTC | src/redux/authReducer.ts:180-204 | `changeProfileDataTC` appends exactly its trace and leaves the state that trace produces |
| AuthThunks.LogoutTC | src/redux/authReducer.ts:206-220 | `logoutTC` appends exactly its trace and leaves the state that trace produces |
| CardsTable.ToggleSort | src/components/CardsTable.tsx:25-34 | the result is a flag in {'0','1'} followed by exactly the clicked column; the flag is '0' for another column and flips for the sorted one |
| CardsTable.ToggleSameColumn | src/components/CardsTable.tsx:29-31 | clicking the sorted column of a well-formed string flips its flag and keeps the column |
| CardsTable.ToggleTwice | src/components/CardsTable.tsx:29-31 | clicking the sorted column twice restores a well-formed sort string |
| CardsTable.OtherColumnAscending | src/components/CardsTable.tsx:32-34 | clicking another column, or the first click, yields "0" + that column |
| CardsTable.OnChangeSortHandler | src/components/CardsTable.tsx:25-36 | each click dispatches exactly one `setSortCardsAC`, carrying the toggled sort string: a flag in {'0','1'} and then the clicked column |
| ShowPacksCards.ShowPacksEffect | src/feature/packsList/ShowPacksCards.tsx:21-25 | after a click the slider spans the card-count range and is not initialised, the owner filter is the button, and nothing else changes; no request is sent |
| ShowPacksCards.ShowPacksIdempotent | src/feature/packsList/ShowPacksCards.tsx:21-25 | clicking the same button twice gives the state of one click |
| ShowPacksCards.OnClickShowPacksHandler | src/feature/packsList/ShowPacksCards.tsx:21-25 | the three dispatches append exactly the click trace and leave the state of one click |
| ShowPacksCards.ClickButton | src/feature/packsList/ShowPacksCards.tsx:46-48 | while a request is loading the buttons are disabled and a click changes nothing; otherwise the handler runs, appending the click trace and leaving the click's state |
| ResponseParsers.GetDataFromAxiosResponse | src/api/responseParsers.ts:8-9 | the result is the response body unchanged |
| ResponseParsers.ParseAxiosError | src/api/responseParsers.ts:11-12 | always rejects, with the body's `error` when present (even "") and the transport message otherwise |
| ResponseParsers.ParseLoginResponse | src/api/responseParsers.ts:14-20 | rejects with `error` iff it is a non-empty string; otherwise resolves exactly email, name and avatar, with no id; an empty `error` is success |
| ResponseParsers.ParseUpdatedUserResponse | src/api/responseParsers.ts:22-36 | rejects with `error` iff it is a non-empty string; otherwise resolves the updated user's email, name and avatar; an empty `error` is success |

## Left out

- `src/api/api.ts` (the endpoints, query objects and e-mail template) is not part of this model. Each request is recorded as an `ApiCall` value, and its outcome is an input of the thunk.
- The rendering of every component is left out; only the handlers are modelled.
- Asynchronous interleaving is not modelled. Each thunk runs to completion with one given outcome per request, and overlapping thunks sharing the lifecycle status are out of scope.
- The app slice (lifecycle status, error and info messages) is not part of this model. Its actions appear in traces but change no modelled state.
- The cards slice is not part of this model. The nested `fetchCardsTC` is one opaque effect, and `setSortCardsAC` is an action value with no reducer.
- `getBase64` is a function parameter that produces the encoded avatar.
- AuthThunks.ChangeProfileDataTC: does not model a rejected `getBase64`, which would run the catch block before any request is sent.
- PacksSlice.Reduce: SET-PACKS-CARD spreads the whole response into the state. The model's response has exactly the six list fields, so extra keys a server might send are not copied.
- JavaScript numbers are modelled as unbounded integers. Fractions, NaN and `undefined` counts are out of scope.
- The thunks destructure `{status, message}` from the caught error, while `parseAxiosError` rejects with a plain string. Thunk failures are an abstract `ApiError(status, message)`, and the two are not connected.
- AuthThunks.ForgotTrace: the verification flag is an input. In the code it is read from the raw transport response, because `forgotPass` does not extract the body, so the value actually dispatched there is not modelled.
- The attributes of a pack update are an opaque string map. The update request lives in a file that is not part of this model.
- The `block` query parameter is never set by the code and is omitted.
- The logout and sign-up response parsers are not defined in `src/api/responseParsers.ts`. The logout outcome is taken as its `info` string and the sign-up outcome as success or failure.
