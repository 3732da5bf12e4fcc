# APDevFlow client state, modelled in Dafny

This project models the client-side state of the APDevFlow planning dashboard and proves properties of that model.

- **Work-item store** (`storage.dfy`, `types.dfy`). The ordered list of bodies of work kept under the local-storage key `apdevflow_bodies_of_work`. It has create, read, update, workflow-state change and delete. The service is a class whose `slot` field stands for that storage key: absent, corrupt, or holding a list.
- **Session stores** (`auth_types.dfy`, `github_auth.dfy`, `legacy_auth.dfy`).
  - `GitHubAuthService` uses four keys: token, user, pending OAuth state and auth method. The older `AuthService` uses the first three.
  - Local storage is a `map<Key, Value>` field.
  - The clock, the generated OAuth state and every network answer are method parameters. These answers are the code exchange, the profile fetch, the permission probe and the repository calls.
  - Each state-changing method is tied to a pure function of the old store, and the lemmas are about those functions.
- **File-path autocomplete** (`autocomplete.dfy`). The case-insensitive substring filter capped at 50 results, and the dropdown's open/selected-index state machine.
- **New-work form** (`planning_new.dfy`). Validation and input construction on submit, and adding and removing context references.
- **Dashboard** (`dashboard.dfy`). Per-state counts, the "recent work" slice and the badge colour.
- **OAuth exchange Lambda** (`oauth_exchange.dfy`). The handler's ladder of early returns, mapped to a status code and body. JSON parsing and the GitHub call are oracles.

Shared pieces:
- `wrappers.dfy` has `Option` and `Result`.
- `seqs.dfy` has `filter` and `slice(0, n)`.
- `text.dfy` has JavaScript's `trim`, ASCII `toLowerCase` and `includes`.

In these places the code behaves differently from what its names and comments suggest, and the model follows the code:

- **The OAuth callback is not atomic.** It saves the token before it fetches the user (apps/web/src/services/auth/github.ts:169-178, apps/web/src/services/auth.ts:139-148).
  - A failed user fetch leaves the new token stored, and the call returns false.
  - With no earlier user, the session reads as unauthenticated.
  - With a user left from an earlier session, the new token is paired with that user. The session then reads as authenticated even though the callback returned false. `GitHubAuth.CallbackUserFailureKeepsToken` proves both cases.
- **An expired token clears all four session keys** (apps/web/src/services/auth/github.ts:43-46), not only the token and user. The three-key service clears its three keys.
- **Update field exclusion is type-only.** The exclusion of `id` and `createdAt` from updates is stated only in the update's type (apps/web/src/services/storage.ts:49). The update record here has no such fields.
- **Timestamps are clock values.** They are supplied by the caller, so nothing is proved about `updatedAt` growing.

## Model

| member | source | states |
|---|---|---|
| Types.WorkTypesEnumerated | apps/web/src/types/index.ts:3-9 | There are exactly six work types with pairwise distinct names, and one of them is named "Other". |
| Types.WorkflowStatesEnumerated | apps/web/src/types/index.ts:11 | There are exactly three workflow states with pairwise distinct names. |
| Text.TrimSpec | apps/web/src/routes/planning.new.tsx:75 | `trim` returns the contiguous middle of the string: everything cut off at either end is whitespace, and the result starts and ends with non-whitespace. |
| Text.LeadingAreWhitespace | apps/web/src/routes/planning.new.tsx:75 | Everything `trim` cuts from the start is whitespace. |
| Text.TrailingAreWhitespace | apps/web/src/routes/planning.new.tsx:75 | Everything `trim` cuts from the end is whitespace. |
| Text.BlankIffAllWhitespace | apps/web/src/components/FilePathAutocomplete.tsx:28 | `!value.trim()` holds exactly when every character is whitespace. |
| Text.TrimIdempotent | apps/web/src/routes/planning.new.tsx:86-90 | Trimming an already trimmed string changes nothing. |
| Storage.IndexOfId | apps/web/src/services/storage.ts:52 | `findIndex` gives -1 exactly when no item has the id; otherwise it gives the first index carrying it. |
| Storage.FindById | apps/web/src/services/storage.ts:27 | `find` gives nothing exactly when no item has the id; otherwise it gives the first item with that id. |
| Storage.WithoutId | apps/web/src/services/storage.ts:77-79 | The filtered list holds exactly the items whose id differs. It has the original length exactly when no item had the id, and in that case it is the list itself. |
| Storage.NewBodyOfWork | apps/web/src/services/storage.ts:31-38 | A new item copies every input field and takes the given id. Its state is Draft, both timestamps are `now`, and it has no generated spec. |
| Storage.Merge | apps/web/src/services/storage.ts:56-60 | Each field comes from the update when given, else from the old item. `id` and `createdAt` are kept, and `updatedAt` is always `now`. |
| Storage.CreateThenFind | apps/web/src/services/storage.ts:40-44 | After appending a new item with a fresh id, looking the id up finds that item, in state Draft with `createdAt == updatedAt`. |
| Storage.UpdateThenFind | apps/web/src/services/storage.ts:51-65 | Replacing the found index with the merged item makes a lookup return the merged item, and keeps every other position. |
| Storage.DeleteThenFind | apps/web/src/services/storage.ts:75-83 | After deleting an id, looking it up finds nothing. |
| Storage.DeleteRemovesExactlyOne | apps/web/src/services/storage.ts:77 | With distinct ids, deleting an existing id removes exactly the item at its index and keeps the rest in order. |
| Storage.WithoutIdKeepsDistinctIds | apps/web/src/services/storage.ts:77 | Deleting keeps ids pairwise distinct. |
| Storage.MergeIdempotent | apps/web/src/services/storage.ts:56-60 | Applying the same update twice at the same instant equals applying it once. |
| Storage.StateUpdateOnlyChangesState | apps/web/src/services/storage.ts:68-73 | A workflow-state update changes only `workflowState` and `updatedAt`, to any of the three states. |
| Storage.StorageService.All | apps/web/src/services/storage.ts:15-23 | The stored list is empty when the key is absent or its JSON is corrupt. |
| Storage.StorageService.GetAllBodiesOfWork | apps/web/src/services/storage.ts:15-23 | Returns the saved list, or the empty list when the key is absent or corrupt. |
| Storage.StorageService.GetBodyOfWorkById | apps/web/src/services/storage.ts:25-28 | Returns the first item with the id, or nothing. |
| Storage.StorageService.SaveBodiesOfWork | apps/web/src/services/storage.ts:85-91 | The key afterwards holds exactly the given list. |
| Storage.StorageService.CreateBodyOfWork | apps/web/src/services/storage.ts:30-45 | Appends exactly the new item at the end, with the earlier items unchanged, and keeps ids distinct (given a fresh id). |
| Storage.StorageService.UpdateBodyOfWork | apps/web/src/services/storage.ts:47-66 | An unknown id gives nothing and no write. Otherwise only the found index is replaced by the merged item, which is returned, and ids stay distinct. |
| Storage.StorageService.UpdateWorkflowState | apps/web/src/services/storage.ts:68-73 | The same as an update of `workflowState` alone: an unknown id gives nothing and no write, otherwise the item gets the new state and `now`. |
| Storage.StorageService.DeleteBodyOfWork | apps/web/src/services/storage.ts:75-83 | Returns true exactly when some item had the id. It then saves the list without every such item, and writes nothing on false. Ids stay distinct. |
| AuthTypes.ReadToken | apps/web/src/services/auth/github.ts:35-53 | `getToken` returns the stored token exactly when one is stored and has not expired. |
| AuthTypes.StoreAfterTokenRead | apps/web/src/services/auth/github.ts:43-46 | Reading an expired token removes the service's session keys. Otherwise the store is untouched. |
| AuthTypes.KeyNameInjective | apps/web/src/services/auth/github.ts:4-7 | For keys whose foreign names avoid the four session names, equal key names mean the same key. |
| AuthTypes.KeyNamesDistinct | apps/web/src/services/auth/github.ts:4-7 | The four session key names are pairwise distinct. |
| GitHubAuth.ClearAuth | apps/web/src/services/auth/github.ts:306-315 | `clearAuth` removes exactly the four session keys and keeps every other key and value. |
| GitHubAuth.AuthenticatedIff | apps/web/src/services/auth/github.ts:21-32 | The snapshot is authenticated exactly when an unexpired token and a user are stored. The method falls back to "oauth". |
| GitHubAuth.ExpiredTokenClearsSession | apps/web/src/services/auth/github.ts:43-46 | An expired token reads as null and removes all four keys. The snapshot is then unauthenticated, with method "oauth". |
| GitHubAuth.TokenReadSettles | apps/web/src/services/auth/github.ts:35-53 | Reading the session again changes nothing more and gives the same snapshot. |
| GitHubAuth.InitiateRecordsState | apps/web/src/services/auth/github.ts:111-116 | Starting the flow stores the new state and method "oauth", and touches no other key. |
| GitHubAuth.ForgedCallbackRejected | apps/web/src/services/auth/github.ts:133-140 | A missing, empty or different saved state makes the callback fail with the store unchanged, whatever the network says. |
| GitHubAuth.NeverIssuedStateFails | apps/web/src/services/auth/github.ts:133-140 | A callback when no state was issued fails and leaves the snapshot as it was. |
| GitHubAuth.CallbackSuccess | apps/web/src/services/auth/github.ts:130-183 | The callback succeeds exactly when the state matches, the exchange is 2xx and a user arrives. The pending state is then gone and the snapshot is authenticated with the new token and user. |
| GitHubAuth.CallbackUserFailureKeepsToken | apps/web/src/services/auth/github.ts:163-178 | A failed user fetch returns false, but the new token stays stored and the old user is kept. The snapshot is unauthenticated without an earlier user, and authenticated with the stale user otherwise. |
| GitHubAuth.CallbackExchangeFailure | apps/web/src/services/auth/github.ts:142-158 | A failed exchange returns false, stores no token, and removes only the pending state. |
| GitHubAuth.ConnectOutcome | apps/web/src/services/auth/github.ts:323-350 | Connecting succeeds exactly when the profile and the probe both succeed. On failure nothing is stored. On success the snapshot is authenticated by "token", with the Bearer/"repo" token and the user. |
| GitHubAuth.LogoutClearsSession | apps/web/src/services/auth/github.ts:301-315 | Logging out removes exactly the four keys, is idempotent, and leaves an unauthenticated snapshot with method "oauth". |
| GitHubAuth.OAuthRoundTrip | apps/web/src/services/auth/github.ts:104-183 | Initiating and then calling back with the issued state, a successful exchange and a user authenticates the session by "oauth". |
| GitHubAuth.GitHubAuthService.GetToken | apps/web/src/services/auth/github.ts:35-53 | Returns the unexpired stored token. An expired token clears the session. |
| GitHubAuth.GitHubAuthService.GetUser | apps/web/src/services/auth/github.ts:56-64 | Returns the stored user or nothing. |
| GitHubAuth.GitHubAuthService.GetAuthMethod | apps/web/src/services/auth/github.ts:67-74 | Returns the text under the method key, or nothing. |
| GitHubAuth.GitHubAuthService.GetAuthState | apps/web/src/services/auth/github.ts:21-32 | Returns the snapshot of the old store, and is authenticated exactly when a token survives the read and a user is stored. |
| GitHubAuth.GitHubAuthService.IsAuthenticated | apps/web/src/services/auth/github.ts:318-320 | True exactly when a token survives the read and a user is stored. |
| GitHubAuth.GitHubAuthService.SaveAuthMethod | apps/web/src/services/auth/github.ts:77-83 | Only the method key changes. |
| GitHubAuth.GitHubAuthService.SaveToken | apps/web/src/services/auth/github.ts:86-92 | Only the token key changes. |
| GitHubAuth.GitHubAuthService.SaveUser | apps/web/src/services/auth/github.ts:95-101 | Only the user key changes. |
| GitHubAuth.GitHubAuthService.InitiateGitHubAuth | apps/web/src/services/auth/github.ts:104-127 | Without a client id nothing changes and there is no redirect. Otherwise the state and "oauth" are stored, and the redirect carries the client id, redirect URI, scope "repo read:user user:email" and the state. |
| GitHubAuth.GitHubAuthService.HandleOAuthCallback | apps/web/src/services/auth/github.ts:130-183 | The result and the new store are those of the callback function, whose properties the lemmas above prove. |
| GitHubAuth.GitHubAuthService.FetchUserRepos | apps/web/src/services/auth/github.ts:217-242 | Without an explicit or stored access token the result is empty. Otherwise it is the reply's list on 2xx, else empty. |
| GitHubAuth.GitHubAuthService.FetchRepoFiles | apps/web/src/services/auth/github.ts:245-278 | Null without a stored access token. Otherwise the reply on 2xx, else null. |
| GitHubAuth.GitHubAuthService.ValidateRepoAccess | apps/web/src/services/auth/github.ts:281-298 | True exactly when a stored access token exists and the request answered 2xx. |
| GitHubAuth.GitHubAuthService.Logout | apps/web/src/services/auth/github.ts:301-303 | The store becomes the cleared store. |
| GitHubAuth.GitHubAuthService.ClearAuthKeys | apps/web/src/services/auth/github.ts:306-315 | The four removals leave the cleared store. |
| GitHubAuth.GitHubAuthService.ConnectWithToken | apps/web/src/services/auth/github.ts:323-350 | The result and the new store are those of the connect function. |
| LegacyAuth.ClearAuth | apps/web/src/services/auth.ts:240-248 | `clearAuth` removes exactly the three keys and keeps every other key and value. |
| LegacyAuth.AuthenticatedIff | apps/web/src/services/auth.ts:20-29 | Authenticated exactly when an unexpired token and a user are stored. |
| LegacyAuth.ExpiredTokenClearsSession | apps/web/src/services/auth.ts:32-50 | An expired token reads as null and removes the three keys, leaving an unauthenticated snapshot. |
| LegacyAuth.InitiateRecordsState | apps/web/src/services/auth.ts:89-90 | Starting the flow stores the state and changes no other key. |
| LegacyAuth.ForgedCallbackRejected | apps/web/src/services/auth.ts:107-111 | A missing, empty or different saved state fails with the store unchanged. |
| LegacyAuth.CallbackOutcome | apps/web/src/services/auth.ts:104-153 | Success exactly when the state matches, the exchange is 2xx and a user arrives. A failed exchange removes only the state. After a good exchange the token is stored with no method, even if the user fetch fails. |
| LegacyAuth.LogoutClearsSession | apps/web/src/services/auth.ts:235-248 | Logging out removes exactly the three keys and is idempotent. A method key left by the four-key service survives it. |
| LegacyAuth.AuthService.GetToken | apps/web/src/services/auth.ts:32-50 | Returns the unexpired stored token. An expired one clears the three keys. |
| LegacyAuth.AuthService.GetUser | apps/web/src/services/auth.ts:53-61 | Returns the stored user or nothing. |
| LegacyAuth.AuthService.GetAuthState | apps/web/src/services/auth.ts:20-29 | Returns the snapshot of the old store. |
| LegacyAuth.AuthService.IsAuthenticated | apps/web/src/services/auth.ts:251-253 | True exactly when a token survives the read and a user is stored. |
| LegacyAuth.AuthService.SaveToken | apps/web/src/services/auth.ts:64-70 | Only the token key changes. |
| LegacyAuth.AuthService.SaveUser | apps/web/src/services/auth.ts:73-79 | Only the user key changes. |
| LegacyAuth.AuthService.InitiateGitHubAuth | apps/web/src/services/auth.ts:82-101 | Without a client id nothing changes. Otherwise the state is stored and the redirect carries it with the fixed scope. |
| LegacyAuth.AuthService.HandleOAuthCallback | apps/web/src/services/auth.ts:104-153 | The result and the new store are those of the callback function. |
| LegacyAuth.AuthService.FetchUserRepos | apps/web/src/services/auth.ts:187-212 | Empty without an explicit or stored access token. Otherwise the reply's list on 2xx, else empty. |
| LegacyAuth.AuthService.ValidateRepoAccess | apps/web/src/services/auth.ts:215-232 | True exactly when a stored access token exists and the request answered 2xx. |
| LegacyAuth.AuthService.Logout | apps/web/src/services/auth.ts:235-237 | The store becomes the cleared store. |
| LegacyAuth.AuthService.ClearAuthKeys | apps/web/src/services/auth.ts:240-248 | The three removals leave the cleared store. |
| Autocomplete.Matches | apps/web/src/components/FilePathAutocomplete.tsx:27-42 | A blank value gives no suggestions. Otherwise the suggestions are exactly the first 50 matching paths: a prefix of all matches, 50 long when more than 50 match, and all of them when there are at most 50. Every suggestion is a file whose lower-cased path contains the lower-cased value. |
| Autocomplete.AllMatchesKeepOrder | apps/web/src/components/FilePathAutocomplete.tsx:35-36 | Matching keeps the files' order: it distributes over concatenation. |
| Autocomplete.MatchIgnoresCase | apps/web/src/components/FilePathAutocomplete.tsx:34-36 | Lower-casing the path or the value first does not change whether it matches. |
| Autocomplete.CaseInsensitiveExample | apps/web/src/components/FilePathAutocomplete.tsx:34-37 | The query "app" keeps "src/App.tsx" and drops "README.md". |
| Autocomplete.UntrimmedQueryExample | apps/web/src/components/FilePathAutocomplete.tsx:28-37 | The query is not trimmed: "app " finds nothing in "src/App.tsx". |
| Autocomplete.ArrowDownIndex | apps/web/src/components/FilePathAutocomplete.tsx:51-53 | Moves down by one, or stays at the last index. An index inside the list stays inside it. |
| Autocomplete.ArrowUpIndex | apps/web/src/components/FilePathAutocomplete.tsx:57 | Moves up by one, never below 0. |
| Autocomplete.FilePathAutocomplete.Refilter | apps/web/src/components/FilePathAutocomplete.tsx:27-42 | The list becomes the matches, the dropdown is open exactly when there are some, and the index resets to 0 (a blank value leaves it). The open/index invariant is kept. |
| Autocomplete.FilePathAutocomplete.SelectFile | apps/web/src/components/FilePathAutocomplete.tsx:73-77 | Reports the path and closes the dropdown. |
| Autocomplete.FilePathAutocomplete.HandleKeyDown | apps/web/src/components/FilePathAutocomplete.tsx:45-70 | Keys are ignored while closed. While open, the arrows move the index within the list and Enter selects the highlighted path and closes. Escape closes without selecting, and other keys change nothing. |
| Autocomplete.FilePathAutocomplete.OnFocus | apps/web/src/components/FilePathAutocomplete.tsx:103-105 | Focus opens the dropdown only when the last filtered list is non-empty. |
| PlanningNew.BuildInput | apps/web/src/routes/planning.new.tsx:75-92 | Refused for a blank title or description, and for "Other" with blank clarifying text. Otherwise the input has the trimmed fields, the clarifying text exactly for "Other", and the repository exactly when non-blank. |
| PlanningNew.SubmittedInputIsClean | apps/web/src/routes/planning.new.tsx:85-92 | Every accepted input has non-blank, fully trimmed title and description, and its clarifying text appears only for "Other". |
| PlanningNew.BuildInputIdempotent | apps/web/src/routes/planning.new.tsx:75-92 | Submitting the fields of an accepted input again gives the same input. |
| PlanningNew.WithoutRef | apps/web/src/routes/planning.new.tsx:51 | The filtered list holds exactly the references with a different id. |
| PlanningNew.RemoveUndoesAdd | apps/web/src/routes/planning.new.tsx:45-51 | Removing a reference just added under a fresh id restores the list. |
| PlanningNew.RemoveKeepsOrder | apps/web/src/routes/planning.new.tsx:51 | Removal keeps the order of the remaining references. |
| PlanningNew.RemoveKeepsDistinct | apps/web/src/routes/planning.new.tsx:51 | Removal keeps reference ids distinct. |
| PlanningNew.NewBodyOfWorkForm.constructor | apps/web/src/routes/planning.new.tsx:21-33 | The form starts empty, with the first work type and the "path" reference kind. |
| PlanningNew.NewBodyOfWorkForm.AddContextReference | apps/web/src/routes/planning.new.tsx:35-48 | A blank value or label changes nothing. Otherwise exactly one reference, with the value and label as typed, is appended, and both inputs are cleared. A fresh id keeps ids distinct. |
| PlanningNew.NewBodyOfWorkForm.RemoveContextReference | apps/web/src/routes/planning.new.tsx:50-52 | Drops every reference with the id and keeps the other fields. |
| PlanningNew.NewBodyOfWorkForm.HandleSubmit | apps/web/src/routes/planning.new.tsx:72-95 | The result is the refusal from validating the fields, or the new item built from the validated input. A refusal writes nothing. An accepted submit appends exactly that item to the store. |
| PlanningNew.Submit | apps/web/src/routes/planning.new.tsx:85-92 | A refused input writes nothing. An accepted one is created in the store and returned. |
| PlanningNew.SubmitOutcomeIff | apps/web/src/routes/planning.new.tsx:72-95 | A submit is refused exactly when the title or description is blank, or "Other" has blank clarifying text. An accepted submit yields a Draft item with the given id, the references as listed, and a clean, trimmed title and description. |
| Dashboard.CountIn | apps/web/src/routes/index.tsx:11-19 | A count is zero exactly when no item is in that state. |
| Dashboard.CountAppend | apps/web/src/routes/index.tsx:11-19 | One more item raises the count of its own state by one and no other. |
| Dashboard.CountsSumToLength | apps/web/src/routes/index.tsx:11-19 | The three counts add up to the number of items. |
| Dashboard.CreateRaisesDraftCount | apps/web/src/routes/index.tsx:11-19 | Creating an item raises the Draft count by one and leaves the others. |
| Dashboard.Recent | apps/web/src/routes/index.tsx:84 | The recent list is the first min(5, n) stored items. |
| Dashboard.RecentIgnoresNewItems | apps/web/src/routes/index.tsx:84 | Once five items exist, creating more does not change the recent list: it shows the oldest items. |
| Dashboard.RecentSection | apps/web/src/routes/index.tsx:78-84 | The empty message shows exactly when there are no items. Otherwise between one and five items are listed. |
| Dashboard.BadgeColour | apps/web/src/routes/index.tsx:97-103 | Blue exactly for Draft, yellow exactly for Spec Generated, green exactly for Ready for Development. |
| Dashboard.BadgeMatchesStatCard | apps/web/src/routes/index.tsx:97-103 | Each badge has the colour of the stat card counting its state. |
| OAuthExchange.Early | apps/api/src/lambdas/github-oauth-exchange.ts:28-74 | GitHub is called exactly when the method is POST, the body is non-empty and parses, the code is truthy and both credentials are configured. A non-empty POST body that does not parse, or parses to `null`, gets 500. Every early response carries the CORS headers. |
| OAuthExchange.Call | apps/api/src/lambdas/github-oauth-exchange.ts:77-91 | The request to GitHub carries the configured id and secret and the request's code. |
| OAuthExchange.FromReply | apps/api/src/lambdas/github-oauth-exchange.ts:93-135 | GitHub's answer gives 200 exactly for a 2xx JSON object with a non-empty `access_token`, and 500 otherwise. |
| OAuthExchange.Handler | apps/api/src/lambdas/github-oauth-exchange.ts:17-136 | Every response carries the same CORS headers and a status of 200, 400, 405 or 500. |
| OAuthExchange.PreflightFirst | apps/api/src/lambdas/github-oauth-exchange.ts:29-35 | OPTIONS gets 200 with an empty body, before any other check. |
| OAuthExchange.OnlyPostAccepted | apps/api/src/lambdas/github-oauth-exchange.ts:38-44 | The answer is 405 exactly for methods other than OPTIONS and POST. |
| OAuthExchange.BadRequestIff | apps/api/src/lambdas/github-oauth-exchange.ts:48-64 | A POST gets 400 exactly when its body is missing or empty, or parses to a value whose `code` is falsy. |
| OAuthExchange.NoCallWithoutCredentials | apps/api/src/lambdas/github-oauth-exchange.ts:67-74 | Missing credentials give 500, and the response does not depend on GitHub. |
| OAuthExchange.UnparsableBodyIsServerError | apps/api/src/lambdas/github-oauth-exchange.ts:56-58 | A POST whose body is malformed JSON or `null` gets 500 from the `catch` block, with the parse error or the null-property error as the cause. |
| OAuthExchange.PostOutcomes | apps/api/src/lambdas/github-oauth-exchange.ts:44-135 | A POST gets 200 exactly when every early check passes and GitHub returns a usable token; otherwise it gets 400 or 500. |
| OAuthExchange.SuccessIff | apps/api/src/lambdas/github-oauth-exchange.ts:93-124 | A token body with 200 comes back exactly when all checks pass and GitHub returns a non-empty `access_token`. The body is then exactly that token, `token_type` and `scope`. |

## Left out

- Network calls are replaced by oracle parameters that say what the call answered. This covers `fetch` to GitHub, to the exchange endpoint and to the repository-files endpoint. Headers, URLs and the `Authorization` value are not modelled.
- `fetchGitHubUser` and `validateTokenPermissions` are the network calls themselves; their answers are the `profile` and `probeOk` parameters.
- `generateId`, `generateState` and the `ref_…` ids are random, and `new Date()` is the clock. Ids, states and `now` are parameters; the uniqueness of ids is a precondition.
- JSON (de)serialisation is not modelled. The work-item key is absent, corrupt or a list. A session key holds text, a token or a user; a stored value that parses into some other JSON shape is not modelled.
- Invalid `expiresAt` date strings are not modelled; `expiresAt` is an instant in milliseconds.
- Local-storage write errors are swallowed by the source, so writes always succeed here.
- `toLowerCase` is ASCII-only here. Unicode case mapping is not modelled.
- Strings are sequences of Unicode scalar values, not UTF-16 code units. Unpaired surrogates and the code-unit view of `includes` and `trim` on astral characters are not modelled.
- The text of the authorization URL and the URL encoding of its parameters are not modelled. The redirect is a record of its four parameters.
- Storage.StorageService.UpdateBodyOfWork: the update record cannot carry `id` or `createdAt`. At runtime the spread would copy them if a caller passed them anyway; that case is not modelled. An update that sets a required field to `undefined` is not modelled either.
- The React effect that re-runs the filter after `selectFile` changes the value is not modelled. `SelectFile` only reports the path and closes.
- The click-outside listener, input blur and all rendering are not modelled.
- The markdown `FileReader` upload in the new-work form is browser I/O, and so are `alert` and navigation.
- The dashboard calls `getAllDevWork`, which the store does not define. The dashboard here reads the list of `getAllBodiesOfWork`.
- The session services import `GitHubAuthToken`, `GitHubUser` and `AuthState` from a types module that does not declare them. Their fields follow what the services read and write.
- The thrown error's message in the Lambda's 500 body is engine-specific, so only the cause is recorded.
- The Lambda's `console` logging is not modelled.
- A `code` that is truthy but not a string is sent to GitHub as its JSON value; only its truthiness is modelled.
- `syncToCloud` is a placeholder that only logs.
