# Gym admin panel — a Dafny model of its data and session logic

The gym admin panel is a browser application for running a gym's membership
desk. It has no real server. Three modules inside the page play the back end:

- a **members** store and a **plans** store, each a list of records kept in
  browser storage, with a hard-coded seed when storage is empty;
- a **token authority** that issues and refreshes an access token with a
  one-hour lifetime.

An HTTP **gateway** attaches that token to every request. When a reply is
unauthorised (401), the gateway refreshes the token once and parks the other
unauthorised requests until the refresh settles. Two authentication front ends
restore the session at start-up: the context provider and an older hook. The
pages add pure helpers:

- the member search and filters, the bulk-selection list, the field projection
  applied to a staff member's edit, and the administrator guards;
- the sign-in form's validation and password-strength meter;
- the member form's field locks and its suggested expiry date.

This project models that core in Dafny and proves what each part promises.

| file | module | models |
|---|---|---|
| `common.dfy` | `Common` | Option/Result, the error and envelope shapes, time constants, `Instant` |
| `text.dfy` | `Text` | `includes`, `toLowerCase`, `split('@')[0]` |
| `store.dfy` | `Store` | id-keyed records shared by both stores: next id, find by id, filter out by id |
| `members_api.dfy` | `MembersApi` | the members back end: a `MemberRepository` class over a storage cell |
| `plans_api.dfy` | `PlansApi` | the plans back end: a `PlanRepository` class over a storage cell |
| `auth_api.dfy` | `AuthApi` | the token authority: a `TokenStore` class with three optional keys |
| `api_client.dfy` | `ApiClient` | the refresh-on-401 gateway as an event machine, and a `Gateway` class over it |
| `roles.dfy` | `Roles` | the stored user record and the `isAdmin`/`isStaff` predicates |
| `auth_provider.dfy` | `AuthProvider` | the context's start-up, login and logout |
| `use_auth.dfy` | `UseAuth` | the hook's check, login and logout |
| `members_page.dfy` | `MembersPage` | the members page's filter, selection, staff projection, bulk and single actions |
| `login_page.dfy` | `LoginPage` | the sign-in form's validation and strength meter |
| `member_form.dfy` | `MemberForm` | field locks and the suggested expiry date |

These inputs replace browser facilities:

- A storage key is an `Option` field. `None` stands for a key that is missing,
  empty or unparseable; all three fall back to the seed.
- The clock (`Date.now()`, `new Date()`) is an integer `now`/`today` in epoch
  milliseconds.
- The 10% random fetch failure is a boolean `fault`.
- `window.confirm` is a boolean `confirmed`.
- `parseFloat(x)` is an `Option<real>`, with `None` for NaN.
- Each token string `mock_..._<now>` is a constructor carrying its `now`.

Some behaviours of the code are easy to misread; the model keeps them as written:

- **Member update and status.** updateMember ignores any status in its payload.
  It recomputes the status from the payload's own `expiryDate` every time, so a
  bulk status change has no effect on what is stored (`BulkStatusIsIrrelevant`).
  A payload without an expiry date yields `new Date(undefined)`, which is not a
  date, and the status becomes Active.
- **The stored `amount` key.** addMember and updateMember spread the whole
  payload into the stored record, so a member keeps the `amount` text it was
  saved with. A bulk change or a staff edit spreads a member back into a payload,
  and updateMember reads the due amount from that key again. For the stored
  member this changes nothing (`OperationsKeepAmountsConsistent`,
  `StaffEditTouchesOnlyBasicInfo`). A stale copy in the selection or the edit
  state writes its own older amount back (`StaleCopyRestoresItsAmount`).
- **Plans fetch order.** The plans fetch checks its injected failure before it
  reloads from storage. The members fetch reloads first.
- **Logout and the stored user.** The context's logout keeps the `userData` key;
  the hook's logout removes it.
- **Malformed stored user in the hook.** When the stored user record is
  malformed, the hook's check throws before it turns `loading` off.

## Model

| member | source | states |
|---|---|---|
| `Store.MaxId` | src/api/members.api.js:122 | the maximum is at least the floor, bounds every id, and is the floor or some record's id |
| `Store.NextId` | src/api/plans.api.js:104 | the new id is at least 1, larger than every existing id, and 1 for an empty collection |
| `Store.FindIndex` | src/api/members.api.js:146 | the first index holding the id; None exactly when no record has it |
| `Store.WithoutId` | src/api/members.api.js:181 | the filtered collection is no longer than before |
| `Store.WithoutIdKeepsExactlyOthers` | src/api/members.api.js:181 | every kept record was there and has a different id, and every record with a different id is kept |
| `Store.WithoutIdKeepsOrder` | src/api/plans.api.js:167 | filtering by id keeps the remaining records in their order |
| `Store.WithoutPresentIdShrinks` | src/api/members.api.js:176-181 | removing an id that is present shortens the collection |
| `Store.WithoutAbsentIdIsIdentity` | src/api/members.api.js:181 | removing an absent id changes nothing |
| `Store.AppendFreshKeepsUnique` | src/api/members.api.js:122-128 | appending a record with an id above all others keeps ids unique |
| `Store.WithoutIdKeepsUnique` | src/api/plans.api.js:167 | filtering by id keeps ids unique |
| `Store.WithoutSoleIdRemovesOne` | src/api/plans.api.js:166-167 | when one record alone holds the id, filtering removes that record and keeps what surrounds it in order |
| `Store.WithoutUniqueIdRemovesOne` | src/api/members.api.js:180-181 | with unique ids, deletion removes exactly the one record at the found index |
| `MembersApi.CalculateStatus` | src/api/members.api.js:82-89 | Expired iff expiry < today; Pending iff 0 <= expiry - today < 7 days, so the expiry instant is Pending; Active otherwise, including exactly 7 days ahead and an invalid date |
| `MembersApi.StatusOnlyAdvances` | src/api/members.api.js:86-88 | as today moves forward, the status only goes Active, then Pending, then Expired |
| `MembersApi.AmountOr` | src/api/members.api.js:125 | `parseFloat(amount)` with the fallback on a falsy result: the parsed value when it is a non-zero number, the fallback when it is NaN or zero |
| `MembersApi.Load` | src/api/members.api.js:10-66 | a missing or unreadable key yields the four-member seed, a stored list is used as is |
| `MembersApi.SeedIdsAreOneToFour` | src/api/members.api.js:21-66 | the seed has ids 1 to 4, unique, so the next id is 5; its members have no amount key and agree with their due amounts |
| `MembersApi.NewMember` | src/api/members.api.js:121-126 | fresh id above every existing one (1 when empty), or the payload's own id; the payload's name, email, phone, plan, start and expiry dates stored as given, and its amount key too; status from the expiry date; due amount from the parsed amount, 0 when missing, NaN or zero; the amount key agrees with the due amount |
| `MembersApi.Merge` | src/api/members.api.js:151-156 | each of id, name, email, phone, plan, start and expiry date and the amount key is the payload's when present and the stored one otherwise; status recomputed from the payload's expiry date, Active when it has none; due amount from the payload's amount, kept when it is missing, NaN or zero |
| `MembersApi.MergeKeepsAmountConsistent` | src/api/members.api.js:151-156 | a merge keeps a member's amount key in agreement with its due amount |
| `MembersApi.PayloadStatusIsDiscarded` | src/api/members.api.js:154 | a status in an add payload (over any collection) or an update payload never reaches the stored member |
| `MembersApi.UpdateIn` | src/api/members.api.js:146-158 | NotFound iff no member has the id; otherwise only the first match is replaced by its merge, length and all other positions kept |
| `MembersApi.DeleteIn` | src/api/members.api.js:176-182 | NotFound iff absent; otherwise answers the first member with the id, leaves exactly the filter of the id out of the collection, removes every record with the id, keeps every other record and adds none |
| `MembersApi.DeleteInKeepsOrder` | src/api/members.api.js:182 | a successful delete keeps the remaining members in their order |
| `MembersApi.AddKeepsIdsUnique` | src/api/members.api.js:121-128 | adding without a payload id keeps ids unique |
| `MembersApi.UpdateKeepsIdsUnique` | src/api/members.api.js:151-158 | an update whose payload carries no other id keeps ids unique |
| `MembersApi.DeleteKeepsIdsUnique` | src/api/members.api.js:180-181 | deletion keeps ids unique |
| `MembersApi.OperationsKeepAmountsConsistent` | src/api/members.api.js:121-181 | add, update and delete keep every stored member's amount key in agreement with its due amount |
| `MembersApi.NextIdAfterFreshAppend` | src/api/members.api.js:122 | after appending the next-id record, the next id is one more |
| `MembersApi.SuccessiveAddsNumberConsecutively` | src/api/members.api.js:114-129 | successive adds keep the old members as a prefix and number the new ones consecutively from the next id |
| `MembersApi.MemberRepository.constructor` | src/api/members.api.js:79 | the cache starts as the loaded collection |
| `MembersApi.MemberRepository.GetMembers` | src/api/members.api.js:94-111 | reloads first, then fails on the injected fault or answers the collection; storage unchanged |
| `MembersApi.MemberRepository.AddMember` | src/api/members.api.js:114-135 | the new member is appended at the end and persisted; earlier members unchanged |
| `MembersApi.MemberRepository.UpdateMember` | src/api/members.api.js:139-166 | the result and new state are those of UpdateIn; on NotFound storage is unchanged |
| `MembersApi.MemberRepository.DeleteMember` | src/api/members.api.js:169-190 | the result and new state are those of DeleteIn; on NotFound storage is unchanged |
| `MembersApi.MemberRepository.GetMember` | src/api/members.api.js:193-209 | NotFound iff no member has the id, else the first member with it; storage unchanged |
| `MembersApi.MemberRepository.ClearData` | src/api/members.api.js:212-219 | the key is dropped and the reload is exactly the seed |
| `MembersApi.AddClearList` | src/api/members.api.js:212-214 | whatever was added, clearing and listing answers exactly the four-member seed |
| `PlansApi.Load` | src/api/plans.api.js:7-55 | a missing or unreadable key yields the four-plan seed |
| `PlansApi.SeedPlansShape` | src/api/plans.api.js:18-55 | the seed has ids 1 to 4, all Active, durations 1, 3, 6, 12 |
| `PlansApi.NewPlan` | src/api/plans.api.js:103-107 | status Active whatever the payload says; fresh id (1 when empty) unless the payload brings one; name, duration, price, tax and description from the payload |
| `PlansApi.MergePlan` | src/api/plans.api.js:135-138 | each of id, name, duration, price, tax, description and status is the payload's when present and the stored one otherwise; an empty payload changes nothing |
| `PlansApi.MergePlanIdempotent` | src/api/plans.api.js:135-138 | merging twice is merging once; merging a plan's own fields is the identity |
| `PlansApi.PlanRepository.constructor` | src/api/plans.api.js:68 | the cache starts as the loaded collection |
| `PlansApi.PlanRepository.GetPlans` | src/api/plans.api.js:76-94 | the fault is checked before the reload; success answers the stored plans in an outer data wrapper |
| `PlansApi.PlanRepository.AddPlan` | src/api/plans.api.js:97-119 | the new plan is appended and persisted; existing plans unchanged |
| `PlansApi.PlanRepository.UpdatePlan` | src/api/plans.api.js:122-150 | 404 with storage unchanged when absent; else the found index alone is replaced by the verbatim merge |
| `PlansApi.PlanRepository.DeletePlan` | src/api/plans.api.js:153-177 | 404 when absent; else answers the plan, filters the id out, shorter and in order |
| `PlansApi.PlanRepository.ClearData` | src/api/plans.api.js:180-189 | the key is dropped and the reload is exactly the seed |
| `AuthApi.UserFor` | src/api/auth.api.js:36-41 | role admin iff the email contains "admin"; id 1; name is the text before the first '@' |
| `AuthApi.TokenStore.constructor` | src/api/auth.api.js:4-8 | the three keys hold what storage holds |
| `AuthApi.TokenStore.Login` | src/api/auth.api.js:15-44 | stores both tokens and expiry now + 3,600,000 ms before building the user; an undefined email throws after that |
| `AuthApi.TokenStore.Refresh` | src/api/auth.api.js:47-68 | no refresh token: fails with "No refresh token available" and changes nothing; else new access token, expiry now + 1 h, refresh token kept |
| `AuthApi.TokenStore.IsTokenExpired` | src/api/auth.api.js:71-76 | expired when no expiry is stored; not expired at the expiry instant itself |
| `AuthApi.TokenStore.GetToken` | src/api/auth.api.js:79-81 | the stored access token with no expiry check: missing exactly when validation says "No token", at any time |
| `AuthApi.TokenStore.Logout` | src/api/auth.api.js:84-89 | all three keys removed; no token afterwards and expired at every time |
| `AuthApi.TokenStore.ValidateToken` | src/api/auth.api.js:92-107 | valid iff a token is present and unexpired; "No token" takes precedence over "Token expired" |
| `AuthApi.TokenStore.SimulateTokenExpiry` | src/api/auth.api.js:110-115 | expiry set to now - 1000, so the token is expired at any later-or-equal time |
| `AuthApi.TokenStore.GetTokenInfo` | src/api/auth.api.js:118-130 | flags agree with the keys; the expiry reported is the stored one; time left is the expiry minus now, and positive only when not expired; no expiry gives 0 and expired |
| `AuthApi.LoginLastsOneHour` | src/api/auth.api.js:21-76 | a fresh login validates at its last millisecond and is expired one millisecond later |
| `ApiClient.WithBearer` | src/api/apiClient.js:30-36 | the bearer token is set iff one is stored; otherwise the request is untouched |
| `ApiClient.Settled` | src/api/apiClient.js:17-26 | one settlement per waiter, in queue order, all resolved with the token or all rejected with the error |
| `ApiClient.ProcessQueue` | src/api/apiClient.js:17-26 | the loop settles every queued waiter exactly once, in insertion order, with the one outcome |
| `ApiClient.OnError` | src/api/apiClient.js:50-93 | non-401 or already retried: passed on unchanged; while refreshing: only enqueued; otherwise marked retried and a refresh starts; keeps the gateway invariant |
| `ApiClient.Finish` | src/api/apiClient.js:70-88 | the starting request is resolved with the new token or rejected with the refresh error, the queue drained with the same outcome, and the gateway idle |
| `ApiClient.OnErrors` | src/api/apiClient.js:50-65 | one reaction per arriving error reply |
| `ApiClient.WhileRefreshingOnlyQueues` | src/api/apiClient.js:55-65 | while a refresh is in flight, every 401 reply is only queued and none starts a second refresh |
| `ApiClient.WhileRefreshingQueuesInOrder` | src/api/apiClient.js:55-65 | while a refresh is in flight, the requests of 401 replies join the queue in arrival order and the refresh in flight is kept |
| `ApiClient.Configs` | src/api/apiClient.js:57-61 | one queued request per reply, each the reply's own request, in order |
| `ApiClient.BurstRefreshesOnce` | src/api/apiClient.js:54-78 | a burst of 401s on an idle gateway starts one refresh; on success every request is resubmitted with the same new token |
| `ApiClient.Gateway.constructor` | src/api/apiClient.js:14-15 | not refreshing, empty queue |
| `ApiClient.Gateway.AttachToken` | src/api/apiClient.js:29-36 | the request interceptor over the stored access token |
| `ApiClient.Gateway.OnResponseError` | src/api/apiClient.js:50-68 | the new state and reaction are those of OnError, which keeps the invariant |
| `ApiClient.Gateway.FinishRefresh` | src/api/apiClient.js:70-88 | runs the token refresh; on success the tokens are renewed, on failure logged out; the state is that of Finish, idle |
| `Roles.IsAdmin` | src/context/AuthProvider.jsx:90-92 | admin implies staff (the hook's copy, src/auth/useAuth.js:48, is the same predicate) |
| `Roles.IsStaff` | src/context/AuthProvider.jsx:94-96 | staff iff a user is signed in, since every role is staff or admin (also src/auth/useAuth.js:49) |
| `Roles.LoginRoleDecidesPredicates` | src/api/auth.api.js:39 | a logged-in user is admin iff the email contains "admin", and always staff |
| `AuthProvider.AuthContext.constructor` | src/context/AuthProvider.jsx:15-17 | no user, loading, no error |
| `AuthProvider.AuthContext.InitializeAuth` | src/context/AuthProvider.jsx:21-57 | the three start-up paths and both catch blocks; loading off on every path; a restored user always holds a token valid now |
| `AuthProvider.AuthContext.Login` | src/context/AuthProvider.jsx:62-82 | success sets and persists the user and answers success; a throw answers and records the error; loading off |
| `AuthProvider.AuthContext.Logout` | src/context/AuthProvider.jsx:84-88 | tokens, user and error cleared; the userData key kept |
| `AuthProvider.RestartAfterLogout` | src/context/AuthProvider.jsx:44-48 | a start-up after logout restores nobody although the user record is still stored |
| `UseAuth.AuthHook.constructor` | src/auth/useAuth.js:8-9 | no user, loading |
| `UseAuth.AuthHook.CheckAuth` | src/auth/useAuth.js:12-21 | restores only with a valid token and a stored record; never refreshes; a malformed record leaves loading on |
| `UseAuth.AuthHook.Login` | src/auth/useAuth.js:26-40 | true iff the login succeeds, with the user set and persisted; false on a throw |
| `UseAuth.AuthHook.Logout` | src/auth/useAuth.js:42-46 | tokens cleared, no user, userData key removed |
| `UseAuth.CheckAfterLogout` | src/auth/useAuth.js:12-20 | after the hook's logout a check restores nobody and ends loading |
| `MembersPage.FilterMembers` | src/pages/Members.jsx:156-172 | exactly the members every active filter accepts; a chosen status or plan holds of every kept member |
| `MembersPage.FilterKeepsOrder` | src/pages/Members.jsx:157 | the filtered list is an order-preserving subsequence |
| `MembersPage.NoFiltersKeepAll` | src/pages/Members.jsx:159-168 | with an empty term and no filters every member is kept |
| `MembersPage.MatchesSearch` | src/pages/Members.jsx:159-162 | an empty term matches everyone; a non-empty match is no longer than the name, the email or the phone it was found in |
| `MembersPage.NameSubstringMatches` | src/pages/Members.jsx:159-160 | a term found in the name finds the member |
| `MembersPage.EmailSubstringMatches` | src/pages/Members.jsx:159-161 | a term found in the email finds the member |
| `MembersPage.PhoneSubstringMatches` | src/pages/Members.jsx:159-162 | a term found in the phone finds the member |
| `MembersPage.SearchIgnoresCase` | src/pages/Members.jsx:160-161 | on the name and the email, a term found there finds the member however the typed term's letters are cased |
| `MembersPage.PhoneMatchIsCaseSensitive` | src/pages/Members.jsx:162 | on the phone the term must match as typed: a phone "x" is found by "x" and not by "X" |
| `MembersPage.Selection` | src/pages/Members.jsx:192-200 | ticking appends without de-duplication; unticking drops every entry with that id and keeps the rest in order |
| `MembersPage.PayloadOf` | src/pages/Members.jsx:208-211 | a member spread into a payload carries its id, its six basic fields, status, expiry and its stored amount key |
| `MembersPage.StaffPayload` | src/pages/Members.jsx:317-325 | the edited member's id, status and amount key, overridden exactly on the six basic fields by the form's values |
| `MembersPage.StaffEditTouchesOnlyBasicInfo` | src/pages/Members.jsx:317-329 | a staff edit over the stored member it started from keeps the id and the due amount, because the member's amount key agrees with its due amount |
| `MembersPage.StaleCopyRestoresItsAmount` | src/pages/Members.jsx:207-211 | a bulk change or a staff edit through an older copy of a member stores the copy's due amount |
| `MembersPage.BulkPayload` | src/pages/Members.jsx:208-211 | the member's own spread, amount key included, with the chosen status |
| `MembersPage.MembersScreen.UpdateEach` | src/pages/Members.jsx:206-211 | the loop's calls leave the back end holding exactly BulkUpdated's collection and answer its error |
| `MembersPage.MembersScreen.DeleteEach` | src/pages/Members.jsx:235-237 | the loop's calls leave the back end holding exactly BulkDeleted's collection and answer its error |
| `MembersPage.BulkUpdated` | src/pages/Members.jsx:207-212 | successive updates keep the collection's length |
| `MembersPage.BulkDeleted` | src/pages/Members.jsx:235-237 | successive deletes never lengthen the collection |
| `MembersPage.BulkStatusIsIrrelevant` | src/pages/Members.jsx:207-212 | the status chosen for a bulk change makes no difference to what is stored |
| `MembersPage.UpdateKeepsIds` | src/pages/Members.jsx:208-211 | an update through a member's own spread keeps every id in place |
| `MembersPage.BulkUpdateSucceedsIffAllPresent` | src/pages/Members.jsx:207-218 | a bulk update runs to the end iff every target's id is stored |
| `MembersPage.BulkDeleteRemovesAllTargets` | src/pages/Members.jsx:235-237 | after a complete bulk delete no target id remains |
| `MembersPage.BulkDeletedShrinksWithin` | src/pages/Members.jsx:235-237 | a bulk delete leaves only members that were there |
| `MembersPage.DuplicateSelectionFailsBulkDelete` | src/pages/Members.jsx:192-237 | a member selected twice makes the bulk delete fail on the second copy |
| `MembersPage.MembersScreen.constructor` | src/pages/Members.jsx:31 | empty selection |
| `MembersPage.MembersScreen.SelectionChange` | src/pages/Members.jsx:192-200 | the selection becomes Selection of the old one |
| `MembersPage.MembersScreen.BulkUpdate` | src/pages/Members.jsx:202-223 | one update per target in order, stopping at the first failure; on success the selection is cleared |
| `MembersPage.MembersScreen.BulkDelete` | src/pages/Members.jsx:225-248 | non-admin or unconfirmed: no call; else one delete per target in order, stopping at the first failure |
| `MembersPage.MembersScreen.AddMember` | src/pages/Members.jsx:289-309 | non-admin: no call; else the back end's add |
| `MembersPage.MembersScreen.UpdateMember` | src/pages/Members.jsx:312-345 | an admin's form goes through as is, a staff member's through the staff projection |
| `MembersPage.MembersScreen.DeleteMember` | src/pages/Members.jsx:348-369 | non-admin or unconfirmed: no call; else the back end's delete |
| `LoginPage.KnownPassword` | src/pages/Login.jsx:16-32 | exactly the three demonstration emails have an account |
| `LoginPage.EmailLike` | src/pages/Login.jsx:40 | a match of `\S+@\S+\.\S+` has at least five characters, an '@' and a '.' |
| `LoginPage.MeetsComposition` | src/pages/Login.jsx:51 | a match of the lookahead pattern holds a lowercase letter, an uppercase letter, a digit and a special character |
| `LoginPage.WithoutAtIsInvalid` | src/pages/Login.jsx:40-42 | a non-empty email without '@' is reported as invalid |
| `LoginPage.EmailError` | src/pages/Login.jsx:37-44 | "Email is required" iff empty, else "Email is invalid" iff malformed, else "No account found with this email" iff unknown; none iff all three pass |
| `LoginPage.PasswordError` | src/pages/Login.jsx:46-55 | each message exactly when its rule is the first to fail: required, then length < 8, then composition, then mismatch for a known account only; none implies length, composition and the account's own password |
| `LoginPage.ValidateForm` | src/pages/Login.jsx:34-59 | true iff no error was recorded, and then the password is the account's own |
| `LoginPage.ComposedAtStart` | src/pages/Login.jsx:51 | four classes present on one line make the composition pattern match at position 0 |
| `LoginPage.DemoAccountPasses` | src/pages/Login.jsx:16-55 | a demonstration account with its own password passes every rule |
| `LoginPage.AdminAccountPasses` | src/pages/Login.jsx:17-21 | the admin credentials validate |
| `LoginPage.StaffAccountPasses` | src/pages/Login.jsx:22-26 | the staff credentials validate |
| `LoginPage.TrainerAccountPasses` | src/pages/Login.jsx:27-31 | the trainer credentials validate |
| `LoginPage.DemoAccountsPass` | src/pages/Login.jsx:16-59 | every account of the table validates with its own password |
| `LoginPage.WrongPasswordIsRejected` | src/pages/Login.jsx:53-54 | a well-formed wrong password for a known account gives "Invalid password" |
| `LoginPage.PasswordStrength` | src/pages/Login.jsx:100-112 | for a non-empty password the score is the number of the five criteria met (length of `MetCriteria`); it is at most 5 and labels[score] is the label; empty gives 0 and ''; 5 iff all five criteria hold |
| `LoginPage.MetCriteria` | src/pages/Login.jsx:103-108 | the criteria a password meets are exactly the listed criteria it satisfies, no more of them than were listed |
| `LoginPage.PointsCountCriteria` | src/pages/Login.jsx:103-108 | the sum of one point per criterion equals the number of criteria met |
| `LoginPage.StrengthExamples` | src/pages/Login.jsx:100-112 | "abc" scores 1, "Very Weak"; "Abc1" scores 3, "Fair" |
| `LoginPage.AcceptedPasswordIsVeryStrong` | src/pages/Login.jsx:47-111 | every password the form accepts scores 5, "Very Strong" |
| `MemberForm.IsFieldDisabled` | src/components/members/MemberForm.jsx:18-24 | nothing locked for admins; for staff, locked iff outside the six editable fields |
| `MemberForm.AmountIsAdminOnly` | src/components/members/MemberForm.jsx:22-23 | 'amount' is locked for staff and open for admins; the six basic fields are open to both |
| `MemberForm.CalculateExpiryDate` | src/components/members/MemberForm.jsx:151-156 | empty gives empty; an invalid date or a result out of the date range throws; a start date whose result is in range always gives the UTC day of start + 30 days |
| `MemberForm.SuggestedExpiryLifecycle` | src/components/members/MemberForm.jsx:151-156 | from a day start the suggestion is exactly 30 days later; the member is Active for 23 days, then Pending |
| `Text.BeforeFirst` | src/api/auth.api.js:40 | a prefix without the separator, followed by it when shorter |
| `Text.ToLower` | src/pages/Members.jsx:160-161 | same length, each ASCII letter lowered |
| `Text.Contains` | src/pages/Members.jsx:160-162 | `includes`: a contained string is never longer than the text |
| `Text.ContainsItsSlices` | src/api/auth.api.js:39 | every slice of a text, the empty one and the whole text included, is contained in it |

## Left out

- Network delays (`setTimeout`), console logging and the `window.location` redirect
  after a failed refresh are not modelled. Storage write failures are not modelled
  either: their catch blocks only log.
- `AuthApi.TokenStore.GetTokenInfo` reports `expiresAt` as the stored expiry
  instant, with None for the text 'No expiry'. The code formats it with
  `toLocaleTimeString()`, whose text depends on the runtime's locale.
- The asynchronous interleaving of promises is left out. The gateway is a
  sequence of discrete events: an error reply arrives, or the refresh in flight
  finishes.
- Gateway: a queued waiter is resubmitted without the retried mark, exactly as in
  the code. Another 401 on that waiter is therefore a new event, not part of this run.
- `ApiClient.Gateway.FinishRefresh` needs a refresh in flight. In the code the
  refresh runs inside the same call that started it.
- The members page's list state after a call is not modelled. The page reads
  `response.data.data`, but the members back end answers an unwrapped
  `{success, data, message}`. The model keeps each module's envelope as written
  and models the page's calls, guards and selection.
- Toasts, alerts and React re-rendering are not modelled.
- Only the handlers named above are modelled. Other handlers of the members page
  only set component state.
- `Text.ToLower`: lower-cases ASCII letters only. JavaScript's `toLowerCase`
  also folds other scripts.
- Lengths count Unicode scalar values, whereas JavaScript counts UTF-16 code
  units. The two differ only for characters outside the Basic Multilingual Plane.
- `LoginPage.KnownPassword`: an own-property lookup. Names inherited by every
  JavaScript object (such as "constructor") are not accounts here. None of them
  contains '@', so the form's validity is the same.
- Payloads: a field that is absent and a field set to `undefined` are both
  `None`, and both keep the old value in a merge. In the code, an explicit
  `undefined` overwrites. The member form always supplies the six basic fields.
- `MembersApi.NewMember` and `PlansApi.NewPlan` store an empty value ("", 0 or
  an invalid date) for a field missing from the payload, where the code leaves
  the key out of the record.
- Stored records hold only the keys the model names. Other keys a payload may
  carry are spread into the record by the code and are dropped here.
- `MemberForm.CalculateExpiryDate` works in universal time. In the code,
  `setDate` counts local days, so in a time zone with daylight saving the answer
  can be one day off.
- Dates are integers in epoch milliseconds. An ISO date string stands for its
  UTC midnight, and anything `new Date` cannot parse is `InvalidDate`.
- Amounts and prices are reals. Display rounding (`toFixed`) is not modelled.
- `MembersApi.AmountOr` is `parseFloat(x) || fallback` over an already parsed
  number. An `amount` key holds its parse result (a number or NaN), not its
  text, so the parsing of the text itself is not modelled.
- `MembersApi.Load` and `PlansApi.Load` treat the cell as a list or nothing. A
  stored JSON value that is not a list is not modelled.
- `Roles.MalformedUserData` stands for the SyntaxError's message. Its wording
  depends on the JavaScript engine.
- The page-level wrapper `validateForm` sets React error state; only its result
  is modelled. The submit handler, its delay and navigation are left out.
- Presentation components, charts, the plans page and the plan form (a
  declarative schema from a library) are not part of this model.
