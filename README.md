# NSEF front-end core, modelled in Dafny

NSEF-Frontend is the React front-end of a student welfare fund. Students pay monthly dues online or in cash to their class representative (CR). Cash travels onward as handovers: CR to BP (batch representative), BP to NSFT. Students may also ask the fund for money. NSFT approves or rejects those requests, and an accountant then grants or rejects the approved ones.

This project models the deterministic logic under the views:

- **Fund-request store and services** (`FundStore`, `fund_store.dfy`).
  - The in-memory request table is a class whose `requests` sequence is appended to by `Add` and rewritten by `Update`.
  - Around it sit the student, NSFT and accountant service calls.
- **Authentication** (`Auth`, `auth.dfy`).
  - Normalisation of the token's role claim.
  - The `canAccess` privilege map.
  - The session fields that mount, `login` and `logout` set.
- **Routing** (`Routing`, `routing.dfy`).
  - The route guard.
  - The "highest role wins" landing ladder, shared by the guard and the login form.
- **Cash-handover selection** (`Selection`, `selection.dfy`).
  - The checkbox selection, the select-all flag and the running total shared by both handover pages.
  - The total is computed by a `while` loop proved equal to the sum over the selected records.
- **One module per page.**
  - BP and CR cash handovers: `bp_handovers.dfy`, `cr_handovers.dfy`.
  - NSFT fund requests: `nsft_fund_requests.dfy`.
  - The accountant's fund-requests tab: `accountant_tab.dfy`.
  - CR online verification: `verify_online.dfy`.
  - CR cash transactions: `cr_transactions.dfy`.
  - Student transactions: `student_transactions.dfy`.
  - CR donation entry: `add_donation.dfy`.
  - NSFT cash-receival confirmation: `nsft_receival.dfy`.
  - Each page is a class whose fields are the page's React state. Each handler is a method stating the whole new state.
  - React effects are explicit methods run after the state changes that trigger them (`SettleEffects`).
  - Each page's list rewrite, filter and sort is a function, paired with a lemma that states what it does.
- **Shared helpers** (`Common`, `paging.dfy`).
  - `Common` holds JavaScript's `filter`, the "map where id matches" rewrite, ASCII `toLowerCase` with `includes`, and the stable descending sort.
  - `paging.dfy` holds the page slice, the page count and the next/prev steps.

Amounts are integers. Text a user types into an amount field is modelled by what `parseFloat` makes of it, a `Number` that is an integer or `NaN`. Dates used for sorting are integer timestamps.

## Model

| member | source | states |
|---|---|---|
| Common.FilterSpec | src/lib/api-client.js:19-25 | `filter` returns the order-preserving sublist holding exactly the elements satisfying the predicate, one per occurrence |
| Common.FilterFilter | src/pages/cr/CRTransactions.jsx:97-106 | two chained filters keep exactly what one filter on the conjunction keeps |
| Common.MapWhereAt | src/pages/nsft/FundRequests.jsx:111-121 | the "replace the records whose id matches" `map` keeps the length and rewrites exactly the matching positions |
| Common.ContainsSpec | src/pages/nsft/FundRequests.jsx:151-156 | `includes` holds iff the needle occurs at some position of the haystack |
| Common.ContainsEmpty | src/pages/nsft/FundRequests.jsx:151-156 | every string includes the empty search term |
| Common.ContainsIgnoringCaseLowered | src/pages/nsft/FundRequests.jsx:151-156 | lowercasing the search term, or the searched text, beforehand changes no case-insensitive match |
| Common.LowerIdempotent | src/components/ProtectedRoute.tsx:22-23 | lowercasing twice is lowercasing once |
| Common.CountComplement | src/pages/cr/CRTransactions.jsx:89-95 | the elements satisfying a predicate and those satisfying its complement together number the whole list |
| Common.InsertDescFilterKey | src/pages/student/Transactions.jsx:95-97 | inserting an element puts it in front of every element sharing its key and moves no other |
| Common.SortDescStableAt | src/pages/student/Transactions.jsx:95-97 | the sort is stable: the elements of any one key come out in their input order |
| Common.SortDescSpec | src/pages/student/Transactions.jsx:95-97 | the sorted copy is ordered by key, largest first, is a permutation of the input, and keeps the input order among equal keys |
| Common.SortDescMapWhere | src/pages/student/Transactions.jsx:80-99 | rewriting records with a key-preserving map commutes with the stable sort |
| Paging.SliceBound | src/pages/cr/CRCashHandovers.jsx:110-112 | a `slice` bound is clamped into `[0, length]` and kept when already inside |
| Paging.PageOfSpec | src/pages/cr/CRCashHandovers.jsx:110-112 | page `p` holds at most `k` items, namely the items at `(p-1)*k + i` of the list |
| Paging.TotalPagesSpec | src/pages/cr/CRCashHandovers.jsx:114 | `ceil(n/k)` pages cover `n` items with no empty last page; zero pages iff no items |
| Paging.FirstPagesPrefix | src/pages/cr/CRCashHandovers.jsx:110-114 | the first `t` pages laid end to end are the list's prefix of `t*k` items |
| Paging.PagesCoverList | src/pages/cr/CRCashHandovers.jsx:110-114 | all `ceil(n/k)` pages together give back the whole list, in order |
| Paging.NextPrevStayInRange | src/pages/cr/CRCashHandovers.jsx:116-122 | from a page in `[1, totalPages]` the ternary next/prev steps stay in range and stop at the ends |
| Paging.ClampedMatchesTernary | src/pages/nsft/NSFTCashReceivalConfirmation.jsx:64-70 | inside the range, the `Math.min`/`Math.max` steps move like the ternary ones |
| Paging.ClampedBounds | src/pages/nsft/NSFTCashReceivalConfirmation.jsx:64-70 | `Math.min(p+1, total)` never passes the last page, and `Math.max(p-1, 1)` never goes below 1; with no pages, Next from page 1 goes to 0 |
| FundStore.FindIndex | src/lib/api-client.js:42 | `findIndex` is -1 iff no request has the id, otherwise the first position holding it |
| FundStore.Find | src/lib/api-client.js:15-17 | `find` returns nothing iff the id is absent, otherwise the first request holding it |
| FundStore.QueriesAreSublists | src/lib/api-client.js:19-25 | `getByStatus`, `getApprovedByNSFT` and `getStudentRequests` each return the order-preserving sublist of requests satisfying their predicate |
| FundStore.MaxId | src/lib/api-client.js:28 | `Math.max` over the ids bounds every id and is attained |
| FundStore.NextIdFresh | src/lib/api-client.js:28 | the generated id exceeds every id in the table, and is 1 for an empty table |
| FundStore.NewRequestSpec | src/lib/api-client.js:29-35 | the new request keeps the caller's student, amount, reason, bank and contact fields, has no decision recorded, and is 'pending', not NSFT-approved and dated today whatever the caller sent; its id is the caller's if given, else fresh |
| FundStore.UpdatedSpec | src/lib/api-client.js:41-48 | `update` keeps the length and changes only the first request holding the id, to the merge; an absent id leaves the table as is |
| FundStore.MergeIdempotent | src/lib/api-client.js:44 | merging a patch into a record it was already merged into changes nothing |
| FundStore.MergeKeepsUnpatched | src/lib/api-client.js:44 | the spread merge gives every field the patch carries the patch's value and keeps every other field, the submitted ones included |
| FundStore.StatusPatchSpec | src/lib/api-client.js:74-80 | an NSFT decision sets the status and comments, sets `approvedByNSFT` iff the status is 'approved', and changes nothing else |
| FundStore.GrantPatchSpec | src/lib/api-client.js:93-100 | a grant sets 'granted', the amount, the transfer details and today's date, and changes nothing else (neither checking nor changing `approvedByNSFT`) |
| FundStore.RejectPatchSpec | src/lib/api-client.js:113-120 | an accountant rejection sets 'rejected', the reason, today's date and `rejectedBy` 'accountant', and changes nothing else |
| FundStore.DecidedRequestsStayQueued | src/lib/api-client.js:93-120 | an update that does not touch `approvedByNSFT` keeps the approved queue's length and the other approved requests in it |
| FundStore.RequestsStore.constructor | src/lib/api-client.js:3-12 | the table starts as the seed list of requests |
| FundStore.RequestsStore.Add | src/lib/api-client.js:27-39 | appends exactly the new request at the end and returns it; pending, not approved, with a fresh id unless the caller gave one |
| FundStore.RequestsStore.Update | src/lib/api-client.js:41-48 | rewrites the first request holding the id to the merge and returns it; returns null and leaves the table unchanged when the id is absent |
| FundStore.SubmitFundRequest | src/lib/api-client.js:54-58 | adds the request and always reports success with the new request |
| FundStore.UpdateFundRequestStatus | src/lib/api-client.js:74-86 | applies the status patch; success iff the id exists, and on success the reply is "Fund request <status> successfully" with the whole merged record, else "Request not found" |
| FundStore.GrantFundRequest | src/lib/api-client.js:93-110 | applies the grant patch; succeeds for any existing id, NSFT-approved or not |
| FundStore.RejectFundRequest | src/lib/api-client.js:113-130 | applies the rejection patch; success iff the id exists |
| Auth.NormalizeSpec | src/context/AuthContext.tsx:24 | a list claim is kept as is; a single role becomes a one-element list |
| Auth.SomeInSpec | src/context/AuthContext.tsx:46 | `some(... includes ...)` holds iff some held role is in the allow-list |
| Auth.AllowListByRank | src/context/AuthContext.tsx:34-44 | the access map knows exactly the four roles, and admits a role iff it ranks at least as high as the target (NSFT > BP > CR > Student) |
| Auth.CanAccessByRank | src/context/AuthContext.tsx:31-47 | `canAccess(t)` iff roles are known, `t` is a known role, and some held role ranks at least as high as `t` |
| Auth.CanAccessCallSpec | src/context/AuthContext.tsx:31-47 | the call throws exactly when roles are present and the target is a name inherited from `Object.prototype`; otherwise it returns `CanAccess` |
| Auth.CanAccessRejects | src/context/AuthContext.tsx:31-47 | null or empty roles return false; an unknown target returns false, unless it is an inherited name, which throws once roles are present; true is returned only for the four roles |
| Auth.CanAccessMonotone | src/context/AuthContext.tsx:46 | holding more roles never takes access away |
| Auth.CanAccessNeedsExactRole | src/context/AuthContext.tsx:34-46 | roles none of which is spelt exactly as one of the four open no target |
| Auth.CanAccessIsExactCase | src/context/AuthContext.tsx:34-39 | lowercase role names open no target |
| Auth.StoredSessionSpec | src/utils/auth.ts:64-76 | stored user info and roles are known exactly when a token is stored and decodes, and come from its payload |
| Auth.AuthSession.constructor | src/context/AuthContext.tsx:17-28 | initially authenticated iff a token is stored, with the roles decoded from it, null when decoding fails |
| Auth.AuthSession.Restore | src/context/AuthContext.tsx:66-79 | with a stored token, reloads user info and roles and marks the session authenticated even when decoding fails; without one, changes nothing |
| Auth.AuthSession.Login | src/context/AuthContext.tsx:49-56 | stores the tokens and user info; on a decodable token sets the normalised roles and the authenticated flag, otherwise throws with roles and flag unchanged |
| Auth.AuthSession.Logout | src/context/AuthContext.tsx:58-64 | clears tokens, flag, user info and roles, and navigates to /login |
| Routing.LowerAll | src/components/ProtectedRoute.tsx:22 | lowercasing the role list keeps its length and lowercases each role in place |
| Routing.TopRank | src/components/ProtectedRoute.tsx:30-40 | the highest landing rank among the roles is an upper bound attained by some role, or 0 |
| Routing.DashboardIsHighestRole | src/components/ProtectedRoute.tsx:30-40 | the ladder picks the dashboard of the highest-ranked recognised role (nsft > bp > cr > student/personal), '/' when none |
| Routing.DashboardIgnoresOrder | src/components/ProtectedRoute.tsx:22-40 | the target depends only on the set of lowercased roles, not their order |
| Routing.GuardSpec | src/components/ProtectedRoute.tsx:17-43 | signed-out users go to /login; signed-in users see the page iff some role equals the route's role up to case; null roles redirect to '/' |
| Routing.GuardIsNotHierarchical | src/components/ProtectedRoute.tsx:26 | an NSFT-only user is redirected away from a CR route although `canAccess('CR')` holds |
| Routing.LoginMatchesGuard | src/pages/Login.tsx:40-53 | the login form's own ladder lands exactly where the route guard redirects a signed-in user with the same roles |
| Routing.StudentAndPersonalLandTogether | src/pages/Login.tsx:49-50 | 'Student' and 'personal' both land on /student/dashboard |
| Routing.HigherRoleWins | src/pages/Login.tsx:43-52 | with Student and NSFT the NSFT dashboard wins; an empty claim lands on '/' |
| Routing.HandleSubmit | src/pages/Login.tsx:30-53 | a refused reply fails with its detail or 'Login failed' and leaves the session untouched; an undecodable token fails likewise; otherwise the session holds both tokens, is authenticated with the normalised roles and the decoded user info, and the user lands on `LoginTarget` |
| Selection.IdsBound | src/pages/cr/CRCashHandovers.jsx:52 | a list has no more distinct ids than records |
| Selection.SumSelectedIsSumOfSelected | src/pages/cr/CRCashHandovers.jsx:40-48 | the running total is the sum of the amounts of the selected listed records |
| Selection.SumSelectedAgrees | src/pages/cr/CRCashHandovers.jsx:43 | two selections that agree on the listed ids give the same total |
| Selection.SumSelectedBounds | src/pages/bp/BPCashHandovers.jsx:115-124 | selected ids not in the list add nothing; nothing selected gives 0; everything selected gives the whole sum |
| Selection.NothingSelectedTotal | src/pages/cr/CRCashHandovers.jsx:100-102 | with the selection empty the total is 0 |
| Selection.ComputeTotal | src/pages/cr/CRCashHandovers.jsx:40-48 | the `forEach` loop returns the sum of the amounts of the selected listed records |
| Selection.ToggledSpec | src/pages/cr/CRCashHandovers.jsx:59-66 | a click flips the clicked id and no other; two clicks restore the selection |
| Selection.DeselectUnderSelectAll | src/pages/cr/CRCashHandovers.jsx:50-67 | unticking one record while all are ticked turns select-all off, and the effect then empties the whole selection |
| Selection.DistinctIdsCount | src/pages/cr/CRCashHandovers.jsx:52-67 | with distinct ids there are as many ids as records |
| Selection.AllSelectedFlagMeansAll | src/pages/cr/CRCashHandovers.jsx:67 | with distinct ids, the size test that sets select-all holds iff every listed record is ticked and the list is non-empty |
| BPHandovers.EligibleListSpec | src/pages/bp/BPCashHandovers.jsx:69 | the shown list is the order-preserving sublist of batches verified by this BP and not yet forwarded, one per such batch |
| BPHandovers.RecipientsSpec | src/pages/bp/BPCashHandovers.jsx:103-105 | recipients are exactly the representatives whose groups contain 'NSFT', case-sensitively |
| BPHandovers.OriginalIdsSpec | src/pages/bp/BPCashHandovers.jsx:190 | the inner `map` lists each original transaction's id in place |
| BPHandovers.LinkedIdsSpec | src/pages/bp/BPCashHandovers.jsx:194 | `previous_transactions_ids` lists each batch's id in place |
| BPHandovers.FlatOriginalIdsSpec | src/pages/bp/BPCashHandovers.jsx:189-191 | the `flatMap` holds exactly the original ids of the batches, one per original transaction |
| BPHandovers.ForwardPayloadSpec | src/pages/bp/BPCashHandovers.jsx:184-201 | the payload carries the ticked listed batches' ids in list order, their original ids flattened in the same order, the recipient and the total |
| BPHandovers.PayloadAmountIsSum | src/pages/bp/BPCashHandovers.jsx:200 | with the total effect settled, `forwarded_amount` is the sum of the ticked batches' forwarded amounts |
| BPHandovers.BPCashHandoversPage.constructor | src/pages/bp/BPCashHandovers.jsx:25-36 | the page starts empty with nothing ticked, total 0 and page 1 |
| BPHandovers.BPCashHandoversPage.SettleEffects | src/pages/bp/BPCashHandovers.jsx:115-133 | the select-all effect, when triggered, ticks all or nothing; then the total is recomputed; nothing else changes |
| BPHandovers.BPCashHandoversPage.FetchTransactions | src/pages/bp/BPCashHandovers.jsx:43-78 | no token or an error reply sets the error; data replaces the list by its eligible sublist and reruns both effects |
| BPHandovers.BPCashHandoversPage.FetchRecipients | src/pages/bp/BPCashHandovers.jsx:80-113 | no token or an error reply sets the recipients error; data sets the NSFT recipients |
| BPHandovers.BPCashHandoversPage.HandleTransactionSelect | src/pages/bp/BPCashHandovers.jsx:135-144 | flips the id, sets select-all from the size test, runs the select-all effect if the flag changed, and keeps the total settled |
| BPHandovers.BPCashHandoversPage.HandleSelectAll | src/pages/bp/BPCashHandovers.jsx:146-148 | sets the flag; a change ticks all or nothing; the total stays settled |
| BPHandovers.BPCashHandoversPage.OpenHandoverModal | src/pages/bp/BPCashHandovers.jsx:150-156 | the modal opens only with something ticked |
| BPHandovers.BPCashHandoversPage.CloseHandoverModal | src/pages/bp/BPCashHandovers.jsx:158-161 | closes the modal and forgets the recipient |
| BPHandovers.BPCashHandoversPage.HandleRecipientChange | src/pages/bp/BPCashHandovers.jsx:163-165 | records the chosen recipient |
| BPHandovers.BPCashHandoversPage.HandleHandover | src/pages/bp/BPCashHandovers.jsx:167-236 | no recipient: nothing sent or changed; no token: only the error; otherwise the payload is sent, and on success selection, flag, total, modal and recipient are reset, on failure only the error is set |
| BPHandovers.BPCashHandoversPage.HandleNextPage | src/pages/bp/BPCashHandovers.jsx:244-246 | moves to the next page unless on the last |
| BPHandovers.BPCashHandoversPage.HandlePrevPage | src/pages/bp/BPCashHandovers.jsx:248-250 | moves to the previous page unless on the first |
| CRHandovers.HandedOverSpec | src/pages/cr/CRCashHandovers.jsx:93-98 | a handover marks exactly the ticked transactions 'processing', keeping ids, amounts, length and order |
| CRHandovers.CRCashHandoversPage.constructor | src/pages/cr/CRCashHandovers.jsx:22-38 | the page starts on its seed list with nothing ticked, total 0, no recipient and page 1 |
| CRHandovers.CRCashHandoversPage.SettleEffects | src/pages/cr/CRCashHandovers.jsx:40-57 | the select-all effect, when triggered, ticks all or nothing; then the total is recomputed |
| CRHandovers.CRCashHandoversPage.HandleTransactionSelect | src/pages/cr/CRCashHandovers.jsx:59-68 | flips the id, sets select-all from the size test, runs the select-all effect if the flag changed, keeps the total settled |
| CRHandovers.CRCashHandoversPage.HandleSelectAll | src/pages/cr/CRCashHandovers.jsx:70-72 | sets the flag; a change ticks all or nothing; the total stays settled |
| CRHandovers.CRCashHandoversPage.OpenHandoverModal | src/pages/cr/CRCashHandovers.jsx:74-80 | the modal opens only with something ticked |
| CRHandovers.CRCashHandoversPage.CloseHandoverModal | src/pages/cr/CRCashHandovers.jsx:82-85 | closes the modal and resets the recipient to '' |
| CRHandovers.CRCashHandoversPage.HandleRecipientChange | src/pages/cr/CRCashHandovers.jsx:87-89 | records the chosen recipient |
| CRHandovers.CRCashHandoversPage.HandleHandover | src/pages/cr/CRCashHandovers.jsx:91-108 | with a recipient, marks the ticked transactions 'processing' and clears selection, flag, total, modal and recipient; without one, changes nothing |
| CRHandovers.CRCashHandoversPage.HandleNextPage | src/pages/cr/CRCashHandovers.jsx:116-118 | moves to the next page unless on the last |
| CRHandovers.CRCashHandoversPage.HandlePrevPage | src/pages/cr/CRCashHandovers.jsx:120-122 | moves to the previous page unless on the first |
| NsftFundRequests.FilteredRequestsSpec | src/pages/nsft/FundRequests.jsx:150-170 | the list shown is the order-preserving sublist matching the search, and on a status tab also that status; any other tab applies the search alone; one entry per such request |
| NsftFundRequests.EmptySearchMatchesAll | src/pages/nsft/FundRequests.jsx:151-156 | an empty search term matches every request |
| NsftFundRequests.DecidedSpec | src/pages/nsft/FundRequests.jsx:109-123 | a decision rewrites exactly the requests with that id (status, comments, `approvedByNSFT` iff approved) and keeps the rest and the length |
| NsftFundRequests.DecisionClosesActions | src/pages/nsft/FundRequests.jsx:251 | a decided pending request stops offering Approve/Reject unless the action was 'pending' |
| NsftFundRequests.FundRequestsPage.constructor | src/pages/nsft/FundRequests.jsx:59-67 | the page starts empty on the 'all' tab with no dialog open |
| NsftFundRequests.FundRequestsPage.Load | src/pages/nsft/FundRequests.jsx:70-89 | the mount effect loads every request from the service |
| NsftFundRequests.FundRequestsPage.HandleView | src/pages/nsft/FundRequests.jsx:91-94 | selects the request and opens the view dialog |
| NsftFundRequests.FundRequestsPage.HandleAction | src/pages/nsft/FundRequests.jsx:96-100 | selects the request, records the action and opens the action dialog |
| NsftFundRequests.FundRequestsPage.SetComments | src/pages/nsft/FundRequests.jsx:64 | records the comment text |
| NsftFundRequests.FundRequestsPage.SetViewDialogOpen | src/pages/nsft/FundRequests.jsx:285 | the view dialog's open-change handler opens or closes it and changes nothing else |
| NsftFundRequests.FundRequestsPage.SetActionDialogOpen | src/pages/nsft/FundRequests.jsx:62 | opens or closes the action dialog |
| NsftFundRequests.FundRequestsPage.SetSearchTerm | src/pages/nsft/FundRequests.jsx:65 | records the search term |
| NsftFundRequests.FundRequestsPage.SetActiveTab | src/pages/nsft/FundRequests.jsx:67 | records the tab |
| NsftFundRequests.FundRequestsPage.HandleActionSubmit | src/pages/nsft/FundRequests.jsx:100-149 | with no request selected nothing changes; otherwise the service records the decision, and only on success does the page apply it, clear the comments and close the dialog |
| AccountantTab.WithoutSpec | src/pages/accountant/components/FundRequestsTab.jsx:40 | removing an id drops every occurrence of it, keeps the other in-flight ids in order, and shrinks the list by its number of occurrences |
| AccountantTab.StartThenFinish | src/pages/accountant/components/FundRequestsTab.jsx:33-42 | appending an id and then filtering it out gives the list without it, which is the original list if the id was absent |
| AccountantTab.FundRequestsTab.constructor | src/pages/accountant/components/FundRequestsTab.jsx:12-14 | the tab starts with no requests and nothing in flight |
| AccountantTab.FundRequestsTab.FetchPendingRequests | src/pages/accountant/components/FundRequestsTab.jsx:16-26 | the tab lists the store's NSFT-approved requests |
| AccountantTab.FundRequestsTab.StartAction | src/pages/accountant/components/FundRequestsTab.jsx:34 | appends the id to the in-flight list, which disables its buttons |
| AccountantTab.FundRequestsTab.FinishAction | src/pages/accountant/components/FundRequestsTab.jsx:35-41 | refreshes the list only if the handler returned; in either case every occurrence of the id leaves the in-flight list |
| AccountantTab.FundRequestsTab.RunWrapped | src/pages/accountant/components/FundRequestsTab.jsx:33-53 | a wrapped grant or reject ends with the in-flight list as it began minus the id, and the list refreshed iff the handler returned |
| VerifyOnline.FilteredAndSortedSpec | src/pages/cr/VerifyOnlineTransaction.jsx:105-119 | the shown list holds exactly the transactions matching the name/cms search and the lowercased status filter; each as often as in the full list; sorted by date it runs newest first and keeps list order among equal dates, otherwise it keeps list order |
| VerifyOnline.VerifiedSpec | src/pages/cr/VerifyOnlineTransaction.jsx:89-91 | verifying sets 'Verified' and the entered amount on the transactions with that id and keeps the rest and the length |
| VerifyOnline.VerifyUneditedKeepsAmount | src/pages/cr/VerifyOnlineTransaction.jsx:59-91 | verifying with the amount field as opened keeps the transaction's amount |
| VerifyOnline.VerifyOnlineTransactionPage.constructor | src/pages/cr/VerifyOnlineTransaction.jsx:22-42 | the page starts on its seed list, sorted by date, filter 'all', page 1, modal closed |
| VerifyOnline.VerifyOnlineTransactionPage.HandleSearchChange | src/pages/cr/VerifyOnlineTransaction.jsx:44-47 | sets the search term and goes back to page 1 |
| VerifyOnline.VerifyOnlineTransactionPage.HandleSortByChange | src/pages/cr/VerifyOnlineTransaction.jsx:49-52 | sets the sort and goes back to page 1 |
| VerifyOnline.VerifyOnlineTransactionPage.HandleFilterChange | src/pages/cr/VerifyOnlineTransaction.jsx:54-57 | sets the status filter and goes back to page 1 |
| VerifyOnline.VerifyOnlineTransactionPage.OpenViewModal | src/pages/cr/VerifyOnlineTransaction.jsx:59-65 | views the transaction, starts the amount field at its amount and clears the wrong-account flag and details |
| VerifyOnline.VerifyOnlineTransactionPage.CloseViewModal | src/pages/cr/VerifyOnlineTransaction.jsx:67-73 | closes the modal and clears the viewed transaction, amount field, flag and details |
| VerifyOnline.VerifyOnlineTransactionPage.HandleEditAmountChange | src/pages/cr/VerifyOnlineTransaction.jsx:75-77 | records the amount field |
| VerifyOnline.VerifyOnlineTransactionPage.HandleWrongAccountChange | src/pages/cr/VerifyOnlineTransaction.jsx:79-81 | records the wrong-account flag |
| VerifyOnline.VerifyOnlineTransactionPage.HandleWrongAccountDetailsChange | src/pages/cr/VerifyOnlineTransaction.jsx:83-85 | records the wrong-account details |
| VerifyOnline.VerifyOnlineTransactionPage.HandleVerifyTransaction | src/pages/cr/VerifyOnlineTransaction.jsx:87-95 | only for a viewed 'Pending' transaction not flagged wrong-account: marks it verified with the entered amount and closes; otherwise nothing changes |
| VerifyOnline.VerifyOnlineTransactionPage.HandleDiscardTransaction | src/pages/cr/VerifyOnlineTransaction.jsx:97-103 | never changes the list; closes the modal only for a viewed 'Pending' transaction flagged wrong-account |
| VerifyOnline.VerifyOnlineTransactionPage.HandleNextPage | src/pages/cr/VerifyOnlineTransaction.jsx:127-129 | moves to the next page of the shown list unless on the last |
| VerifyOnline.VerifyOnlineTransactionPage.HandlePrevPage | src/pages/cr/VerifyOnlineTransaction.jsx:131-133 | moves to the previous page unless on the first |
| CRTransactions.FilteredTransactionsSpec | src/pages/cr/CRTransactions.jsx:97-106 | the shown list is the order-preserving sublist matching the name/cms search and, unless 'all', the exact status, one entry per such transaction |
| CRTransactions.NoFilterShowsAll | src/pages/cr/CRTransactions.jsx:97-106 | with the initial empty search and 'all', every transaction is shown |
| CRTransactions.AmountEditedSpec | src/pages/cr/CRTransactions.jsx:69-77 | saving changes only the amount, and only of the transactions with the edited id; their Edit/Delete availability is unchanged |
| CRTransactions.DeletedSpec | src/pages/cr/CRTransactions.jsx:89-95 | deleting removes exactly the transactions with that id, keeps the rest in order, and shrinks the list by their number |
| CRTransactions.CRTransactionsPage.constructor | src/pages/cr/CRTransactions.jsx:21-40 | the page starts on its seed list, filter 'all', page 1, no modal |
| CRTransactions.CRTransactionsPage.HandleSearchChange | src/pages/cr/CRTransactions.jsx:42-45 | sets the search term and goes back to page 1 |
| CRTransactions.CRTransactionsPage.HandleStatusFilterChange | src/pages/cr/CRTransactions.jsx:48-51 | sets the status filter and goes back to page 1 |
| CRTransactions.CRTransactionsPage.OpenEditModal | src/pages/cr/CRTransactions.jsx:53-57 | edits the transaction with the amount field at its amount |
| CRTransactions.CRTransactionsPage.CloseEditModal | src/pages/cr/CRTransactions.jsx:59-63 | closes the modal and clears the edited transaction and the amount field |
| CRTransactions.CRTransactionsPage.HandleEditedAmountChange | src/pages/cr/CRTransactions.jsx:65-67 | records the amount field |
| CRTransactions.CRTransactionsPage.SaveEditedAmount | src/pages/cr/CRTransactions.jsx:69-77 | with a transaction being edited, stores the entered amount on it and closes; otherwise nothing changes |
| CRTransactions.CRTransactionsPage.OpenDeleteConfirmation | src/pages/cr/CRTransactions.jsx:79-82 | chooses the transaction and opens the confirmation |
| CRTransactions.CRTransactionsPage.CloseDeleteConfirmation | src/pages/cr/CRTransactions.jsx:84-87 | closes the confirmation and forgets the transaction |
| CRTransactions.CRTransactionsPage.HandleDeleteTransaction | src/pages/cr/CRTransactions.jsx:89-95 | with a transaction chosen, removes it and closes; otherwise nothing changes |
| CRTransactions.CRTransactionsPage.HandleNextPage | src/pages/cr/CRTransactions.jsx:114-116 | moves to the next page of the shown list unless on the last |
| CRTransactions.CRTransactionsPage.HandlePrevPage | src/pages/cr/CRTransactions.jsx:118-120 | moves to the previous page unless on the first |
| StudentTransactions.SortedByMonthSpec | src/pages/student/Transactions.jsx:95-100 | each tab shows a permutation of its list, newest month first, with payments of one month in list order |
| StudentTransactions.AmountEditedSpec | src/pages/student/Transactions.jsx:80-84 | saving changes only the amount of the online payments with the edited id, so every payment keeps offering Edit and Delete exactly when it did before |
| StudentTransactions.EditKeepsPosition | src/pages/student/Transactions.jsx:80-99 | an edit keeps the month, so the edited payment keeps its place in the sorted tab |
| StudentTransactions.DeletedSpec | src/pages/student/Transactions.jsx:90-93 | deleting removes exactly the online payments with that id, keeps the rest in order, and shrinks the list by their number |
| StudentTransactions.TransactionsPage.constructor | src/pages/student/Transactions.jsx:22-53 | the page starts on the online tab, both pages at 1, no modal |
| StudentTransactions.TransactionsPage.HandleTabChange | src/pages/student/Transactions.jsx:55-62 | switches tab and resets that tab's page only (any tab but 'online' resets the cash page) |
| StudentTransactions.TransactionsPage.OpenEditModal | src/pages/student/Transactions.jsx:64-68 | edits the payment with the amount field at its amount |
| StudentTransactions.TransactionsPage.CloseEditModal | src/pages/student/Transactions.jsx:70-74 | closes the modal and clears the edited payment and amount field |
| StudentTransactions.TransactionsPage.HandleEditAmountChange | src/pages/student/Transactions.jsx:76-78 | records the amount field |
| StudentTransactions.TransactionsPage.SaveEditedTransaction | src/pages/student/Transactions.jsx:80-88 | with a payment being edited, stores the entered amount on it and closes; the cash list is never touched |
| StudentTransactions.TransactionsPage.DeleteTransaction | src/pages/student/Transactions.jsx:90-93 | removes the id from the online list only |
| StudentTransactions.TransactionsPage.HandleNextPageOnline | src/pages/student/Transactions.jsx:113-115 | moves the online tab to its next page unless on the last |
| StudentTransactions.TransactionsPage.HandlePrevPageOnline | src/pages/student/Transactions.jsx:117-119 | moves the online tab to its previous page unless on the first |
| StudentTransactions.TransactionsPage.HandleNextPageCash | src/pages/student/Transactions.jsx:121-123 | moves the cash tab to its next page unless on the last |
| StudentTransactions.TransactionsPage.HandlePrevPageCash | src/pages/student/Transactions.jsx:125-127 | moves the cash tab to its previous page unless on the first |
| AddDonation.FilteredStudentsSpec | src/pages/cr/AddDonation.jsx:87-96 | the shown list is the order-preserving sublist matching the name/cms search and, unless 'all', the lowercased status, one entry per such student |
| AddDonation.PaidButtonsMatchStatuses | src/pages/cr/AddDonation.jsx:94-95 | the 'paid' and 'unpaid' filters pick out exactly the 'Paid' and 'Unpaid' students |
| AddDonation.DonatedSpec | src/pages/cr/AddDonation.jsx:71-80 | a donation adds the parsed amount (0 when unparseable) to the chosen student's total and sets 'Paid' iff the new total is positive; others unchanged; statuses that agreed with totals still do |
| AddDonation.EmptyDonationChangesNothing | src/pages/cr/AddDonation.jsx:73-75 | on a consistent list, an unparseable or zero donation changes nothing |
| AddDonation.AddDonationPage.constructor | src/pages/cr/AddDonation.jsx:21-48 | the page starts on its seed list, filter 'all', page 1, no modal |
| AddDonation.AddDonationPage.HandleSearchChange | src/pages/cr/AddDonation.jsx:50-53 | sets the search term and goes back to page 1 |
| AddDonation.AddDonationPage.OpenDonateModal | src/pages/cr/AddDonation.jsx:55-59 | chooses the student and clears the amount field |
| AddDonation.AddDonationPage.CloseDonateModal | src/pages/cr/AddDonation.jsx:61-65 | closes the modal and clears the student and the amount field |
| AddDonation.AddDonationPage.HandleDonationAmountChange | src/pages/cr/AddDonation.jsx:67-69 | records the amount field |
| AddDonation.AddDonationPage.HandleDonate | src/pages/cr/AddDonation.jsx:71-80 | with a student chosen, applies the donation and closes; otherwise nothing changes; a consistent list stays consistent |
| AddDonation.AddDonationPage.HandleFilterChange | src/pages/cr/AddDonation.jsx:82-85 | sets the status filter and goes back to page 1 |
| AddDonation.AddDonationPage.HandleNextPage | src/pages/cr/AddDonation.jsx:104-106 | moves to the next page of the shown list unless on the last |
| AddDonation.AddDonationPage.HandlePrevPage | src/pages/cr/AddDonation.jsx:108-110 | moves to the previous page unless on the first |
| NsftReceival.ConfirmedSpec | src/pages/nsft/NSFTCashReceivalConfirmation.jsx:55-57 | confirming marks exactly the handovers with that id 'received' and changes nothing else |
| NsftReceival.ConfirmIdempotent | src/pages/nsft/NSFTCashReceivalConfirmation.jsx:52-62 | Verify stays offered on every row, and confirming twice is the same as once |
| NsftReceival.CashReceivalConfirmationPage.constructor | src/pages/nsft/NSFTCashReceivalConfirmation.jsx:21-35 | the page starts on its seed list, page 1, no modal |
| NsftReceival.CashReceivalConfirmationPage.HandleVerifyClick | src/pages/nsft/NSFTCashReceivalConfirmation.jsx:42-45 | chooses the handover and opens the modal |
| NsftReceival.CashReceivalConfirmationPage.CloseConfirmationModal | src/pages/nsft/NSFTCashReceivalConfirmation.jsx:47-50 | closes the modal and forgets the handover |
| NsftReceival.CashReceivalConfirmationPage.HandleConfirmVerification | src/pages/nsft/NSFTCashReceivalConfirmation.jsx:52-62 | with a handover chosen, marks it received and closes; otherwise nothing changes; the page count is unchanged |
| NsftReceival.CashReceivalConfirmationPage.HandlePrevPage | src/pages/nsft/NSFTCashReceivalConfirmation.jsx:64-66 | moves to `Math.max(p-1, 1)` |
| NsftReceival.CashReceivalConfirmationPage.HandleNextPage | src/pages/nsft/NSFTCashReceivalConfirmation.jsx:68-70 | moves to `Math.min(p+1, totalPages)` |

## Left out

- Network I/O is not modelled.
  - `fetch` calls and HTTP status handling become inputs: a `Fetch` outcome (no token, error message, or data) and a forward `Reply` (accepted or refused with a message).
  - The login reply's `ok`, `detail` and tokens also become inputs.
  - Loading flags are left out.
- `localStorage` and `jwtDecode` are inputs.
  - The stored access token is an `Option<string>`.
  - Decoding yields a `Decoded` value, a payload or an error.
  - `isTokenValid` depends on the clock and is not part of this model.
- The page lists are separate values in the model.
  - The NSFT page receives the store's own array from `getAll`; the accountant page gets a fresh filtered array and shares nothing with the store, since `update` replaces records rather than mutating them. The model gives the NSFT page its own copy of the list, so the aliasing between that list and the store's `requests` is not captured. It would change nothing in `HandleActionSubmit`: the store has already merged the first match, and merging the same status patch again gives the same record.
- The NSFT page's fallback to mock data after a failed load is not modelled. The in-memory service it calls never rejects, so that branch cannot be reached.
- React scheduling is simplified.
  - Batched state updates and effect timing become explicit effect methods, run after the state change that triggers them.
  - Async interleaving is not modelled. For the accountant tab's wrappers, the effect of other actions running between `StartAction` and `FinishAction` is left out.
- Parsing and floating point are simplified.
  - `parseFloat` results are integers or `NaN`, and `toString` of an amount is the amount itself.
  - Fractional amounts and the exact text a user typed are not modelled.
  - Dates are strings, or integer timestamps where a list is sorted by date. `new Date().toISOString()` is a `today` parameter.
- Lowercasing covers ASCII letters only. Unicode case mapping and `toLocaleLowerCase` locale rules are not modelled.
- Presentation is left out.
  - Rendering, toasts, `alert`, `console` logging and the confirmation alert text are not modelled.
  - Display-only fields are not modelled either: status badges, dates formatted by date-fns, and the undefined `crName` in the receival alert.
- `Auth.AuthSession.Restore` follows the code, not the documentation. A stored token that fails to decode still leaves `isAuthenticated` true, with roles null.
- `BPHandovers.BPCashHandoversPage.HandleRecipientChange` takes the recipient's id already parsed. The select's string value and `parseInt` are not modelled; the empty selection is `None`.
- `BPHandovers.BPCashHandoversPage.HandleHandover` follows a successful forward with the list refresh. That refresh is left to a separate `FetchTransactions` call with its own reply.
- `Auth.Normalize` assumes every decoded payload carries a `user_type` claim that is a string or a list of strings. A payload without one would give `[undefined]`, which makes the guard and the login form throw on `toLowerCase`; that case is not modelled.
- `Auth.CanAccessCall` takes the inherited keys to be the standard names of `Object.prototype`. Properties that other code might add to the prototype at run time are not modelled.
- `FundStore.GrantFundRequest` follows the code: it does not require the request to be approved by NSFT.
