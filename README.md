# A verified model of the ePP e-procurement core

ePP is an e-procurement portal. A Django back end and a React front end cover the whole life of a tender:

- a procuring entity drafts, publishes and closes a tender;
- suppliers register and are verified;
- suppliers prepare, submit, unsubmit and withdraw bids;
- an evaluation committee scores the bids and ranks them, and a recommendation is recorded;
- procurement budget lines are planned and allocated to tenders.

This project is a Dafny model of the business rules in that code, with proofs of what the rules guarantee. Each core source file is one module, in a file named after it: `bids_serializer.dfy` for `backend/bids/serializer.py`, `evaluation.dfy` for `frontend/src/components/Evaluation.jsx`, and so on. `common.dfy` holds the shared vocabulary: optional values and results, ASCII string helpers, sums, rounding and a stable sort.

Each file keeps the form of its source:

- Expression code (properties, validators, display helpers, filters) becomes functions and lemmas.
- Handlers and loops that update things step by step become methods with loop invariants. Each method is proved against a specification function.
- Records the code changes in place become classes with `modifies` frames. Examples are the evaluation committee, the budget milestones, the user, profile and edit-request rows, the HTTP client's cookie cache, and the sign-in and settings forms.

Conventions:

- Python `Decimal` and JavaScript numbers are `real`.
- `round(x, n)` and `Math.round` are `Floor(x * 10^n + 1/2) / 10^n`.
- Instants are whole seconds on the back end and milliseconds on the front end.
- The current time is always a parameter.
- Querysets are sequences or maps. Database uniqueness is a precondition or a class invariant.
- Library calls are parameters: `authenticate`, the phone-number library's verdict, `parseFloat`, `Number`, `new Date`, `decodeURIComponent` and the HTTP answers.

## Model

| member | source | states |
|---|---|---|
| SideBar.RouteFor | frontend/src/components/base/SideBar.jsx:10-27 | each of the six administrator ids leads to `/` + id; every other id, the bidder tabs included, leads to `/dashboard` |
| SideBar.RouteForInjective | frontend/src/components/base/SideBar.jsx:10-27 | two administrator ids with the same route are the same id |
| SideBar.HandleClickAsWritten | frontend/src/components/base/SideBar.jsx:7-34 | as written: `onSelect` is told first exactly when it is present, and the last effect is navigation to the built-in `routeFor(id)`, whatever table the parent passes |
| SideBar.RouteWith | frontend/src/components/base/SideBar.jsx:7-27 | the corrected route: the parent's table when given, the built-in one otherwise |
| SideBar.HandleClick | frontend/src/components/base/SideBar.jsx:29-34 | the corrected click: `onSelect` first exactly when present, then navigation to `RouteWith(id, given)` |
| SideBar.HandleClickWithoutTable | frontend/src/components/base/SideBar.jsx:29-34 | without a table from the parent, the corrected click and the written one produce the same effects |
| SideBar.AtMostOneActive | frontend/src/components/base/SideBar.jsx:43-44 | with distinct ids, `IsActive` (`activeTab === id`) highlights at most one item |
| AppLayout.BidderAreaIsPrefix | frontend/src/components/base/AppLayout.jsx:11 | `isBidder` holds for every address below a bidder address, and not for the administrator's `/dashboard` |
| AppLayout.NavigationIds | frontend/src/components/base/AppLayout.jsx:29-42 | three bidder items in bidder mode, the six administrator items otherwise, all distinct |
| AppLayout.ActiveTab | frontend/src/components/base/AppLayout.jsx:11-27 | in the bidder area the tab follows the address (`/bidder/opportunities…`, `/bidder/bids…`, else the bidder dashboard); elsewhere it is the title, `dashboard` when empty |
| AppLayout.BidderRouteFor | frontend/src/components/base/AppLayout.jsx:53-64 | the bidder tabs map to their own routes, anything else to `/bidder/dashboard`; every route is in the bidder area |
| AppLayout.BidderRouteRoundTrip | frontend/src/components/base/AppLayout.jsx:16-63 | deriving the tab from `bidderRouteFor(t)` gives back t for each of the three bidder tabs |
| AppLayout.BidderTabShown | frontend/src/components/base/AppLayout.jsx:14-34 | in bidder mode the active tab is always one of the items shown |
| AppLayout.BidderClickLeavesBidderArea | frontend/src/components/base/AppLayout.jsx:68-73 | as written, a bidder's click on `my-bids` navigates to `/dashboard`, outside the bidder area |
| AppLayout.BidderClickStaysOnTab | frontend/src/components/base/AppLayout.jsx:53-72 | with the table honoured, a click on any bidder tab lands in the bidder area on an address whose derived tab is the one clicked |
| Auth.CanAccessAdminDashboard | frontend/src/api/auth.jsx:262-265 | true exactly when role information is present and its admin flag is set; false without `role_info` |
| Auth.CanAccessBidderDashboard | frontend/src/api/auth.jsx:268-271 | true exactly when role information is present and its bidder flag is set; false without `role_info` |
| Auth.DashboardRoute | frontend/src/api/auth.jsx:274-277 | the route the server named; `/login` without role information or without a route; never empty |
| Auth.RouteAgreesWithServer | frontend/src/api/auth.jsx:274-277 | when `role_info` carries the route of `get_dashboard_route`, the client goes exactly there |
| Auth.LoginBody | frontend/src/api/auth.jsx:40-43 | the username sent is the trimmed one (and trimming it again changes nothing); the password is sent as given |
| Auth.LoginTry | frontend/src/api/auth.jsx:36-60 | the try block succeeds exactly on a 2xx answer whose account status is not suspended, inactive or pending verification; a client error is rethrown as is; every other failure is an error of the function's own |
| Auth.LoginCatchAsWritten | frontend/src/api/auth.jsx:61-85 | as written: 401, 403 (server error text or default), 429 and ≥ 500 get their messages; anything without a response, the function's own errors included, gets the network-error message |
| Auth.LoginAsWritten | frontend/src/api/auth.jsx:35-86 | as written, `login` succeeds exactly when the try block does, and fails with the as-written classification of what it threw |
| Auth.SuspendedReportedAsNetworkError | frontend/src/api/auth.jsx:45-77 | as written, a correct sign-in to a suspended, inactive or pending account reports a network error |
| Auth.LoginCatch | frontend/src/api/auth.jsx:79-82 | the corrected catch: the function's own message passes through, and client errors are classified as before |
| Auth.Login | frontend/src/api/auth.jsx:35-86 | the corrected `login`: success as before, failures through the corrected catch |
| Auth.LoginReportsAccountState | frontend/src/api/auth.jsx:48-77 | with the corrected catch each refused account gets its own message, a missing response still reads as a network error, and a 401 as invalid credentials |
| Auth.NormalizeEmail | frontend/src/api/auth.jsx:99 | `trim().toLowerCase()`: no longer than the input, no surrounding whitespace, no upper-case letter |
| Auth.NormalizeEmailIdempotent | frontend/src/api/auth.jsx:99 | normalising an address twice gives the same as once |
| Auth.NormalizeEmailIgnoresCase | frontend/src/api/auth.jsx:99 | addresses differing only in letter case normalise alike |
| Auth.TrimLower | frontend/src/api/auth.jsx:99 | trimming and lower-casing commute |
| Auth.RegisterBodyOf | frontend/src/api/auth.jsx:96-108 | the JSON body: email normalised, names, username, phone and company trimmed (snake-case company name preferred), passwords as given, user type forced to `supplier` |
| Auth.FieldLines | frontend/src/api/auth.jsx:120-136 | one line per field with errors, in the fixed order email, username, phone, password, general; the email line first and the general line last |
| Auth.RegisterFailure | frontend/src/api/auth.jsx:115-149 | a 400 with field errors gives the lines joined by newlines, or `Registration failed` when there are none; ≥ 500 the server error; no response the network error; otherwise the server's error text or the default |
| Auth.EmailErrorLine | frontend/src/api/auth.jsx:122-138 | a 400 with email errors only reports the single `Email: …` line |
| Auth.Register | frontend/src/api/auth.jsx:87-150 | succeeds exactly on a 2xx answer; a client error is reported through `RegisterFailure` |
| Auth.VerifyEmailBody | frontend/src/api/auth.jsx:156-159 | the normalised address and the trimmed code |
| Auth.RequestResetFailure | frontend/src/api/auth.jsx:238-247 | ≥ 500 the server error, no response the network error, every other failure one non-committal message |
| Auth.ResetDoesNotEnumerate | frontend/src/api/auth.jsx:245-246 | any two refusals below 500 produce the same message |
| AxiosInstance.FirstMatch | frontend/src/api/axiosInstance.jsx:35 | the index of the first `;`-segment that names the cookie, or none when no segment does |
| AxiosInstance.FindCookieFirst | frontend/src/api/axiosInstance.jsx:32-36 | the cookie is found exactly when some segment names it, and its value is the decoded capture of the first such segment |
| AxiosInstance.ParseCookie | frontend/src/api/axiosInstance.jsx:27-36 | an empty cookie string gives nothing; any other is searched segment by segment |
| AxiosInstance.ApiClient.constructor | frontend/src/api/axiosInstance.jsx:10-11 | empty cache, empty last cookie string, no token recorded, no header, no events; the cache invariant holds |
| AxiosInstance.ApiClient.GetCookie | frontend/src/api/axiosInstance.jsx:13-40 | the answer is always what a fresh parse of the current cookies gives, whether it came from the cache or not; a changed cookie string empties the cache first; every cached entry stays a fresh parse of the last cookie string |
| AxiosInstance.ApiClient.SetCsrfToken | frontend/src/api/axiosInstance.jsx:45-53 | answers true exactly when the cookie holds a non-empty token different from the last one set, which then becomes the header; otherwise header and recorded token are unchanged |
| AxiosInstance.ApiClient.OnRequest | frontend/src/api/axiosInstance.jsx:56-64 | after the request rule a non-empty `csrftoken` cookie is the header sent |
| AxiosInstance.ApiClient.OnResponseError | frontend/src/api/axiosInstance.jsx:67-104 | a request is retried exactly on a 403 mentioning CSRF, not yet retried, whose token fetch succeeded, and it is then marked retried with the header in step with the cookie; a 401 outside the login address (and not retried) clears the sign-in flag and dispatches `auth-logout`; nothing else touches them |
| AxiosInstance.RetryOnce | frontend/src/api/axiosInstance.jsx:73-77 | the second CSRF failure of the same request is passed on, not retried |
| BidForm.ItemTotal | frontend/src/components/BidForm.jsx:74-76 | a quantity or unit price that does not parse makes the line total 0; otherwise it is their product |
| BidForm.UpdateItem | frontend/src/components/BidForm.jsx:78-91 | only the line at `index` changes: the edited field (quantity, unit price, description, unit of measure or an extra column) takes the new value and every other field keeps its old one, the line number included; its total is recomputed exactly when quantity or unit price was edited |
| BidForm.AddItem | frontend/src/components/BidForm.jsx:93-107 | the lines are kept and one blank line numbered `length + 1` goes last, with empty specifications, brand, model and country of origin |
| BidForm.RemoveItem | frontend/src/components/BidForm.jsx:109-115 | with one line or fewer nothing changes; otherwise exactly the line at `index` goes, the others keep their order and their numbers |
| BidForm.NumbersCanRepeat | frontend/src/components/BidForm.jsx:93-115 | removing the first of two lines and adding one leaves two lines numbered 2 |
| BidForm.TotalBidAmount | frontend/src/components/BidForm.jsx:117-125 | VAT is 0 when inclusive and 16% of the subtotal of the line totals otherwise; the total is subtotal plus VAT |
| BidForm.TotalWithVat | frontend/src/components/BidForm.jsx:117-125 | an exclusive price is grossed up by exactly 1.16, and with non-negative lines the total is never below the subtotal |
| BidForm.SubtotalAfterUpdate | frontend/src/components/BidForm.jsx:78-118 | replacing one line changes the subtotal by the difference of its totals |
| BidForm.RequirementUpload | frontend/src/components/BidForm.jsx:141-156 | without a file nothing changes; otherwise the new document, typed `file_type`, `document_type` or `other`, goes last as the only one linked to the requirement, after every document of other requirements in order |
| BidForm.UploadKeepsOnePerRequirement | frontend/src/components/BidForm.jsx:141-156 | uploads keep at most one document per requirement |
| BidForm.RemoveRequirementDocument | frontend/src/components/BidForm.jsx:158-160 | no document stays linked to the requirement; every other document stays, in order |
| BidForm.FirstAnswer | frontend/src/components/BidForm.jsx:192-200 | the first document linked to the requirement or of its file type; none exactly when no document answers it |
| BidForm.MissingMandatory | frontend/src/components/BidForm.jsx:192 | empty exactly when every mandatory requirement is answered by some document |
| BidForm.Oversize | frontend/src/components/BidForm.jsx:198-204 | empty exactly when no requirement's answering document exceeds a non-zero size limit |
| BidForm.DocumentsMessage | frontend/src/components/BidForm.jsx:193-208 | there is a documents message exactly when something is missing or oversize |
| BidForm.ValidateForm | frontend/src/components/BidForm.jsx:170-212 | each error key is present exactly when its check fails (total ≤ 0 or absent, validity under 30 days, an incomplete line, required security missing, documents missing or oversize); no other key; valid exactly when every check passes |
| BidForm.UploadAnswers | frontend/src/components/BidForm.jsx:141-192 | after uploading a file for a requirement it is answered, so no longer missing |
| BidStatusView.Actions | frontend/src/components/bidder/bids/BidStatus.jsx:61-68 | Submit is offered exactly when the status is not literally `submitted`, Unsubmit exactly when it is, Withdraw exactly when it is not literally `withdrawn` |
| BidStatusView.ActionsShape | frontend/src/components/bidder/bids/BidStatus.jsx:61-68 | every row offers one or two buttons, never Submit and Unsubmit together |
| BidStatusView.BadgeColour | frontend/src/components/bidder/bids/BidStatus.jsx:6 | the badge is green exactly when the status, ignoring case, is `submitted` |
| BidStatusView.BadgeAndButtonsDisagreeOnCase | frontend/src/components/bidder/bids/BidStatus.jsx:6-68 | a status written `Submitted` shows the green badge yet offers Submit and not Unsubmit |
| BidStatusView.OfferedActionsMeetEndpoints | frontend/src/components/bidder/bids/BidStatus.jsx:61-68 | for the bid's own supplier every offered button succeeds at the server exactly while the tender is open, except Withdraw, which always succeeds |
| BidderDashboard.StatsOf | frontend/src/components/bidder/dashboard/BidderDashboard.jsx:37-39 | the total is the number of bids, drafts and submitted are the case-insensitive counts, and the two never exceed the total |
| BidderDashboard.Recent | frontend/src/components/bidder/dashboard/BidderDashboard.jsx:41 | the first five bids, in order, or all of them when there are fewer |
| BidderDashboard.Dashboard | frontend/src/components/bidder/dashboard/BidderDashboard.jsx:36-41 | the list is read from `results`, else from a bare list, else is empty; the cards and recent rows are computed from it, all zero when there is nothing |
| BidModels.Bid.constructor | backend/bids/models.py:13-75 | a new bid is a draft with no reference, no submission instant, no scores and no ranking |
| BidModels.Bid.Save | backend/bids/models.py:84-88 | an empty reference is replaced by `BID-<tender reference>-<supplier id>`; a reference already present is kept |
| BidModels.GeneratedReference | backend/bids/models.py:87 | the reference starts with `BID-` and ends with `-` and the supplier id's digits |
| BidModels.GeneratedReferenceInjective | backend/bids/models.py:35-87 | two generated references are equal only for the same tender reference and the same supplier, so the unique reference column never refuses a generated one for a different pair |
| BidModels.BidItem.constructor | backend/bids/models.py:91-103 | the item holds the given quantity, unit price and total |
| BidModels.BidItem.Save | backend/bids/models.py:111-113 | whatever total was supplied, the stored total is quantity × unit price |
| BidModels.BidEvaluation.constructor | backend/bids/models.py:187-217 | a new evaluation is not technically compliant and has no scores |
| BidModels.CheckCriterionScore | backend/bids/models.py:308-322 | a score is accepted exactly when it is non-negative, its criterion and evaluation belong to the same tender, and it does not exceed `max_points`; a non-negative score for another tender's criterion is refused as a tender mismatch |
| BidModels.ContractTable.constructor | backend/bids/models.py:328-343 | the table starts empty, with no tender and no winning bid twice |
| BidModels.ContractTable.Insert | backend/bids/models.py:342-343 | a contract is added exactly when neither its tender nor its winning bid has one yet; the table keeps at most one contract per tender and per winning bid |
| BidScoring.ToFloat | backend/bids/serializer.py:161-172 | a number converts to itself and `None` does not convert |
| BidScoring.UnknownIds | backend/bids/serializer.py:130-131 | exactly the listed ids that are not criteria of the tender |
| BidScoring.ValidateUpsert | backend/bids/serializer.py:122-134 | accepted exactly when the list is non-empty and every item names a (truthy) criterion of the evaluated bid's tender; an empty list and an item without a criterion are refused in that order; the invalid-criterion error is exactly `UnknownIds` of the items' criteria, at least one |
| BidScoring.CoerceScore | backend/bids/serializer.py:141-173 | a score criterion gives the score capped at `max_points` (no lower clamp), 0 (capped) when the score is missing or does not convert; a boolean criterion with a `score` key gives `max_points` exactly when the score converts to a positive number, without one exactly when `pass` is truthy, else 0; an upload criterion with a linked requirement scores full exactly when the bid has a document of that type; an unlinked one scores full when `pass` is truthy or the score is positive, and fails exactly when `pass` is falsy and a truthy score text does not convert |
| BidScoring.BooleanScoreOverridesPass | backend/bids/serializer.py:156-166 | a boolean criterion with a `score` key is decided by that score whatever `pass` says |
| BidScoring.ScoreCriterionKeepsValue | backend/bids/serializer.py:167-173 | a score at or below `max_points` is kept as given, negative ones included, one above it becomes `max_points`, and a `null` score or a text that does not convert counts as 0 |
| BidScoring.UnlinkedUploadFallback | backend/bids/serializer.py:151-155 | an upload criterion without a linked requirement scores full when `pass` is truthy, whatever the score; without `pass`, a non-empty score text that does not convert is an error; with neither it scores 0 |
| BidScoring.MissingUploadsExact | backend/bids/serializer.py:179-183 | the missing list is empty exactly when every mandatory requirement's type is present, and names each unmet requirement as `name (file_type)` |
| BidScoring.EnsureRequiredUploads | backend/bids/serializer.py:175-185 | `ok` exactly when no mandatory requirement is unmet, with the missing labels in requirement order |
| BidScoring.ComputeWeightedSum | backend/bids/serializer.py:190-200 | the loop's result is the weight-normalised mean of score/max × 100 over the rows with non-zero maximum and weight, 0 when none |
| BidScoring.WeightedSumNoneCounted | backend/bids/serializer.py:195-199 | with no row counted the total weight and the result are 0 |
| BidScoring.AccBounds | backend/bids/serializer.py:194-197 | with scores within their maxima and positive weights, the accumulator lies between 0 and the total weight |
| BidScoring.WeightedSumBounds | backend/bids/serializer.py:190-200 | with scores within their maxima and positive weights, the weighted sum lies in [0, 100] |
| BidScoring.AccUniformRatio | backend/bids/serializer.py:194-197 | when every counted row scores the same fraction q of its maximum, the accumulator is q × the total weight |
| BidScoring.WeightedSumUniformRatio | backend/bids/serializer.py:190-200 | the weighted sum is then exactly q × 100: it is a weighted mean |
| BidScoring.FinancialLowestPrice | backend/bids/serializer.py:202-212 | 0 when no bid of the tender has a price, when the lowest is 0 or when the bid's own amount is 0; otherwise lowest / own × 100 |
| BidScoring.LowestBidScoresFull | backend/bids/serializer.py:202-212 | the bid with the lowest non-zero price scores exactly 100 |
| BidScoring.FinancialScoreAtMostFull | backend/bids/serializer.py:202-212 | with positive prices every bid of the tender scores in (0, 100] |
| BidScoring.DefaultConfig | backend/bids/models.py:236-252 | the default weights add up to 100 |
| BidScoring.AsRow | backend/bids/serializer.py:240 | a zero criterion weight counts as 1; any other weight is kept |
| BidScoring.Capped | backend/bids/serializer.py:260-265 | a non-zero cap bounds the financial score from above and never raises it |
| BidScoring.Overall | backend/bids/serializer.py:268-271 | with a zero financial weight and a non-zero technical weight the overall score is the technical score |
| BidScoring.Recomputed | backend/bids/serializer.py:217-281 | compliant exactly when no enforced mandatory compliance criterion scored 0 or less and the technical score reaches the pass mark; the financial score never exceeds a non-zero cap; the overall score is 0 for a non-compliant bid when compliance is required |
| BidScoring.UncappedFinancialInRange | backend/bids/serializer.py:252-258 | under valid scores and positive prices the financial score before the cap is in [0, 100] |
| BidScoring.RecomputedInRange | backend/bids/serializer.py:217-281 | under valid criterion scores, positive prices, a non-negative cap and non-negative weights the three stored scores pass the [0, 100] validators |
| BidScoring.OverallInRange | backend/bids/serializer.py:268-271 | sub-scores in [0, 100] under non-negative weights give an overall score in [0, 100], the zero-denominator case included |
| BidScoring.Recompute | backend/bids/serializer.py:217-281 | refused, with the evaluation untouched, exactly when the tender has no config; otherwise the evaluation's four fields are those of `Recomputed` |
| BidServices.PassedCount | backend/bids/services.py:17-20 | the number of evaluations marked technically compliant, never more than their number |
| BidServices.PassedCountAll | backend/bids/services.py:17-20 | the passed count equals the total exactly when every evaluation passed |
| BidServices.Compliant | backend/bids/services.py:37-44 | `any_fail` and `unanimous` need every evaluation to pass, `majority` more than half, and any other policy leaves the bid compliant |
| BidServices.AverageOrZero | backend/bids/services.py:46-48 | a missing average (no non-null value) reads as 0; otherwise the average |
| BidServices.AverageOrZeroInRange | backend/bids/services.py:30-48 | averages of columns that pass the [0, 100] validators stay in [0, 100] |
| BidServices.AggregateBidScores | backend/bids/services.py:13-69 | fewer evaluations than the minimum leave the bid untouched and report not finalised; otherwise the three averages, the policy's compliance decision, a total forced to 0 for a non-compliant bid when the configuration requires compliance, and status qualified or disqualified are written and reported, with the evaluation count; valid evaluation scores keep the bid's scores valid |
| BidServices.CompliancePolicies | backend/bids/services.py:37-44 | under `any_fail` a bid is compliant exactly when every evaluation passed, `unanimous` decides the same, and `majority` needs more passes than fails |
| BidServices.ScoreKey | backend/bids/services.py:77-81 | the total score, or 0 when it is unset |
| BidServices.ScoreAtLeastIsPreorder | backend/bids/services.py:77 | the descending-score order is a total preorder, as a sort key needs |
| BidServices.RankOrder | backend/bids/services.py:75-77 | a permutation of the tender's bids in non-increasing score order |
| BidServices.RankTenderBids | backend/bids/services.py:72-91 | one entry per bid, in descending score order, each carrying its bid's id and score, with competition ranks |
| BidServices.RankSorted | backend/bids/services.py:78-85 | over bids already in descending order, entries in the same order whose ranks form a competition ranking ("1, 2, 2, 4") |
| BidServices.RankAppend | backend/bids/services.py:80-85 | appending an entry whose score is no higher than the last, ranked by the loop's rule, keeps the ranking a competition ranking |
| BidServices.RankedKept | backend/bids/services.py:80-85 | appending an entry leaves every earlier entry's rank correct |
| BidServices.RankedLast | backend/bids/services.py:80-85 | the appended entry's rank is its position when its score drops, the previous rank when it ties |
| BidServices.CompetitionRankFacts | backend/bids/services.py:78-85 | the first entry ranks 1, equal scores share a rank, a strictly lower score ranks at its 1-based position, and ranks never decrease |
| BidViews.RenamingTables | backend/bids/views.py:62-72 | the renaming table is one-to-one and no snake_case name is itself a camelCase key, so copying never feeds further copying |
| BidViews.CamelToSnakeInverted | backend/bids/views.py:62-72 | every camelCase key's snake_case name maps back to it |
| BidViews.SnakeToCamelInverted | backend/bids/views.py:62-72 | every snake_case name maps back to its camelCase key, and is not a camelCase key |
| BidViews.NormalizedMeaning | backend/bids/views.py:73-75 | after the loop the body keeps every key it had, carries each camelCase key's value under its snake_case name too, leaves every other original value alone, and gains no other key |
| BidViews.RenamedMeaning | backend/bids/views.py:73-75 | the same, for any table of that one-to-one shape |
| BidViews.NormalizeKeys | backend/bids/views.py:265-267 | the loop's result is the normalised body |
| BidViews.RenameLoop | backend/bids/views.py:73-75 | visiting the keys one at a time, in any order, yields the normalised body |
| BidViews.RenamedNone | backend/bids/views.py:73 | before any key is visited the body is unchanged |
| BidViews.RenamedStep | backend/bids/views.py:74-75 | visiting one more key adds exactly the copy of its value under the snake_case name, or nothing |
| BidViews.NormalizedIdempotent | backend/bids/views.py:253-267 | normalising a normalised body changes nothing |
| BidViews.RenamedIdempotent | backend/bids/views.py:73-75 | the same, for any table of that shape |
| BidViews.Submit | backend/bids/views.py:277-307 | succeeds exactly for the supplier or a superuser, on a bid not yet submitted with no mandatory upload missing, and then stamps submitted now; missing uploads are reported by name; a refusal leaves the bid as it was; the tender's own state is not consulted |
| BidViews.Unsubmit | backend/bids/views.py:314-323 | succeeds exactly for the bid's supplier, on a submitted bid, while the tender is open, and then returns it to draft without an instant; otherwise nothing changes |
| BidViews.ChangeStatus | backend/bids/views.py:329-352 | as written: succeeds exactly for the bid's supplier naming draft, submitted or withdrawn, with submitting and un-submitting needing an open tender; withdrawing keeps the instant, submitting stamps now, draft from submitted clears it; a refusal leaves the bid as it was |
| BidViews.LifecycleKeepsConsistency | backend/bids/views.py:277-352 | no lifecycle handler leaves a submitted bid without its submission instant |
| BidViews.ChangeStatusSkipsUploadCheck | backend/bids/views.py:335-339 | a draft whose tender demands an upload it lacks is refused by the submit endpoint yet submitted by the change-status endpoint |
| BidViews.ChangeStatusChecked | backend/bids/views.py:329-352 | the change-status handler with the submit endpoint's upload check; identical whenever the target is not submitted or nothing is missing |
| BidViews.SubmissionRequiresUploads | backend/bids/views.py:292-300 | with the check in place neither endpoint moves a bid to submitted while a mandatory upload is missing |
| BidViews.SubmitBidView | backend/bids/views.py:274-307 | the stored bid's response and new state are those of `Submit`, with the missing uploads computed from the tender's requirements |
| BidViews.UnsubmitBidView | backend/bids/views.py:311-323 | the stored bid's response and new state are those of `Unsubmit` at the tender's current openness |
| BidViews.ChangeBidStatusView | backend/bids/views.py:326-352 | the stored bid's response and new state are those of the as-written `ChangeStatus` |
| BidViews.PatchGuard | backend/bids/views.py:249-251 | the edit guard `PatchAllowed` only ever refuses submitted bids, and for those exactly the requests that do not name draft or withdrawn |
| BidViews.SubmittedBids | backend/bids/views.py:510 | a count of the supplier's bids with a submission instant, never more than the bids |
| BidViews.WinningBids | backend/bids/views.py:512 | a count of the supplier's winning bids, never more than the bids |
| BidViews.ContractsOf | backend/bids/views.py:518-521 | a count of the supplier's contracts, 0 exactly when it has none |
| BidViews.AggregatesOf | backend/bids/views.py:506-527 | only suppliers with at least one contract appear in the contract counts |
| BidViews.SupplierRowMeaning | backend/bids/views.py:538-563 | a line's wins are its contract count when it has contracts, else its winning bids; its total is its submitted bids; the success rate exists exactly when that total is non-zero; the performance score is the rounded bid average when there is one, else the evaluation average, and absent exactly when both are |
| BidViews.AggregatesMeaning | backend/bids/views.py:506-527 | per supplier: the bid aggregate holds its submitted count, average score and winning count (all empty without bids), the contract map has it exactly when it has contracts, and the evaluation map holds its average |
| BidViews.NoBidsNoTotals | backend/bids/views.py:507-513 | a supplier without bids has nothing submitted, won or scored |
| BidViews.NoEvaluationsNoScores | backend/bids/views.py:524-527 | a supplier without evaluations has no evaluation scores |
| BidViews.RanksAboveIsPreorder | backend/bids/views.py:566 | the report's sort key (wins, then performance, descending) is a total preorder |
| BidViews.SupplierPerformance | backend/bids/views.py:494-567 | exactly one line per supplier with bids or contracts, each the supplier's line, sorted by wins and then performance score, both descending |
| BidViews.ReportLines | backend/bids/views.py:537-566 | sorting lines built one per supplier keeps exactly those lines |
| BidViews.SuccessRateBounds | backend/bids/views.py:546 | with no more wins than submitted bids the success rate is in [0, 100] |
| BudgetView.StatusOf | frontend/src/components/BudgetView.jsx:18 | never empty: the status when present, `unknown` otherwise |
| BudgetView.SumOverUpdate | frontend/src/components/BudgetView.jsx:17-21 | changing one entry changes the sum of the entries by the same amount |
| BudgetView.SumOverUnchanged | frontend/src/components/BudgetView.jsx:17-21 | setting a key outside the listed ones leaves the sum of the entries |
| BudgetView.Accumulate | frontend/src/components/BudgetView.jsx:17-20 | the status's entry grows by the value, created at 0 on first use, keys kept in order of first use, and the entries' sum grows by the value |
| BudgetView.PrefixStep | frontend/src/components/BudgetView.jsx:16-21 | one more tender adds its value to the total and to its status's total, and its status to the statuses |
| BudgetView.EntriesStep | frontend/src/components/BudgetView.jsx:17-20 | adding a tender's value to its status's entry keeps every entry the total of its status |
| BudgetView.ByStatus | frontend/src/components/BudgetView.jsx:16-22 | the keys are exactly the statuses that occur, each entry is the total of its status, and the entries add up to `total` |
| BudgetView.StatusTotalStep | frontend/src/components/BudgetView.jsx:17-21 | a status that does not occur totals 0 |
| BudgetView.Filtered | frontend/src/components/BudgetView.jsx:25-33 | a blank query keeps the list; any other keeps, in order, exactly the tenders whose title (or name), reference (or ref) or status contains the trimmed, lower-cased query ignoring case |
| BudgetView.NameSearchedWithoutTitle | frontend/src/components/BudgetView.jsx:29 | without a title the name is searched |
| LoginView.LoginRequest | frontend/src/components/LoginView.jsx:23-28 | credentials are sent exactly when the trimmed username and the password are non-empty, with the trimmed username and the password as typed |
| LoginView.SentUsernameTrimmed | frontend/src/components/LoginView.jsx:23-33 | the username sent is never blank and has no surrounding whitespace |
| LoginView.LoginFailure | frontend/src/components/LoginView.jsx:34-39 | never empty: the thrown error's message when it has one, `Login handler not available` without a handler, the default otherwise |
| LoginView.LoginForm.constructor | frontend/src/components/LoginView.jsx:9-17 | no error, not loading, no forgot-password status |
| LoginView.LoginForm.Submit | frontend/src/components/LoginView.jsx:19-43 | without both credentials the form shows the message and calls nothing; otherwise the handler, if any, receives the trimmed username, the failure is shown, loading ends false; the forgot-password state is untouched |
| LoginView.LoginForm.SubmitForgotPassword | frontend/src/components/LoginView.jsx:51-70 | an empty address shows the error and requests nothing; otherwise the handler, if any, is asked for that address and the same success message is shown whatever it answers; the sign-in state is untouched |
| LoginView.ForgotPasswordHidesOutcome | frontend/src/components/LoginView.jsx:59-66 | a request that succeeds and one that fails leave the same status |
| BudgetModels.BudgetLine.constructor | backend/budgets/models.py:16-148 | a new line is a draft with the given serial and approved quantity, nothing to order and no costs |
| BudgetModels.BudgetLine.Save | backend/budgets/models.py:178-182 | the estimated total becomes unit cost × quantity when both are non-zero, and is otherwise left as entered; nothing else changes |
| BudgetModels.SavedEstimateMeaning | backend/budgets/models.py:178-182 | saving twice gives what saving once does; with positive unit cost and quantity the estimate is their positive product; an entered estimate is replaced only when there is something to compute it from |
| BudgetModels.Utilization | backend/budgets/models.py:170-176 | 0 without an estimate or an actual amount (absent or zero) |
| BudgetModels.UtilizationBounds | backend/budgets/models.py:170-176 | spending within a positive estimate gives a percentage in [0, 100]; overspending gives more than 100 |
| BudgetModels.IsDelayed | backend/budgets/models.py:237-244 | delayed exactly when not completed, planned, without an actual date, and today is past the planned date |
| BudgetModels.DelayPersists | backend/budgets/models.py:237-244 | a delay does not go away with time; only completing the milestone or recording its actual date clears it |
| BudgetModels.Upsert | backend/budgets/models.py:304-306 | saving a row replaces the row with its id or adds it: one row more at most, and nothing but the saved row is new |
| BudgetModels.UpsertIds | backend/budgets/models.py:247-306 | saving keeps one row per id and stores the saved row |
| BudgetModels.UpsertTotal | backend/budgets/models.py:285-306 | after saving, the allocated total is the other rows' total plus the saved quantity |
| BudgetModels.AbsentIdTotal | backend/budgets/models.py:290-296 | excluding an id that no row has excludes nothing |
| BudgetModels.ExceptAtMostTotal | backend/budgets/models.py:290-296 | with non-negative quantities the total of the other rows lies between 0 and the full total |
| BudgetModels.AllocationLedger.constructor | backend/budgets/models.py:247-283 | a line's allocations start empty and valid |
| BudgetModels.AllocationLedger.SaveAllocation | backend/budgets/models.py:285-306 | a negative quantity is refused; a non-zero quantity above what the line's other allocations leave is refused with the available amount; otherwise the row is stored in place of the one with its id; a refusal changes nothing; the allocated total never exceeds the approved quantity |
| BudgetModels.AvailableWithinApproved | backend/budgets/models.py:161-167 | while the allocations are valid the available quantity lies between 0 and the approved quantity |
| BudgetAdmin.ShortDescription | backend/budgets/admin.py:134-135 | a description of at most 50 characters is shown whole; a longer one as its first 50 followed by `...`, 53 characters in all |
| BudgetAdmin.StatusBadge | backend/budgets/admin.py:139-148 | gray exactly for draft and for values outside the choices; each other status its own colour |
| BudgetAdmin.BadgesDistinguishStatuses | backend/budgets/admin.py:139-148 | two different known statuses never share a colour |
| BudgetAdmin.AvailablePercentage | backend/budgets/admin.py:157-160 | 0 when nothing was approved |
| BudgetAdmin.AvailabilityColour | backend/budgets/admin.py:161 | green above 50%, orange above 20% up to 50%, red at 20% or less |
| BudgetAdmin.AvailabilityDisplay | backend/budgets/admin.py:157-167 | for a valid line with an approved quantity the percentage shown is in [0, 100] |
| BudgetAdmin.LessAvailableNoGreener | backend/budgets/admin.py:157-161 | drawing more from a line never makes its colour greener |
| BudgetAdmin.StatusIndicator | backend/budgets/admin.py:201-207 | completed exactly when the milestone is completed; delayed exactly when not completed and overdue; in progress otherwise |
| BudgetAdmin.AdminStamp | backend/budgets/admin.py:172-174 | the creating user is stamped on creation; an edit keeps the stamp |
| BudgetSerializers.Cleaned | backend/budgets/models.py:49-77 | the validated data carries the decimal values exactly as sent (the texts are trimmed, see `CleanedFields`) |
| BudgetSerializers.CleanedFields | backend/budgets/models.py:49-53 | cleaning keeps which fields were sent, trims every text and leaves every decimal unchanged |
| BudgetSerializers.FieldErrorMeaning | backend/budgets/models.py:49-77 | per field of the cleaned data: `Required` exactly for a missing serial number, budget line, section, description, unit or approved quantity on a full (non-PATCH) request; `Blank` exactly for an empty text; `TooLong` exactly for a text over its `max_length` (50, 200, 200, 100; none for the description); `BelowMinimum` exactly for a negative approved quantity, quantity to order or unit cost; `SerialInUse` exactly for a well-formed serial another line already has (the model's `unique=True` and `validate_serial_number` at backend/budgets/serializers.py:236-247 refuse the same serials); never an error of `validate` |
| BudgetSerializers.FieldErrors | backend/budgets/serializers.py:205-253 | `serializer.errors` of the field validators: a field is a key exactly when it has an error, and maps to that error |
| BudgetSerializers.FieldsCleanExactly | backend/budgets/serializers.py:205-253 | no field has an error exactly when the collected field errors are empty |
| BudgetSerializers.EffectiveQuantities | backend/budgets/serializers.py:256-265 | a sent value is used as sent; on update a missing one is the stored value; on create nothing is filled in |
| BudgetSerializers.Validate | backend/budgets/serializers.py:205-280 | an accepted request yields the validated data: the texts trimmed, the decimals as sent |
| BudgetSerializers.ValidateMeaning | backend/budgets/serializers.py:255-280 | with any field error `is_valid` fails with exactly the field errors and `validate` does not run; a request is accepted exactly when there is no field error, the effective quantity to order does not exceed the effective approved quantity (when both are non-zero) and the unit cost is not negative; every failure names at least one field |
| BudgetSerializers.FieldErrorReported | backend/budgets/serializers.py:205-253 | any field error makes validation fail and is reported under its own field |
| BudgetSerializers.UnitCostCheckUnreachable | backend/budgets/serializers.py:273-278 | the unit-cost error of `validate` is never produced: a negative unit cost is already reported as below the field's minimum |
| BudgetSerializers.AcceptedSerial | backend/budgets/serializers.py:236-247 | an accepted create was sent a serial number that, trimmed, is non-blank, at most 50 characters and used by no stored line |
| BudgetSerializers.ValidatedCreateIsConsistent | backend/budgets/serializers.py:205-280 | from validation alone: an accepted create sent every required field, its texts are non-blank and within their lengths once trimmed, its serial is fresh, its approved quantity is present and non-negative, its quantity to order (0 when missing) lies in [0, approved] unless nothing is approved, and its unit cost is non-negative |
| BudgetSerializers.CleanFieldsMeaning | backend/budgets/models.py:49-77 | with no field error, every text is non-blank and within its length, every required field was sent on a full request, and no decimal is negative |
| BudgetSerializers.EmptyCreateRefused | backend/budgets/models.py:49-61 | an empty create fails with exactly the six required-field errors |
| BudgetSerializers.EmptyPatchAccepted | backend/budgets/serializers.py:255-280 | an empty PATCH of a line whose stored quantities are consistent is accepted |
| BudgetSerializers.OwnSerialAccepted | backend/budgets/serializers.py:236-247 | an update may keep the line's own serial, which a create would refuse |
| BudgetSerializers.CreatedBy | backend/budgets/serializers.py:282-287 | the request's user becomes the creator when there is a request; otherwise the sent value stands |
| BudgetViews.Filtered | backend/budgets/views.py:156-163 | exactly the lines with the requested status (when one is given) whose section contains the requested text ignoring case (when given), and never more lines than there were |
| BudgetViews.TotalsOf | backend/budgets/views.py:165-176 | the line count is the number of selected lines, the remainder is estimated − actual, and the utilisation rate is 0 unless the estimate is positive |
| BudgetViews.TotalsWithinEstimate | backend/budgets/views.py:165-219 | spending within the estimate leaves a non-negative remainder and a utilisation rate in [0, 100] |
| BudgetViews.FindKey | backend/budgets/views.py:180-208 | the position of the key's group, or none exactly when no group has that key |
| BudgetViews.CountTotalUpdate | backend/budgets/views.py:180-208 | replacing one group changes the counts' total by the difference of the two counts |
| BudgetViews.CountTotalAppend | backend/budgets/views.py:180-208 | a new group adds its count to the counts' total |
| BudgetViews.GroupBy | backend/budgets/views.py:180-208 | one group per distinct key, each carrying that key's row count and summed amount (NULL amounts skipped), the counts adding up to the number of rows |
| BudgetViews.PrefixStep | backend/budgets/views.py:180-208 | one more row adds to the count and sum of its own key only, and its key to the keys |
| BudgetViews.GroupByUpdateStep | backend/budgets/views.py:180-208 | adding a row to its existing group keeps the grouping exact for one more row |
| BudgetViews.GroupByAppendStep | backend/budgets/views.py:180-208 | opening a group for a new key keeps the grouping exact for one more row |
| BudgetViews.GroupKeysUpdate | backend/budgets/views.py:180-208 | updating a group in place keeps the set of keys |
| BudgetViews.GroupKeysAppend | backend/budgets/views.py:180-208 | a new group adds exactly its key |
| BudgetViews.OccurrencesAbsent | backend/budgets/views.py:180-208 | a key that no row has occurs 0 times |
| BudgetViews.KeyedSumAbsent | backend/budgets/views.py:180-208 | a key that no row has sums to 0 |
| BudgetViews.WithProcess | backend/budgets/views.py:204 | exactly the selected lines with a non-empty procurement process, never more than there were |
| BudgetViews.BudgetSummary | backend/budgets/views.py:150-226 | the totals are those of the selected lines; the status and the section groups each count every selected line once; the process groups count no more and have non-empty keys; each status group counts its status's lines |
| BudgetViews.DetailDecision | backend/budgets/views.py:97-146 | a change or delete by anyone but a superuser or the creator is forbidden; a permitted delete of a line with allocations is refused; reading is always allowed |
| BudgetViews.UpdateValidation | backend/budgets/views.py:117-130 | an accepted PUT or PATCH yields the validated data, a refused one names at least one field |
| BudgetViews.PutRequiresPatchDoesNot | backend/budgets/views.py:117-124 | `partial` is set exactly for a PATCH: a PUT missing a required field fails with that field required, a PATCH reports no error under it |
| BudgetViews.Patched | backend/budgets/views.py:258-266 | a partial update keeps the stage and replaces only the sent fields |
| BudgetViews.IndexOfStage | backend/budgets/views.py:252-258 | the position of the line's milestone for the stage, or none exactly when the line has none |
| BudgetViews.Timeline.constructor | backend/budgets/models.py:229-231 | a line starts with no milestones, which satisfies the one-milestone-per-stage invariant |
| BudgetViews.Timeline.PostAsWritten | backend/budgets/views.py:247-275 | as written: without a stage nothing changes and the request is invalid; an existing milestone for the stage is updated in place; a new stage answers a server error and stores nothing, because the serializer drops the line id |
| BudgetViews.Timeline.Post | backend/budgets/views.py:247-275 | as evidently intended: without a stage nothing changes and the request is invalid; with one, that stage's milestone is updated in place when it exists and created for the line otherwise, never leaving two milestones for a stage |
| BudgetViews.FirstMilestoneFails | backend/budgets/views.py:265-272 | on a line with no milestones, the as-written POST fails and keeps nothing, while the intended one stores exactly the new milestone for that stage |
| BudgetViews.BulkCreate | backend/budgets/views.py:310-356 | an empty list is refused; otherwise row i is created exactly when it validates as a create against the stored lines plus those created for earlier rows, and is reported failed otherwise, never both; a failure names its row, its non-empty validation errors (a missing required field among them) and the serial sent (`N/A` when none); a created line carries the serial sent, trimmed, which is non-blank, at most 50 characters and unused by every stored line, and the next fresh id; the code is 207 exactly when some row failed, 201 otherwise |
| BudgetViews.Stored | backend/budgets/views.py:327-345 | the fold of the rows under an acceptance test never creates more lines than rows processed |
| BudgetViews.StoredAfter | backend/budgets/views.py:327-345 | the store after some rows of a bulk create, each stored when it validates as a create: never more lines created than rows processed |
| BudgetViews.StoredFacts | backend/budgets/views.py:327-345 | processing rows never alters a stored line, and every id in use stays below the next fresh one |
| BudgetViews.StoredGrows | backend/budgets/views.py:327-345 | a line stored after some rows is still stored, unchanged, after any later row |
| BudgetViews.CreatedRowStored | backend/budgets/views.py:327-345 | once a row is created, its saved serial number counts as in use for every later row of the request |
| BudgetViews.DuplicateSerialInRequestFails | backend/budgets/views.py:327-345 | of two rows in one request whose serials agree once trimmed, once the first is created the second fails, with the serial-in-use error on its serial number |
| BudgetViews.RowMissingRequiredFails | backend/budgets/views.py:327-345 | a row that leaves out the serial number, budget line, section, description, unit or approved quantity is never created, and is reported with that field required |
| BudgetViews.StoredStep | backend/budgets/views.py:333-338 | one more row is stored under the next fresh id with its trimmed serial exactly when it is created, and changes nothing otherwise |
| BudgetViews.CreatedRowFacts | backend/budgets/views.py:333-338 | a created row was sent a serial number which, trimmed, is non-blank, at most 50 characters and used by no line stored before the request |
| BudgetViews.CreatedStepKeeps | backend/budgets/views.py:333-338 | creating row i keeps the account of the loop: the store, every row up to i placed once, the failures and the creations reported faithfully |
| BudgetViews.FailedStepKeeps | backend/budgets/views.py:339-344 | refusing row i keeps the account of the loop, the failure carrying its non-empty errors |
| BudgetViews.PartitionDecides | backend/budgets/views.py:327-345 | with every row placed and each placement reported faithfully, a row is among the created exactly when it validates |
| BudgetViews.PartitionCreated | backend/budgets/views.py:327-345 | creating row n keeps every row up to n either created or failed |
| BudgetViews.PartitionFailed | backend/budgets/views.py:327-345 | failing row n keeps every row up to n either created or failed |
| BudgetViews.CountOnTime | backend/budgets/views.py:393-397 | never more than the milestones |
| BudgetViews.AdherenceRate | backend/budgets/views.py:393-404 | 0 without milestones and always in [0, 100] |
| BudgetViews.Variances | backend/budgets/views.py:407-421 | at most one entry per line, each with a non-zero estimate and variance actual − estimated |
| BudgetViews.LargerVarianceIsPreorder | backend/budgets/views.py:424 | ordering by absolute variance is a total preorder |
| BudgetViews.SortedVariances | backend/budgets/views.py:424 | a permutation of the variances, largest absolute variance first |
| BudgetViews.TopVariances | backend/budgets/views.py:433 | the first ten sorted variances, or all when fewer |
| BudgetViews.TopVariancesMeaning | backend/budgets/views.py:407-433 | the top entries are line variances, largest first, and none left out is larger than one kept |
| BudgetViews.BudgetAnalytics | backend/budgets/views.py:387-433 | the computation the endpoint evidently intends: the milestone total is the number of milestones, the on-time and delayed counts together never exceed it, the adherence rate lies in [0, 100], at most ten variances, and never more lines with actuals than lines |
| BudgetViews.OnTimeAndDelayedDisjoint | backend/budgets/views.py:392-402 | no milestone is both completed on time and delayed, so the two counts never exceed the total; with every milestone completed none is delayed |
| BudgetViews.CountWithActual | backend/budgets/views.py:407 | never more than the lines |
| BudgetViews.BudgetAnalyticsAsWritten | backend/budgets/views.py:393-396 | as written every call fails, with the name `models` undefined |
| BudgetViews.BudgetAnalyticsAlwaysFails | backend/budgets/views.py:387-433 | even with no milestones and no lines the endpoint as written fails where the intended computation answers |
| ContractsView.ActiveNotCompleted | frontend/src/components/ContractsView.jsx:37-38 | no contract is counted both as active and as completed |
| ContractsView.ActiveCompletedBound | frontend/src/components/ContractsView.jsx:37-38 | the active and the completed counts together never exceed the number of contracts |
| ContractsView.StatusCaseInsensitive | frontend/src/components/ContractsView.jsx:37-38 | a status counts as active or completed regardless of letter case |
| ContractsView.TotalValueAppend | frontend/src/components/ContractsView.jsx:39 | the total value is additive over a split of the list |
| ContractsView.TotalValueNonNegative | frontend/src/components/ContractsView.jsx:39 | with every value a non-negative number (or not a number, counting 0) the total is non-negative |
| ContractsView.ExpiringNeedsEndDate | frontend/src/components/ContractsView.jsx:40-47 | the expiring-soon count never exceeds the number of contracts with an end date |
| ContractsView.ExpiryBoundsInclusive | frontend/src/components/ContractsView.jsx:41-45 | the 30-day window is closed at both ends: ending now or exactly 30 days ahead counts, one millisecond ago does not |
| ContractsView.StatusColor | frontend/src/components/ContractsView.jsx:26-34 | green exactly for active, blue exactly for completed, red exactly for terminated, ignoring case; a missing status is gray |
| ContractsView.StatusColorCaseInsensitive | frontend/src/components/ContractsView.jsx:27 | the badge colour does not depend on letter case |
| ContractsView.LoadedContracts | frontend/src/components/ContractsView.jsx:15-16 | the list shown is the answer when it is an array and empty otherwise |
| CreateTenderForm.RequiredChecks | frontend/src/components/CreateTenderForm.jsx:336-356 | a title message exactly when the trimmed title is empty or longer than 500; a description, category, entity or method message exactly when that field is missing |
| CreateTenderForm.DateChecks | frontend/src/components/CreateTenderForm.jsx:358-375 | a closing-date message exactly when it is missing or not after now; an opening-date message exactly when both dates are given and the opening is not before the closing |
| CreateTenderForm.NumberChecks | frontend/src/components/CreateTenderForm.jsx:378-392 | an estimated-value message exactly when a value is given that does not parse to a positive number whose text form (`toString`) shows at most two decimals; a validity message exactly when the period parses to less than 1 day |
| CreateTenderForm.SecurityChecks | frontend/src/components/CreateTenderForm.jsx:395-403 | with security required, a message for an amount that is missing or not above 0 and one for a missing type; none otherwise |
| CreateTenderForm.FieldErrors | frontend/src/components/CreateTenderForm.jsx:336-403 | for each of the eleven fields (title, description, category, procuring entity, procurement method, closing date, opening date, estimated value, validity period, security amount, security type) the message is set exactly when that field's rule fails, and none is set exactly when every field rule holds |
| CreateTenderForm.CleanRows | frontend/src/components/CreateTenderForm.jsx:406-418 | every requirement row is free of messages exactly when every row satisfies the row rules |
| CreateTenderForm.RowErrors | frontend/src/components/CreateTenderForm.jsx:406-418 | a named row without a file type or with a name over 200 characters, and a typed row without a name, get the matching message, and only those |
| CreateTenderForm.RowsErrors | frontend/src/components/CreateTenderForm.jsx:406-418 | one report per row, each matching its row, and the rows pass exactly when each row satisfies the rules |
| CreateTenderForm.ValidateForm | frontend/src/components/CreateTenderForm.jsx:332-422 | the form is valid exactly when every field rule and every row rule holds; the field messages are empty exactly when the field rules hold |
| CreateTenderForm.AddDocumentRequirement | frontend/src/components/CreateTenderForm.jsx:81-90 | appends one empty, optional, 10 MB row, which passes the row rules |
| CreateTenderForm.RemoveDocumentRequirement | frontend/src/components/CreateTenderForm.jsx:92-94 | keeps, in order, exactly the rows whose id differs |
| CreateTenderForm.UpdateDocumentRequirement | frontend/src/components/CreateTenderForm.jsx:96-100 | the rows with that id get the edit, every other row is unchanged and no id changes |
| CreateTenderForm.UploadRequirements | frontend/src/components/CreateTenderForm.jsx:276-283 | never more entries than rows, and every entry is named |
| CreateTenderForm.UploadRequirementsCount | frontend/src/components/CreateTenderForm.jsx:276-277 | there is one entry per row whose trimmed name is non-empty |
| CreateTenderForm.UploadRequirementsFromRows | frontend/src/components/CreateTenderForm.jsx:276-283 | every entry is a named row's trimmed name and file type, with its size converted from megabytes to bytes |
| CreateTenderForm.ValidRowsUpload | frontend/src/components/CreateTenderForm.jsx:276-283 | after the rows pass validation every entry sent has a file type and a name of at most 200 characters |
| CreateTenderForm.OptionalNumber | frontend/src/components/CreateTenderForm.jsx:243 | empty text is sent as null |
| CreateTenderForm.BuildTenderPayload | frontend/src/components/CreateTenderForm.jsx:233-270 | fails exactly when a given date does not parse; otherwise a draft with the trimmed title, a security type exactly when security is required, and a security amount only then, the parsed amount when one was entered |
| CreateTenderForm.PayloadTexts | frontend/src/components/CreateTenderForm.jsx:235-254 | the payload sends the title, description and the four requirement texts trimmed, and the procurement method and currency as chosen |
| CreateTenderForm.PayloadNumbers | frontend/src/components/CreateTenderForm.jsx:237-249 | the category, procuring entity and validity period are sent as `parseInt` reads them, and an empty subcategory, estimated value or date as null, a given one as parsed |
| CreateTenderForm.PayloadSettings | frontend/src/components/CreateTenderForm.jsx:257-266 | the security switch and the three bidding switches (variant bids, electronic submission, auto-extend on amendment) are sent as set |
| CreateTenderForm.ValidFormPayload | frontend/src/components/CreateTenderForm.jsx:233-270 | a form that passed validation (with its dates parsing) yields a payload whose closing date is after now, whose title fits 500 characters and whose security amount, when required, is positive or null |
| EvaluationScreen.CompliantBids | frontend/src/components/Evaluation.jsx:384 | exactly the bids whose compliance verdict is a pass, never more than there were |
| EvaluationScreen.MaxOf | frontend/src/components/Evaluation.jsx:392 | a criterion's maximum is never 0, and an unset or zero maximum counts as 100 |
| EvaluationScreen.ComputeTechScore | frontend/src/components/Evaluation.jsx:386-396 | the accumulation loop gives the rounded weighted score of the criteria, and 0 when the total weight is not positive |
| EvaluationScreen.WeightedTechBounds | frontend/src/components/Evaluation.jsx:389-395 | with scores in [0, max], positive maxima and non-negative weights, the weighted score lies between 0 and the total weight |
| EvaluationScreen.FullMarksGiveTotalWeight | frontend/src/components/Evaluation.jsx:389-395 | a bid scored at every criterion's maximum gets exactly the total weight, not 100 |
| EvaluationScreen.ScorersDisagree | frontend/src/components/Evaluation.jsx:386-396 | for one criterion of weight 50 scored full, this screen shows 50 while the server's weighted sum gives 100 |
| EvaluationScreen.Prices | frontend/src/components/Evaluation.jsx:398 | the list holds no zero price and holds the price of every compliant bid that has one |
| EvaluationScreen.Lowest | frontend/src/components/Evaluation.jsx:399 | 0 for no prices, otherwise the least of them |
| EvaluationScreen.FinancialScore | frontend/src/components/Evaluation.jsx:400 | 0 when the bid has no price or there is no lowest price |
| EvaluationScreen.LowestPriceScoresFull | frontend/src/components/Evaluation.jsx:397-400 | with positive prices every compliant bid's financial score is in [0, 100], and the cheapest scores 100 |
| EvaluationScreen.PriceRatioScore | frontend/src/components/Evaluation.jsx:400 | a price not below a positive lowest price scores in [0, 100], and 100 when it equals it |
| EvaluationScreen.CombinedBounds | frontend/src/components/Evaluation.jsx:401 | two scores in [0, 100] combine, at 60 to 40, into a score in [0, 100] |
| EvaluationScreen.RowGeqIsPreorder | frontend/src/components/Evaluation.jsx:404 | the descending comparator on combined score is a total preorder |
| EvaluationScreen.ComputeEvaluationRows | frontend/src/components/Evaluation.jsx:383-407 | the rows are the compliant bids' rows, stably sorted by combined score, then ranked |
| EvaluationScreen.AssignRanks | frontend/src/components/Evaluation.jsx:405 | each row in turn gets its position plus one as rank, nothing else changes |
| EvaluationScreen.EvaluationRowsMeaning | frontend/src/components/Evaluation.jsx:383-407 | one row per compliant bid (a permutation of the unranked rows), highest combined score first, ranked 1, 2, 3 with no shared ranks |
| EvaluationScreen.UnrankedHaveNoRank | frontend/src/components/Evaluation.jsx:385-403 | the rows carry no rank before the ranking step |
| EvaluationScreen.RankingErases | frontend/src/components/Evaluation.jsx:404-405 | ranking changes nothing but the rank: clearing it gives the sorted rows back |
| EvaluationScreen.RankingKeepsOrder | frontend/src/components/Evaluation.jsx:404-405 | ranking keeps the sorted order and numbers the rows from 1 |
| EvaluationScreen.ClampScore | frontend/src/components/Evaluation.jsx:150 | an empty input clears the score; any number ends up in [0, max], and one already there is kept |
| EvaluationScreen.Reasons | frontend/src/components/Evaluation.jsx:84 | the reasons are exactly the lines of the text, each trimmed, with the blank ones dropped, in their order; each is non-empty, trimmed and without newlines |
| EvaluationScreen.NonEmptyTrimmed | frontend/src/components/Evaluation.jsx:84 | never more reasons than lines, each non-empty, trimmed and without newlines |
| EvaluationScreen.NonEmptyTrimmedMeaning | frontend/src/components/Evaluation.jsx:84 | the recursive trim-and-drop is the same as trimming every line and then keeping the non-empty ones, in order |
| EvaluationScreen.UpdateBidEval | frontend/src/components/Evaluation.jsx:583-589 | the bid's entry (an empty one when absent) passes through the updater and no other bid's entry changes |
| PublicTenderView.OpenUntilClosing | frontend/src/components/public/PublicTenderView.jsx:63-67 | `isOpen` only ends as time passes, and a tender that is not published or whose closing date is invalid is never open |
| PublicTenderView.DaysRemaining | frontend/src/components/public/PublicTenderView.jsx:69-75 | 0 for an invalid date; positive exactly when the closing time is after now, and then the least number of whole days that reaches it |
| PublicTenderView.CeilDays | frontend/src/components/public/PublicTenderView.jsx:72-73 | the rounded-up day count is positive exactly when the difference is, and brackets the difference between one day less and itself |
| PublicTenderView.OpenHasDays | frontend/src/components/public/PublicTenderView.jsx:63-75 | a tender shown as open always has at least one day remaining |
| PublicTenderView.Filtered | frontend/src/components/public/PublicTenderView.jsx:77-84 | keeps, in order, exactly the tenders in the chosen category (any for `all`) whose reference, title or entity contains the search, ignoring case |
| PublicTenderView.EmptySearchNeedsText | frontend/src/components/public/PublicTenderView.jsx:77-84 | with an empty search a tender is shown exactly when its category passes and it has at least one of reference, title or entity |
| PublicTenderView.StatusColor | frontend/src/components/public/PublicTenderView.jsx:54-61 | green exactly for published, yellow exactly for evaluation, gray for every other status |
| PublicTenderViewModal.SameOpenRule | frontend/src/components/public/PublicTenderViewModal.jsx:9 | the modal's open rule is the list's open rule |
| PublicTenderViewModal.DaysShown | frontend/src/components/public/PublicTenderViewModal.jsx:11-58 | the days shown are positive exactly when the tender is open |
| PublicTenderViewModal.ValidityShown | frontend/src/components/public/PublicTenderViewModal.jsx:64 | the period given when it is non-zero, 90 days when it is absent or zero |
| PublicTenderViewModal.FooterAction | frontend/src/components/public/PublicTenderViewModal.jsx:213 | the footer offers to submit a bid exactly when the tender is open, which is exactly when at least one day is shown |
| RegistrationForm.Problem | frontend/src/components/RegistrationForm.jsx:56-72 | no problem exactly when the passwords match, have at least 8 characters and the registration number is non-blank; a mismatch is reported before the length |
| RegistrationForm.Keys | frontend/src/components/RegistrationForm.jsx:76-101 | the keys of the form data, one per part and in order |
| RegistrationForm.OptionalKeys | frontend/src/components/RegistrationForm.jsx:88-101 | the experience key exactly when an experience was entered and each file key exactly when that file was chosen |
| RegistrationForm.SentKeys | frontend/src/components/RegistrationForm.jsx:77-101 | every fixed text key is sent, the experience exactly when entered and each file exactly when chosen |
| RegistrationForm.PartsKeys | frontend/src/components/RegistrationForm.jsx:76-101 | the form data appended carries exactly the sent keys, in that order |
| RegistrationForm.OptionalPartsKeys | frontend/src/components/RegistrationForm.jsx:88-101 | the optional parts carry exactly the optional keys, in order |
| RegistrationForm.FixedPartsKeys | frontend/src/components/RegistrationForm.jsx:77-87 | the eleven text fields come in the order they are appended |
| RegistrationForm.FilePartKeys | frontend/src/components/RegistrationForm.jsx:93-101 | a file input contributes its key exactly when a file was chosen |
| RegistrationForm.PartsValues | frontend/src/components/RegistrationForm.jsx:76-101 | the form data names the user type `supplier`, carries the experience as its numeric text, and attaches exactly the chosen files |
| RegistrationForm.OptionalAttachments | frontend/src/components/RegistrationForm.jsx:93-101 | the attachments are exactly the chosen files |
| RegistrationForm.RegistrationScreen.constructor | frontend/src/components/RegistrationForm.jsx:5-32 | the screen starts on step 1 with no messages, not busy, with no verification address |
| RegistrationForm.RegistrationScreen.SubmitRegistration | frontend/src/components/RegistrationForm.jsx:50-112 | a failing check shows its message and sends nothing; otherwise the form data is sent and success moves to step 2 for the entered address with the server's message, while a failure shows the error; never left busy |
| SettingsView.Children | frontend/src/components/SettingsView.jsx:31-36 | exactly the categories whose parent is the given id |
| SettingsView.ChildrenStep | frontend/src/components/SettingsView.jsx:31-36 | one more category joins its own parent's group only, and adds its parent to the parents |
| SettingsView.GroupByParent | frontend/src/components/SettingsView.jsx:25-37 | the keys are exactly the parent ids some category names, and each list is exactly that parent's categories in fetch order |
| SettingsView.GroupSkip | frontend/src/components/SettingsView.jsx:32 | a category without a parent leaves the grouping exact |
| SettingsView.SkipStep | frontend/src/components/SettingsView.jsx:32 | a category without a parent changes neither the parents nor any group |
| SettingsView.GroupPush | frontend/src/components/SettingsView.jsx:33-35 | pushing a category onto its parent's list, created on first use, keeps the grouping exact |
| SettingsView.GroupPushAt | frontend/src/components/SettingsView.jsx:33-35 | the same, for one parent id |
| SettingsView.NoChildrenOutsideParents | frontend/src/components/SettingsView.jsx:257-263 | an id no category names as parent has no subcategories, so its group shows empty |
| SettingsView.TopLevel | frontend/src/components/SettingsView.jsx:127 | keeps, in order, exactly the categories without a parent |
| SettingsView.EveryCategoryPlaced | frontend/src/components/SettingsView.jsx:127 | a category without a parent is top-level, and one with a parent is in its parent's group and not top-level |
| SettingsView.Optional | frontend/src/components/SettingsView.jsx:80 | an empty text is left out and any other is sent as typed |
| SettingsView.ParentId | frontend/src/components/SettingsView.jsx:82 | an empty parent is null; any other is the text as a number |
| SettingsView.CategoryPayloadOf | frontend/src/components/SettingsView.jsx:78-83 | the name as typed, the code and description exactly when filled and then as typed, and a parent only when one was chosen |
| SettingsView.Optionals | frontend/src/components/SettingsView.jsx:103-113 | each text left out when empty and sent as typed otherwise |
| SettingsView.EntityPayloadOf | frontend/src/components/SettingsView.jsx:101-114 | the name as typed, every optional text exactly when filled and then as typed, and a parent entity only when one was chosen |
| SettingsView.BlankFormsSendNothing | frontend/src/components/SettingsView.jsx:78-114 | blank forms send an empty name and nothing else |
| SettingsView.SettingsScreen.constructor | frontend/src/components/SettingsView.jsx:9-16 | both forms start blank, with no errors and no message |
| SettingsView.SettingsScreen.SubmitCategory | frontend/src/components/SettingsView.jsx:73-94 | the form's payload is sent; success shows the message and blanks the form; failure keeps the form and shows the server's field errors when it sent any |
| SettingsView.SettingsScreen.SubmitEntity | frontend/src/components/SettingsView.jsx:96-125 | the same for the procuring-entity form, leaving the category form alone |
| SupplierProfileViewerModal.LastOfSuffix | frontend/src/components/admin/SupplierProfileViewerModal.jsx:5-6 | a text ending in a suffix ends in that suffix's last character |
| SupplierProfileViewerModal.ImageOrPdfNotBoth | frontend/src/components/admin/SupplierProfileViewerModal.jsx:5-7 | no address passes both `isImage` and `isPdf` |
| SupplierProfileViewerModal.PreviewIgnoresCase | frontend/src/components/admin/SupplierProfileViewerModal.jsx:5-6 | `isImage` and `isPdf` ignore case: an address and its lower-case form are classified alike |
| SupplierProfileViewerModal.ZipNotPreviewable | frontend/src/components/admin/SupplierProfileViewerModal.jsx:5-7 | the extension must end the address: one ending in `.zip` gets no Preview button (`isPdf` or `isImage`) |
| SupplierProfileViewerModal.UpperJpegIsImage | frontend/src/components/admin/SupplierProfileViewerModal.jsx:5 | an address ending in upper-case `.JPEG` is an image |
| SupplierProfileViewerModal.HasDocs | frontend/src/components/admin/SupplierProfileViewerModal.jsx:70-77 | true exactly when a profile is loaded and at least one of its three document addresses is non-empty |
| SupplierProfileViewerModal.OpenAction | frontend/src/components/admin/SupplierProfileViewerModal.jsx:112-122 | fetches exactly when the preload lacks every marker and a user id is given, and then for that id; shows the preload exactly when it has a marker |
| SupplierProfileViewerModal.PreloadSkipsFetch | frontend/src/components/admin/SupplierProfileViewerModal.jsx:112-122 | a preload with a registration number, email or user is never refetched, whatever the user id |
| SupplierProfileViewerModal.LoadFailure | frontend/src/components/admin/SupplierProfileViewerModal.jsx:99 | never empty: the server's error first, then the error's own message, then the fallback |
| SupplierProfileViewerModal.TrapFocus | frontend/src/components/admin/SupplierProfileViewerModal.jsx:170-183 | only Tab with something focusable moves focus: Shift+Tab on the first goes to the last, Tab on the last goes to the first, and nothing else is intercepted |
| SupplierProfileViewerModal.TrapRoundTrip | frontend/src/components/admin/SupplierProfileViewerModal.jsx:170-183 | Tab from the last element and then Shift+Tab come back to the last |
| TenderCriteriaSetup.Override | frontend/src/components/TenderCriteriaSetup.jsx:80 | every field the answer carries replaces the base's and every other keeps the base's value |
| TenderCriteriaSetup.LoadedConfig | frontend/src/components/TenderCriteriaSetup.jsx:12-80 | with no answer the configuration is the defaults |
| TenderCriteriaSetup.OverrideLaws | frontend/src/components/TenderCriteriaSetup.jsx:80-114 | overriding with nothing changes nothing, and two overrides in turn are one override with the later fields on top |
| TenderCriteriaSetup.WeightTotalParts | frontend/src/components/TenderCriteriaSetup.jsx:58-62 | two numeric weights add up; an empty or non-numeric weight counts as 0 |
| TenderCriteriaSetup.BalanceWindow | frontend/src/components/TenderCriteriaSetup.jsx:101 | the save check accepts exactly the totals from 99.995 inclusive to 100.005 exclusive |
| TenderCriteriaSetup.NumberOr | frontend/src/components/TenderCriteriaSetup.jsx:105-111 | the fallback is used only for a null value; an empty text reads as 0 and any other text as `Number` reads it |
| TenderCriteriaSetup.SaveConfig | frontend/src/components/TenderCriteriaSetup.jsx:95-112 | refused with the weights message exactly when the total is outside that window; otherwise a payload with the weights read by `Number`, the flags and method as set, and the pass mark and cap read from their input text with 0 and 100 only for null |
| TenderCriteriaSetup.ClearedCapSendsZero | frontend/src/components/TenderCriteriaSetup.jsx:111 | with balanced weights, a cleared cap input is sent as 0 and a null cap as 100 |
| TenderCriteriaSetup.AfterSave | frontend/src/components/TenderCriteriaSetup.jsx:114 | the save answer is laid over the configuration being edited; no answer leaves it unchanged |
| TenderCriteriaSetup.LoadThenSave | frontend/src/components/TenderCriteriaSetup.jsx:80-114 | loading and then saving gives the defaults overridden by the two answers merged, the save answer on top |
| TenderCriteriaSetup.DefaultsSave | frontend/src/components/TenderCriteriaSetup.jsx:12-20 | the default weights of 70 and 30 pass the save check |
| TenderCriteriaSetup.SectionGrows | frontend/src/components/TenderCriteriaSetup.jsx:64-70 | one more criterion joins the end of its own section only |
| TenderCriteriaSetup.Grouped | frontend/src/components/TenderCriteriaSetup.jsx:64-70 | each group keeps, in order, exactly the criteria of its section, and a criterion of any other section is in none |
| TenderCriteriaSetup.GroupSizes | frontend/src/components/TenderCriteriaSetup.jsx:64-70 | the groups together hold one entry per criterion of the three sections |
| TenderCriteriaSetup.NewCriterionFor | frontend/src/components/TenderCriteriaSetup.jsx:123-136 | compliance gets a mandatory yes/no check of weight 0, technical a scored criterion of weight 10, any other a scored one of weight 0; all out of 100, ordered after the section's current criteria |
| TenderCriteriaSetup.FailureMessage | frontend/src/components/TenderCriteriaSetup.jsx:140 | never empty: the server's detail first, the fallback when the answer gives neither detail nor error |
| TenderCriteriaSetup.AfterAdd | frontend/src/components/TenderCriteriaSetup.jsx:137-141 | success appends the created criterion and clears the error; failure keeps the list and shows an error |
| TenderCriteriaSetup.AfterRemove | frontend/src/components/TenderCriteriaSetup.jsx:147-156 | success keeps, in order, exactly the criteria with another id; failure keeps the list and shows an error |
| TenderCriteriaSetup.AddGrowsGroup | frontend/src/components/TenderCriteriaSetup.jsx:64-138 | adding a criterion grows its own section's group by it at the end and leaves the other groups |
| TendersListView.Filtered | frontend/src/components/TendersView.jsx:31-37 | keeps, in order, exactly the tenders of the chosen status (any for `all`) whose reference or title contains the search, ignoring case |
| TendersListView.EmptySearchShowsStatus | frontend/src/components/TendersView.jsx:31-37 | an empty search with `all` shows the whole list, and with a status exactly the tenders of that status |
| TendersListView.StatusFilterExact | frontend/src/components/TendersView.jsx:32 | the status match is case-sensitive: `Published` hides a `published` tender |
| TendersListView.StatusColor | frontend/src/components/TendersView.jsx:21-29 | green exactly for published, yellow exactly for evaluation, blue exactly for awarded, gray otherwise |
| TenderModels.OpenUntilClosing | backend/tenders/models.py:138-140 | `is_open` only ends: a tender open at some instant was open at every earlier one, and none is open from its closing date on or while it is not published |
| TenderModels.DaysRemaining | backend/tenders/models.py:142-147 | 0 unless the tender is open; while open the whole days left, floored: d days fit before the closing and d + 1 do not |
| TenderModels.DaysRemainingMonotone | backend/tenders/models.py:138-147 | a later instant never leaves more days |
| TenderModels.PublicationDefaultAsWritten | backend/tenders/models.py:99 | as written, every tender's default publication date is the instant the module was loaded, whenever it is created |
| TenderModels.PublicationDefaultIsFrozen | backend/tenders/models.py:99 | two tenders created a day apart get the same default date, and not their own creation instant |
| TenderModels.PublicationDefault | backend/tenders/models.py:99 | the intended default stamps each tender with its own creation instant |
| TenderModels.PublicationDefaultFollowsCreation | backend/tenders/models.py:99 | with the intended default, a later tender gets a later date, never before its creation |
| TenderSerializer.CategoryLevel | backend/tenders/serializer.py:30-36 | a top-level category is at level 1 and a child at least level 2, always below its parent |
| TenderSerializer.LevelIsDepth | backend/tenders/serializer.py:30-36 | along a chain of categories from a root, each level is the depth |
| TenderSerializer.FieldErrors | backend/tenders/serializer.py:39-108 | the error map holds exactly the fields whose check fails, each with that check's error |
| TenderSerializer.HasCheck | backend/tenders/serializer.py:39-108 | a field carries an error in the map exactly when its check gives that error |
| TenderSerializer.EmptyErrors | backend/tenders/serializer.py:41-67 | `Required` exactly for a left-out title, description, category, procurement method or closing date; `may not be null` exactly for a null where the field does not allow null |
| TenderSerializer.TextErrors | backend/tenders/serializer.py:41-52 | a blank title, description or currency is refused as blank, and a reference, title or currency over 100, 500 or 3 characters as too long, all on the trimmed text |
| TenderSerializer.ChoiceErrors | backend/tenders/serializer.py:50-67 | a procurement method or security type outside its choices is refused |
| TenderSerializer.ReferenceError | backend/tenders/serializer.py:77-82 | a trimmed, non-blank reference of at most 100 characters is refused exactly when a tender already uses it |
| TenderSerializer.ForeignKeyErrors | backend/tenders/serializer.py:84-102 | a category, subcategory or procuring entity is refused exactly when an id is sent that names no row; a null subcategory or entity passes |
| TenderSerializer.ClosingError | backend/tenders/serializer.py:104-108 | a sent closing date is refused exactly when it is not after now |
| TenderSerializer.LongTitleRefused | backend/tenders/serializer.py:42 | a title over 500 characters is never accepted and is reported as too long |
| TenderSerializer.Validated | backend/tenders/serializer.py:39-108 | refused exactly when some field fails, with exactly the field errors; otherwise the accepted values, with the reference trimmed |
| TenderSerializer.ValidatedMeaning | backend/tenders/serializer.py:39-108 | an accepted request has a blank or unused reference of at most 100 characters, a known category, a known subcategory and entity when given, and a closing date after now |
| TenderSerializer.ValidClosingDateOpensOnPublish | backend/tenders/serializer.py:104-108 | the closing date of an accepted request leaves the tender open once published, with days remaining |
| TenderSerializer.ReferenceBase | backend/tenders/serializer.py:126-127 | the generated base starts with `TDR-` |
| TenderSerializer.Candidate | backend/tenders/serializer.py:129 | the candidate is the base, a dash and a suffix of at least four digits |
| TenderSerializer.CandidateInjective | backend/tenders/serializer.py:129-133 | different suffixes give different candidates |
| TenderSerializer.FreshCandidatesStayUntried | backend/tenders/serializer.py:131-133 | trying one candidate leaves every later one untried, so the loop ends |
| TenderSerializer.GenerateReferenceNumber | backend/tenders/serializer.py:124-135 | the reference is unused, and is the first unused candidate from one more than the number of tenders |
| TenderSerializer.FirstActiveLink | backend/tenders/serializer.py:119 | none exactly when the user has no active link; otherwise the entity of the first one in table order |
| TenderSerializer.ResolveProcuringEntity | backend/tenders/serializer.py:110-122 | an explicit id must name an existing entity; otherwise the first active link decides, and its absence is an error |
| TenderSerializer.Create | backend/tenders/serializer.py:137-164 | refused without a signed-in user or a resolvable entity; otherwise a draft in preparation, dated now, with the given closing date and reference, or a fresh generated one when blank |
| TenderSerializer.ValidateStatus | backend/tenders/serializer.py:184-198 | passes the value unchanged exactly when there is no instance, the status is kept, or it is a known status the transition map allows; an unknown value on an instance is refused as invalid |
| TenderSerializer.StatusTrace | backend/tenders/serializer.py:184-198 | one status per request applied |
| TenderSerializer.UpdatesFollowTransitions | backend/tenders/serializer.py:184-198 | however many updates are requested, the status only stays or moves along the transition map |
| TenderViews.TenderReference | backend/tenders/views.py:40 | every generated tender reference starts with `TND-` |
| TenderViews.TenderReferenceParts | backend/tenders/views.py:40 | the reference reads back as `TND-`, the year, `-`, then the first eight characters of the identifier upper-cased, so no lower-case letter appears in that part |
| TenderViews.DocumentFor | backend/tenders/views.py:105-115 | a stored document keeps the file's size and content type and takes each metadata value that was sent, else the defaults: the file name, `other`, not mandatory, version `1.0` |
| TenderViews.CreateDocuments | backend/tenders/views.py:97-117 | the stored documents are exactly the files whose index is below `document_count` and whose metadata was sent, in strictly increasing upload order, each built from its own file and metadata |
| TenderViews.CreateTender | backend/tenders/views.py:26-135 | a missing `tender_data` is refused; the request succeeds exactly when the data is present, the category and entity exist and any given subcategory exists; the created tender gets a `TND-` reference, the requested status or draft, its closing date, all the requirements, and as documents exactly the eligible files in upload order, each built from its own file and metadata |
| TenderViews.Applied | backend/tenders/views.py:266-287 | applying the summary rows never adds or removes a bid |
| TenderViews.Processed | backend/tenders/views.py:288 | the updated ids are exactly the row ids that name a bid of the tender, never more than the rows |
| TenderViews.FirstTop | backend/tenders/views.py:289-294 | the top recommendation is the first processed row ranked 1, and is absent exactly when no processed row has rank 1 |
| TenderViews.RecordRecommendation | backend/tenders/views.py:255-298 | the recommendation loop leaves the bids as the rows applied in turn, reports the processed ids and the first rank-1 row |
| TenderViews.UnnamedBidUnchanged | backend/tenders/views.py:270-272 | a bid that no row names keeps all its scores and its ranking |
| TenderViews.UnsentFieldsKept | backend/tenders/views.py:278-285 | a score or ranking that no row naming the bid sends keeps its stored value |
| TenderViews.LastRowWins | backend/tenders/views.py:278-285 | the last row naming a bid decides every field it sends |
| TenderViews.EntryUser | backend/tenders/views.py:406 | a member entry's user is its `user_id`, else its `id`, and never 0 |
| TenderViews.OrDefault | backend/tenders/views.py:407-408 | a sent non-empty value is used, otherwise the default |
| TenderViews.MembersFrom | backend/tenders/views.py:405-421 | the created members are at most the entries, each names a known user and has a non-empty role |
| TenderViews.KnownEntriesKept | backend/tenders/views.py:405-421 | every entry naming a known user becomes a member with its role (default `member`) and expertise (default empty) |
| TenderViews.CommitteeName | backend/tenders/views.py:378 | the committee name is never empty |
| TenderViews.Committee.constructor | backend/tenders/views.py:393-401 | a new committee has no name, no chairperson and no members |
| TenderViews.Committee.ReplaceMembers | backend/tenders/views.py:402-421 | succeeds exactly when no two built members name the same user (the `unique_together` of bids/models.py:181); then the committee holds exactly the members built from the entries, and in every case it holds a prefix of them |
| TenderViews.MembersPrefix | backend/tenders/views.py:405-421 | the members built from a prefix of the entries are a prefix of those built from all of them |
| TenderViews.RepeatedMember | backend/bids/models.py:181 | a member whose user is already in a prefix makes the whole list break the one-user-per-committee rule |
| TenderViews.SameUserTwiceFails | backend/tenders/views.py:405-421 | two entries naming the same known user, by id and by user id, break the rule |
| TenderViews.SaveCommittee | backend/tenders/views.py:332-423 | an unauthorised caller, a missing chairperson and an unknown chairperson are refused in that order and change nothing; past those, the answer is a server error exactly when two members would name the same user, and then the transaction is rolled back; a saved committee has its name, the existing chairperson and the members from the entries, all distinct |
| TenderViews.RankedNoLaterIsPreorder | backend/tenders/views.py:444 | ordering by ranking with the sentinel for unranked bids is a total preorder |
| TenderViews.SummaryOrder | backend/tenders/views.py:444 | the summary is a permutation of the bids, ascending by ranking |
| TenderViews.UnrankedLast | backend/tenders/views.py:444 | with real rankings below the sentinel, unranked bids come after every ranked one |
| TenderViews.CountAtEvaluation | backend/tenders/views.py:463 | the count of tenders at the evaluation stage is zero exactly when none is there |
| TenderViews.CountClosedUncontracted | backend/tenders/views.py:465 | the count of closed tenders without a contract is zero exactly when there is none |
| TenderViews.PendingEvaluations | backend/tenders/views.py:462-467 | the pending count is the number at the evaluation stage when there are any, else the number of closed tenders without a contract |
| TenderViews.ThisMonthMeaning | backend/tenders/views.py:470 | a contract counts for this month exactly when it has today's year and month and a day no later than today |
| TenderViews.CompletedThisMonth | backend/tenders/views.py:469-471 | the completed count is at most the number of contracts and is zero exactly when none was created this month |
| TenderViews.WholeDays | backend/tenders/views.py:480 | a duration counts the whole days it spans, rounded down |
| TenderViews.Durations | backend/tenders/views.py:476-480 | one duration at most per contract |
| TenderViews.AverageDaysToComplete | backend/tenders/views.py:474-481 | the average is 0.0 without durations, else the mean of the contracts' whole-day durations rounded to one place |
| TenderViews.DurationsNonNegative | backend/tenders/views.py:476-480 | when no contract precedes its tender, every duration is non-negative |
| TenderViews.RoundedMeanNonNegative | backend/tenders/views.py:481 | the rounded mean of non-negative values is non-negative |
| TenderViews.AverageDaysNonNegative | backend/tenders/views.py:474-481 | when no contract precedes its tender, the reported average is non-negative |
| TenderViews.AverageBidCount | backend/tenders/views.py:504-511 | 0 with no tenders; otherwise within half a hundredth of the mean number of bids per tender |
| TenderViews.AverageBidCountNonNegative | backend/tenders/views.py:504-511 | the average bid count per tender is never negative |
| TenderViews.Latest | backend/tenders/views.py:520-525 | the last evaluation instant is one of the instants and no earlier than any other |
| TenderViews.EvaluationDays | backend/tenders/views.py:526-530 | a tender's evaluation time in days is clamped at zero |
| TenderViews.EvaluationDurations | backend/tenders/views.py:515-530 | one non-negative duration per tender with a closing date and an evaluation, and none exactly when no tender has both |
| TenderViews.AverageEvaluationDays | backend/tenders/views.py:513-531 | the average is absent exactly when no tender has both a closing date and an evaluation, else the non-negative mean of the durations rounded to two places |
| UserModels.ParseUserType | backend/users/models.py:39-44 | a user-type text is read as supplier exactly for `supplier`, and falls outside the choices exactly when it is none of the four |
| UserModels.SupplierAdminOnlyAsSuperuser | backend/users/models.py:84-92 | `is_supplier` and `is_admin_user` meet only in superusers: a supplier has admin privileges exactly when it is a superuser |
| UserModels.DashboardAccess | backend/users/models.py:84-112 | the admin dashboard is open to exactly the admin, evaluator and procuring-entity types and superusers, the bidder dashboard to exactly suppliers, and no non-superuser reaches both |
| UserModels.DashboardRoute | backend/users/models.py:114-121 | the route is `/dashboard` exactly with admin-dashboard access, `/bidder/dashboard` exactly for a supplier without it, `/login` exactly for everyone else |
| UserModels.LoginRouteOnlyForUnknownTypes | backend/users/models.py:114-121 | only a non-superuser whose type is outside the choices is sent to `/login`, whatever the account status |
| UserModels.SetDefault | backend/users/models.py:25-27 | `setdefault` fills an argument that was not passed and keeps one that was |
| UserModels.CreateUser | backend/users/models.py:15-22 | an empty or missing email is refused and nothing else is; a created user keeps the email, has the model defaults for flags not passed, is pending verification unless told otherwise, is not email-verified, and has an unusable password exactly when none was given |
| UserModels.CreateSuperuser | backend/users/models.py:24-34 | a staff flag passed as anything but True is refused first, then a superuser flag; a created superuser is staff and superuser |
| UserModels.SuperuserReachesAdminDashboard | backend/users/models.py:24-34 | with a non-empty email and flags unset or True, creation succeeds and the user is an admin routed to `/dashboard` |
| UserModels.CleanSupplierProfile | backend/users/models.py:279-282 | a profile passes exactly when it has no user yet or its user is a supplier |
| UserModels.CleanProfileOwnerIsBidder | backend/users/models.py:279-282 | a profile's non-superuser owner that passes the check is routed to the bidder dashboard |
| UserSerializer.ParentEntity | backend/users/serializer.py:26-33 | the parent summary is absent exactly for a top-level entity, else it carries the parent's id, name and code |
| UserSerializer.RemoveAll | backend/users/serializer.py:74 | removing the country code never lengthens the value |
| UserSerializer.RemoveAllAbsent | backend/users/serializer.py:74 | a value without `+` is left unchanged by the removal |
| UserSerializer.PhoneCheck | backend/users/serializer.py:58-78 | an empty phone is reported as required exactly when empty; a phone passes exactly when non-empty, valid for the library and nine characters long once every `+260` is removed; the count is checked only on library-valid numbers |
| UserSerializer.PhoneForms | backend/users/serializer.py:73-76 | `+260` and nine digits passes, while the national form with a leading 0 fails the digit count |
| UserSerializer.Cleaned | backend/users/serializer.py:36-50 | every sent text but the user type is trimmed, as the character fields do by default, and the user type is kept as sent |
| UserSerializer.NullErrors | backend/users/serializer.py:36-50 | every one of the eight fields, the first and last names included, is refused as null exactly when sent as null |
| UserSerializer.BlankErrors | backend/users/serializer.py:36-50 | an email, password, confirmation, username or phone that is blank once trimmed is refused as blank; the names may be blank |
| UserSerializer.ChoiceError | backend/users/serializer.py:47 | a user type outside the four choices is refused as not a valid choice, exactly for such a value |
| UserSerializer.FrameworkErrors | backend/users/serializer.py:36-50 | a framework error on a field is reported exactly when the field is sent and passes its null, blank and choice checks |
| UserSerializer.FieldPasses | backend/users/serializer.py:36-78 | a field passes exactly when it is sent, raises no framework error, passes its blank or choice check and, for the phone, the validator accepts the trimmed text |
| UserSerializer.PhoneErrors | backend/users/serializer.py:58-78 | the phone validator's error is reported exactly for a non-blank phone the framework accepted and the validator rejects, and its empty-value error is never reported |
| UserSerializer.FieldErrors | backend/users/serializer.py:36-78 | the error map holds exactly the fields whose check fails, each with that check's error |
| UserSerializer.Validate | backend/users/serializer.py:52-56 | any field error fails validation with exactly the field errors; otherwise only the password mismatch can fail it; accepted data is the cleaned data |
| UserSerializer.ValidateMeaning | backend/users/serializer.py:36-78 | accepted data has all eight fields sent, a non-blank email, username and password, passwords equal once trimmed, a phone the validator accepts, a known user type, and no framework error |
| UserSerializer.PasswordsDecide | backend/users/serializer.py:52-56 | once the fields pass, validation succeeds exactly when the two trimmed passwords match |
| UserSerializer.SurroundingSpacesIgnored | backend/users/serializer.py:52-56 | passwords differing only by surrounding spaces match, since both are trimmed first |
| UserSerializer.UserFromValidated | backend/users/serializer.py:80-89 | the created user has the hashed password, the validated email, username and first and last names (empty when absent), the phone from `phone` or else `phoneNumber`, the parsed user type, and the model defaults for the flags and status |
| UserSerializer.Create | backend/users/serializer.py:80-89 | `create` builds exactly that user: the confirmation dropped, the password set by hashing, the phone moved to its field |
| UserSerializer.OptionalText | backend/users/serializer.py:48-49 | an unset value is sent as null and only then |
| UserSerializer.UserTypeText | backend/users/serializer.py:42 | a user type of the four choices is written as the text that reads back as it |
| UserSerializer.Representation | backend/users/serializer.py:91-95 | the output has exactly the readable fields, including the reset token and expiry as stored, the phone as its text, and never the password or its confirmation |
| UserSerializer.RegisteredUserEcho | backend/users/serializer.py:80-95 | a registered user is sent back with the email, phone and user type it registered with, no reset token and no password |
| UserViews.Identifier | backend/users/views.py:55 | the login identifier is the email when one is sent non-empty, else the username |
| UserViews.Login | backend/users/views.py:40-83 | a missing identifier or password is refused first, then credentials `authenticate` rejects, then an inactive or suspended account, each exactly when its condition holds; a successful login is active, not suspended, and gets its dashboard route |
| UserViews.UsernameIsEmailAlias | backend/users/views.py:53-55 | logging in with a username, or with an empty email beside it, is the same as logging in with that value as the email |
| UserViews.AdminGuard | backend/users/views.py:132-147 | the guard refuses an anonymous request, then a user without admin-dashboard access, then an inactive or suspended one, and passes exactly the active, unsuspended users with access |
| UserViews.LoginAgreesWithGuard | backend/users/views.py:132-147 | a logged-in user passes the admin guard exactly when the login sent them to `/dashboard` |
| UserViews.FirstPresentMeaning | backend/users/views.py:251-256 | `pick` finds nothing exactly when no alias key is present, and otherwise returns the value under the first present alias |
| UserViews.FirstPresentAgrees | backend/users/views.py:251-256 | two payloads that agree on the alias keys pick the same value |
| UserViews.Pick | backend/users/views.py:251-256 | the picking loop returns the value of the first alias key present |
| UserViews.ParseInt | backend/users/views.py:283-285 | a text without a minus sign never reads as a negative integer |
| UserViews.ParseIntOfDigits | backend/users/views.py:283-285 | the decimal digits of a number read back as that number |
| UserViews.WithTypeKeepsFields | backend/users/views.py:246-256 | defaulting the user type does not change what any other field picks |
| UserViews.PickUserData | backend/users/views.py:258-268 | the serializer input takes each field from its aliases in order, with the user type defaulted to supplier |
| UserViews.Experience | backend/users/views.py:280-289 | an absent or empty experience means none; a text that is not an integer is refused exactly then; an accepted experience is the integer read and is at least 0 |
| UserViews.Register | backend/users/views.py:220-324 | an invalid serializer input is refused with its errors, then a bad experience, then a supplier without a registration number; a registered user was sent every field, and has the trimmed picked email, username, first and last names and phone, the hash of the trimmed picked password and the requested type, and is pending verification; a supplier, and only a supplier, gets a pending profile with the trimmed company name, registration number (non-blank) and business category and the parsed years of experience |
| UserViews.RegisterWithoutFirstNameRefused | backend/users/views.py:251-272 | a registration without a first name under either spelling is refused, with the first name reported as null |
| UserViews.DefaultRegistrationIsSupplier | backend/users/views.py:246-248 | a registration without a user type asks for a supplier account |
| UserViews.UserRow.constructor | backend/users/models.py:60-70 | a user row starts with the given flags and columns and its email not verified |
| UserViews.ProfileRow.constructor | backend/users/models.py:268-270 | a supplier profile starts pending, unverified and without notes, with a verification time exactly when verified |
| UserViews.EntityUserRow.constructor | backend/users/models.py:200-203 | an entity role row holds its id, user and columns |
| UserViews.VerifySupplier | backend/users/views.py:351-398 | behind the admin guard, a missing user or profile or an action other than verify or reject in any case changes nothing; verifying marks the profile verified now and the account active and email-verified; rejecting clears the verification time and leaves the account; notes replace the old ones only when non-empty |
| UserViews.ActionIgnoresCase | backend/users/views.py:367 | the action is read ignoring case, and an absent action is empty |
| UserViews.VerifiedSupplierCanLogIn | backend/users/views.py:373-377 | a supplier that verification made active can log in and is sent to the bidder dashboard |
| UserViews.EditRequest.constructor | backend/users/views.py:455-461 | a new edit request is pending and unreviewed, with the requester, target and changes it was made with |
| UserViews.SubmitEditRequest | backend/users/views.py:428-462 | an anonymous request is refused, a non-supplier targeting the supplier profile is refused, an entity role not owned by the requester is refused, each exactly then; otherwise a new pending request records the lower-cased target, the target id and the changes |
| UserViews.Permitted | backend/users/views.py:517-541 | exactly the proposed columns on the whitelist pass, with their proposed values |
| UserViews.ApplyChanges | backend/users/views.py:517-520 | the approval loop applies exactly the whitelisted proposed columns and reports them as applied |
| UserViews.ApprovalStaysInWhitelist | backend/users/views.py:514-542 | approval never touches a column outside the whitelist, sets every whitelisted proposed column, and applying it again changes nothing |
| UserViews.ReviewEditRequest | backend/users/views.py:483-556 | behind the admin guard, a missing request or an action other than approve or reject changes nothing; rejecting records the review and touches no other row; approving applies the target's whitelist to its own row only, then records the review |
| UserViews.ApproveTarget | backend/users/views.py:511-544 | the user, the supplier profile or the entity role gets exactly its whitelisted proposed columns; a missing profile or role or an unknown target is refused exactly then and changes nothing |

## Left out

- HTTP and JSON plumbing. Handlers are functions or methods of their decoded inputs. The "Invalid JSON" 400 answers of the login, registration, verification and edit-request views are not modelled. Neither are the `JSONDecodeError` and catch-all 500 paths of `create_tender` and `procurement_analytics`, nor the thin API wrappers.
- Persistence and transactions. Saved rows are values or class fields. The `bulk_update` that writes rankings back is represented by the rankings the method returns.
- Files. Uploads, storage paths and serving are not modelled. A stored document keeps only its file's name, size and content type. The registration view's three certificate files are not modelled.
- Email. `send_supplier_verification_email` (backend/users/utils.py) is not modelled. Its failures are ignored by `verify_supplier` anyway.
- Foreign libraries. Password hashing is the constructor `HashOf`. `authenticate` is a parameter. The phone-number library is a three-way verdict parameter; only the digit-count rule is modelled. Django's `normalize_email` is not modelled, so the email is stored as given.
- `decodeURIComponent` is a parameter of the cookie reader, which always yields a text. A value with a malformed `%` escape makes the real function throw a `URIError`; the model does not capture that.
- Cookie names are matched literally, as the pattern built from a name of letters, digits, `_` and `-` (such as `csrftoken`) would match. A name with regular-expression metacharacters, which the pattern would read differently, is not modelled.
- Numbers and text. IEEE floating point and Python's ties-to-even `round` are not modelled. JavaScript string length is counted in characters, not UTF-16 code units. Whitespace is the ASCII set. Case conversion is ASCII.
- Formatting. `toLocaleString`, `Intl.NumberFormat` and date formatting for display are not modelled. `toISOString` is modelled only as success or failure. Number `toString` is modelled only as the count of digits it shows after the `.`, a parameter of the tender form's checks (0 for an exponent form such as `1e-7`).
- The tender status transition map. `Tender.TRANSITION_MAP` and `allowed_transitions()` are referenced at backend/tenders/serializer.py:195 and :222 but are not defined in backend/tenders/models.py. `TenderSerializer.ValidateStatus` takes the map as a parameter.
- The GET branch of `evaluation_committee` (backend/tenders/views.py:347-374) is not modelled, nor its 404 for an unknown tender. Only the permission check and the POST upsert are.
- `evaluation_summary` is modelled only through its sort. A line carries just the bid id, total score and ranking.
- `BidDetailView.patch` is modelled only through its edit guard and key normalisation. The serializer update that follows is not modelled.
- The supplier performance report carries no `supplier_name` text.
- Account endpoints outside the named core are not modelled: `me_view`, `logout_view`, `password_reset_view`, `check_user_access`, `my_profile`, the supplier and edit-request listings, and `ProcuringEntityListCreateView`. The same goes for `supplier_required` and the serializers other than `UserSerializer` and `ProcuringEntitySerializer.get_parent_entity` (`UserRoleSerializer`, `SupplierProfileSerializer`, `EntityUserSerializer`, `ProfileEditRequestSerializer`).
- Authentication client. The error mappings of `verifyEmail` and `resendOtp`, and the `me`, `checkUserAccess`, `getCsrf` and `logout` calls, are not modelled. The `FormData` branch of `register` is not modelled either; only the plain-object body is.
- Create-tender form. The message mapping of a failed submission (frontend/src/components/CreateTenderForm.jsx:310-324) is not modelled. Neither are the subcategory list and its reset when the category changes (:132-150), the document upload list (`handleFileUpload`, `removeDocument` and `updateDocumentType`, :191-211), or the category and entity fetches.
- Bid form. The document upload helpers (`handleDocumentUpload`, `removeDocument` and `getDocumentForRequirement`) and the page reload after submission are not modelled.
- React rendering, effects and timers. The timeouts that clear success messages, re-fetches after an action, console logging and the public modal's status badge are not modelled.
- BudgetModels.AllocationLedger: the approved quantity is a constant of the ledger. Editing a budget line (PUT or PATCH) can lower its approved quantity below what tenders already hold; `available_quantity` (backend/budgets/models.py:161-167) then goes negative, and the ledger's invariant that allocations stay within the approved quantity is not promised across such an edit.
- BudgetSerializers.Validate: only the field checks with validators on the budget line model's serial number, budget line, section, item description, unit and the three quantities are modelled: required, blank, `max_length`, `min_value=0` and `unique`. Not modelled: the decimal `max_digits`/`decimal_places` checks, the `choices` of status, currency and procurement process, explicit `null` values, the other fields' lengths, and the error message texts. The serial's uniqueness validator and `validate_serial_number` refuse the same serials, so one `SerialInUse` error stands for either.
- BudgetViews.BudgetAnalytics: the database clock behind `Now()` is the parameter `now`.
- TenderSerializer.FieldErrors: only the reference, title, description, category, subcategory, procuring entity, procurement method, currency, closing date and security type are modelled, with the checks named in its rows. Not modelled: the `max_digits`/`decimal_places` checks on the estimated value and security amount, the optional text, date, integer and boolean fields, parse errors (a non-integer id, a malformed date, a non-string text), and the message texts. A currency left out takes its default `ZMW` and is not an error.
- UserSerializer.FieldErrors: the framework's email format, uniqueness and length checks are a parameter keyed by field, not computed. A key left out of the data (rather than sent as null) is not modelled, since `register_view` always sends all eight. The message texts of the framework's own errors are given, not derived.
- TenderViews.CompletedThisMonth: its contract bounds the count and says when it is zero. It does not state the count itself.
- TenderViews.Durations: its own contract only bounds the length. Its meaning is carried by `TenderViews.DurationsNonNegative` and by `TenderViews.AverageDaysToComplete`, which is proved to compute it.
- TenderViews.MembersFrom: its own contract bounds the length and says every member names a known user with a role. Completeness is `TenderViews.KnownEntriesKept`, and `TenderViews.Committee.ReplaceMembers` is proved to compute it.

## Findings

| source | as written | input that shows it | evidently intended | confidence | as-written member | corrected member |
|---|---|---|---|---|---|---|
| backend/tenders/models.py:99 | `default=now()` calls `now` once, when the module loads, so every tender created without a date gets that one instant | two tenders created a day apart get the same publication date, and it is neither one's creation time | `default=now` (the callable), stamping each tender when it is created | high, not executed | TenderModels.PublicationDefaultAsWritten | TenderModels.PublicationDefault |
| backend/bids/views.py:335-339 | the change-status endpoint submits a bid without the mandatory-upload check that `SubmitBidView` makes | a draft on an open tender with one required upload missing: the submit endpoint refuses it, the change-status endpoint submits it | the same upload check on every path to `submitted` | medium, not executed | BidViews.ChangeStatusSkipsUploadCheck | BidViews.ChangeStatusChecked |
| backend/budgets/views.py:396 | `models.F(...)` is used, but no name `models` is imported in the module, so `budget_analytics` raises a NameError on every call | any request, even with no milestones and no budget lines | the adherence and variance analytics computed from the milestones and lines | high, not executed | BudgetViews.BudgetAnalyticsAsWritten | BudgetViews.BudgetAnalytics |
| frontend/src/components/base/SideBar.jsx:7 | only three props are destructured, so the `routeFor` that AppLayout passes for bidders is never read | a bidder clicks `my-bids` and is sent to `/dashboard` instead of `/bidder/bids` | the parent's route table when given, the built-in one otherwise | high, not executed | SideBar.HandleClickAsWritten | SideBar.HandleClick |
| frontend/src/api/auth.jsx:75-81 | the suspended, inactive and pending-verification errors thrown inside `try` have no `response`, so `catch` reports them as a network error before its rule for the function's own messages | a 200 login answer whose `status` is `pending_verification` (a supplier awaiting verification) shows "Network error. Please check your connection." | each account state's own message | high, not executed | Auth.LoginAsWritten | Auth.Login |
| backend/budgets/views.py:267-272 | the timeline serializer's fields do not include `budget_line`, so the line id put into the data at views.py:248 is dropped and `save()` inserts a milestone with no line, which the non-null foreign key refuses | a POST `{"stage": "bid_advertisement"}` to a budget line with no milestones answers 500 and stores nothing | the milestone created for that budget line | high, not executed | BudgetViews.Timeline.PostAsWritten | BudgetViews.Timeline.Post |
