# PlugPlayers mock back end, team builder and route guards in Dafny

This project models the core of the PlugPlayers staffing prototype. Client
organizations post jobs and candidates apply to them. Clients schedule
interviews, request shortlists from a team builder, generate and sign
contracts, and pay candidates. Notifications tell each party what happened.

The model covers:

- **The mock API store** (`legacy_upload/data.ts`). It is the in-memory
  tables (users, organizations, candidates, jobs, applications, interviews,
  shortlist requests, contracts, payments, notifications) and the operations
  that change them.
  - The store is the class `MockApi.Store`. It has one field per table plus a
    notification counter.
  - Each method states its whole new state as a pure function of the old
    one. For example, `ensures Tables() == AfterApplyForJob(old(Tables()), …)`.
  - Those functions live in `tables.dfy`. The properties the application
    relies on are proved about them in `lifecycle.dfy`: the per-job
    application counts, one application per candidate and job, signatures
    that follow the contract status, and disbursement dates.
  - Every store method keeps the store invariant `Valid()`.
- **The estimator** (`data.ts`: `ROLES_DATABASE`, `PROJECT_TEMPLATES`,
  `calculateTeamPerformance`, `runSimulation`, `generateTeamSuggestion`). It
  lives in `estimator.dfy`. The weeks estimate is the integer ceiling of the
  category's work over the team's weekly output, and the cost is the weeks
  times the weekly cost.
- **Three pieces of the modals** (`legacy_upload/components/modals.tsx`): the
  candidate CSV parser, the contract signing rule and the payment amount
  check. They live in `modals.dfy`.
- **The team builder's list edits** (`legacy_upload/pages/TeamBuilderPage.tsx`):
  raising or lowering a head count, adding a role, and the roles still
  available. They live in `team_builder.dfy`.
- **The two route guards.** `legacy_middleware.dfy` models
  `legacy_upload/middleware.ts`, and `app_middleware.dfy` models
  `src/middleware.ts`. Each one decides between letting a request through
  and redirecting it.

Support modules:

- `wrappers.dfy`: `Option`.
- `text.dfy`: `startsWith`, `toLowerCase`, `trim`, `split` and decimal
  rendering.
- `seqs.dfy`: `find`, `findIndex`, `filter`, and the
  `map(x => cond ? update : x)` idiom.
- `domain.dfy`: the records of `legacy_upload/types.ts`.
- `http.dfy`: the guards' response.

The clock, `Date.now()` and `Math.random()` ids are parameters of the
operations (`now`, `interviewId`, `contractId`, `paymentId`, `stamp`).
Notification ids come from a counter.

Hiring and contract generation are two separate calls:

- `updateApplicationStatus` does not generate a contract when it sets an
  application to `Hired`. The client portal calls `generateContract` right
  after it (`legacy_upload/pages/ClientPortal.tsx:254-255`).
  `Lifecycle.HireYieldsContract` states what that pair of calls yields.

## Model

| member | source | states |
|---|---|---|
| Text.Lower | legacy_upload/data.ts:171 | `toLowerCase` keeps the length and lower-cases each ASCII letter in place |
| Text.Trim | legacy_upload/components/modals.tsx:1194 | `trim` returns a slice of the input with no white space at either end, and everything cut off on either side is white space; it is empty exactly when the input is all white space, and leaves trimmed strings unchanged |
| Text.TrimChars | legacy_upload/components/modals.tsx:1194 | the trimmed string is no longer than the input and uses only its characters |
| Text.Split | legacy_upload/components/modals.tsx:1191-1194 | `split` on one character gives one more part than there are separators; no part contains the separator, and every character comes from the input |
| Text.SplitJoin | legacy_upload/components/modals.tsx:1194 | joining the parts of a split with the same separator gives back the input |
| Text.Decimal | legacy_upload/data.ts:175 | the decimal rendering used in `user-N` and `cand-…-N` ids is a non-empty digit string |
| Text.DecimalRoundTrip | legacy_upload/data.ts:175 | reading the rendered digits back as a base-10 number gives the number |
| Text.DecimalInjective | legacy_upload/data.ts:175 | two numbers with the same rendering are equal |
| Text.PrefixedDecimalInjective | legacy_upload/data.ts:300 | ids made of the same prefix and a rendered number, such as `cand-<stamp>-<k>`, are equal only for equal numbers |
| Seqs.FindIndex | legacy_upload/data.ts:144 | `findIndex` gives the first index that satisfies the predicate, and None exactly when no element does |
| Seqs.Find | legacy_upload/data.ts:144 | `find` gives the first element that satisfies the predicate (no earlier one does), and None exactly when none does |
| Seqs.Filter | legacy_upload/data.ts:718 | `filter` keeps exactly the satisfying elements, in order (a subsequence) |
| Seqs.FilterCounts | legacy_upload/data.ts:718 | `filter` keeps every satisfying value as many times as it occurs, and drops every other value entirely |
| Seqs.MapWhere | legacy_upload/data.ts:392 | the `map(x => p(x) ? f(x) : x)` idiom replaces every matching element and keeps the others, with the same length |
| Seqs.MapWhereKeepsFirstMatch | legacy_upload/data.ts:392-393 | after replacing records by ones with the same key, `find` on the key reaches the same position |
| Seqs.FilterAppend | legacy_upload/data.ts:736 | filtering distributes over concatenation |
| Seqs.FilterMapMembership | legacy_upload/components/modals.tsx:1193-1198 | the `forEach`-and-push loop yields a value exactly when some input maps to it |
| Domain.ClientRoles | legacy_upload/data.ts:665 | `role.startsWith('CLIENT')` holds for exactly CLIENT_ADMIN and CLIENT_MEMBER |
| Tables.FindCandidateByUserId | legacy_upload/data.ts:144 | the candidate found for a user is the first candidate with that user's email; None exactly when the user is unknown or no candidate has the email |
| Tables.PaymentsForCandidate | legacy_upload/data.ts:716-720 | the payments shown to a candidate are exactly the disbursed payments to that candidate, as a subsequence of the table with each one's multiplicity; none without a candidate profile |
| Tables.ClientDashboardStats | legacy_upload/data.ts:733-740 | each dashboard count is bounded by the size of its table |
| Lifecycle.PostOne | legacy_upload/data.ts:147-158 | `createNotification` puts one unread notification for the user at the front of the list and takes the next id |
| Lifecycle.BroadcastShape | legacy_upload/data.ts:376-378 | notifying several users one after another puts their notifications in front, in reverse order, each with the next id, and keeps the older ones behind |
| Lifecycle.SeedIsValid | legacy_upload/data.ts:15-89 | the seeded tables satisfy the store invariant: job ids are distinct, there is one application per candidate and job, each job's count equals its applications, and signatures and disbursement dates follow the status |
| Lifecycle.PostKeepsInvariant | legacy_upload/data.ts:147-158 | notifications never break the invariant |
| Lifecycle.ApplyFiles | legacy_upload/data.ts:360-371 | an application by a candidate who has not applied is appended as submitted, and the candidate then counts as having applied |
| Lifecycle.ApplyCountsAndAnnounces | legacy_upload/data.ts:372-379 | when the job exists, its `applicationsCount` rises by one, no other job changes, and each client admin of its organization is sent `<name> applied for <title>.` linking to the job; when it does not, jobs and notifications are unchanged |
| Lifecycle.ApplyKeepsOtherTables | legacy_upload/data.ts:360-380 | applying changes only applications, jobs and notifications |
| Lifecycle.ApplyNotifiesEachAdmin | legacy_upload/data.ts:375-378 | every client admin of the job's organization then has an unread new-application notification with that message and link |
| Lifecycle.ApplyIdempotent | legacy_upload/data.ts:361-363 | applying twice for the same job changes nothing the second time |
| Lifecycle.ApplyPreservesInvariant | legacy_upload/data.ts:360-380 | applying keeps each job's `applicationsCount` equal to its number of applications and keeps one application per pair |
| Lifecycle.UpdateStatusSets | legacy_upload/data.ts:392 | only the application with the id gets the new status; every other application is unchanged |
| Lifecycle.UpdateStatusPreservesInvariant | legacy_upload/data.ts:391-402 | a status change keeps the invariant |
| Lifecycle.ScheduleLinks | legacy_upload/data.ts:415-425 | the new interview is scheduled, appended, and also appended to its application's interviews |
| Lifecycle.ScheduleInterviewPreservesInvariant | legacy_upload/data.ts:415-433 | scheduling keeps the invariant |
| Lifecycle.UpdateInterviewSetsStatus | legacy_upload/data.ts:437 | the interview with the id gets the new status and keeps its id and application; its date, platform, meeting link and notes become the patch's where given and stay as they were otherwise; the other interviews, the applications and the contracts are unchanged |
| Lifecycle.RescheduleNoticeNeedsScheduled | legacy_upload/data.ts:454-456 | a candidate is told of a reschedule only when details were given, the interview was scheduled before, and the candidate has a user |
| Lifecycle.UpdateInterviewPreservesInvariant | legacy_upload/data.ts:434-458 | an interview update keeps the invariant |
| Lifecycle.CancelInterviewSetsStatus | legacy_upload/data.ts:461 | only the interview with the id becomes cancelled by the client |
| Lifecycle.CancelInterviewPreservesInvariant | legacy_upload/data.ts:459-471 | cancelling keeps the invariant |
| Lifecycle.AssignFulfills | legacy_upload/data.ts:614-616 | the request with the id becomes fulfilled with exactly the listed candidates that exist, in table order; other requests are unchanged |
| Lifecycle.AssignPreservesInvariant | legacy_upload/data.ts:614-625 | assigning keeps the invariant |
| Lifecycle.SignChangesIffAllowed | legacy_upload/data.ts:666-682 | a signing attempt changes the contract exactly when the signing rule allows the user's role in the contract's status |
| Lifecycle.SigningKeepsConsistent | legacy_upload/data.ts:666-682 | signing keeps signatures consistent with the status, never overwrites an existing signature, and never changes the content |
| Lifecycle.SigningRunConsistent | legacy_upload/data.ts:660-684 | after any run of signing attempts, a signed contract carries both signatures |
| Lifecycle.CandidateTurnNeedsClient | legacy_upload/data.ts:666-669 | a new contract reaches the candidate's turn only after a client user has signed |
| Lifecycle.SignedNeedsBothInOrder | legacy_upload/data.ts:666-682 | a new contract becomes signed only after a client signature followed by a candidate signature |
| Lifecycle.GeneratedContractIsFresh | legacy_upload/data.ts:626-650 | a generated contract awaits the client's signature, has no signatures, carries the given id, application and date, and takes its organization, client name, candidate, candidate name and job title from the application's job, organization and candidate |
| Lifecycle.ContractsNotUnique | legacy_upload/data.ts:626-650 | nothing stops a second contract for the same application: generating twice adds two contracts |
| Lifecycle.GeneratePreservesInvariant | legacy_upload/data.ts:626-650 | generating keeps the invariant |
| Lifecycle.SignPreservesInvariant | legacy_upload/data.ts:660-684 | signing keeps the invariant |
| Lifecycle.HireYieldsContract | legacy_upload/data.ts:626-650 | hiring an application then generating its contract marks it hired and appends exactly the contract that would have been generated before, for that candidate, awaiting the client |
| Lifecycle.PaymentNeedsNoSignature | legacy_upload/data.ts:685-701 | a payment is recorded for any existing contract, whatever its status; it is pending, has no disbursement date, carries the given id, amount, notes and date, and copies the contract's id, organization, client name, candidate and candidate name |
| Lifecycle.InitiatePreservesInvariant | legacy_upload/data.ts:685-701 | initiating a payment keeps the invariant |
| Lifecycle.DisburseSets | legacy_upload/data.ts:704 | only the payment with the id becomes disbursed, dated now |
| Lifecycle.DisbursePreservesInvariant | legacy_upload/data.ts:702-712 | disbursing keeps the invariant |
| Lifecycle.RegisterTwiceFails | legacy_upload/data.ts:169-173 | once an email is registered, registering it again in any letter case returns null and changes nothing |
| Lifecycle.RegisterPreservesInvariant | legacy_upload/data.ts:169-192 | registering keeps the invariant |
| Lifecycle.ImportedIds | legacy_upload/data.ts:298-303 | the CSV import creates at most one candidate per row, numbered `cand-<stamp>-<k>` with k counting up from 0 |
| Lifecycle.ImportedDistinct | legacy_upload/data.ts:298-303 | imported candidates have emails new to the table and distinct from each other, ignoring case |
| Lifecycle.ImportedCovers | legacy_upload/data.ts:296-306 | after the import, every row's email is in the table, ignoring case |
| Lifecycle.EmailsTaken | legacy_upload/data.ts:298-299 | after the rows before row n, an email is taken exactly when it was in the table or on one of those rows, ignoring case |
| Lifecycle.ImportedPrefix | legacy_upload/data.ts:298-304 | importing the first n rows yields the row-by-row result, one candidate per kept row |
| Lifecycle.ImportedRow | legacy_upload/data.ts:299-303 | row j is kept exactly when its email is neither in the table nor on an earlier row; a kept row becomes the next candidate, numbered by the rows kept before it, and a skipped row leaves the count unchanged |
| Lifecycle.ImportPreservesInvariant | legacy_upload/data.ts:296-306 | importing keeps the invariant |
| Lifecycle.MarkReadOnlyThat | legacy_upload/data.ts:723 | marking read sets the flag of the notifications with the id and changes nothing else |
| Lifecycle.MarkReadPreservesInvariant | legacy_upload/data.ts:722-724 | marking read keeps the invariant |
| Lifecycle.CountedIsFiltered | legacy_upload/data.ts:735-736 | the number of applications to a list of distinct jobs is the number of applications whose job id is among theirs |
| Lifecycle.DashboardTotalIsPostedCounts | legacy_upload/data.ts:733-740 | the dashboard's application total equals the sum of the `applicationsCount` fields of the organization's jobs |
| MockApi.Store.constructor | legacy_upload/data.ts:15-89 | the store starts with the seeded tables and is valid |
| MockApi.Store.CreateNotification | legacy_upload/data.ts:147-158 | the tables become the old ones with the one notification posted |
| MockApi.Store.NotifyEach | legacy_upload/data.ts:376-378 | the loop posts one notification per recipient, in order |
| MockApi.Store.Register | legacy_upload/data.ts:169-192 | returns the registered user (null for a known email) and leaves the tables as registration defines them, keeping the invariant |
| MockApi.Store.CreateCandidatesFromCsv | legacy_upload/data.ts:296-306 | appends exactly the imported candidates, returns their number, and keeps the invariant |
| MockApi.Store.ImportDrafts | legacy_upload/data.ts:297-305 | the import loop appends exactly the imported candidates and counts them |
| MockApi.Store.ApplyForJob | legacy_upload/data.ts:360-380 | the tables become those of applying for the job, keeping the invariant |
| MockApi.Store.FileApplication | legacy_upload/data.ts:364-379 | files the application, raises the job's count, and notifies the organization's client admins |
| MockApi.Store.UpdateApplicationStatus | legacy_upload/data.ts:391-402 | the tables become those of the status change, keeping the invariant |
| MockApi.Store.SetApplicationStatus | legacy_upload/data.ts:392-401 | rewrites the status and notifies the candidate's user |
| MockApi.Store.ScheduleInterview | legacy_upload/data.ts:415-433 | returns exactly the record it stored: the given id, the application, the given date, platform, meeting link and notes, and status scheduled; the tables become those of scheduling it, keeping the invariant |
| MockApi.Store.RecordInterview | legacy_upload/data.ts:416-432 | appends the interview, links it to its application, notifies the candidate, and returns exactly the interview it appended |
| MockApi.Store.UpdateInterview | legacy_upload/data.ts:434-458 | the tables become those of the interview update, keeping the invariant |
| MockApi.Store.RewriteInterview | legacy_upload/data.ts:436-458 | rewrites the interview and posts the notice the new status calls for |
| MockApi.Store.NotifyInterviewUpdate | legacy_upload/data.ts:445-457 | posts the reschedule-request, decline or reschedule notice, or nothing |
| MockApi.Store.CancelInterview | legacy_upload/data.ts:459-471 | the tables become those of the cancellation, keeping the invariant |
| MockApi.Store.MarkInterviewCancelled | legacy_upload/data.ts:461-470 | marks the interview cancelled and notifies the candidate |
| MockApi.Store.CreateShortlistRequest | legacy_upload/data.ts:593-607 | appends the new pending request and changes nothing else |
| MockApi.Store.AssignCandidatesToRequest | legacy_upload/data.ts:614-625 | the tables become those of the assignment, keeping the invariant |
| MockApi.Store.GenerateContract | legacy_upload/data.ts:626-650 | returns the contract generated from the agreement text (null when the application, job, candidate or organization is missing) and appends it, keeping the invariant |
| MockApi.Store.DraftContract | legacy_upload/data.ts:627-649 | generates and appends the contract for a given agreement template |
| MockApi.Store.SignContract | legacy_upload/data.ts:660-684 | the tables become those of the signing attempt, keeping the invariant |
| MockApi.Store.InitiatePayment | legacy_upload/data.ts:685-701 | the tables become those with the new pending payment, keeping the invariant |
| MockApi.Store.SubmitPayment | legacy_upload/components/modals.tsx:1003-1016 | the payment form reports "Please enter a valid positive amount." exactly for a missing or non-positive amount and then changes nothing; otherwise it initiates the payment |
| MockApi.Store.DisbursePayment | legacy_upload/data.ts:702-712 | the tables become those of the disbursement, keeping the invariant |
| MockApi.Store.MarkNotificationAsRead | legacy_upload/data.ts:722-724 | the tables become those with the notification read, keeping the invariant |
| Modals.DataRows | legacy_upload/components/modals.tsx:1191 | dropping the header leaves one row per line break |
| Modals.ParseCsv | legacy_upload/components/modals.tsx:1190-1199 | the parsing loop yields exactly the drafts of the data rows, in order |
| Modals.ParseRowFields | legacy_upload/components/modals.tsx:1194-1196 | a row yields a draft exactly when its first two trimmed fields are non-empty; missing skills give none, missing experience or rate give empty strings, and present fields are the trimmed parts |
| Modals.ParseBound | legacy_upload/components/modals.tsx:1191-1198 | an upload yields at most one candidate per line break |
| Modals.ParseRowsAppend | legacy_upload/components/modals.tsx:1193-1198 | parsing distributes over concatenated row lists, so drafts keep the row order |
| Modals.ParseRowsMembership | legacy_upload/components/modals.tsx:1193-1198 | a draft is parsed exactly when some row yields it |
| Modals.TrimmedParts | legacy_upload/components/modals.tsx:1194 | every trimmed part is trimmed, has no separator, and uses only characters of the input |
| Modals.ParsedRowIsClean | legacy_upload/components/modals.tsx:1194-1196 | every parsed draft has a non-empty name and email, trimmed fields without commas, and skills without commas or semicolons |
| Modals.ParsedUploadIsClean | legacy_upload/components/modals.tsx:1190-1199 | every draft of an upload is clean |
| Modals.CanSignByRole | legacy_upload/components/modals.tsx:813-819 | a client role may sign only a contract awaiting the client, the candidate only one awaiting the candidate, and an admin never |
| Modals.CheckPaymentAmount | legacy_upload/components/modals.tsx:1005-1009 | the amount is accepted exactly when it parses to a positive number; otherwise the error text is shown |
| Estimator.CalculateTeamPerformance | legacy_upload/data.ts:549-560 | the loop returns the team's weekly work units and weekly cost over `ROLES_DATABASE` |
| Estimator.SumOver | legacy_upload/data.ts:552-558 | the loop's two accumulators end as the sums over the team for a given role table |
| Estimator.WeeklyAppend | legacy_upload/data.ts:552-558 | both sums distribute over concatenated teams |
| Estimator.UnknownRolesContributeNothing | legacy_upload/data.ts:553-554 | a team of roles the table does not know has zero output and zero cost |
| Estimator.WeeklyNonNegative | legacy_upload/data.ts:552-558 | without negative head counts, both sums are non-negative |
| Estimator.EstimatedWeeksIsCeiling | legacy_upload/data.ts:563 | the weeks estimate is the ceiling: its weeks reach the work, one week fewer does not |
| Estimator.CeilingIsLeast | legacy_upload/data.ts:563 | no whole number of weeks that reaches the work is below the estimate |
| Estimator.WeeksBounded | legacy_upload/data.ts:563 | the estimate never exceeds the total work units |
| Estimator.MoreOutputNoMoreWeeks | legacy_upload/data.ts:563 | more weekly output never needs more weeks |
| Estimator.RunSimulation | legacy_upload/data.ts:574-592 | returns the estimate of the team for the category's work, with `ROLES_DATABASE` |
| Estimator.SimulateWith | legacy_upload/data.ts:575-591 | computes that estimate for a given role table |
| Estimator.UnknownTeamGetsNothing | legacy_upload/data.ts:574-592 | a team without one known role is estimated at zero weeks and zero cost |
| Estimator.UnknownMemberIgnored | legacy_upload/data.ts:580-586 | adding a member of an unknown role changes neither weeks nor cost |
| Estimator.AddingStaffNeverSlows | legacy_upload/data.ts:574-592 | adding staff to a productive team never lengthens the estimate |
| Estimator.GenerateTeamSuggestion | legacy_upload/data.ts:544-573 | returns the category's suggested team, explanation and alternatives, estimated exactly as `runSimulation` estimates that team |
| Estimator.OneFrontendDev | legacy_upload/data.ts:93 | one frontend developer gives 10 units and costs 3200 a week |
| Estimator.OneBackendDev | legacy_upload/data.ts:94 | one backend developer gives 10 units and costs 3400 a week |
| Estimator.OneDesigner | legacy_upload/data.ts:95 | one designer gives 8 units and costs 1950 a week |
| Estimator.SaasSuggestion | legacy_upload/data.ts:101-110 | the SaaS suggestion is estimated at 8 weeks and 68400 |
| TeamBuilder.TemplatesWellFormed | legacy_upload/data.ts:100-141 | every suggested and alternative team of `PROJECT_TEMPLATES` has one member per role, each with a positive count, the shape the page's edits keep |
| TeamBuilder.TeamChange | legacy_upload/pages/TeamBuilderPage.tsx:93-103 | every member left after a head-count change has a positive count |
| TeamBuilder.AdjustedAt | legacy_upload/pages/TeamBuilderPage.tsx:95-100 | with distinct roles, only the member of the role is adjusted |
| TeamBuilder.TeamChangeAt | legacy_upload/pages/TeamBuilderPage.tsx:93-103 | the member of the role moves by exactly +1 or -1 and stays in place, or leaves the team when its count reaches 0; every other member is kept, in order |
| TeamBuilder.DropUnstaffed | legacy_upload/pages/TeamBuilderPage.tsx:101 | filtering drops exactly the one unstaffed member |
| TeamBuilder.TeamChangeAbsent | legacy_upload/pages/TeamBuilderPage.tsx:93-103 | a change for a role not in the team leaves it unchanged |
| TeamBuilder.RemovalKeepsWellFormed | legacy_upload/pages/TeamBuilderPage.tsx:101 | removing a member keeps roles distinct and counts positive |
| TeamBuilder.AdjustKeepsWellFormed | legacy_upload/pages/TeamBuilderPage.tsx:95-99 | adjusting a member to a positive count keeps roles distinct and counts positive |
| TeamBuilder.TeamChangeKeepsWellFormed | legacy_upload/pages/TeamBuilderPage.tsx:93-103 | head-count changes keep the team at one member per role, each with a positive count |
| TeamBuilder.AddRoleEffect | legacy_upload/pages/TeamBuilderPage.tsx:105-117 | adding a role appends exactly one member of that role with one head, at the end, when a role is selected, absent from the team and in the table; otherwise nothing changes |
| TeamBuilder.AddRoleKeepsWellFormed | legacy_upload/pages/TeamBuilderPage.tsx:105-117 | adding a role keeps roles distinct and counts positive |
| TeamBuilder.AvailableRolesExactly | legacy_upload/pages/TeamBuilderPage.tsx:136-138 | a role is offered exactly when it is in the table and no member has its id; the offers keep the table's order |
| TeamBuilder.AddingOfferedRole | legacy_upload/pages/TeamBuilderPage.tsx:105-117 | adding an offered role appends it with one head, and it is then no longer offered |
| TeamBuilder.RemovedRoleOfferedAgain | legacy_upload/pages/TeamBuilderPage.tsx:136-138 | a role whose last head is removed is offered again |
| LegacyMiddleware.RoleRedirectTable | legacy_upload/middleware.ts:22-29 | ADMIN maps to /admin, CLIENT_ADMIN and CLIENT_MEMBER to /client, CANDIDATE to /candidate; the client roles are exactly those mapped to /client, and no role name is an inherited object key |
| LegacyMiddleware.AnonymousAccess | legacy_upload/middleware.ts:11-13 | without a user, the portal paths and /dashboard redirect to /login and every other path passes |
| LegacyMiddleware.LoggedInSkipsLogin | legacy_upload/middleware.ts:18-20 | a logged-in user asking for /login or /register is sent to /dashboard |
| LegacyMiddleware.RoleGate | legacy_upload/middleware.ts:29-38 | a user with a portal passes exactly on paths under its prefix and on /dashboard, and is otherwise redirected to the prefix |
| LegacyMiddleware.UnknownRolePasses | legacy_upload/middleware.ts:29-41 | a role that is neither an own nor an inherited key of the table passes everywhere except /login and /register |
| LegacyMiddleware.InheritedValueShape | legacy_upload/middleware.ts:29 | what an inherited key such as `constructor` or `__proto__` looks up is a non-empty string without `/` that contains `[` |
| LegacyMiddleware.InheritedRoleRedirects | legacy_upload/middleware.ts:29-38 | a role naming an inherited key is redirected from every page but /login, /register and /dashboard to the looked-up text, percent-encoded and resolved against the page's directory |
| LegacyMiddleware.InheritedRoleLoops | legacy_upload/middleware.ts:29-38 | for such a role, the page that redirect lands on redirects to itself, an endless loop |
| LegacyMiddleware.PortalResolves | legacy_upload/middleware.ts:37 | `new URL(prefix, request.url)` for a portal prefix is that prefix |
| LegacyMiddleware.RedirectSettles | legacy_upload/middleware.ts:5-42 | for every role that is not an inherited key, requesting the target of any redirect with the same cookie passes |
| LegacyMiddleware.NoSelfRedirect | legacy_upload/middleware.ts:5-42 | for every role that is not an inherited key, no path is redirected to itself |
| AppMiddleware.ProtectedExactly | src/middleware.ts:10-11 | a path is protected exactly when it starts with /admin, /client or /jobseeker |
| AppMiddleware.UnprotectedPasses | src/middleware.ts:10-13 | an unprotected path passes, with or without a session |
| AppMiddleware.ProtectedNeedsSignIn | src/middleware.ts:15 | a protected path without a session user redirects to /signin |
| AppMiddleware.RoleGates | src/middleware.ts:18-28 | a signed-in request passes exactly when every area it is under admits the role (ADMIN anywhere, CLIENT under /client, JOBSEEKER under /jobseeker); otherwise it goes to / |
| AppMiddleware.AdminNeverRedirected | src/middleware.ts:18-28 | a signed-in ADMIN is never redirected |
| AppMiddleware.RedirectSettles | src/middleware.ts:13-26 | both redirect targets are unprotected, so following a redirect passes |

## Left out

- Network latency (`setTimeout`) and `async` are left out. Every operation completes at once, and no two interleave.
- Operations outside the modelled core are not modelled: login, OTP, organization, job and profile maintenance, messaging, LinkedIn scraping, listing queries other than the candidate's payments, and the admin dashboard.
- `Date.now()`, `Math.random()` and `new Date().toISOString()` are left out. The generated ids and timestamps are parameters instead. Notification ids come from a counter, so they are distinct rather than random.
- `createCandidatesFromCsv` reads `Date.now()` once per row. The model uses one `stamp` for the whole upload.
- `Text.Lower` folds ASCII letters only. Unicode case mapping is left out.
- `parseFloat` is left out. The payment form receives its result as `Option<real>`, where None stands for NaN. The payment amount is a `real`, not a binary64 number.
- `Math.ceil` over a floating-point quotient is modelled as integer ceiling division. The operands are integers, so the results agree while the quotient is exactly representable.
- The signContract demo lookup of the candidate's user is left out; it derives an email from the candidate's first name. It is the parameter `candidateUserOf`.
- The dollar formatting of the amount in the disbursement notice is the parameter `formatAmount`.
- The interview patch's spread is modelled on present fields only. A key present with the value `undefined` is not distinguished from an absent key.
- Object aliasing is left out: the seeded organization's `members` array and the pushed user object are separate values in the model.
- The Next.js `config.matcher` lists in both middleware files are left out. The guards are modelled for every path; the matcher only decides which requests reach them.
- Cookie JSON parsing in the legacy guard is left out. It receives the parsed user, and only `role` is read, as any string. A cookie that fails to parse is not modelled.
- `auth()` and the session object are left out. The application guard receives `session?.user` as `Option<SessionUser>`.
- The team builder's React state is left out. That covers `setRoleToAdd('')` after adding, the loading flags, and `handleComparisonSelect`, which replaces the whole team.
- The estimator's sums and the team builder's edits take the role table as a parameter. The page always passes `ROLES_DATABASE`; `CalculateTeamPerformance`, `RunSimulation` and `GenerateTeamSuggestion` fix it.
- `Tables.ClientDashboardStats`: its own contract only bounds the counts. How the application total relates to the jobs' `applicationsCount` fields is stated by `Lifecycle.DashboardTotalIsPostedCounts`.
- `Lifecycle.Invariant` (its conjuncts `JobIdsDistinct` and `CountsMatch`) holds only over the modelled operations. `deleteOrganization` (`legacy_upload/data.ts:230-234`) removes jobs, and `createJob` (`legacy_upload/data.ts:249`) numbers the new job `job-${JOBS.length + 1}`. Deleting an organization with one job and then creating a job can repeat an existing id such as `job-3`. `applyForJob` then raises only the first job with that id, and the second job's count no longer matches its applications. Neither operation is modelled.
- `LegacyMiddleware.RedirectSettles`, `LegacyMiddleware.NoSelfRedirect` and `LegacyMiddleware.UnknownRolePasses` hold only for roles that are not inherited object keys. For a role such as `constructor`, `roleRedirects[user.role]` finds an inherited member, and `LegacyMiddleware.InheritedRoleLoops` shows the page it sends the user to redirecting to itself.
- `LegacyMiddleware.InheritedValue` renders an inherited method as V8's `function <name>() { [native code] }` text and `__proto__` as `[object Object]`. Other engines' text is left out.
- `LegacyMiddleware.Encode` percent-encodes only space, `"`, `<`, `>`, `` ` ``, `{` and `}`. `?`, `#`, `\`, dot segments and non-ASCII characters are left out of the URL parser model. No role value from the table or an inherited key contains them.
