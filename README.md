# ModernCRM in Dafny

A Dafny model of the logic of ModernCRM, a small customer-relationship manager.
It covers three parts:

- **The Express back end.** It keeps users, customers, deals and tasks in memory. A
  bearer-token gate stands in front of the CRM routes. The login and register routes
  issue the tokens. A dashboard route computes summary statistics.
- **The React list and analytics views.** The Tasks, Deals and Customers pages filter
  their rows by a case-insensitive search term and drop-down filters, count rows per
  status, stage or priority, and map values to badge classes. The Analytics page computes
  revenue, rates, averages, a pipeline chart and a grouping of customers by source.
- **The client session cache.** It holds the signed-in user and a loading flag, and
  mirrors the user in the browser's `crm_user` local-storage slot.

Modules, one file each:

| file | module | models |
|---|---|---|
| `wrappers.dfy` | `Wrappers` | `Option`, for absent JSON fields and failed lookups |
| `text.dfy` | `Text` | ASCII `toLowerCase`/`toUpperCase`, `includes`, `split` with a one-character separator |
| `seqs.dfy` | `Seqs` | `filter`, `filter(..).length`, `find`, and a `reduce` that adds up a field |
| `types.dfy` | `Types` | the records and string enumerations of `src/types/index.ts` |
| `tasks_list.dfy` | `TasksList` | `src/components/Tasks/TasksList.tsx` |
| `deals_list.dfy` | `DealsList` | `src/components/Deals/DealsList.tsx` |
| `customers_list.dfy` | `CustomersList` | `src/components/Customers/CustomersList.tsx` |
| `analytics.dfy` | `Analytics` | `src/components/Analytics/Analytics.tsx` |
| `server.dfy` | `Server` | `server/server.js`: the store is the class `Server.CrmServer` |
| `auth_context.dfy` | `AuthContext` | `src/contexts/AuthContext.tsx`: the provider is the class `AuthContext.AuthProvider` |
| `mock_data.dfy` | `MockData` | the seed records of `src/data/mockData.ts`, and what the model computes from them |

Modelling choices:

- **Foreign libraries as parameters.** bcrypt and jsonwebtoken are foreign libraries.
  They enter as the function fields of `Server.Crypto`: `hash`, `compare`, `sign` and
  `verify`. `JSON.stringify`/`JSON.parse` enter as `AuthContext.Json`.
- **Library laws as predicates.** What the proofs need from these libraries is stated
  as the predicates `Server.Lawful` and `AuthContext.Lawful`. Only the lemmas that need
  a law require it.
- **Clock and ids as parameters.** `Date.now()` ids and `new Date()` timestamps are
  passed in. Dates are integer milliseconds since the epoch.
- **Deal values are integers.** A ratio is a `real`, wrapped in `Analytics.Num`, which
  also has a `NaN` case.

Where the code departs from the design it evidently follows, the model follows the code:

- **Ratios are not guarded.** An empty denominator would be expected to give 0. In
  the code, `conversionRate`, `averageDealSize`, `taskCompletionRate`, customer growth and
  every chart percentage divide without a guard, so an empty list gives `NaN`.
  `Analytics.Percent` and the ratio functions give `NaN` exactly when the denominator
  is 0.
- **The dashboard conversion rate is a constant.** It is meant to be derived from
  the deals. The server's stats route returns the constant 25.
- **The pipeline chart uses the wrong stage names.** It is meant to iterate over the
  deal stages. The chart component iterates over `lead` and `qualified`, which no deal
  can have (see Findings).
- **Ids are not unique.** Records are meant to have unique ids. The create routes take
  `Date.now()` and then let a client-supplied `id` override it. The model makes no
  uniqueness claim, and `Server.BodyIdOverrides` shows the override.

## Model

| member | source | states |
|---|---|---|
| Text.Includes | src/components/Tasks/TasksList.tsx:12-13 | `hay.includes(needle)` holds exactly when `needle` occurs in `hay` at some index |
| Text.LowerKeepsIncludes | src/components/Tasks/TasksList.tsx:12-13 | lower-casing both strings keeps an occurrence, which is what makes the search case-insensitive yet monotone |
| Text.IncludesTransitive | src/components/Deals/DealsList.tsx:11-12 | a substring of a substring is a substring, so lengthening the search term only narrows the matches |
| Text.Split | server/server.js:108 | `split(' ')` yields at least one field, and no field contains the separator |
| Text.JoinSplit | server/server.js:108 | joining the fields of a split with the separator gives back the original string |
| Text.SplitJoin | server/server.js:108 | splitting a join of separator-free fields gives back the fields |
| Text.FirstField | src/contexts/AuthContext.tsx:73 | `s.split(sep)[0]` is a prefix of `s`, followed in `s` by the separator when shorter than `s` |
| Seqs.Filter | src/components/Tasks/TasksList.tsx:11-17 | `filter` keeps exactly the passing elements, in their original order (a subsequence) and never lengthens |
| Seqs.FilterMultiset | src/components/Tasks/TasksList.tsx:11-17 | `filter` keeps each passing element exactly as many times as it occurs and drops every failing one |
| Seqs.Find | server/server.js:144 | `find` returns the first element satisfying the test, or none when no element does |
| Seqs.FindAtEnd | server/server.js:189 | with no match in the list, a matching element appended at the end is the first match `find` returns |
| Seqs.FilterMonotone | src/components/Tasks/TasksList.tsx:11-17 | a stricter row test keeps a subsequence of what a looser one keeps |
| Seqs.FilterAppend | server/server.js:252 | filtering distributes over concatenation, as after a `push` |
| Seqs.SumAppend | server/server.js:251 | the `reduce` sum of a concatenation is the sum of the parts |
| Seqs.CountComplement | server/server.js:252 | a test and its negation count every element once |
| Seqs.CountDisjoint | src/components/Tasks/TasksList.tsx:77-79 | two tests that never hold together count at most the length |
| Seqs.CountMonotone | src/components/Tasks/TasksList.tsx:79 | a stricter test counts no more than a looser one |
| Seqs.CountSubsequence | src/components/Tasks/TasksList.tsx:11-17 | a subsequence has no more elements passing a test than the sequence it is taken from |
| Seqs.CountSame | src/components/Tasks/TasksList.tsx:79 | two tests that agree on every element count the same |
| Seqs.SumFilterAtMost | src/components/Analytics/Analytics.tsx:14-16 | with non-negative values, the sum over a filtered list is at most the full sum |
| Seqs.SumNonNegative | src/components/Analytics/Analytics.tsx:14-16 | a sum of non-negative values is non-negative |
| Seqs.SumComplement | src/components/Analytics/Analytics.tsx:218 | the sum over the elements passing a test plus the sum over those failing it is the whole sum |
| Seqs.SumBetween | src/components/Analytics/Analytics.tsx:20 | a sum of `n` values within `[lo, hi]` lies within `[n*lo, n*hi]` |
| TasksList.FilteredTasks | src/components/Tasks/TasksList.tsx:11-17 | the shown tasks are a subsequence of the tasks; a task is shown iff the search, status and priority tests hold; a status or priority filter other than `all` fixes that field |
| TasksList.FilteredTasksUnfiltered | src/components/Tasks/TasksList.tsx:11-17 | an empty search with both filters on `all` shows every task |
| TasksList.FilteredTasksTighten | src/components/Tasks/TasksList.tsx:11-17 | a longer search term, or a filter set where it was `all`, never shows a task that was hidden |
| TasksList.Stats | src/components/Tasks/TasksList.tsx:75-80 | `total` is the number of tasks; `completed + pending <= total`; `overdue <= total - completed` |
| TasksList.OverdueLater | src/components/Tasks/TasksList.tsx:79 | an overdue task stays overdue as the clock advances, and a completed task is never overdue |
| TasksList.OverdueCountGrows | src/components/Tasks/TasksList.tsx:79 | with the tasks unchanged, the overdue count never falls as time passes |
| TasksList.TableDueDateClass | src/components/Tasks/TasksList.tsx:217 | the table shows a due date in red exactly when the task is overdue, in grey otherwise |
| TasksList.CardDueDateClass | src/components/Tasks/TasksList.tsx:274 | a task card shows its due date in red exactly when the task is overdue, unstyled otherwise |
| TasksList.RedDueDatesAreOverdue | src/components/Tasks/TasksList.tsx:79 | the table and the cards render the filtered tasks, so their red due dates are at most the overdue count of the statistics card, and exactly as many when nothing is filtered |
| TasksList.PriorityBadgeClass | src/components/Tasks/TasksList.tsx:19-30 | every priority string maps to one of the four badge classes |
| TasksList.StatusBadgeClass | src/components/Tasks/TasksList.tsx:32-43 | every status string maps to one of the three badge classes |
| TasksList.BadgeTable | src/components/Tasks/TasksList.tsx:19-43 | high/medium/low map to danger/warning/success, completed/in-progress/pending to success/primary/warning, anything else to primary |
| DealsList.FilteredDeals | src/components/Deals/DealsList.tsx:10-15 | the shown deals are a subsequence; a deal is shown iff search and stage tests hold; a stage filter fixes the stage; an unknown filter other than `all` shows nothing |
| DealsList.FilteredDealsUnfiltered | src/components/Deals/DealsList.tsx:10-15 | an empty search with the filter on `all` shows every deal |
| DealsList.FilteredDealsTighten | src/components/Deals/DealsList.tsx:10-15 | a longer search term or a chosen stage never shows a deal that was hidden |
| DealsList.StageBadgeClass | src/components/Deals/DealsList.tsx:17-32 | every stage string maps to one of four badge classes |
| DealsList.StageBadgeTable | src/components/Deals/DealsList.tsx:17-32 | prospecting and negotiation share `badge-warning`; `lost` and unknown strings get `badge-primary` |
| DealsList.Summary | src/components/Deals/DealsList.tsx:68-74 | the five pipeline-summary counts add up to the number of deals that are not lost |
| DealsList.StageCountsAddUp | src/types/index.ts:21 | every deal is in exactly one of the six stages, so the six stage counts add up to the number of deals |
| CustomersList.FilteredCustomers | src/components/Customers/CustomersList.tsx:10-16 | the shown customers are a subsequence; a customer is shown iff the name, email or company search and the status test hold; a status filter fixes the status |
| CustomersList.FilteredCustomersConjunction | src/components/Customers/CustomersList.tsx:10-16 | filtering by both tests equals filtering by the search, then by the status |
| CustomersList.FilteredCustomersUnfiltered | src/components/Customers/CustomersList.tsx:10-16 | an empty search with the filter on `all` shows every customer |
| CustomersList.FilteredCustomersTighten | src/components/Customers/CustomersList.tsx:10-16 | a longer search term or a chosen status never shows a customer that was hidden |
| CustomersList.StatusBadgeClass | src/components/Customers/CustomersList.tsx:18-29 | every status string maps to one of four badge classes |
| CustomersList.StatusBadgeTable | src/components/Customers/CustomersList.tsx:18-29 | active/inactive/prospect map to success/danger/warning, anything else to primary |
| Analytics.Percent | src/components/Analytics/Analytics.tsx:18 | `(part / whole) * 100` is NaN iff `whole` is 0, and otherwise lies in [0, 100] with `value * whole == part * 100` |
| Analytics.TotalRevenue | src/components/Analytics/Analytics.tsx:14-16 | with no closed deal the revenue is 0; with non-negative closed values it is not negative |
| Analytics.PipelineValue | src/components/Analytics/Analytics.tsx:218 | the pipeline value is the closed-deal revenue plus the value of the deals not closed |
| Analytics.RevenueAtMostPipeline | src/components/Analytics/Analytics.tsx:14-16 | with non-negative values, the closed-deal revenue is at most the pipeline value of line 218 |
| Analytics.ConversionRate | src/components/Analytics/Analytics.tsx:18 | NaN iff there are no deals; otherwise in [0, 100] and equal to 100 times closed over total |
| Analytics.MinValue | src/components/Analytics/Analytics.tsx:20 | some deal has this value and no deal has less |
| Analytics.MaxValue | src/components/Analytics/Analytics.tsx:20 | some deal has this value and no deal has more |
| Analytics.AverageDealSize | src/components/Analytics/Analytics.tsx:20 | NaN iff there are no deals; otherwise between the smallest and the largest deal value |
| Analytics.ActiveCustomers | src/components/Analytics/Analytics.tsx:22 | the active customers are at most all customers |
| Analytics.CustomerGrowth | src/components/Analytics/Analytics.tsx:235 | NaN iff there are no customers; otherwise in [0, 100] and equal to 100 times active over total |
| Analytics.TaskCompletionRate | src/components/Analytics/Analytics.tsx:24-26 | NaN iff there are no tasks; otherwise in [0, 100] and equal to 100 times completed over total |
| Analytics.StageChart | src/components/Analytics/Analytics.tsx:62-65 | one row per name of `lead, qualified, proposal, negotiation, closed, lost`, in that order |
| Analytics.StageRowFor | src/components/Analytics/Analytics.tsx:63-65 | the row carries its stage name; its count is at most the number of deals; its percentage is the count's share of all deals, NaN iff there are no deals; a name no deal has gives count and value 0; with non-negative values the row's value lies between 0 and the pipeline value |
| Analytics.StageDealsFacts | src/components/Analytics/Analytics.tsx:63-65 | a name no deal has selects no deal; with non-negative values the selected deals' sum lies between 0 and the sum over all deals |
| Analytics.StageChartTotal | src/components/Analytics/Analytics.tsx:62-65 | the chart's counts plus the prospecting and qualification deals are all deals; so the counts are at most all deals, and the `lead` and `qualified` rows are always 0 |
| Analytics.NoDealNamed | src/components/Analytics/Analytics.tsx:63 | a name that is no stage's name matches no deal |
| Analytics.CorrectedStageChart | src/types/index.ts:21 | one row per stage name of the deal type, in pipeline order |
| Analytics.CorrectedStageChartTotal | src/types/index.ts:21 | with the deal type's stage names the chart counts every deal exactly once |
| Analytics.SourceCounts | src/components/Analytics/Analytics.tsx:91-94 | the keys of `sources` are exactly the sources that occur among the customers |
| Analytics.SourceCountsExact | src/components/Analytics/Analytics.tsx:91-94 | each key's count is the number of customers with exactly that source, case-sensitively |
| Analytics.SourceOrder | src/components/Analytics/Analytics.tsx:100 | the source rows list each occurring source once, in first-occurrence order |
| Analytics.SourceOrderFirstSeen | src/components/Analytics/Analytics.tsx:91-100 | every listed source has a customer, and the sources are listed in the order in which their first customers occur |
| Analytics.SourceChart | src/components/Analytics/Analytics.tsx:100-101 | one row per listed source, in that order, with the number of customers of exactly that source and its percentage of all customers |
| Analytics.SharesAt | src/components/Analytics/Analytics.tsx:100-101 | row `i` of the chart is built from source `i` and its count |
| Analytics.SourceChartTotals | src/components/Analytics/Analytics.tsx:100-101 | the row counts add up to the number of customers, and for a non-empty list the percentages add up to 100 |
| Analytics.PercentsAddUp | src/components/Analytics/Analytics.tsx:101 | percentages of `count * 100 / n` add up to `total * 100 / n` |
| Server.BearerToken | server/server.js:107-108 | the token is the second space-separated word of the header, when that word exists and is non-empty; it contains no space |
| Server.BearerTokenOf | server/server.js:108 | `<any word> <token>` yields the token: the first word is never checked to be `Bearer` |
| Server.BearerTokenOneWord | server/server.js:108-112 | a header without a space carries no token |
| Server.Gate | server/server.js:106-121 | no token gives 401, a token `verify` rejects gives 403, otherwise the handler runs with the decoded payload |
| Server.Refusal | server/server.js:110-117 | the refusals are 401 "Access token required" and 403 "Invalid or expired token" |
| Server.GateAcceptsFreshToken | server/server.js:114-120 | `Bearer <token>` signed at `iat` passes the gate with its own payload until 24 hours later |
| Server.GateRejectsExpiredToken | server/server.js:114-117 | after 24 hours the same header is refused with 403 |
| Server.FindAppended | server/server.js:144 | `find` by email locates a user appended behind users with other emails |
| Seqs.FindInPrefix | server/server.js:237 | appending records does not change which record `find` returns first |
| Server.Login | server/server.js:135-178 | an empty or missing field gives 400; success (200) iff the email is found and the password compares; the token signs exactly `{id, email, role}`; the user has no password; every other answer is the same 401 "Invalid credentials" |
| Server.LoginFailuresAlike | server/server.js:144-153 | an unknown email and a wrong password get the identical 401 answer |
| Server.NewUser | server/server.js:195-206 | the registered account has role `User`, the hashed password, and the upper-cased initial of the name as avatar |
| Server.LoginAfterRegister | server/server.js:180-233 | after a successful register, logging in with the same email and password succeeds as that account |
| Server.LoginTokenOpensGate | server/server.js:155-164 | a login token opens the gate for 24 hours with the user's `{id, email, role}` |
| Server.ProfileOf | server/server.js:236-244 | 404 "User not found" iff no user has the token's id; otherwise 200 with the first such user, without the password |
| Server.ServerStats | server/server.js:247-258 | counts of customers and deals, the sum of deal values, open deals plus closed deals equal all deals, and the constants 15000 and 25 |
| Server.StatsAfterNewDeal | server/server.js:247-258 | a created deal adds one deal, its value to the total, and one open deal unless it is closed |
| Server.StatsAfterNewCustomer | server/server.js:249 | a created customer changes only the customer count |
| Server.NewCustomer | server/server.js:264-270 | a body `id` overrides the generated id; `createdAt` and `lastContact` are the server's clock; every other field is the body's |
| Server.NewDeal | server/server.js:280-285 | a body `id` overrides the generated id; `createdAt` is the server's clock; every other field is the body's |
| Server.NewTask | server/server.js:295-300 | a body `id` overrides the generated id; `createdAt` is the server's clock; every other field is the body's |
| Server.BodyIdOverrides | server/server.js:265-267 | two records posted with the same body `id` get that id, whatever the generated ids |
| Server.DemoLogin | server/server.js:34-44 | the demo credentials log in as the seeded administrator |
| Server.SeedStats | server/server.js:46-103 | the seeded store reports 2 customers, 1 open deal worth 50000 |
| Server.CrmServer.constructor | server/server.js:34-103 | the store starts with the demo account and the seed records, with unique emails |
| Server.CrmServer.Register | server/server.js:180-233 | a missing field or a taken email gives 400 with `users` unchanged; otherwise exactly one account is appended and 201 returns it without its password, with a token; email uniqueness is kept |
| Server.Account | server/server.js:198-206 | the account a register request creates carries the request's email and id |
| Server.OverlappingRegisters | server/server.js:189-208 | two register handlers suspended together at `await bcrypt.hash` both push when both passed their checks; the store only grows, by at most two accounts |
| Server.OverlappingRegistersDuplicate | server/server.js:189-208 | two overlapping registrations of one new email leave that email stored twice |
| Server.SequentialRegisters | server/server.js:180-233 | the same two requests one after the other: the second, with the email the first registered, gets 400 "User already exists", one account is added, and emails stay unique |
| Server.CrmServer.HandleLogin | server/server.js:135-178 | the login route against the current store |
| Server.CrmServer.GetProfile | server/server.js:236-244 | the gate's refusal, or the profile of the token's user |
| Server.CrmServer.GetDashboardStats | server/server.js:247-258 | the gate's refusal, or 200 with the stats of the current store |
| Server.CrmServer.ListCustomers | server/server.js:260-262 | the gate's refusal, or 200 with every customer in insertion order |
| Server.CrmServer.ListDeals | server/server.js:276-278 | the gate's refusal, or 200 with every deal in insertion order |
| Server.CrmServer.ListTasks | server/server.js:291-293 | the gate's refusal, or 200 with every task in insertion order |
| Server.CrmServer.CreateCustomer | server/server.js:264-274 | refused: nothing changes; admitted: exactly one record is appended behind the old ones and echoed with 201 |
| Server.CrmServer.CreateDeal | server/server.js:280-289 | refused: nothing changes; admitted: exactly one record is appended behind the old ones and echoed with 201 |
| Server.CrmServer.CreateTask | server/server.js:295-304 | refused: nothing changes; admitted: exactly one record is appended behind the old ones and echoed with 201 |
| Server.RegisterLoginCreateList | server/server.js:180-262 | register, log in, create a customer with the token: the customer list is the old one plus the new record, and only `users` and `customers` changed |
| AuthContext.LoginUser | src/contexts/AuthContext.tsx:50-86 | the demo credentials give the fixed demo record; any other pair gives id `2`, role `User`, the email's upper-cased initial as avatar, and as name the part of the email before its first `@` |
| AuthContext.GuestName | src/contexts/AuthContext.tsx:73 | for `w@t` with no `@` in `w`, the guest user is named `w` |
| AuthContext.DemoEmailWrongPassword | src/contexts/AuthContext.tsx:56-81 | the demo email with a wrong password still signs in, as user `demo` with id `2` |
| AuthContext.LoginUserWithoutAt | src/contexts/AuthContext.tsx:73 | an email without `@` names the user after the whole email |
| AuthContext.Saved | src/contexts/AuthContext.tsx:39-40 | the cached value counts only when present and non-empty |
| AuthContext.Restored | src/contexts/AuthContext.tsx:39-46 | a user is restored iff a truthy cached value parses, and it is the parsed value |
| AuthContext.StorageAfterMount | src/contexts/AuthContext.tsx:41-45 | an unparsable cached value is removed; otherwise the storage is unchanged |
| AuthContext.RestoreAfterLogin | src/contexts/AuthContext.tsx:65-67 | a user cached by `login` is restored by the next mount, with the storage kept |
| AuthContext.RestoreAfterLogout | src/contexts/AuthContext.tsx:88-91 | after `logout` the next mount restores nobody |
| AuthContext.MountSettles | src/contexts/AuthContext.tsx:38-48 | mounting again over the storage one mount left changes it no further |
| AuthContext.AuthProvider.constructor | src/contexts/AuthContext.tsx:34-35 | the provider starts with no user and loading |
| AuthContext.AuthProvider.IsAuthenticated | src/contexts/AuthContext.tsx:95 | authenticated iff a user is set |
| AuthContext.AuthProvider.Mount | src/contexts/AuthContext.tsx:38-48 | a parsable cached user becomes `user`; an unparsable one is removed and `user` stays; loading ends either way |
| AuthContext.AuthProvider.Login | src/contexts/AuthContext.tsx:50-86 | returns true for every pair, sets `user` to `LoginUser(email, password)` and caches exactly that user |
| AuthContext.AuthProvider.Logout | src/contexts/AuthContext.tsx:88-91 | clears `user` and removes the cached user |
| AuthContext.LogoutTwice | src/contexts/AuthContext.tsx:88-91 | logging out twice leaves the same state as once |
| AuthContext.LoginThenReload | src/contexts/AuthContext.tsx:38-81 | after `login`, a reloaded provider over the same storage is signed in as the same user |
| AuthContext.LogoutThenReload | src/contexts/AuthContext.tsx:38-91 | after `logout`, a reloaded provider is signed out |
| MockData.SeedIsMockPrefix | server/server.js:46-103 | the server's seed records are the first records of the front end's mock data |
| MockData.DashboardMatchesServerStats | src/data/mockData.ts:178-185 | the hard-coded dashboard figures equal the server's stats over the mock records, including the total value 195000 |
| MockData.MockConversion | src/components/Analytics/Analytics.tsx:14-18 | one deal in five is closed: conversion 20% and revenue 15000, while the hard-coded dashboard shows 25 |
| MockData.MockAverage | src/components/Analytics/Analytics.tsx:20 | the average mock deal is 39000 |
| MockData.MockStageChart | src/components/Analytics/Analytics.tsx:62-65 | the pipeline chart counts only 3 of the 5 mock deals |
| MockData.MockEarlyStages | src/data/mockData.ts:116-130 | one mock deal is in `prospecting` and one in `qualification` |
| MockData.MockCorrectedStageChart | src/types/index.ts:21 | with the deal type's stage names the chart counts all 5 mock deals |
| MockData.MockPipelineSummary | src/components/Deals/DealsList.tsx:68-74 | the deals page's summary counts all 5 mock deals |
| MockData.MockTaskStats | src/components/Tasks/TasksList.tsx:75-80 | on 19 March 2024 there are 3 tasks, 0 completed, 2 pending and 1 overdue |
| MockData.MockRates | src/components/Analytics/Analytics.tsx:22-26 | 3 active customers (60%) and a task completion rate of 0% |
| MockData.MockSources | src/components/Analytics/Analytics.tsx:91-94 | the five mock customers have five different sources, each counted once |

## Left out

- JSX rendering, CSS classes, icons, colours and animation delays; `Sidebar.tsx`, `Header.tsx` and the routing of `App.tsx`. These are presentation only.
- `Dashboard.tsx`: it only shows the hard-coded `mockDashboardStats` and the first three records. `MockData.DashboardMatchesServerStats` relates those figures to the server's stats.
- The cryptography of bcrypt and jsonwebtoken: salts, the 72-byte password limit, signatures and the secret. These are foreign libraries. `Server.Lawful` states only what the routes rely on. The 403 case is modelled for every token `verify` rejects, whatever the reason.
- `Date.now()` ids and `new Date()`: they are parameters. No claim is made that ids are unique, because the code does not ensure it.
- Express plumbing: helmet, cors, morgan, body parsing, the 100-requests-per-15-minutes rate limiter, the 404 and 500 handlers, the health route and `app.listen`. These are library behaviour and I/O.
- The `catch` branches that answer 500 "Internal server error" (server/server.js:174-177, 229-232) and the client login's `return false` (src/contexts/AuthContext.tsx:82-85). With the library laws assumed, none of the modelled steps throws.
- Request bodies are typed records. A create body with extra keys, missing keys, non-string fields, or a stage or status outside the enumerations is outside the model. So is a `value` that is not a number, which would make the stats `reduce` concatenate strings.
- `Server.CrmServer.CreateCustomer`, `Server.CrmServer.CreateDeal`, `Server.CrmServer.CreateTask`: the model lets the body override `createdAt` (and `lastContact`) and then replaces them with the clock. A body key that is not a field of the record is not stored.
- `localStorage` and `JSON` are a map and an abstract `parse`. A cached value that parses to something other than a user (`null`, a number) is outside the model.
- The one-second `setTimeout` and the `async`/`await` of the client login, and the React render cycle: timing only. The methods apply the state updates in order.
- Floating point: deal values are integers and ratios are exact reals. `toFixed`, `Math.round`, `toLocaleString` and `date-fns` formatting are display only.
- `toLowerCase`/`toUpperCase` are ASCII only; Unicode case mapping is not modelled.
- `Object.entries` lists integer-like keys before the others. `Analytics.SourceOrder` uses first-occurrence order for every key.
- Concurrency between requests: `Server.CrmServer` runs each handler to completion before the next one starts. In the source the register handler is suspended at `await bcrypt.hash` (server/server.js:195), between its duplicate check (:189) and its push (:208), so two registrations can interleave there. `Server.OverlappingRegisters` models that one interleaving (see Findings). Other interleavings are not modelled; the login handler also awaits, but it changes nothing.
- Analytics.SourceCounts, Analytics.SourceCountsExact, Analytics.SourceChartTotals: the `{}` accumulator of the `reduce` is modelled as an empty map. In JavaScript it inherits from `Object.prototype`. A source named `constructor`, `toString` or another inherited member starts from that function, so its count becomes a string and its percentage NaN. A source named `__proto__` never becomes a key of its own. Sources with these names are outside the model.
- TasksList.RedDueDatesAreOverdue: one clock reading `now` serves the statistics card and every due date of a render. The source calls `new Date()` separately for the overdue count (src/components/Tasks/TasksList.tsx:79) and for each due date in the table (:217) and on the cards (:274), so a task falling due between two readings can be counted and coloured differently.
- Server.NewCustomer: one clock reading `now` fills both `createdAt` and `lastContact`. The source calls `new Date()` once for each (server/server.js:268-269), so the two may differ by a millisecond. The gate's expiry check in the same request reads the same `now`.

## Findings

| source | as written | input that shows it | evidently intended | confidence | as-written member | corrected member |
|---|---|---|---|---|---|---|
| src/components/Analytics/Analytics.tsx:62 | the pipeline chart iterates over `lead` and `qualified`, names no deal stage has (src/types/index.ts:21), so those rows are always 0 and deals in `prospecting` and `qualification` are never shown | the mock deals: the `prospecting` deal (5000) and the `qualification` deal (100000) appear in no row, and the chart counts 3 of 5 deals | iterate over the deal type's stage names `prospecting` and `qualification` | high, not executed | Analytics.StageChartTotal, MockData.MockStageChart | Analytics.CorrectedStageChartTotal, MockData.MockCorrectedStageChart |
| server/server.js:189-208 | the duplicate-email check (:189) runs before `await bcrypt.hash` (:195) and the push (:208) after it, so a second registration of the same email can pass its check while the first is suspended | two `POST /api/auth/register` requests with the same new email, the second arriving while the first is hashing: both get 201 and `users` holds the email twice; login's `find` then only ever reaches the first account | check the email again, or reserve it, after hashing and before the push, so that the two behave as if handled one after the other | medium, not executed | Server.OverlappingRegisters, Server.OverlappingRegistersDuplicate | Server.SequentialRegisters, Server.CrmServer.Register |
