# CRM backend — a Dafny model

This project models the server side of a small CRM (customer relationship
management) application. The application is an Express/TypeORM backend that keeps
five tables: users, customers, opportunities (sales deals), activities (tasks
assigned to users) and interactions (logged contacts with customers). The model covers:

- the records, their enums and their column defaults (`entity_*.dfy`);
- the body validators of every route, and which middleware each route runs (`routes_*.dfy`);
- the bearer-token middleware and the role guard (`auth_middleware.dfy`);
- the six controllers: authentication, customers, opportunities, activities,
  interactions and the dashboard (`*_controller.dfy`).

The database is a class `Store.Db`. It holds one `map<int, Record>` per table
and the next id each table will assign. Its invariant `Valid()` says that:

- every row sits under its own id;
- every id is below the next id;
- user emails are unique, as the unique column requires.

Controllers that write (create, update, delete, register) are methods on the
database. Each names in `modifies` the one table and counter it changes,
keeps `Valid()`, and states the new table outright.

Controllers that read are functions of the tables. Their meaning is given by
the query semantics in `collections.dfy`:

- `Filter` for WHERE, `Count` for COUNT;
- `SortBy` for ORDER BY: a stable, sorted permutation;
- `Paginate` for skip/take with `Math.ceil` page counts;
- `Tally` and `GroupSum` for the reduce-into-an-object tallies and GROUP BY.

`Store.Rows` lists a table's rows by ascending id; ORDER BY then sorts them.

A handler's answer is `Common.Result`: a value, or a `Failure`. A failure is
either the validator's list of messages, sent with status 400, or a status
code with the controller's message. The Italian messages are the ones the
controllers send.

Foreign code is passed in as parameters and stays uninterpreted:

- `Common.Library`: express-validator's `isEmail`, `isMobilePhone` and
  `isISO8601`, and the reading of a date string as an instant;
- `AuthMiddleware.Crypto`: bcrypt's `hash` and `compare`, and jsonwebtoken's
  `sign` and `verify`;
- the clock: an instant `now`, in milliseconds, plus the start of the month
  for the dashboard.

Money is an integer number of cents. Averages and the completion rate are reals.

## Model

| member | source | states |
|---|---|---|
| Strings.Split | backend/src/middleware/auth.ts:12 | `split(' ')` always yields at least one piece, and no piece holds the separator |
| Strings.JoinSplit | backend/src/middleware/auth.ts:12 | splitting loses nothing: joining the pieces with the separator gives the header back |
| Strings.SplitJoin | backend/src/middleware/auth.ts:12 | the inverse round trip: separator-free pieces joined and split again come back unchanged |
| Strings.Contains | backend/src/controller/CustomerController.ts:17-21 | `LIKE '%term%'` holds iff the term occurs at some position of the column |
| Collections.Filter | backend/src/controller/ActivityController.ts:18-34 | WHERE keeps, in order and with their multiplicity, exactly the rows that satisfy the condition |
| Collections.Count | backend/src/controller/ActivityController.ts:43 | the count of getManyAndCount is the length of the filtered rows |
| Collections.SortBy | backend/src/controller/ActivityController.ts:41 | ORDER BY yields a permutation of the rows that is sorted on the key |
| Collections.TotalPages | backend/src/controller/ActivityController.ts:51 | `Math.ceil(total / limit)`: the least n with n * limit >= total |
| Collections.Paginate | backend/src/controller/ActivityController.ts:36-52 | the page echoes page and limit and the total; item i is row (page-1)*limit + i; the page holds min(limit, rows left) rows |
| Collections.PageOfSorted | backend/src/controller/ActivityController.ts:36-41 | a page of a sorted list is sorted and holds only rows of the list |
| Collections.SortedPrefix | backend/src/controller/InteractionController.ts:192-195 | `take(n)` of a sorted list is sorted and holds only rows of the list |
| Collections.TallyCounts | backend/src/controller/DashboardController.ts:201-204 | the reduce tally of a key is the number of rows under that key; keys no row has are absent |
| Collections.TallyTotal | backend/src/controller/DashboardController.ts:199-210 | the tallies add up to the number of rows |
| Collections.GroupSumIs | backend/src/controller/OpportunityController.ts:167-173 | a GROUP BY group exists iff some row has its key, and holds the sum over exactly those rows |
| Collections.GroupSumTotal | backend/src/controller/OpportunityController.ts:167-178 | the group sums add up to the sum over all rows |
| Collections.Average | backend/src/controller/DashboardController.ts:241-242 | the mean is 0 for no rows, and otherwise mean * n equals the total |
| Collections.PercentBounded | backend/src/controller/DashboardController.ts:277-278 | a share of done rows out of n, as a percentage, lies in 0..100 |
| Store.KeyedInsert | backend/src/entity/Activity.ts:21-22 | the generated id is not taken yet, and inserting under it keeps the id invariant |
| Store.UniqueEmailsInsert | backend/src/entity/User.ts:16-17 | adding a user whose email no user has keeps emails unique |
| ActivityEntity.ParseActivityType | backend/src/entity/Activity.ts:4-10 | a string names an activity type iff it is one of the five enum strings; parsing inverts the naming |
| InteractionEntity.ParseInteractionType | backend/src/entity/Interaction.ts:5-10 | a string names an interaction type iff it is one of the four enum strings; parsing inverts the naming |
| ActivityRoutes.ActivityFailures | backend/src/routes/activities.ts:9-15 | the failed checks, in chain order and each once, are exactly the ones the body does not pass; none fails iff the body is valid |
| ActivityRoutes.ActivityErrors | backend/src/routes/activities.ts:9-15 | the errors array is empty iff the body is valid, and holds the message of each failed check in chain order |
| ActivityRoutes.ActivitySteps | backend/src/routes/activities.ts:17-27 | every activity route authenticates first and ends in its controller; only create and update validate |
| OpportunityRoutes.OpportunityFailures | backend/src/routes/opportunities.ts:9-14 | the failed checks, in chain order and each once, are exactly the ones the body does not pass; the stage is not checked |
| OpportunityRoutes.OpportunityErrors | backend/src/routes/opportunities.ts:9-14 | the errors array is empty iff the body is valid, and holds the message of each failed check in chain order |
| OpportunityRoutes.OpportunitySteps | backend/src/routes/opportunities.ts:16-25 | every opportunity route authenticates first; only create and update validate |
| InteractionRoutes.InteractionFailures | backend/src/routes/interactions.ts:9-14 | the failed checks, in chain order and each once, are exactly the ones the body does not pass |
| InteractionRoutes.InteractionErrors | backend/src/routes/interactions.ts:9-14 | the errors array is empty iff the body is valid, and holds the message of each failed check in chain order |
| InteractionRoutes.InteractionSteps | backend/src/routes/interactions.ts:16-26 | every interaction route authenticates first; only create and update validate |
| CustomerRoutes.CustomerFailures | backend/src/routes/customers.ts:9-13 | the failed checks, in chain order and each once, are exactly the ones the body does not pass; email and phone are checked only when sent |
| CustomerRoutes.CustomerErrors | backend/src/routes/customers.ts:9-13 | the errors array is empty iff the body is valid, and holds the message of each failed check in chain order |
| CustomerRoutes.CustomerSteps | backend/src/routes/customers.ts:15-24 | every customer route authenticates first; only create and update validate |
| AuthRoutes.RegisterFailures | backend/src/routes/auth.ts:9-14 | the failed register checks, in chain order and each once, are exactly the ones the body does not pass |
| AuthRoutes.RegisterErrors | backend/src/routes/auth.ts:9-14 | the register errors array is empty iff the body is valid, with the message of each failed check in chain order |
| AuthRoutes.LoginFailures | backend/src/routes/auth.ts:17-20 | the failed login checks, in chain order and each once, are exactly the ones the body does not pass |
| AuthRoutes.LoginErrors | backend/src/routes/auth.ts:17-20 | the login errors array is empty iff the body is valid, with the message of each failed check in chain order |
| AuthRoutes.AuthSteps | backend/src/routes/auth.ts:22-28 | register and login are public and validate; profile and users authenticate and do not validate |
| AuthMiddleware.BearerToken | backend/src/middleware/auth.ts:11-12 | a token is found iff the header is sent and its second space-separated piece is non-empty; the token holds no space |
| AuthMiddleware.SchemeNotChecked | backend/src/middleware/auth.ts:11-12 | whatever the scheme word before the space, the piece after it is taken as the token |
| AuthMiddleware.UserById | backend/src/middleware/auth.ts:21-22 | the lookup finds a user iff the id is in the table, and finds that row |
| AuthMiddleware.AuthenticateToken | backend/src/middleware/auth.ts:10-33 | no token: 401; a token verify rejects: 403; success iff the verified userId names an active user, who is the result; every failure is 401 or 403 |
| AuthMiddleware.AuthorizeRoles | backend/src/middleware/auth.ts:35-42 | passes iff a user is attached and the name of its role is in the allow-list; otherwise 403 |
| AuthController.UserByEmail | backend/src/controller/AuthController.ts:22-23 | a user is found iff some user has the email, and the found user has it |
| AuthController.Register | backend/src/controller/AuthController.ts:10-58 | a bad body: 400 with the messages; a taken email: 400; otherwise exactly one new user under a fresh id with the hashed password, the role sent or salesperson, active; the session hides the password |
| AuthController.Login | backend/src/controller/AuthController.ts:65-104 | a bad body: 400; otherwise success iff the user with that email exists, is active and the password compares, and every other failure is the same 401 |
| AuthController.SessionAuthenticates | backend/src/controller/AuthController.ts:88-92 | the token a session carries, sent as a bearer header, authenticates its user when verify inverts sign |
| AuthController.LoginTokenAuthenticates | backend/src/controller/AuthController.ts:88-104 | the token of a successful login authenticates a user with the login email |
| AuthController.GetProfile | backend/src/controller/AuthController.ts:111-120 | the profile is answered iff the token authenticates, and it is the summary of the active stored user whose id the verified token carries; otherwise the middleware's failure |
| AuthController.ActiveUsers | backend/src/controller/AuthController.ts:128-136 | getUsers lists exactly the summaries of the active users, one per active user |
| ActivityController.MatchingActivities | backend/src/controller/ActivityController.ts:18-41 | exactly the stored activities the caller may see that pass every given filter, by due date ascending |
| ActivityController.ListActivities | backend/src/controller/ActivityController.ts:10-53 | page and limit default to 1 and 10; the page echoes them, counts all matching activities, has ceil(total / limit) pages, and item i is matching row (page-1)*limit + i |
| ActivityController.ListedActivitiesMatch | backend/src/controller/ActivityController.ts:18-41 | a page is in due-date order and holds only stored matching activities; a caller who is not admin, managers included, only gets activities assigned to them |
| ActivityController.FindActivity | backend/src/controller/ActivityController.ts:60-74 | the stored activity iff the id exists, otherwise 404 |
| ActivityController.CreateActivity | backend/src/controller/ActivityController.ts:81-112 | a bad body: 400, nothing stored; an assignee that is no user: 400, nothing stored; otherwise exactly one new activity under a fresh id |
| ActivityController.MergeActivity | backend/src/controller/ActivityController.ts:138-143 | the body's fields overwrite the stored ones; completing an activity with no completedDate stamps now; one with a completedDate is never stamped |
| ActivityController.UpdateActivity | backend/src/controller/ActivityController.ts:119-149 | a bad body: 400; a missing id: 404, table unchanged; otherwise only that row is replaced by the merged record |
| ActivityController.DeleteActivity | backend/src/controller/ActivityController.ts:156-168 | a missing id: 404, table unchanged; otherwise exactly that row is removed |
| ActivityController.MyActivities | backend/src/controller/ActivityController.ts:175-196 | exactly the caller's activities passing the status and type filters, by due date, whatever the role |
| ActivityController.UpcomingActivities | backend/src/controller/ActivityController.ts:203-219 | exactly the caller's activities not completed and due between now and now + 7 days inclusive, soonest first |
| OpportunityController.MatchingOpportunities | backend/src/controller/OpportunityController.ts:17-31 | exactly the stored opportunities passing the stage and customer filters, newest first |
| OpportunityController.ListOpportunities | backend/src/controller/OpportunityController.ts:9-43 | page and limit default to 1 and 10; the page echoes them, counts all matching opportunities, has ceil(total / limit) pages, and item i is matching row (page-1)*limit + i |
| OpportunityController.ListedOpportunitiesMatch | backend/src/controller/OpportunityController.ts:17-31 | a page is newest first and holds only stored opportunities matching the filters |
| OpportunityController.FindOpportunity | backend/src/controller/OpportunityController.ts:50-64 | the stored opportunity iff the id exists, otherwise 404 |
| OpportunityController.CreateOpportunity | backend/src/controller/OpportunityController.ts:71-103 | a bad body: 400; an unknown customer: 400, nothing stored; otherwise exactly one new opportunity under a fresh id |
| OpportunityController.MergeOpportunity | backend/src/controller/OpportunityController.ts:129 | the body's fields overwrite the stored ones and the others are kept |
| OpportunityController.UpdateOpportunity | backend/src/controller/OpportunityController.ts:110-135 | a bad body: 400; a missing id: 404; otherwise only that row changes; the customer is not checked again |
| OpportunityController.DeleteOpportunity | backend/src/controller/OpportunityController.ts:142-154 | a missing id: 404; otherwise exactly that row is removed |
| OpportunityController.OpportunityStatsOf | backend/src/controller/OpportunityController.ts:161-190 | the count, the value sum (0 when empty) and the average of all opportunities; count and value groups have the same stages |
| OpportunityController.StageGroupsPartition | backend/src/controller/OpportunityController.ts:167-178 | each stage group counts and sums exactly its opportunities, and the groups add up to the totals |
| InteractionController.MatchingInteractions | backend/src/controller/InteractionController.ts:19-37 | exactly the stored interactions passing the type, customer and user filters, newest first |
| InteractionController.ListInteractions | backend/src/controller/InteractionController.ts:10-48 | page and limit default to 1 and 10; the page echoes them, counts all matching interactions, has ceil(total / limit) pages, and item i is matching row (page-1)*limit + i |
| InteractionController.ListedInteractionsMatch | backend/src/controller/InteractionController.ts:19-37 | a page is newest first and holds only stored interactions matching the filters |
| InteractionController.FindInteraction | backend/src/controller/InteractionController.ts:56-70 | the stored interaction iff the id exists, otherwise 404 |
| InteractionController.CreateInteraction | backend/src/controller/InteractionController.ts:77-110 | a bad body: 400; an unknown customer: 400, nothing stored; otherwise one new interaction whose userId is the caller's, whatever the body says |
| InteractionController.MergeInteraction | backend/src/controller/InteractionController.ts:137 | the body's fields overwrite the stored ones, userId included when sent |
| InteractionController.UpdateInteraction | backend/src/controller/InteractionController.ts:118-142 | a bad body: 400; a missing id: 404, table unchanged; otherwise only that row is replaced |
| InteractionController.DeleteInteraction | backend/src/controller/InteractionController.ts:150-162 | a missing id: 404, table unchanged; otherwise exactly that row is removed |
| InteractionController.InteractionsOfCustomer | backend/src/controller/InteractionController.ts:169-180 | exactly the interactions of that customer, newest first |
| InteractionController.RecentInteractions | backend/src/controller/InteractionController.ts:187-198 | the first min(limit, rows) interactions of the newest-first order, limit 10 by default |
| CustomerController.MatchingCustomers | backend/src/controller/CustomerController.ts:16-37 | exactly the customers whose name, company or email contains the search term and that match industry and status, newest first |
| CustomerController.AsWrittenAgrees | backend/src/controller/CustomerController.ts:17-30 | for every customer, the unbracketed WHERE text and the intended conjunction agree whenever no search is combined with an industry or status filter |
| CustomerController.SearchOrBindsLoosely | backend/src/controller/CustomerController.ts:17-30 | when a search meets an industry filter the unbracketed WHERE text admits a name match from another industry: "Rossi" within "Tech" returns a "Rossi" in "Retail" |
| CustomerController.ListCustomers | backend/src/controller/CustomerController.ts:9-48 | page and limit default to 1 and 10; the page echoes them, counts all matching customers, has ceil(total / limit) pages, and item i is matching row (page-1)*limit + i |
| CustomerController.ListedCustomersMatch | backend/src/controller/CustomerController.ts:16-37 | a page is newest first and holds only stored customers matching the search and filters |
| CustomerController.FindCustomer | backend/src/controller/CustomerController.ts:56-70 | the customer with exactly its opportunities and interactions iff the id exists, otherwise 404 |
| CustomerController.CreateCustomer | backend/src/controller/CustomerController.ts:77-92 | success iff the body is valid: exactly one new customer, no parent check; otherwise 400 and nothing stored |
| CustomerController.MergeCustomer | backend/src/controller/CustomerController.ts:114 | the fields the body sends overwrite the stored ones and the rest are kept |
| CustomerController.UpdateCustomer | backend/src/controller/CustomerController.ts:99-119 | a bad body: 400; a missing id: 404, table unchanged; otherwise only that row is replaced |
| CustomerController.DeleteCustomer | backend/src/controller/CustomerController.ts:127-139 | a missing id: 404; otherwise exactly that customer is removed, with no check for dependent rows |
| CustomerController.CustomerStatsOf | backend/src/controller/CustomerController.ts:146-159 | the total and the counts of active, prospect and inactive customers |
| CustomerController.StatusesPartition | backend/src/entity/Customer.ts:5-10 | every customer has exactly one of the four statuses |
| CustomerController.StatsLeaveOutLost | backend/src/controller/CustomerController.ts:150-159 | the three counts add up to the total less the lost customers |
| DashboardController.DashboardStatsOf | backend/src/controller/DashboardController.ts:11-135 | each counter is the count or sum of the rows it names: open = not closed, overdue = due before now and not completed, this week = since now - 7 days |
| DashboardController.DashboardCharts | backend/src/controller/DashboardController.ts:68-82 | each stage of the stage chart exists iff some opportunity has it, with its count and value sum, and each activity type counts its activities; the charts add up to the totals |
| DashboardController.OpenWonLostPartition | backend/src/controller/DashboardController.ts:29-44 | every opportunity is exactly one of open, won and lost |
| DashboardController.OverdueGrows | backend/src/controller/DashboardController.ts:52-56 | the overdue count never falls as now moves forward |
| DashboardController.IndustryLabel | backend/src/controller/DashboardController.ts:206 | a missing or empty industry is tallied under 'Non specificato', any other under itself |
| DashboardController.CustomerReportOf | backend/src/controller/DashboardController.ts:186-217 | exactly the customers created in the period, and their number |
| DashboardController.CustomerReportTallies | backend/src/controller/DashboardController.ts:199-210 | the status and industry tallies each add up to the total; 'Non specificato' is a key iff some customer is labelled so, and counts those customers |
| DashboardController.OpportunityReportOf | backend/src/controller/DashboardController.ts:220-250 | exactly the opportunities created in the period, their value sum and average, both 0 when there are none |
| DashboardController.OpportunityReportTallies | backend/src/controller/DashboardController.ts:234-240 | the stage tally adds up to the total, and each stage counts its opportunities |
| DashboardController.ActivityReportOf | backend/src/controller/DashboardController.ts:253-286 | exactly the activities created in the period; the completion rate is the completed share in percent, 0 when there are none |
| DashboardController.ActivityReportTallies | backend/src/controller/DashboardController.ts:267-276 | the status and type tallies each add up to the total |
| DashboardController.CompletionRateBounded | backend/src/controller/DashboardController.ts:277-278 | the completion rate lies between 0 and 100 |
| DashboardController.TopCustomersGroup | backend/src/controller/DashboardController.ts:309-323 | a customer has an entry iff it exists (with a truthy id) and has a sale; the entry carries its name and counts exactly its sales |
| DashboardController.TopCustomersRevenue | backend/src/controller/DashboardController.ts:309-323 | the revenue of a customer's entry is the sum of the values of exactly its sales |
| DashboardController.SalesReportOf | backend/src/controller/DashboardController.ts:289-331 | exactly the won opportunities closed in the period, their revenue, average deal size (0 when none); top customers name only existing customers |
| DashboardController.ReportTitles | backend/src/controller/DashboardController.ts:213-327 | each report getReports answers carries its type's title: Report Clienti, Report Opportunità, Report Attività, Report Vendite |
| DashboardController.GetReport | backend/src/controller/DashboardController.ts:144-179 | 400 iff the type is not customers, opportunities, activities or sales; otherwise the report it names |

## Left out

- Trend charts: `customerTrend` and `salesPerformance` of the dashboard are not modelled. They bucket rows by calendar month with SQLite's `strftime`, but the configured data source is postgres (backend/src/data-source.ts:10), which has no `strftime`. Read as written, those queries fail on every call and getDashboardStats answers 500 (DashboardController.ts:138-141). `DashboardStatsOf` describes the reply the handler would send if those queries succeeded; the configured backend never sends it.
- Validation errors: a 400 from a validator sends `errors.array()`, objects with a type, the value, `msg`, the path and the location (for example AuthController.ts:14). `Common.Failure.Invalid` keeps only each `msg`, in order.
- Error plumbing: the catch-all 500 handlers, console logging, async/await, and the non-atomic save-then-reload of create are left out.
- Foreign keys: the database would reject a dangling `customerId`, `assignedToId` or `userId`. That is not modelled. Update re-checks no parent, and delete checks no dependent row, as the controllers do.
- Joined relations: responses that embed related rows (`assignedTo`, `customer`, `user`) are modelled by their foreign-key ids. A joined relation object sent in a body is not modelled.
- Request values: JSON `null`, an `id` sent in a body, and values of the wrong JSON type for fields the validators do not check are left out. The status, stage and role fields are typed as their enums here, since no validator checks them. For status and stage, a string outside the enum is rejected by the database's enum column on save, an error path (a 500) that is not modelled. For the role, register first replaces any falsy value with salesperson, so an empty role is read as no role (`body.role == None`), which `Register` maps to the default role; a non-empty string outside the enum is rejected on save, as for the others.
- `isInt` and `isNumeric`: these checks are modelled as the field being present, because the body fields are typed integers.
- Query strings: page and limit are optional and default to 1 and 10, as in the source. Values that are not positive integers are outside the model (`NaN`, zero, negative). Numeric filters are typed integers.
- SQL text: the conditions are modelled as one conjunction, the intended meaning; the customer search's OR bracketing is discussed under Findings. LIKE wildcards inside the search term and case-insensitive matching are not modelled.
- Sort ties: ORDER BY leaves the order of rows with equal keys open. The model sorts stably from ascending ids, which is one of the allowed orders.
- Numbers: money is integer cents. The decimal(10,2) column, JavaScript's floating-point `Number(...)` sums and the 10-digit precision limit are not modelled.
- Dates: date strings are read through the `toInstant` parameter. Postgres' own date parsing, time zones, and the daylight-saving length of "7 days later" are not modelled.
- Tokens: expiry (24 hours) is folded into the `verify` parameter. A database error while loading the user, which the middleware also answers with 403, is not modelled.
- Profile: `AuthController.GetProfile` is modelled as the result of running the middleware chain, because the controller only reads the user the middleware attached.
- RecentInteractions: requires a positive limit when one is given. TypeORM reads `take: 0` as "no limit", and that case is not modelled.
- Login: requires unique emails. The unique email column guarantees this in every stored state, and `Store.Db.Valid()` carries it.
- CustomerReportTallies: the industry tally is a map keyed by string. The source reduces into a plain JavaScript object, so an industry named like an inherited property (`constructor`, `toString`, `hasOwnProperty`, `__proto__`) starts from a non-numeric value or is dropped, and the tallies then no longer add up to the total; the same holds for `CustomerReportOf`'s `byIndustry`. Such industries are not modelled.
- CustomerStatsOf: states only the counts the source computes. The relation between the counts is stated by `StatsLeaveOutLost`.
- Wiring and configuration: app setup (CORS, helmet, rate limiting, seeding the admin user), the dashboard route file and the data source configuration are not part of this model.
- Other code: the legacy standalone prototype server, the frontend and the test scaffolding are not part of this model.

## Findings

| source | as written | input that shows it | evidently intended | confidence | as-written member | corrected member |
|---|---|---|---|---|---|---|
| backend/src/controller/CustomerController.ts:17-30 | the search condition `name LIKE s OR company LIKE s OR email LIKE s` is passed to `where` unbracketed and the industry and status filters are appended with `andWhere`; if the clauses are joined as text, AND binds tighter than OR and the filters only constrain the email arm | search "Rossi" with industry "Tech": a customer named "Rossi" in industry "Retail" is returned | the search is one condition and every given filter must also hold | not executed; depends on whether the TypeORM version in use brackets string conditions | CustomerController.SearchOrBindsLoosely | CustomerController.MatchingCustomers |
