# Verified model of the timesheet, billing and reporting platform

Dafny models of the platform's stateful cores, each with theorems about every
run.  `dafny verify dfyconfig.toml` checks everything.

| files | what they model |
|---|---|
| `Billing`, `BillingInvariants`, `BillingConservation`, `BillingService`, `BillingRules` | the billing service's tables `line_items` and `invoices` under an arbitrary stream of time-log events, AI insights, approvals and payments; `BillingService` has the handlers in place, `BillingRules` says field by field what each event does and how every status follows from the stream |
| `Workflow`, `WorkflowInvariants`, `WorkflowRules`, `ApprovalGate`, `TimerAccounting`, `TimesheetTotals`, `DailyCap` | time logs and timesheets: every use case as one transaction, runs of use cases against a clock that never goes back, what each use case refuses, writes and announces, and what all runs keep |
| `Rows`, `Entities`, `UnitOfWork`, `UseCases` | the same use cases as the code writes them: mutable entities, rows read back through the constructor, a session that commits or rolls back, the cascading loops; each is proved to do what its `Workflow` branch says |
| `Facts`, `Reports`, `ReportRules`, `Grouping` | the reporting service's incremental fact table, its closed form over the event history, and the grouped reports with the rows each figure stands for |
| `Weeks`, `LogDates`, `Algebra`, `Regression` | ISO week labels and the date texts they are made from, the forecast's linear regression and its series |
| `Pricing` | one log priced by the entity, by billing and by reporting |
| `Projects`, `Caching`, `CachingInvariants`, `CacheStaleness`, `ProjectCache` | the project list's read-through cache: readers and writers interleaving command by command, and the cache helper and use cases run one after another |
| `Limiter`, `LimiterRuns`, `RateLimiting` | the Redis rate limiter: INCR, EXPIRE and TTL of concurrent requests as separate steps, the runs that attain its bounds, whose counter a request uses, and `dispatch` |
| `Anomalies` | duplicate detection in the AI service |
| `Numbers`, `Tables`, `Texts`, `Wrappers` | rounding to cents, SQL sums and counts, prefixes, numerals and colon-joined keys, options and results |

## Conventions

- Tables are sequences or maps of rows.  A fresh uuid is the next row number, so two rows never share an id.  `created_at` and `updated_at` are left out, except that insertion order stands for creation order.
- Money and hours are reals; `Round2` rounds half to even as Python does on exact values.  Totals priced by the services are proved to be whole cents.
- Times in `Workflow` are integer microseconds, dates are day numbers.  In `Caching` and `Limiter` time is a real number of seconds.
- Each billing or reporting handler and each use case is one atomic step, except that `DailyCap.RacingCreatesIff` speaks of creations that all read the day's sum before any of them adds to it.  Cache and limiter steps are single Redis commands or database operations.
- A Redis key is gone once its expiry has passed, and still there at that very instant, as in the Redis server.  In `Caching` an expired entry is never served, and a step of its own removes it from the store and from what running scans still owe.
- SQL leaves ties open: the page of `list_by_user` is any page the query may return, and a report is built from any list of its group keys.
- An exception is an error result that leaves the database as it was.
- `published` and `attempts` are events whose publication was attempted.  `RedisEventPublisher` swallows connection errors, so one failed event does not stop the next.

## Results that differ from what the code or its documentation says

- The limiter calls itself a token bucket with 100 requests a minute.  It is a fixed window: counted at their INCR, a closed 60-second interval can admit 2 limit - 1 requests and never more, and that many can come within any gap, however short (`Limiter.WindowAdmits`, `LimiterRuns.BurstReachesBound`); it exceeds the limit exactly when a lifetime began inside and what the two lifetimes admit there is more (`Limiter.WindowStaysWithinIff`).  Requests are let through only after their TTL command, so at that instant the bound needs a bound on the delay: with none, any number can be let through at once (`Limiter.WindowLetsThrough`, `LimiterRuns.SlowAnswersEscape`).
- The forecast means the Monday of the last ISO week.  In ISO years that start on a Tuesday, Wednesday or Thursday it takes the Monday after, and the guard meant to correct this never applies (`Weeks.ReferenceIsMondayIff`, `Weeks.LateReference`).
- An insight or a new price for an item already invoiced changes it: the books stop balancing exactly then, the money they are off by is the sum of what each such event adds, and redelivered insights bill items twice (`BillingConservation.StepKeepsPartitionIff`, `BillingConservation.RunDrifts`, `BillingConservation.DuplicateInsightsBillTwice`).
- The daily limit of 24 hours is checked when a log is created only: an edit, pause or stop can lift the day over it (`DailyCap.StepKeepsCapIff`, `DailyCap.EditLiftsOver`).  Creations that race keep it exactly when they would also have passed one after another (`DailyCap.RacingCreatesIff`).
- The forecast's regression numbers the weeks that have entries; the numbers are weeks since the first exactly when the ISO years sort and no week is empty, and a last group of unreadable dates counts as one week more (`Weeks.IndexIsWeekIff`).
- Week labels sort as text in the order of the weeks except between ISO years of different digit counts, where it depends on the leading digits (`Weeks.LabelsSortIff`, `Weeks.OldYearsDoNotSort`).
- Two users' entries share a duplicate-detection key exactly when one user id continues the other with a colon and what the other's date starts with; it takes a colon in a user id and in a date (`Anomalies.SharedKeyIff`, `Anomalies.ColonsMergeUsers`).
- Invalidation does not stop a reader that had already queried: its SET restores the old list for up to the TTL (`CacheStaleness.RaceServesStale`).
- A submitted timesheet with one log approved on its own can be neither approved nor rejected (`WorkflowInvariants.StuckIffLogApproved`).
- A timesheet's total is written at submission only: edits to linked logs, a page that leaves logs out, and overlapping weeks separate it from its logs (`TimesheetTotals.RunTotalsAgreeIff`, `TimesheetTotals.EditBreaksTotal`).
- Creating a project for a client always raises, because the unit of work has no client repository; nothing is committed (`ProjectCache.ProjectService.Create`).
- Pausing a RUNNING log without a start time would raise a TypeError; no run reaches such a log (`WorkflowInvariants.TimerOpsKeepSound`).
- A negative rate is priced at zero by billing and at a negative amount by the entity and by reporting (`Pricing.PricesAgreeIff`).

## Model

| member | source | states |
|---|---|---|
| Numbers.RoundsToNearestEven | services/billing-service/main.py:137 | rounding gives the nearest integer, and of two equally near ones the even one, at every input |
| Pricing.BillingPrices | services/billing-service/main.py:133-137 | a positive rate is charged the cent nearest to hours times rate, at most half a cent off; no rate or one that is not positive is free |
| Pricing.ReportingPrices | services/reporting-service/main.py:146 | the cost is the cent nearest to hours times rate, whatever the rate's sign, and 0 without a rate |
| Pricing.EntityPrices | src/domain/entities/time_log.py:144-148 | a billable log's amount is the cent nearest to hours times rate; a log that is not billable or has no rate is worth 0 |
| BillingRules.FirstEvent | services/billing-service/main.py:205-254 | a first event adds one item with the event's owner, project, hours, rate, text, date and billability, priced, waiting for its insight |
| BillingRules.RepeatedEvent | services/billing-service/main.py:218-230 | a repeated event rewrites hours, rate, text, date and billability and reprices; owner, category, score, status and invoice stay, and so does every other row |
| BillingRules.NothingToDo | services/billing-service/main.py:201-275 | events without a time log, and insights for an unknown one, change nothing |
| BillingRules.GuardrailDecides | services/billing-service/main.py:257-305 | an insight sets category and score; the item becomes non-billable iff it is not billable, pending review iff billable with a score below 40, and otherwise ready, which starts the batch check |
| BillingRules.BatchIsChecked | services/billing-service/main.py:316-361 | fewer than three ready rows of the tenant are left alone; three or more all go on one new invoice with their exact sum and number, unpaid if a checkout session was made and else a draft |
| BillingRules.ApprovalReadies | services/billing-service/main.py:635-660 | only an item under review can be approved; it becomes ready and the batch check runs |
| BillingRules.PaymentMarks | services/billing-service/main.py:406-425 | a payment marks its invoice and changes nothing else |
| BillingRules.UnratedWaits | services/billing-service/main.py:239-240 | after every stream an item that had no insight is pending |
| BillingRules.StatusFollowsInsight | services/billing-service/main.py:282-287 | after every stream: with the item's last insight, it is non-billable iff it was not billable then, under review iff billable with a score below 40 and not approved since, and ready or invoiced iff billable and either without such a score or approved since |
| BillingRules.EveryItemIsPriced | services/billing-service/main.py:215-230 | after every stream each item's total is the price of its own hours and rate |
| BillingRules.AnnouncementsMatchInvoices | services/billing-service/main.py:384-399 | InvoiceGenerated is published exactly when a step adds an invoice, with that invoice's tenant and total and the ids of exactly its rows; a failing publish raises exactly then |
| BillingRules.DashboardShows | services/billing-service/main.py:544-589 | after every stream each count and each amount of the dashboard is exactly that of the rows it names, for one tenant or for all |
| BillingInvariants.EveryRunIsSound | services/billing-service/main.py:199-362 | after every stream, late and duplicate events included: one item per time log, each total prices its own hours and rate, an invoiced item has an invoice of its tenant, each invoice has a count of at least 3 and at most that many items still point to it |
| BillingInvariants.StepKeepsSound | services/billing-service/main.py:462-471 | one event, approval or payment keeps all of that, from any sound ledger |
| BillingInvariants.GenerateClears | services/billing-service/main.py:312-362 | after the batch check the tenant has fewer than 3 ready items, and no other tenant's ready count changed |
| BillingInvariants.EveryRunHasNoBacklog | services/billing-service/main.py:287-362 | after every step of every stream each tenant has at most 2 ready items |
| BillingInvariants.StepKeepsInvoices | services/billing-service/main.py:348-355 | a step adds at most one invoice, never changes an invoice's tenant, total or count, and never unpays one |
| BillingInvariants.InvoicesAreSnapshots | services/billing-service/main.py:331-362 | every invoice of every run equals, exactly and despite rounding, the sum and count of the rows bundled at the step that made it |
| BillingInvariants.NewInvoiceIsSnapshot | services/billing-service/main.py:316-355 | the invoice a step adds totals exactly the rows that were ready, the item just rated or approved included |
| BillingConservation.StepKeepsPartitionIff | services/billing-service/main.py:218-230 | from balanced books a step leaves them balanced if and only if it neither rates an invoiced item nor changes an invoiced item's total |
| BillingConservation.RunPartitionedIff | services/billing-service/main.py:257-305 | the books balance all along a stream if and only if no step of it touches an invoiced item in that way |
| BillingConservation.LateInsightBreaks | services/billing-service/main.py:277-290 | an insight for an invoiced item always takes it away from its invoice, whatever its score |
| BillingConservation.LateRepriceBreaks | services/billing-service/main.py:222-230 | an upsert that changes an invoiced item's total unbalances its invoice |
| BillingConservation.MoneyIsConserved | services/billing-service/main.py:312-362 | with balanced books, per tenant and overall, all items are worth the invoice totals plus the items not invoiced |
| BillingConservation.RunConservesMoney | services/billing-service/main.py:199-362 | the conservation law after every stream without such late events |
| BillingConservation.StepConservesMoneyIff | services/billing-service/main.py:218-230 | where the money law holds, a step keeps it if and only if it is neither a late reprice that changes an invoiced item's total nor a late insight for an invoiced item whose total is not zero |
| BillingConservation.StepDrifts | services/billing-service/main.py:257-305 | from any sound ledger, balanced or not, a step moves the books apart by exactly the price a late insight frees or a late reprice takes off |
| BillingConservation.RunDrifts | services/billing-service/main.py:199-362 | after every stream, late and duplicate events included, the invoices exceed the invoiced items by exactly the sum of these amounts, and the money law holds if and only if that sum is zero |
| BillingConservation.DashboardAddsUp | services/billing-service/main.py:544-589 | the rounded KPIs and the remaining items account for all items to the cent |
| BillingConservation.DuplicateInsightsBillTwice | services/billing-service/main.py:257-305 | a concrete stream: three items worth 30, each insight delivered twice, are invoiced for 60 |
| BillingService.Service.UpsertLineItem | services/billing-service/main.py:199-254 | the handler refines the ledger step, touches only the items, and answers the row of that time log |
| BillingService.Service.SelectReady | services/billing-service/main.py:316-334 | the ids, in order, and the sum of exactly the tenant's ready rows |
| BillingService.Service.MarkInvoiced | services/billing-service/main.py:357-361 | exactly the tenant's ready rows become invoiced with the new id |
| BillingService.Service.TryGenerateInvoice | services/billing-service/main.py:312-399 | refines the invoicing step whether or not the publish fails; announces an invoice made once, with its total and ids, and raises only when that publish fails |
| BillingService.Service.ApplyAiGuardrail | services/billing-service/main.py:257-305 | refines the insight step; announces the invoice made by the batch check of an item that became ready, and nothing else; raises only when that publish fails |
| BillingService.Service.ApproveLineItem | services/billing-service/main.py:635-667 | refines the approval step and announces the invoice it makes, if any; the error tells unknown items from items not under review |
| BillingService.Service.MarkInvoicePaid | services/billing-service/main.py:406-452 | pays known invoices once; a second payment changes and publishes nothing |
| BillingService.Service.HandleEvent | services/billing-service/main.py:462-471 | each event type runs its ledger step, other types run none; only an insight publishes or raises, as its handler does |
| Billing.CalculateTotalIsCents | services/billing-service/main.py:133-137 | every price is a whole number of cents |
| Pricing.PricesAgreeIff | src/domain/entities/time_log.py:144-148 | a billable log's amount equals reporting's cost always, and billing's total unless a negative rate gives a nonzero amount |
| Pricing.PricesAgree | services/reporting-service/main.py:146 | with a rate that is not negative the three prices are one, in whole cents |
| WorkflowInvariants.EveryRunIsSound | src/application/use_cases/timesheets/submit_timesheet.py:25-68 | after every run: every log passes constructor validation, a RUNNING log has a start time not in the future, links stay within tenant and user, linked logs are not drafts, sheets are never drafts and unique per user and week |
| WorkflowInvariants.TimerOpsKeepSound | src/domain/entities/time_log.py:88-122 | pausing a sound log succeeds exactly when it is RUNNING, so it never meets a missing start time; pause, resume and stop keep it sound |
| WorkflowInvariants.OneLogOutcome | src/application/use_cases/timelogs/manager_approve.py:24-31 | on a sound database a single-log use case commits exactly when the entity allows the change, and then changes that log only |
| WorkflowInvariants.ApproveCommitsIff | src/application/use_cases/timesheets/approve_timesheet.py:26-43 | approval commits if and only if the sheet is SUBMITTED and every linked log is PENDING or REJECTED |
| WorkflowInvariants.RejectCommitsIff | src/application/use_cases/timesheets/reject_timesheet.py:27-44 | rejection commits if and only if the sheet is SUBMITTED and every linked log is PENDING |
| WorkflowInvariants.DecisionsAreAllOrNothing | src/infrastructure/database/unit_of_work.py:48-62 | a committed decision changes every linked log and no other, and attempts exactly 1 + n events; a refused one changes and attempts nothing |
| WorkflowInvariants.StuckIffLogApproved | src/domain/entities/time_log.py:126-140 | in every run, a submitted sheet can be neither approved nor rejected if and only if one of its logs is already approved |
| WorkflowInvariants.LogAfterRequest | src/application/use_cases/timesheets/submit_timesheet.py:62-66 | what any request leaves of any existing log |
| WorkflowInvariants.NewLogs | src/application/use_cases/timelogs/start_timer.py:33-48 | a request adds at most one log, unlinked, not approved, with nothing accumulated |
| WorkflowRules.CreateRule | src/application/use_cases/timelogs/create_time_log.py:24-54 | a manual entry is refused without a project, outside (0, 24] hours or over the day's 24; else exactly one log is added with every field from the request, the request's nonzero rate or the project's, pending approval |
| WorkflowRules.StartRule | src/application/use_cases/timelogs/start_timer.py:26-57 | a timer is refused only without a project; else one log is added, running from now, without hours, as a draft |
| WorkflowRules.PauseRule | src/domain/entities/time_log.py:88-97 | exactly a running timer can be paused: whole elapsed seconds are added, the hours are their nearest hundredth, the start is cleared, nothing else changes, and the seconds are announced |
| WorkflowRules.ResumeRule | src/domain/entities/time_log.py:99-104 | exactly a paused timer can be resumed: it runs from now and nothing else changes |
| WorkflowRules.StopRule | src/domain/entities/time_log.py:106-122 | exactly a running or paused timer can be stopped: the last segment counts only if it was running, and the log waits for approval |
| WorkflowRules.EditRule | src/application/use_cases/timelogs/update_time_log.py:20-36 | an edit sets what it names and keeps the rest; hours outside (0, 24] refuse it whole |
| WorkflowRules.ApproveLogRule | src/application/use_cases/timelogs/manager_approve.py:24-46 | exactly a pending or rejected log is approved, and announced with its user, project, hours, date, description, billability and rate |
| WorkflowRules.RejectLogRule | src/application/use_cases/timelogs/manager_reject.py:23-39 | exactly a pending log is rejected |
| WorkflowRules.PageRule | src/infrastructure/database/repositories/time_log_repository.py:71-92 | the page is all of the user's logs of the week, or fifty of them with none left out that is later than one taken |
| WorkflowRules.FirstSubmitRule | src/application/use_cases/timesheets/submit_timesheet.py:35-77 | a week without a sheet gets one, submitted, with the sum of the page's hours; exactly the page's logs are linked and wait for approval |
| WorkflowRules.ResubmitRule | src/application/use_cases/timesheets/submit_timesheet.py:26-77 | a rejected sheet is reopened without approver and reason and submitted anew; a submitted or approved one refuses |
| WorkflowRules.ApproveSheetRule | src/application/use_cases/timesheets/approve_timesheet.py:26-69 | the three refusals with their errors; else sheet and logs are approved, and the sheet and then each log, in full and in order, are announced |
| WorkflowRules.RejectSheetRule | src/application/use_cases/timesheets/reject_timesheet.py:27-66 | the same for rejection, with approver and reason on the sheet |
| ApprovalGate.GateCounts | src/application/use_cases/timelogs/manager_approve.py:24-46 | over every run, announcements of a log equal its transitions into APPROVED, and exceed the resets by one exactly while it is APPROVED |
| ApprovalGate.ExecuteAnnounces | src/application/use_cases/timesheets/approve_timesheet.py:38-69 | one committed use case announces a log once if it takes it into APPROVED, and not at all otherwise |
| ApprovalGate.IntoApproved | src/domain/entities/time_log.py:126-132 | a log enters APPROVED exactly by its own approval or by its sheet's cascade |
| ApprovalGate.ResetsComeFromSubmitOrStop | src/application/use_cases/timesheets/submit_timesheet.py:62-66 | only a submission that picks the log or stopping its unfinished timer takes it out of APPROVED, to PENDING |
| TimerAccounting.GoingIsRunning | src/domain/entities/time_log.py:81-122 | over any run the stored timer runs exactly while a stopwatch goes that follows the requests, from a committed start or resume to the next committed pause or stop |
| TimerAccounting.TimerIsAccurate | src/domain/entities/time_log.py:81-122 | against that stopwatch, over any run with k closed segments: closed running time minus k seconds < recorded seconds <= closed running time, and a running timer's start is when the stopwatch was switched on; without a manual edit the hours are the seconds' nearest hundredth |
| TimerAccounting.EveryRunAccounts | src/domain/entities/time_log.py:91-96 | the open segment counts from the recorded start, closed time is accounted segment by segment |
| TimerAccounting.HoursNeverDecrease | src/domain/entities/time_log.py:112-120 | without manual edits a timer's hours never go down from one request to the next |
| TimesheetTotals.StepKeepsTotalsIff | src/application/use_cases/timesheets/submit_timesheet.py:42-66 | from agreeing totals a request keeps them if and only if the entity's guards leave a linked log's hours alone and a submission the week's status allows takes all and only the hours of its own sheet |
| TimesheetTotals.RunTotalsAgreeIff | src/application/use_cases/timesheets/submit_timesheet.py:35-68 | totals agree all along a run if and only if every request keeps them |
| TimesheetTotals.OrderlyTotalsAgree | src/infrastructure/database/repositories/time_log_repository.py:71-92 | with equal or separate weeks, at most 50 logs a week and no hour changes after linking, every sheet shows the sum of its logs in every run, across rejections, resubmissions and single approvals |
| TimesheetTotals.EditBreaksTotal | src/application/use_cases/timelogs/update_time_log.py:25-36 | a concrete run: eight hours submitted, edited to four, and the sheet still shows eight |
| WorkflowInvariants.SubmitCommitsIff | src/application/use_cases/timesheets/submit_timesheet.py:26-33 | on a sound database a submission commits exactly when the week has no sheet, or a draft or rejected one |
| DailyCap.StepKeepsCapIff | src/application/use_cases/timelogs/update_time_log.py:25-26 | from days within 24 hours a request keeps every user's every day within them if and only if it is not an edit, pause or stop that lifts its log's day over |
| DailyCap.RunWithinCapIff | src/application/use_cases/timelogs/create_time_log.py:29-36 | every day stays within 24 hours all along a run if and only if no request lifts one over |
| DailyCap.RacingCreatesIff | src/application/use_cases/timelogs/create_time_log.py:29-53 | any number of creations, each checked against the day's sum before any of the others is added, keep every day within 24 hours if and only if each would have passed after the ones before it |
| DailyCap.EditLiftsOver | src/application/use_cases/timelogs/update_time_log.py:25-36 | a concrete run: twenty and four hours of one day, the four edited to twenty-four, and the day has forty-four |
| Rows.LogRoundTripIff | src/infrastructure/database/repositories/time_log_repository.py:20-69 | writing then reading restores every field exactly when constructor validation passes |
| Rows.RowRoundTrip | src/infrastructure/database/repositories/time_log_repository.py:20-69 | reading then writing restores the row |
| Rows.SheetRoundTrip | src/infrastructure/database/repositories/timesheet_repository.py:20-48 | a timesheet survives its row |
| Rows.ColumnsHoldFields | src/infrastructure/database/repositories/time_log_repository.py:45-69 | each column holds the field it is named after, statuses by their names |
| Rows.EveryStoredLogReadsBack | src/domain/entities/time_log.py:35-61 | every log that any run stores reads back unchanged |
| Entities.TimeLog.PauseTimer | src/domain/entities/time_log.py:88-97 | in place, the paused log, or unchanged with a refusal |
| Entities.TimeLog.StopTimer | src/domain/entities/time_log.py:106-122 | in place, the stopped log, pending approval, or unchanged with a refusal |
| Entities.TimeLog.Apply | src/application/use_cases/timelogs/update_time_log.py:25-34 | in place, the edited log, or unchanged when the hours are out of range |
| Entities.Timesheet.TransitionTo | src/domain/entities/timesheet.py:59-64 | moves along the transition table only |
| Entities.Timesheet.Reopen | src/domain/entities/timesheet.py:54-57 | only a rejected sheet reopens, without approver and reason |
| UnitOfWork.Transaction.Rollback | src/infrastructure/database/unit_of_work.py:61-62 | the session sees the committed database again |
| UnitOfWork.Transaction.GetByUserAndWeek | src/infrastructure/database/repositories/timesheet_repository.py:50-63 | finds the week's sheet, and reports more than one |
| UnitOfWork.Transaction.SumHours | src/infrastructure/database/repositories/time_log_repository.py:117-129 | the user's hours on that day |
| UnitOfWork.Transaction.ListByTimesheet | src/infrastructure/database/repositories/time_log_repository.py:152-162 | exactly the linked rows, or a failure when one of them cannot be read back |
| UseCases.Api.Create | src/application/use_cases/timelogs/create_time_log.py:24-54 | refines the create branch; a created log keeps the day within 24 hours |
| UseCases.Api.StartTimer | src/application/use_cases/timelogs/start_timer.py:26-57 | refines the start branch |
| UseCases.Api.PauseTimer | src/application/use_cases/timelogs/pause_timer.py:22-38 | refines the pause branch |
| UseCases.Api.ResumeTimer | src/application/use_cases/timelogs/resume_timer.py:22-37 | refines the resume branch |
| UseCases.Api.StopTimer | src/application/use_cases/timelogs/stop_timer.py:21-29 | refines the stop branch, publishing nothing |
| UseCases.Api.UpdateLog | src/application/use_cases/timelogs/update_time_log.py:20-36 | refines the edit branch |
| UseCases.Api.ApproveLog | src/application/use_cases/timelogs/manager_approve.py:24-46 | refines the approve branch |
| UseCases.Api.RejectLog | src/application/use_cases/timelogs/manager_reject.py:23-39 | refines the reject branch |
| UseCases.Api.ApproveTimesheet | src/application/use_cases/timesheets/approve_timesheet.py:18-69 | the cascading loop inside its transaction, then the event loop, do exactly the approval branch |
| UseCases.Api.RejectTimesheet | src/application/use_cases/timesheets/reject_timesheet.py:18-66 | the same for rejection |
| UseCases.Api.SubmitTimesheet | src/application/use_cases/timesheets/submit_timesheet.py:19-77 | total, reopen or create, link loop and commit do exactly the submit branch |
| Facts.TableIsClosedForm | services/reporting-service/main.py:129-222 | after every history a row exists iff its log was approved; tenant from the first approval, hours, cost, week, user and project from the last, category and score from the last insight after the first approval, paid iff a payment of its tenant came while it was billable, at the cost of that moment |
| Facts.RowShowsApproval | services/reporting-service/main.py:135-178 | after every history a row shows the user, project, hours, rate, description, date and billability of its log's last approval as sent, the tenant of the first, and a cost that is the price of those hours |
| Facts.PaidAmountIsPrice | services/reporting-service/main.py:203-222 | after every history a paid row was paid by an event of its own tenant, at the price of the approval that held then, which was billable; an unpaid row shows 0 |
| Facts.WeeksFollowDates | services/reporting-service/main.py:143-164 | after every history each row's week is the label of that row's date |
| Facts.PaymentsAreFrozen | services/reporting-service/main.py:216-222 | a paid row stays paid at the same amount, whatever follows |
| Facts.FactTable.HandleTimeLogApproved | services/reporting-service/main.py:129-178 | the upsert in place refines the approval step, which computes the week from the date and the cost from hours and rate |
| Facts.FactTable.HandleAiInsight | services/reporting-service/main.py:181-200 | the update refines the insight step and tells whether a row was enriched |
| Facts.FactTable.HandleInvoicePaid | services/reporting-service/main.py:203-222 | every unpaid billable row of the tenant is marked, no other |
| Facts.FactTable.Listen | services/reporting-service/main.py:252-269 | the subscriber's loop over a new table leaves the table the closed form speaks of |
| Grouping.GroupsConserve | services/reporting-service/main.py:342-355 | for any key and column the group sums add up to the ungrouped sum |
| Reports.BurnRateConserves | services/reporting-service/main.py:316-367 | the weeks add up to the summary under the same filter: entries exactly, rounded hours and costs within half a cent a group and one for the total |
| Reports.WeekGroupsAreWeeks | services/reporting-service/main.py:342-355 | among rows of the table of any history, those grouped with a row by week are exactly those whose date falls in the same Monday-to-Sunday week, or is unreadable as that row's is |
| Reports.BurnRateIsExactOnHundredths | services/reporting-service/main.py:357-367 | when hours are whole hundredths the rounded weeks add up exactly, and billable plus non-billable is each week's hours |
| ReportRules.BurnRateShows | services/reporting-service/main.py:326-367 | a week's entries, hours, cost, billable and non-billable hours are those of exactly the rows of the tenant and project asked for that lie in it |
| ReportRules.SummaryShows | services/reporting-service/main.py:493-523 | the summary's entries, hours and cost are those of exactly the rows of the tenant asked for; the project is a second filter, for comparison with the burn rate |
| ReportRules.ProductivityShows | services/reporting-service/main.py:384-426 | a category's entries, hours and percentage are those of exactly its rows among those asked for, rows without a category counting as Uncategorised |
| ReportRules.IndividualShows | services/reporting-service/main.py:532-556 | a user's totals, billable and non-billable hours and billable ratio are those of exactly that user's rows |
| ReportRules.DayShows | services/reporting-service/main.py:558-583 | a day of the user shows exactly that user's rows of the date |
| ReportRules.ProjectShows | services/reporting-service/main.py:585-604 | a project of the user shows exactly that user's rows of the project |
| Reports.WeeksSplit | services/reporting-service/main.py:348-349 | in every week billable plus non-billable is the total, up to the roundings |
| Reports.PercentagesSumToHundred | services/reporting-service/main.py:396-426 | k rounded percentages sum to 100 within 0.05 k, or to 0 when the hours sum to 0; category hours sum to the total |
| Reports.BreakdownsConserve | services/reporting-service/main.py:532-604 | a user's days and projects add up to that user's hours and costs within the roundings, the days' entries exactly; where the user has no negative entry the billable ratio is from 0 to 100 |
| Reports.UsersConserve | services/reporting-service/main.py:545-556 | users' hours and costs add up to everyone's |
| Weeks.LabelsAreChronological | services/reporting-service/main.py:1018-1028 | for valid dates of years 1000 to 9999 text order of labels is the order of the weeks (section 4.1.4 of ISO 8601:2004) |
| Weeks.LabelsIdentifyWeeks | services/reporting-service/main.py:115-122 | for all valid dates labels are equal iff the dates share a Monday-to-Sunday week |
| Weeks.LabelsSortIff | services/reporting-service/main.py:120 | for all valid dates text order of two labels is the order of their weeks if and only if the ISO years have equally many digits or the shorter one does not exceed the other's leading digits |
| Weeks.OldYearsDoNotSort | services/reporting-service/main.py:120 | a concrete pair: a week of the year 999 sorts after one of the year 1000 |
| Weeks.SeriesIsChronologicalIff | services/reporting-service/main.py:1018-1028 | in a series sorted by distinct labels at most the last group is that of unreadable dates; before it each Monday is later than the ones before, by at least a week an index and by whole weeks, if and only if from each week to the next the ISO years sort as text |
| Weeks.FourDigitSeries | services/reporting-service/main.py:1018-1028 | with dates of the years 1000 to 9999 every such series runs forward in time |
| Weeks.IndexIsWeekIff | services/reporting-service/main.py:1038 | the regression's xs are the weeks since the first if and only if the ISO years sort and no week between the first and the last dated one is missing; a last group of unreadable dates takes one more index |
| Weeks.IsoCalendarIsWeek | services/reporting-service/main.py:119 | the ISO year is the one whose weeks contain the date, and the week counts Mondays from its first |
| Weeks.IsoWeekIsThursdays | services/reporting-service/main.py:119 | the ISO year is the calendar year of the week's Thursday and the week counts that year's Thursdays |
| Weeks.LabelShows | services/reporting-service/main.py:119-120 | a label is the ISO year's numeral, "-W" and the week in two digits |
| Weeks.KnownDays | services/reporting-service/main.py:118 | day counts of the first of each month of 2026 and of other known days, and which 29 February exists |
| Weeks.OrdinalCounts | services/reporting-service/main.py:118 | the day count the weeks rest on goes up by one from each date to the next |
| Weeks.UnknownSortsLast | services/reporting-service/main.py:121-122 | entries without a readable date sort after every week |
| LogDates.LabelsAgreeIff | services/reporting-service/main.py:115-122 | whatever the texts, two date texts have the same label if and only if both are unreadable or their dates share a Monday-to-Sunday week |
| LogDates.ParsesIff | services/reporting-service/main.py:115-122 | the texts read as a date are exactly those whose first ten characters are a four-digit year, a dash, a month in one or two digits, a dash and a day in one or two digits or a space and one, of an existing date |
| LogDates.DatesReadBack | services/reporting-service/main.py:118 | a date written as YYYY-MM-DD, with any text such as a time after it, is read back |
| Weeks.ReferenceIsMondayIff | services/reporting-service/main.py:1076-1088 | the forecast's reference date is the ISO Monday if and only if the ISO year does not start on a Tuesday, Wednesday or Thursday; otherwise it is a week late |
| Weeks.LateReference | services/reporting-service/main.py:1083-1086 | a concrete week: 2026-W10 is taken to start on 9 March |
| Regression.RegressionIsLeastSquaresIff | services/reporting-service/main.py:981-1002 | the answer is a least-squares line if and only if the denominator reaches the threshold, the points do not covary, or there is at most a single point at height 0 |
| Regression.RegressionNormalEquations | services/reporting-service/main.py:996-1002 | with a usable denominator the residuals sum to zero and are orthogonal to the xs, and no line has a smaller squared error |
| Regression.NormalLineIsLeast | services/reporting-service/main.py:1000-1002 | any other line is worse by exactly the spread between the two |
| Regression.DenominatorSign | services/reporting-service/main.py:996 | the denominator is never negative and zero iff all xs are equal |
| Regression.WeeksSpread | services/reporting-service/main.py:1038 | for xs = 0, ..., n-1 the denominator is n^2 (n^2 - 1) / 12, so the degenerate branch is not taken |
| Regression.TrendPassesTheAverage | services/reporting-service/main.py:1053-1058 | the weekly trend is least-squares and passes the mean week at the average burn |
| Regression.ForecastSeries | services/reporting-service/main.py:1037-1058 | the loop's cumulative list is the prefix sums ending at the total, and the average is the trend at the mean week |
| Projects.AnswersAreOwn | src/infrastructure/database/repositories/base.py:44-59 | a list holds at most `limit` rows, all of the tenant and, if asked, of the client |
| Projects.PagesTile | src/infrastructure/database/repositories/base.py:51-57 | reading on from where a page ended neither repeats nor skips a row |
| Projects.FirstPageIsComplete | src/infrastructure/database/repositories/project_repository.py:92-112 | a long enough first page lists every row that matches |
| Projects.PageShows | src/infrastructure/database/repositories/base.py:44-59 | newest first, a page shows exactly the matching rows with from `offset` to `offset + limit` matching rows before them |
| Projects.CommitsIff | src/domain/entities/project.py:10-15 | an update or deletion commits iff the tenant has the row, and an update only if its status is the same or one the project can move to |
| Projects.UpdateIsPointwise | src/infrastructure/database/repositories/base.py:67-71 | an update edits exactly the tenant's row of that id: client and status if given, and the content |
| Projects.DeleteIsExact | src/infrastructure/database/repositories/base.py:73-79 | a deletion drops exactly the tenant's row of that id |
| Projects.DeleteCuts | src/infrastructure/database/repositories/base.py:73-79 | the rows around the deleted one stay as they are and in order |
| Projects.CommitKeepsOtherAnswers | src/application/use_cases/projects/update_project.py:31-61 | no writer of one tenant changes any list of another |
| Projects.KeyIsInjective | src/application/use_cases/projects/list_projects.py:26 | different queries never share a cache key |
| Projects.PatternIsTenant | src/application/use_cases/projects/create_project.py:54-56 | the invalidation pattern matches exactly that tenant's list keys |
| CachingInvariants.EveryRunIsSound | src/application/use_cases/projects/list_projects.py:26-73 | in every interleaving, expired entries leaving the store at any time, each entry is the answer of the version its filler queried, and entries older than a scan are still owed by it or gone |
| CacheStaleness.ServedWasTrue | src/infrastructure/cache/redis_cache.py:26-43 | a served list is the uncached answer at the instant its filler queried, at most the TTL and the filler's delay ago |
| CacheStaleness.StaleIsExplained | src/application/use_cases/projects/update_project.py:58-64 | a served list that differs from the database has a commit of its tenant that is not yet invalidated, failed to be, or began its invalidation after the filler's query and before its SET; every own commit since the query is such a one |
| CacheStaleness.UnexplainedIsFresh | src/application/use_cases/projects/list_projects.py:28-32 | without such a commit the cached list is the current uncached one |
| CacheStaleness.ServedIsOwn | src/application/use_cases/projects/list_projects.py:25-32 | a served list never shows another tenant's projects |
| CacheStaleness.InvalidationSparesOthers | src/infrastructure/cache/redis_cache.py:57-61 | deleting a scanned batch leaves other tenants' cached lists in place |
| CacheStaleness.RaceServesStale | src/application/use_cases/projects/list_projects.py:34-71 | for every change that alters an answer there is a run in which all invalidations are done and the old list is served |
| ProjectCache.RedisCache.CacheInvalidatePattern | src/infrastructure/cache/redis_cache.py:52-65 | the SCAN loop deletes exactly the matching keys, or some of them when a call fails, and ends |
| ProjectCache.RedisCache.CacheGet | src/infrastructure/cache/redis_cache.py:26-35 | the unexpired value, or none on a miss or an error |
| ProjectCache.RedisCache.CacheSet | src/infrastructure/cache/redis_cache.py:37-43 | stores with the expiry, or nothing when the call fails |
| ProjectCache.ProjectService.List | src/application/use_cases/projects/list_projects.py:17-73 | run one after another the cached use case answers as the uncached one, whatever Redis calls fail, leaves the cache coherent, and stores a list that was missing for 60 seconds |
| ProjectCache.ProjectService.Create | src/application/use_cases/projects/create_project.py:31-65 | adds an active row, keeps the cache coherent unless invalidation failed, and announces the project; raises for a client and then does nothing |
| ProjectCache.ProjectService.Update | src/application/use_cases/projects/update_project.py:31-74 | edits the tenant's row, unless it is missing or cannot move to the status asked for; keeps the cache coherent unless invalidation failed; announces a status that really changed |
| ProjectCache.ProjectService.Remove | src/application/use_cases/projects/delete_project.py:15-25 | the same for deletion |
| Limiter.WindowAdmits | src/infrastructure/middleware/rate_limiter.py:76-85 | over every interleaving a closed 60-second interval admits at most 2 limit - 1 requests of one identity, counted at their INCR |
| Limiter.WindowStaysWithinIff | src/infrastructure/middleware/rate_limiter.py:76-85 | over every interleaving a closed 60-second interval admits at most `limit` requests if and only if for no lifetime that began inside what it and the one before admitted there exceeds the limit |
| Limiter.SpanAdmits | src/infrastructure/middleware/rate_limiter.py:77-85 | a closed interval of n windows admits at most (n + 1) limit - 1 requests, counted at their INCR |
| Limiter.WindowLetsThrough | src/infrastructure/middleware/rate_limiter.py:81-97 | counted when they are answered: if every answer comes at most a delay after its INCR, and the window and the delay fit n windows, a closed 60-second interval lets through at most (n + 1) limit - 1 requests |
| LimiterRuns.SlowAnswersEscape | src/infrastructure/middleware/rate_limiter.py:77-97 | without a bound on the delay there are runs that let any number of requests through at one instant, for every limit |
| LimiterRuns.SpanIsReached | src/infrastructure/middleware/rate_limiter.py:77-85 | for every n and every limit there is a run that admits (n + 1) limit - 1 requests in a closed interval of n windows |
| LimiterRuns.DelayIsReached | src/infrastructure/middleware/rate_limiter.py:76-97 | for every n > 1 and every delay above n - 2 windows there is a run with no later answer that lets (n + 1) limit - 1 requests through in one closed 60-second interval |
| LimiterRuns.BurstReachesBound | src/infrastructure/middleware/rate_limiter.py:1-10 | for every gap there is a run that admits 2 limit - 1 requests within twice that gap |
| Limiter.LifetimeAdmits | src/infrastructure/middleware/rate_limiter.py:77-85 | one lifetime of the counter admits exactly its first `limit` requests |
| Limiter.NoExpiryIffOutstanding | src/infrastructure/middleware/rate_limiter.py:78-79 | the key lacks a TTL exactly while the EXPIRE of the request that created it is outstanding |
| Limiter.AnswersFollowCounts | src/infrastructure/middleware/rate_limiter.py:81-103 | each answered request was counted once, is admitted iff its count is within the limit, and is told to wait 0 to 60 seconds |
| RateLimiting.IdentityRule | src/infrastructure/middleware/rate_limiter.py:35-58 | a bearer token that decodes comes before an API key and a key before the address; the counter's name, and a limit of 100 for the first two and of 20 for an address |
| RateLimiting.SharedCounters | src/infrastructure/middleware/rate_limiter.py:35-58 | requests share a counter exactly when they have the same user, key prefix or address, and then also the limit |
| RateLimiting.ApiKeysShareByPrefix | src/infrastructure/middleware/rate_limiter.py:52-55 | API keys share a counter exactly when their first 16 characters agree |
| RateLimiting.Middleware.Dispatch | src/infrastructure/middleware/rate_limiter.py:71-103 | identity, INCR, EXPIRE and TTL in one go, while other requests may be under way: only the caller's counter changes, a request is allowed iff its count is at most 100 with a token or an API key and at most 20 without, and the TTL is the key's to the nearest second, or the window while another request's EXPIRE is outstanding |
| Anomalies.DetectDuplicates | services/ai-service/main.py:374-454 | the nested grouping flags exactly the entries with a twin, once each, with the number of entries alike |
| Anomalies.TwinsAreTwins | services/ai-service/main.py:437-447 | the entries counted as alike are those with the same day key and the same nonempty normalised description |
| Anomalies.SharedKeyIff | services/ai-service/main.py:388 | two entries share a day key if and only if user and date agree, or the longer user id is the shorter one, a colon and the start of the other entry's date up to a colon |
| Anomalies.TwinsIff | services/ai-service/main.py:437-447 | twins are exactly the entries with the same description and the same user and date or such a shift |
| Anomalies.TwinsShareUserAndDate | services/ai-service/main.py:387-389 | with colon-free user ids, or with colon-free dates as in YYYY-MM-DD and any user ids, twins are exactly the entries with the same user, date and description |
| Anomalies.ColonsMergeUsers | services/ai-service/main.py:388 | a concrete pair: with a colon in a user id and in a date, entries of two users on two dates count as duplicates |

## Left out

- Wiring between services: no use case publishes the events billing reacts to, so billing and reporting are modelled against arbitrary event streams.
- Payloads that are not well formed: missing `time_log_id` is modelled, JSON errors, null where a column is NOT NULL, and texts where numbers belong are not.
- Floating-point error: reals are exact, so a sum that Python leaves a last digit off is off by none here.
- Threads sharing one SQLite connection in the middle of a handler.
- Stripe: a checkout session either succeeds or not; exceptions other than StripeError, and `redis.from_url` failing before a publish, are not modelled.
- The limiter's fail-open path on Redis errors, and a process that dies between INCR and EXPIRE, which leaves a counter without expiry.
- Request and response objects: a cached row is the row, and JSON encoding is the identity. `ProjectResponse` is built without its required `estimated_hours`, which would raise; the list is modelled as if it were not required.
- Project ids are primary keys; the model looks up the first row and does not exclude a second one.
- `cache_invalidate`, which no use case calls.
- Averages of quality scores, `total_paid` and the rank order of categories and projects in reports.
- Team, executive, profitability, wellness and digest reports, CSV and HTML export: the same sums with thresholds and formatting.
- The forecast's exhaustion and completion dates: quotients of the proved totals; parsing of week labels is a parameter, and the parsed Monday follows the `%W` rule of Python's `strptime`.
- The other anomaly flags (long days, weekends, round hours, above average): one comparison each. The order in which duplicates are listed is not stated.
- `strip().lower()`: any function on texts.
- AI fields of a log are carried but no use case sets them.
- `created_at` ties between projects: a created project may take any place in the list.
- Events other than TimeLogApproved carry their ids and figures only.
- Test fakes: their rollback undoes nothing; the model follows the SQLAlchemy unit of work.
- UseCases.Api.ApproveTimesheet: rows become objects one at a time inside the loop, where the code lists all objects first; a row that cannot be read back refuses either way.
- UseCases.Api.RejectTimesheet: the same.
- UseCases.Api.SubmitTimesheet: the page is a parameter, any page the query may return.
- Weeks.ReferenceIsMondayIff: does not model label parsing or the fallback to the current date for labels that are no week.
- Transactions that overlap in the database otherwise: besides racing creations, two submissions or decisions at once are not modelled.
- Weeks.LabelsAreChronological: years below 1000 are in `Weeks.LabelsSortIff` instead, because the labels there have no leading zeros and need not sort.
- `strptime` also reads decimal digits outside ASCII; `LogDates.ParseDate` reads ASCII digits only.
