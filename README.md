# Sales compensation engine, modelled in Dafny

This project models the compensation engine of a sales-management back end (`src/routes/sales.py` over the records of `src/models/sales.py`). The engine works month by month:

- It rates every newly signed project from the seller's role and the share of the monthly target reached so far.
- A project that came from social media gets half a point less.
- It keeps each target's achieved amount up to date.
- It shares a month's marketing budget among that month's social-media projects, in proportion to their value, and subtracts each share from the project's commission (never below 0).
- It sums project commissions, marketing costs and weighted KPI scores into one commission statement per employee and month.

The store is a class, `Engine.SalesDb`, that holds one sequence of rows per table. Its methods update those tables in place, as the route bodies and helpers do.

- The employee, project and KPI tables use the row's position as its id.
- The target, budget, score and commission tables carry their natural key in the row: (employee, month), month, (employee, KPI, month) and (employee, month).
- A `filter_by(...).first()` lookup is `Tables.IndexOfKey`.
- A signature date is reduced to its (month, year) `Period`.
- Money is `real`.
- A request that the source ends with an exception, before anything of it is committed, is an `Err`/`Fail` result that changes nothing. Examples are a missing employee on project creation, a missing KPI on scoring, and a social-media project with no final commission met by a marketing allocation.

Every method is proved against functions of the other modules. Those functions carry the properties:

- `RateTable`: the rate table, and its equivalence to rising bracket schedules.
- `Ledger`: the month sums.
- `Achievement`: the achievement ratio and the target refresh.
- `Assignment`: rating a project.
- `Allocation`: one allocation and a whole redistribution.
- `Aggregation`: the commission statement and the two upserts.
- `Scenarios`: three worked months.

Three behaviours of the code are easy to miss:

- **The rating ratio excludes the new project.** The ratio used to rate a new project is computed at `src/routes/sales.py:117`, before the project is stored at line 127, so its own value is not counted. A sales rep with a 100,000 target whose first project is worth 60,000 is therefore rated at ratio 0 and earns 600. The second project, worth 50,000, is rated at 0.6 and earns 750. See `Assignment.RatingExcludesOwnValue` and `Scenarios.TwoProjectsAgainstTarget`.
- **Only the new project gets an allocation.** A new social-media project is given its own share only (`src/routes/sales.py:134-135`). The other social-media projects of the month keep their earlier allocation, which was computed against a smaller total. Only creating a budget shares out the whole month (`src/routes/sales.py:251`).
- **Reallocation keeps deducting.** Each allocation subtracts its share from the commission as it stands now. Allocating again therefore takes the same cost off a second time (`Allocation.AllocateAgainDeductsAgain`, `Allocation.RedistributeAgainDeductsAgain`).

## Model

| member | source | states |
|---|---|---|
| `Records.NewEmployee` | src/models/sales.py:5-16 | a new employee needs a name, a role and a base salary; it has no team unless given and is active unless said otherwise |
| `Records.NewProject` | src/models/sales.py:45-48 | a new project is not from social media unless said, has nothing allocated, and has neither rate nor final commission |
| `Records.NewTarget` | src/models/sales.py:60-62 | a new target needs only its amount; achieved amount and percentage start at 0 |
| `Records.NewBudget` | src/models/sales.py:72-74 | a new budget needs its total; allocated and remaining are 0 unless given |
| `Records.NewKpi` | src/models/sales.py:88-90 | a KPI needs a weight, has a maximum score of 10 unless given, and starts active |
| `Records.NewScore` | src/models/sales.py:101-102 | a score row needs its score; its weighted score may be absent |
| `Records.NewCommission` | src/models/sales.py:117-123 | a new commission row has all five money columns at 0 unless given, is not approved and has no approver |
| `Tables.IndexOfKey` | src/routes/sales.py:410 | the lookup finds the first row with the key, or reports that no row has it |
| `RateTable.CommissionRate` | src/routes/sales.py:426-450 | every rate lies in [0, 0.025]; a sales manager always gets 0.005; any role other than the three gets 0 |
| `RateTable.RateBrackets` | src/routes/sales.py:428-446 | the brackets of sales rep (1%, 1.5%, 2%, 2.5%) and team leader (0.5%, 0.75%, 1%, 1.25%) at 0.5, 0.8 and 1.0, each bound inclusive |
| `RateTable.RateIsSchedule` | src/routes/sales.py:426-450 | the coded table equals a lookup in a per-role schedule of brackets whose rates never fall |
| `RateTable.RateMonotone` | src/routes/sales.py:426-450 | for a fixed role a higher achievement ratio never gets a lower rate |
| `Ledger.TotalNoneSelected` | src/routes/sales.py:415-419 | a `Total` over a table where no row is selected is 0, as `sum(...) or 0.0` gives for a missing sum |
| `Ledger.TotalNonNegative` | src/routes/sales.py:533-534 | a `Total` whose every row contributes a non-negative amount is non-negative |
| `Ledger.TotalAppend` | src/routes/sales.py:415-419 | a stored project adds exactly its own contribution to a month's sum |
| `Ledger.TotalUpdate` | src/routes/sales.py:499-500 | rewriting one project moves a sum by the difference of its old and new contributions |
| `Ledger.TotalMapped` | src/routes/sales.py:483-487 | when every row of one table contributes an additive map of what the matching row of another contributes, the sums are related by the same map |
| `Ledger.TotalsAgree` | src/routes/sales.py:533-534 | tables whose rows contribute the same to a sum have the same sum |
| `Ledger.SameDealsSameValue` | src/routes/sales.py:483-487 | rewriting commission fields never changes what a month's sales add up to |
| `Ledger.WeightedTotalNoRows` | src/routes/sales.py:537-543 | an employee with no score row in the month has a `WeightedTotal` of 0, as `sum` over no rows gives |
| `Ledger.WeightedTotalUpdate` | src/routes/sales.py:543 | rewriting one score row moves the weighted sum by the difference of the two rows' weighted scores, a missing one counting 0 |
| `Achievement.MonthSalesAppend` | src/routes/sales.py:415-419 | a stored project adds its value to its signer's sales for its month and nothing to any other employee's or month's |
| `Achievement.TargetOf` | src/routes/sales.py:410 | the target found is the first row with that employee and month; there is none exactly when no row has that employee and month |
| `Achievement.AchievementRate` | src/routes/sales.py:408-424 | 0 without a target or with a zero target, else the ratio times the target is the month's sales |
| `Achievement.Refreshed` | src/routes/sales.py:465-466 | the achieved amount becomes the sales; the percentage times a positive target is the sales, and is 0 for a target that is not positive |
| `Achievement.RefreshTarget` | src/routes/sales.py:452-469 | the employee's target for the month becomes its refresh against the month's sales; every other row is unchanged and every key stays; without a target nothing changes |
| `Achievement.RefreshIdempotent` | src/routes/sales.py:452-469 | refreshing twice with the same projects gives the same targets as refreshing once |
| `Achievement.RefreshAgreesWithRate` | src/routes/sales.py:421-424 | for a positive target the stored percentage is the ratio used to rate projects |
| `Achievement.NegativeTargetGuardsDisagree` | src/routes/sales.py:421 | for a negative target with sales, the stored percentage is 0 but the rating ratio is not |
| `Achievement.RateIgnoresOtherProjects` | src/routes/sales.py:415-419 | a project of another employee or month does not move the ratio |
| `Assignment.ProjectRate` | src/routes/sales.py:118-122 | a social-media project gets exactly 0.005 less than the table rate, with no floor, so every rate lies in [-0.005, 0.025] |
| `Assignment.Rated` | src/routes/sales.py:124-125 | the rated project is the same deal, its rate is the project rate, and its final commission is its value times that rate |
| `Assignment.RatingExcludesOwnValue` | src/routes/sales.py:117-127 | once the project is stored the ratio is higher by its value over the target, so it was rated without its own value |
| `Assignment.SocialRateSign` | src/routes/sales.py:121-122 | for the three roles a social-media rate is never negative; for any other role it is -0.005 |
| `Assignment.SocialCutIsHalfPoint` | src/routes/sales.py:121-125 | a social-media project earns its value times half a point less |
| `Allocation.BudgetFor` | src/routes/sales.py:478-481 | the month's budget total comes from the first budget row of the month, if any |
| `Allocation.SocialTotalAppend` | src/routes/sales.py:483-487 | a stored project adds its value to its month's social total exactly when it came from social media |
| `Allocation.MarketingShare` | src/routes/sales.py:471-496 | a share exists exactly for an existing social-media project in a month with a budget and a non-zero social total |
| `Allocation.ShareTimesSocialTotal` | src/routes/sales.py:483-496 | a share times the month's social total is the budget times the project's value |
| `Allocation.ShareOfSameDeals` | src/routes/sales.py:483-496 | commission bookkeeping does not change any project's share |
| `Allocation.Max0` | src/routes/sales.py:500 | the floor is never negative, never below its argument, and is either 0 or the argument |
| `Allocation.Deducted` | src/routes/sales.py:499-500 | the allocation is overwritten with the cost, and the final commission becomes the old one less the cost, floored at 0; the deal is unchanged |
| `Allocation.DeductionBounds` | src/routes/sales.py:500 | a deducted commission is never negative and, for a non-negative commission and cost, never more than before |
| `Allocation.AllocateOnce` | src/routes/sales.py:471-502 | fails exactly on an unrated project that gets a share; otherwise only that project changes, and only when it gets a share |
| `Allocation.AllocateAgainDeductsAgain` | src/routes/sales.py:496-500 | allocating to the same project again leaves its cost as it was but lowers a positive commission again |
| `Allocation.FirstUnrated` | src/routes/sales.py:504-518 | the first social-media project of the month without a final commission; every one before it is rated |
| `Allocation.StopsAt` | src/routes/sales.py:504-518 | where a redistribution stops lies within the table |
| `Allocation.RedistributedUpTo` | src/routes/sales.py:504-518 | after the loop has passed position n, every social-media project of the month before n carries its deduction and every other project is unchanged; no deal changes |
| `Allocation.RedistributionOutcome` | src/routes/sales.py:504-518 | a redistribution fails exactly when the budget is shared out and some social-media project of the month is unrated |
| `Allocation.Redistributed` | src/routes/sales.py:504-518 | a redistribution keeps every deal; it changes nothing when the budget is not shared out; projects that are not the month's social-media ones are unchanged; when every social-media project of the month is rated, each carries its share as its deduction |
| `Allocation.RedistributeStep` | src/routes/sales.py:517-518 | one loop step is one allocation for a social-media project of the month, and nothing for any other project |
| `Allocation.RedistributeFails` | src/routes/sales.py:517-518 | the loop stops with a failure at the first unrated social-media project |
| `Allocation.RedistributedRows` | src/routes/sales.py:493-499 | after a completed redistribution every social-media project of the month carries budget times value over social total, every other project 0 in that sum |
| `Allocation.FractionOfParts` | src/routes/sales.py:496 | the share formula is additive in the value and gives 0 for a value of 0 |
| `Allocation.FractionOfWhole` | src/routes/sales.py:496 | the share of the whole social total is the whole budget |
| `Allocation.RedistributionSpendsBudget` | src/routes/sales.py:483-499 | when every social-media project of the month is rated, their allocations add up to the whole budget |
| `Allocation.RedistributedCost` | src/routes/sales.py:493-499 | a social-media project of the month reached by the loop carries the budget's fraction for its value out of the social total |
| `Allocation.RedistributionProportional` | src/routes/sales.py:493-496 | any two social-media projects of the month get allocations in proportion to their values |
| `Allocation.RedistributeAgainDeductsAgain` | src/routes/sales.py:504-518 | redistributing a month twice succeeds, keeps every cost, and takes each cost off the commission a second time |
| `Allocation.UnratedAbsent` | src/routes/sales.py:504-518 | with every social-media project of the month rated, no project stops the loop |
| `Allocation.RedistributionStaysInMonth` | src/routes/sales.py:483-487 | redistributing one month leaves every project of another month untouched |
| `Aggregation.FiguresFor` | src/routes/sales.py:527-548 | base commission is the `Total` of the month's final commissions (a missing one counting 0), the deduction the `Total` of their marketing costs, the bonus 1000 per weighted point; final = base + bonus, total = salary + final; without scores final = base |
| `Aggregation.ReportFor` | src/routes/sales.py:520-587 | no report for a missing employee; otherwise base commission = the month's final commissions, deduction = the month's marketing costs, bonus = 1000 times the weighted score sum, final commission = base commission + bonus and total salary = base salary + final commission |
| `Aggregation.RecordCommission` | src/routes/sales.py:549-577 | afterwards the month's row of the employee holds the five figures; an existing row keeps its place and its approval, a new one is unapproved; other rows and lookups are unchanged |
| `Aggregation.RecordCommissionKeepsUnique` | src/routes/sales.py:549-577 | saving a statement keeps one commission row per employee and month |
| `Aggregation.RecordCommissionIdempotent` | src/routes/sales.py:557-575 | saving the same statement again leaves the table identical |
| `Aggregation.RecordCommissionKeepsRecorded` | src/routes/sales.py:549-577 | saving one employee's statement leaves another employee's saved statement for the month in place |
| `Aggregation.RecordAll` | src/routes/sales.py:398-400 | a batch saves at most one new row per listed id and never removes a row |
| `Aggregation.RecordAllStep` | src/routes/sales.py:398-400 | one loop step that saves the next employee's statement, or nothing for a missing employee, takes the batch's upserts up to that employee one id further |
| `Aggregation.BatchRecordsListed` | src/routes/sales.py:398-400 | after a batch the listed existing employee at any position of the list has its statement saved |
| `Aggregation.BatchRecordsEachListed` | src/routes/sales.py:398-400 | after a batch every listed existing employee's row for the month holds its statement |
| `Aggregation.BatchKeepsOtherRows` | src/routes/sales.py:398-400 | after a batch every row of another month or of an unlisted employee is unchanged in content and place |
| `Aggregation.BatchKeepsOtherLookups` | src/routes/sales.py:398-400 | after a batch the lookup for any other employee and month finds the same row as before |
| `Aggregation.RecordScore` | src/routes/sales.py:313-350 | fails for a missing KPI; otherwise the month's row for the KPI holds the score, the notes and score times weight, overwritten in place or added; other lookups are unchanged |
| `Aggregation.RecordScoreKeepsUnique` | src/routes/sales.py:315-345 | scoring keeps one row per employee, KPI and month |
| `Aggregation.RecordScoreMovesWeightedTotal` | src/routes/sales.py:324-341 | the latest score wins: the month's weighted sum moves by the new weighted score less the row's old one |
| `Aggregation.ActiveIds` | src/routes/sales.py:391-394 | exactly the active employees, in increasing id order |
| `Aggregation.BatchIds` | src/routes/sales.py:389-394 | the requested ids if any were requested, else exactly the active employees |
| `Aggregation.FiguresIgnoreOthers` | src/routes/sales.py:527-534 | a project of another employee or month changes nothing in the statement |
| `Aggregation.FiguresAddOwnProject` | src/routes/sales.py:533-548 | a project of the employee's month adds its commission (0 if none) to base, final and total salary, and its cost to the reported deduction |
| `Aggregation.FiguresIgnoreOtherMonth` | src/routes/sales.py:520-548 | sharing out another month's budget leaves the statement unchanged |
| `Engine.SalesDb.constructor` | src/models/sales.py:5-17 | a store holding the given staff and KPIs and no other rows, with unique keys |
| `Engine.SalesDb.UpdateTargetAchievement` | src/routes/sales.py:452-469 | the targets become the refreshed targets; keys stay unique |
| `Engine.SalesDb.AllocateMarketingCost` | src/routes/sales.py:471-502 | the projects become one allocation's result, or stay as they were when it fails |
| `Engine.SalesDb.RedistributeMarketingCosts` | src/routes/sales.py:504-518 | the loop ends with the redistribution's outcome; projects before the stop carry their deduction |
| `Engine.SalesDb.CreateProject` | src/routes/sales.py:102-137 | fails, changing nothing, for a missing employee; otherwise appends the project rated at the achievement before it, less its own share if it gets one; earlier projects are untouched; the target is refreshed |
| `Engine.SalesDb.CreateTarget` | src/routes/sales.py:167-190 | refuses a second target for the employee and month; otherwise appends a target with nothing achieved; keys stay unique |
| `Engine.SalesDb.CreateMarketingBudget` | src/routes/sales.py:227-253 | refuses a second budget for the month; otherwise appends it with all of it remaining and redistributes the month |
| `Engine.SalesDb.CreatePerformanceScore` | src/routes/sales.py:313-350 | the scores become the score upsert's result, or stay as they were for a missing KPI; keys stay unique |
| `Engine.SalesDb.CalculateEmployeeCommission` | src/routes/sales.py:520-587 | returns the employee's report and saves its figures over the month's row; nothing for a missing employee |
| `Engine.SalesDb.CalculateCommissions` | src/routes/sales.py:385-405 | the batch is the requested ids, or the active employees when none are requested; one report per batch id, in order, and the commission table becomes the batch's sequential upserts |
| `Engine.SalesDb.CalculateEach` | src/routes/sales.py:398-400 | the loop returns each id's report in order and saves each statement before the next, ending with the batch's sequential upserts |
| `Scenarios.TwoProjectsAgainstTarget` | src/routes/sales.py:115-127 | target 100,000: a first project of 60,000 earns 600 and a second of 50,000 earns 750 |
| `Scenarios.SocialBudgetShared` | src/routes/sales.py:483-500 | social projects of 80,000 and 20,000 share a 10,000 budget as 8,000 and 2,000, and both commissions fall to 0 |
| `Scenarios.BonusFromScores` | src/routes/sales.py:543-548 | weighted scores of 2.5 and 1.5 give a bonus of 4,000 |

## Left out

- HTTP routing, JSON, `request.get_json`, date parsing and the listing routes are I/O around the engine. The model takes each request's fields as parameters, with a date reduced to its month and year.
- Row ids are positions in their table, starting at 0. The database numbers rows from 1. Deleting rows is not modelled, because the engine never deletes.
- `updated_at`/`created_at` stamps and commit boundaries are not modelled.
  - Each request either fails before committing anything and changes nothing, or completes.
  - The one exception is a redistribution that fails part-way. The projects it has already reached stay updated, as their commits have already happened.
- Floating-point rounding is not modelled. Money is `real`, so the budget shares add up exactly, and float arithmetic would not guarantee that.
- Roles are plain strings. The database does not restrict them, and the model does not either.
- The `CommissionRate` table (src/models/sales.py:132-141) is declared but never read, so it is not part of this model.
- Teams, phone, email, hire date, approval time and the employee relationships are not modelled. The engine never reads them.
- `.first()` and `.all()` queries without ORDER BY are taken to return rows in id order. This decides which budget or target row a lookup finds when duplicates exist, and which social-media projects a failing redistribution has already reached (src/routes/sales.py:507-518).
- `Aggregation.RecordScore` keeps neither `created_at` nor `updated_at`. It does not check that the KPI is active, and neither does the source.
- src/routes/admin.py, src/routes/auth.py, src/models/auth.py, src/routes/init_data.py and the `.jsx` front end are not part of this model. They are authentication, seeding and UI, not engine logic.
