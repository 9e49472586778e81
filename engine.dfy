/** The store and the operations of src/routes/sales.py that change it: each
    route body or helper becomes a method of `SalesDb` that updates the tables
    in place, proved against the functions of the other modules. */
module Engine {
  import opened Records
  import opened Tables
  import opened Ledger
  import opened Achievement
  import opened Assignment
  import opened Allocation
  import opened Aggregation

  class SalesDb {
    var employees: seq<Employee>
    var projects: seq<Project>
    var targets: seq<Target>
    var budgets: seq<MarketingBudget>
    var kpis: seq<PerformanceKpi>
    var scores: seq<PerformanceScore>
    var commissions: seq<Commission>

    /** One target and one commission per employee and month, one budget per
        month, one score per employee, KPI and month. */
    ghost predicate Valid()
      reads this`targets, this`budgets, this`scores, this`commissions
    {
      UniqueKeys(targets, TargetKey) && UniqueKeys(budgets, BudgetKey)
      && UniqueKeys(scores, ScoreKeyOf) && UniqueKeys(commissions, CommissionKey)
    }

    /** A store with its staff and KPIs and nothing else yet. */
    constructor (employees: seq<Employee>, kpis: seq<PerformanceKpi>)
      ensures Valid()
      ensures this.employees == employees && this.kpis == kpis
      ensures projects == [] && targets == [] && budgets == [] && scores == [] && commissions == []
    {
      this.employees := employees;
      this.kpis := kpis;
      projects := [];
      targets := [];
      budgets := [];
      scores := [];
      commissions := [];
    }

    /** update_target_achievement: bring the month's target of `e`, if any, up to date. */
    method UpdateTargetAchievement(e: int, per: Period)
      requires Valid()
      modifies this`targets
      ensures Valid()
      ensures targets == RefreshTarget(old(targets), projects, e, per)
    {
      var found := TargetOf(targets, e, per);
      if found.None? {
        return;
      }
      var i := found.value;
      var sales := MonthSales(projects, e, per);
      OverwriteSameKey(targets, TargetKey, i, Refreshed(targets[i], sales));
      targets := targets[i := Refreshed(targets[i], sales)];
    }

    /** allocate_marketing_cost: give project `id` its share of the budget of
        month `per`; fails, changing nothing, on a project without a final
        commission. */
    method AllocateMarketingCost(id: int, per: Period) returns (o: Outcome)
      modifies this`projects
      ensures match AllocateOnce(old(projects), budgets, id, per)
        case Err(f) => o == Fail(f) && projects == old(projects)
        case Ok(q) => o == Pass && projects == q
    {
      if !(0 <= id < |projects|) || !projects[id].isFromSocialMedia {
        return Pass;
      }
      var budget := BudgetFor(budgets, per);
      if budget.None? {
        return Pass;
      }
      var total := SocialTotal(projects, per);
      if total == 0.0 {
        return Pass;
      }
      var cost := budget.value * (projects[id].projectValue / total);
      if projects[id].finalCommission.None? {
        return Fail(UnratedProject);
      }
      assert MarketingShare(projects, budgets, id, per).Some?;
      assert MarketingShare(projects, budgets, id, per).value == cost;
      projects := projects[id := Deducted(projects[id], cost)];
      return Pass;
    }

    /** redistribute_marketing_costs: allocate to every social-media project of
        the month in table order, stopping at the first one that fails. */
    method RedistributeMarketingCosts(per: Period) returns (o: Outcome)
      modifies this`projects
      ensures o == RedistributionOutcome(old(projects), budgets, per)
      ensures projects == RedistributedUpTo(old(projects), budgets, per, StopsAt(old(projects), budgets, per))
      ensures o == Pass ==> projects == Redistributed(old(projects), budgets, per)
    {
      ghost var ps := projects;
      ghost var stop := StopsAt(ps, budgets, per);
      var i := 0;
      while i < |projects|
        invariant |projects| == |ps|
        invariant i <= stop
        invariant projects == RedistributedUpTo(ps, budgets, per, i)
      {
        if Selected(SocialIn(per), projects[i]) {
          if i == stop {
            RedistributeFails(ps, budgets, per);
          } else {
            RedistributeStep(ps, budgets, per, i);
          }
          o := AllocateMarketingCost(i, per);
          if o.Fail? {
            return;
          }
        } else {
          RedistributeStep(ps, budgets, per, i);
        }
        i := i + 1;
      }
      o := Pass;
    }

    /** create_project: rate the new project at the achievement reached
        before it, store it, refresh the target and, for a social-media
        project, allocate to that project alone. Fails, changing nothing,
        for an employee that does not exist. */
    method CreateProject(e: int, clientName: string, value: real, productType: string, signed: Period,
                         fromSocialMedia: bool := false, notes: Option<string> := None) returns (r: Result<nat>)
      requires Valid()
      modifies this`projects, this`targets
      ensures Valid()
      ensures r.Err? <==> !(0 <= e < |employees|)
      ensures r.Err? ==> r.failure == NotFound && projects == old(projects) && targets == old(targets)
      ensures r.Ok? ==> r.value == |old(projects)| && |projects| == r.value + 1 && projects[..r.value] == old(projects)
      ensures r.Ok? ==>
        var rated := Rated(NewProject(e, clientName, value, productType, signed, fromSocialMedia, notes),
                           employees[e].role, AchievementRate(old(targets), old(projects), e, signed));
        match MarketingShare(old(projects) + [rated], budgets, r.value, signed)
        case None => projects[r.value] == rated
        case Some(a) => projects[r.value] == Deducted(rated, a)
      ensures r.Ok? ==> targets == RefreshTarget(old(targets), projects, e, signed)
    {
      var draft := NewProject(e, clientName, value, productType, signed, fromSocialMedia, notes);
      if !(0 <= e < |employees|) {
        return Err(NotFound);
      }
      var ratio := AchievementRate(targets, projects, e, signed);
      var project := Rated(draft, employees[e].role, ratio);
      projects := projects + [project];
      var id := |projects| - 1;
      UpdateTargetAchievement(e, signed);
      if project.isFromSocialMedia {
        var o := AllocateMarketingCost(id, signed);
        assert o == Pass;
      }
      return Ok(id);
    }

    /** create_target: a second target for the same employee and month is
        refused; a new target starts at nothing achieved, even when the month
        already has projects. */
    method CreateTarget(e: int, per: Period, amount: real) returns (r: Result<nat>)
      requires Valid()
      modifies this`targets
      ensures Valid()
      ensures r.Err? <==> TargetOf(old(targets), e, per).Some?
      ensures r.Err? ==> r.failure == DuplicateKey && targets == old(targets)
      ensures r.Ok? ==> r.value == |old(targets)| && targets == old(targets) + [NewTarget(e, per, amount)]
    {
      if TargetOf(targets, e, per).Some? {
        return Err(DuplicateKey);
      }
      var t := NewTarget(e, per, amount);
      AppendNewKey(targets, TargetKey, t);
      targets := targets + [t];
      return Ok(|targets| - 1);
    }

    /** create_marketing_budget: a second budget for the month is refused; a
        new one starts with all of it remaining and is then shared out over
        the month's social-media projects. The budget stays stored even when
        that redistribution fails. */
    method CreateMarketingBudget(per: Period, total: real, createdBy: int) returns (r: Result<nat>, redistribution: Outcome)
      requires Valid()
      modifies this`budgets, this`projects
      ensures Valid()
      ensures r.Err? <==> BudgetFor(old(budgets), per).Some?
      ensures r.Err? ==> r.failure == DuplicateKey && budgets == old(budgets) && projects == old(projects)
      ensures r.Ok? ==> r.value == |old(budgets)| && budgets == old(budgets) + [NewBudget(per, total, createdBy, 0.0, total)]
      ensures r.Ok? ==> redistribution == RedistributionOutcome(old(projects), budgets, per)
      ensures r.Ok? ==> projects == RedistributedUpTo(old(projects), budgets, per, StopsAt(old(projects), budgets, per))
    {
      redistribution := Pass;
      if IndexOfKey(budgets, BudgetKey, per).Some? {
        return Err(DuplicateKey), redistribution;
      }
      var b := NewBudget(per, total, createdBy, remainingBudget := total);
      AppendNewKey(budgets, BudgetKey, b);
      budgets := budgets + [b];
      r := Ok(|budgets| - 1);
      redistribution := RedistributeMarketingCosts(per);
    }

    /** create_performance_score: give `e` a score on a KPI for the month,
        overwriting the month's earlier score on that KPI; fails, changing
        nothing, for a KPI that does not exist. */
    method CreatePerformanceScore(e: int, kpiId: int, per: Period, score: real, notes: Option<string> := None) returns (o: Outcome)
      requires Valid()
      modifies this`scores
      ensures Valid()
      ensures match RecordScore(old(scores), kpis, e, kpiId, per, score, notes)
        case Err(f) => o == Fail(f) && scores == old(scores)
        case Ok(s) => o == Pass && scores == s
    {
      match RecordScore(scores, kpis, e, kpiId, per, score, notes) {
        case Err(f) =>
          return Fail(f);
        case Ok(updated) =>
          RecordScoreKeepsUnique(scores, kpis, e, kpiId, per, score, notes);
          scores := updated;
      }
      return Pass;
    }

    /** calculate_employee_commission: work out the statement of `e` for the
        month and save it over the month's row; nothing for an employee that
        does not exist. */
    method CalculateEmployeeCommission(e: int, per: Period) returns (r: Option<CommissionReport>)
      requires Valid()
      modifies this`commissions
      ensures Valid()
      ensures r == ReportFor(employees, projects, scores, e, per)
      ensures r.None? ==> commissions == old(commissions)
      ensures r.Some? ==> commissions == RecordCommission(old(commissions), e, per, r.value.figures)
    {
      if !(0 <= e < |employees|) {
        return None;
      }
      var f := FiguresFor(employees[e], projects, scores, e, per);
      RecordCommissionKeepsUnique(commissions, e, per, f);
      var existing := IndexOfKey(commissions, CommissionKey, EmployeePeriod(e, per));
      match existing {
        case Some(j) =>
          commissions := commissions[j := commissions[j].(
            baseCommission := f.baseCommission, marketingDeduction := f.marketingDeduction,
            performanceBonus := f.performanceBonus, finalCommission := f.finalCommission,
            totalSalary := f.totalSalary)];
        case None =>
          commissions := commissions + [NewCommission(e, per, f.baseCommission, f.marketingDeduction,
                                                      f.performanceBonus, f.finalCommission, f.totalSalary)];
      }
      return Some(CommissionReport(e, employees[e].name, f));
    }

    /** calculate_commissions: one statement per requested id, or per active
        employee when no id is requested, reported in that order. */
    method CalculateCommissions(requested: seq<int>, per: Period) returns (results: seq<Option<CommissionReport>>)
      requires Valid()
      modifies this`commissions
      ensures Valid()
      ensures var ids := BatchIds(employees, requested);
        |results| == |ids|
        && (forall k :: 0 <= k < |ids| ==> results[k] == ReportFor(employees, projects, scores, ids[k], per))
        && commissions == RecordAll(old(commissions), employees, projects, scores, ids, per)
    {
      var ids := BatchIds(employees, requested);
      results := CalculateEach(ids, per);
    }

    /** The loop of calculate_commissions: each id's statement in turn, each saved before the next. */
    method CalculateEach(ids: seq<int>, per: Period) returns (results: seq<Option<CommissionReport>>)
      requires Valid()
      modifies this`commissions
      ensures Valid()
      ensures |results| == |ids|
      ensures forall k :: 0 <= k < |ids| ==> results[k] == ReportFor(employees, projects, scores, ids[k], per)
      ensures commissions == RecordAll(old(commissions), employees, projects, scores, ids, per)
    {
      ghost var start := commissions;
      results := [];
      var k := 0;
      while k < |ids|
        invariant 0 <= k <= |ids|
        invariant Valid()
        invariant |results| == k
        invariant forall j :: 0 <= j < k ==> results[j] == ReportFor(employees, projects, scores, ids[j], per)
        invariant commissions == RecordAll(start, employees, projects, scores, ids[..k], per)
      {
        ghost var prior := commissions;
        var report := CalculateEmployeeCommission(ids[k], per);
        RecordAllStep(start, employees, projects, scores, ids, per, k, prior, report, commissions);
        results := results + [report];
        k := k + 1;
      }
      assert ids[..k] == ids;
    }
  }
}
