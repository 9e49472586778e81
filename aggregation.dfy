/** The monthly commission statement (calculate_employee_commission), the
    upsert of its row, the upsert of a KPI score (create_performance_score)
    and the list of employees a batch run covers (calculate_commissions). */
module Aggregation {
  import opened Records
  import opened Tables
  import opened Ledger
  import opened Allocation

  /** What one weighted KPI point is worth in the statement. */
  const BonusPerPoint: real := 1000.0

  /** The five money columns of a commission statement. */
  datatype CommissionFigures = CommissionFigures(
    baseCommission: real,
    marketingDeduction: real,
    performanceBonus: real,
    finalCommission: real,
    totalSalary: real)

  /** What a calculation reports for one employee. */
  datatype CommissionReport = CommissionReport(employeeId: int, employeeName: string, figures: CommissionFigures)

  /** The statement of employee `e` (whose row is `emp`) for month `per`. */
  function FiguresFor(emp: Employee, ps: seq<Project>, scores: seq<PerformanceScore>, e: int, per: Period): (f: CommissionFigures)
    ensures f.baseCommission == Total(ps, OwnedBy(e, per), FinalCommission)
    ensures f.marketingDeduction == Total(ps, OwnedBy(e, per), MarketingCost)
    ensures f.performanceBonus == BonusPerPoint * WeightedTotal(scores, e, per)
    ensures f.finalCommission == f.baseCommission + f.performanceBonus
    ensures f.totalSalary == emp.baseSalary + f.finalCommission
    ensures WeightedTotal(scores, e, per) == 0.0 ==> f.finalCommission == f.baseCommission
  {
    var base := Total(ps, OwnedBy(e, per), FinalCommission);
    var bonus := WeightedTotal(scores, e, per) * BonusPerPoint;
    CommissionFigures(base, Total(ps, OwnedBy(e, per), MarketingCost), bonus, base + bonus, emp.baseSalary + base + bonus)
  }

  /** The report for employee id `e`, or None for an employee that does not exist. */
  function ReportFor(employees: seq<Employee>, ps: seq<Project>, scores: seq<PerformanceScore>, e: int, per: Period): (r: Option<CommissionReport>)
    ensures r.None? <==> !(0 <= e < |employees|)
    ensures r.Some? ==> r.value.employeeId == e && r.value.employeeName == employees[e].name
    ensures r.Some? ==> r.value.figures.totalSalary == employees[e].baseSalary + r.value.figures.finalCommission
    ensures r.Some? ==> r.value.figures.finalCommission == r.value.figures.baseCommission + r.value.figures.performanceBonus
    ensures r.Some? ==> r.value.figures.baseCommission == Total(ps, OwnedBy(e, per), FinalCommission)
    ensures r.Some? ==> r.value.figures.marketingDeduction == Total(ps, OwnedBy(e, per), MarketingCost)
    ensures r.Some? ==> r.value.figures.performanceBonus == BonusPerPoint * WeightedTotal(scores, e, per)
  {
    if 0 <= e < |employees| then
      Some(CommissionReport(e, employees[e].name, FiguresFor(employees[e], ps, scores, e, per)))
    else None
  }

  /** A commission row carries exactly the five figures. */
  predicate HasFigures(c: Commission, f: CommissionFigures) {
    c.baseCommission == f.baseCommission && c.marketingDeduction == f.marketingDeduction
    && c.performanceBonus == f.performanceBonus && c.finalCommission == f.finalCommission
    && c.totalSalary == f.totalSalary
  }

  /** The commission table once the statement of `e` for `per` is saved: the
      month's row is overwritten if there is one (its approval kept), else a
      new unapproved row is added. */
  function RecordCommission(cs: seq<Commission>, e: int, per: Period, f: CommissionFigures): (r: seq<Commission>)
    ensures IndexOfKey(r, CommissionKey, EmployeePeriod(e, per)).Some?
    ensures var i := IndexOfKey(r, CommissionKey, EmployeePeriod(e, per)).value;
      HasFigures(r[i], f)
      && (match IndexOfKey(cs, CommissionKey, EmployeePeriod(e, per))
          case Some(j) => i == j && r[i].isApproved == cs[j].isApproved && r[i].approvedBy == cs[j].approvedBy
          case None => i == |cs| && !r[i].isApproved && r[i].approvedBy.None?)
    ensures |cs| <= |r| <= |cs| + 1
    ensures forall j :: 0 <= j < |cs| ==> CommissionKey(r[j]) == CommissionKey(cs[j])
    ensures forall j :: 0 <= j < |cs| && CommissionKey(cs[j]) != EmployeePeriod(e, per) ==> r[j] == cs[j]
    ensures forall k :: k != EmployeePeriod(e, per) ==> IndexOfKey(r, CommissionKey, k) == IndexOfKey(cs, CommissionKey, k)
  {
    var k := EmployeePeriod(e, per);
    match IndexOfKey(cs, CommissionKey, k)
    case Some(j) =>
      var c := cs[j].(baseCommission := f.baseCommission, marketingDeduction := f.marketingDeduction,
                      performanceBonus := f.performanceBonus, finalCommission := f.finalCommission,
                      totalSalary := f.totalSalary);
      forall k' ensures IndexOfKey(cs[j := c], CommissionKey, k') == IndexOfKey(cs, CommissionKey, k') {
        OverwriteKeepsIndex(cs, CommissionKey, j, c, k');
      }
      cs[j := c]
    case None =>
      var c := NewCommission(e, per, f.baseCommission, f.marketingDeduction, f.performanceBonus,
                             f.finalCommission, f.totalSalary);
      forall k' | k' != k ensures IndexOfKey(cs + [c], CommissionKey, k') == IndexOfKey(cs, CommissionKey, k') {
        AppendOtherKeepsIndex(cs, CommissionKey, c, k');
      }
      assert forall j :: 0 <= j < |cs| ==> (cs + [c])[j] == cs[j];
      assert CommissionKey((cs + [c])[|cs|]) == k;
      cs + [c]
  }

  /** Saving a statement keeps at most one commission row per employee and month. */
  lemma RecordCommissionKeepsUnique(cs: seq<Commission>, e: int, per: Period, f: CommissionFigures)
    requires UniqueKeys(cs, CommissionKey)
    ensures UniqueKeys(RecordCommission(cs, e, per, f), CommissionKey)
  {
    var k := EmployeePeriod(e, per);
    match IndexOfKey(cs, CommissionKey, k)
    case Some(j) =>
      var r := RecordCommission(cs, e, per, f);
      assert |r| == |cs| && CommissionKey(r[j]) == k;
      OverwriteSameKey(cs, CommissionKey, j, r[j]);
      assert r == cs[j := r[j]];
    case None =>
      var r := RecordCommission(cs, e, per, f);
      AppendNewKey(cs, CommissionKey, r[|cs|]);
      assert r == cs + [r[|cs|]];
  }

  /** Saving the same statement again changes nothing. */
  lemma RecordCommissionIdempotent(cs: seq<Commission>, e: int, per: Period, f: CommissionFigures)
    ensures RecordCommission(RecordCommission(cs, e, per, f), e, per, f) == RecordCommission(cs, e, per, f)
  {
    var once := RecordCommission(cs, e, per, f);
    var i := IndexOfKey(once, CommissionKey, EmployeePeriod(e, per)).value;
    var twice := RecordCommission(once, e, per, f);
    assert twice == once[i := twice[i]];
    assert twice[i] == once[i];
  }

  /** Saving the statement of `e` leaves the saved statement of any other employee as it was. */
  lemma RecordCommissionKeepsRecorded(cs: seq<Commission>, e: int, per: Period, f: CommissionFigures, x: int, g: CommissionFigures)
    requires x != e && Recorded(cs, x, per, g)
    ensures Recorded(RecordCommission(cs, e, per, f), x, per, g)
  {
    var i := IndexOfKey(cs, CommissionKey, EmployeePeriod(x, per)).value;
    var r := RecordCommission(cs, e, per, f);
    assert IndexOfKey(r, CommissionKey, EmployeePeriod(x, per)) == Some(i);
    assert r[i] == cs[i];
  }

  /** A month's row of `e` holds statement `f`. */
  predicate Recorded(cs: seq<Commission>, e: int, per: Period, f: CommissionFigures) {
    match IndexOfKey(cs, CommissionKey, EmployeePeriod(e, per))
    case Some(i) => HasFigures(cs[i], f)
    case None => false
  }

  /** The commission table after saving, in order, the statement of every
      listed id that names an existing employee. */
  function RecordAll(cs: seq<Commission>, employees: seq<Employee>, ps: seq<Project>,
                     scores: seq<PerformanceScore>, ids: seq<int>, per: Period): (r: seq<Commission>)
    ensures |cs| <= |r| <= |cs| + |ids|
    decreases |ids|
  {
    if ids == [] then cs
    else
      var prior := RecordAll(cs, employees, ps, scores, ids[..|ids| - 1], per);
      match ReportFor(employees, ps, scores, ids[|ids| - 1], per)
      case None => prior
      case Some(report) => RecordCommission(prior, ids[|ids| - 1], per, report.figures)
  }

  /** Extending a batch by one employee records that employee's statement, if any, after the rest. */
  lemma RecordAllStep(cs: seq<Commission>, employees: seq<Employee>, ps: seq<Project>,
                      scores: seq<PerformanceScore>, ids: seq<int>, per: Period, k: nat,
                      prior: seq<Commission>, report: Option<CommissionReport>, next: seq<Commission>)
    requires k < |ids|
    requires prior == RecordAll(cs, employees, ps, scores, ids[..k], per)
    requires report == ReportFor(employees, ps, scores, ids[k], per)
    requires report.None? ==> next == prior
    requires report.Some? ==> next == RecordCommission(prior, ids[k], per, report.value.figures)
    ensures next == RecordAll(cs, employees, ps, scores, ids[..k + 1], per)
  {
    assert ids[..k + 1][..k] == ids[..k];
  }

  /** After a batch every listed existing employee has exactly its statement
      saved; BatchKeepsOtherRows and BatchKeepsOtherLookups say that every
      other row is untouched. */
  lemma BatchRecordsEachListed(cs: seq<Commission>, employees: seq<Employee>, ps: seq<Project>,
                               scores: seq<PerformanceScore>, ids: seq<int>, per: Period)
    ensures forall x :: x in ids && 0 <= x < |employees| ==>
      Recorded(RecordAll(cs, employees, ps, scores, ids, per), x, per, ReportFor(employees, ps, scores, x, per).value.figures)
  {
    forall x | x in ids && 0 <= x < |employees|
      ensures Recorded(RecordAll(cs, employees, ps, scores, ids, per), x, per, ReportFor(employees, ps, scores, x, per).value.figures)
    {
      var j :| 0 <= j < |ids| && ids[j] == x;
      BatchRecordsListed(cs, employees, ps, scores, ids, per, j);
    }
  }

  /** The employee listed at position `j` of a batch has its statement saved. */
  lemma {:induction false} BatchRecordsListed(cs: seq<Commission>, employees: seq<Employee>, ps: seq<Project>,
                                              scores: seq<PerformanceScore>, ids: seq<int>, per: Period, j: nat)
    requires j < |ids| && 0 <= ids[j] < |employees|
    ensures Recorded(RecordAll(cs, employees, ps, scores, ids, per), ids[j], per,
                     ReportFor(employees, ps, scores, ids[j], per).value.figures)
  {
    var n := |ids| - 1;
    var x, last := ids[j], ids[n];
    if x != last {
      assert j < n && ids[..n][j] == x;
      BatchRecordsListed(cs, employees, ps, scores, ids[..n], per, j);
    }
    var prior := RecordAll(cs, employees, ps, scores, ids[..n], per);
    var r := RecordAll(cs, employees, ps, scores, ids, per);
    var f := ReportFor(employees, ps, scores, x, per).value.figures;
    if x == last {
      assert r == RecordCommission(prior, x, per, f);
    } else {
      match ReportFor(employees, ps, scores, last, per)
      case None =>
        assert r == prior;
      case Some(report) =>
        RecordCommissionKeepsRecorded(prior, last, per, report.figures, x, f);
    }
  }

  /** A batch finds the rows of other months and of unlisted employees where
      they were. */
  lemma {:induction false} BatchKeepsOtherLookups(cs: seq<Commission>, employees: seq<Employee>, ps: seq<Project>,
                                                  scores: seq<PerformanceScore>, ids: seq<int>, per: Period)
    ensures forall k: EmployeePeriod :: (k.period != per || k.employeeId !in ids) ==>
      IndexOfKey(RecordAll(cs, employees, ps, scores, ids, per), CommissionKey, k) == IndexOfKey(cs, CommissionKey, k)
  {
    if ids != [] {
      var n := |ids| - 1;
      var front := ids[..n];
      BatchKeepsOtherLookups(cs, employees, ps, scores, front, per);
      var prior := RecordAll(cs, employees, ps, scores, front, per);
      var r := RecordAll(cs, employees, ps, scores, ids, per);
      var last := ids[n];
      forall k: EmployeePeriod | k.period != per || k.employeeId !in ids
        ensures IndexOfKey(r, CommissionKey, k) == IndexOfKey(cs, CommissionKey, k)
      {
        assert k.employeeId !in ids ==> k.employeeId !in front && k.employeeId != last;
        match ReportFor(employees, ps, scores, last, per)
        case None =>
          assert r == prior;
        case Some(report) =>
          assert r == RecordCommission(prior, last, per, report.figures);
      }
    }
  }

  /** A batch leaves the rows of other months and of unlisted employees
      exactly as they were. */
  lemma {:induction false} BatchKeepsOtherRows(cs: seq<Commission>, employees: seq<Employee>, ps: seq<Project>,
                                               scores: seq<PerformanceScore>, ids: seq<int>, per: Period)
    ensures forall j :: 0 <= j < |cs| && (cs[j].period != per || cs[j].employeeId !in ids) ==>
      RecordAll(cs, employees, ps, scores, ids, per)[j] == cs[j]
  {
    if ids != [] {
      var n := |ids| - 1;
      var front := ids[..n];
      BatchKeepsOtherRows(cs, employees, ps, scores, front, per);
      var prior := RecordAll(cs, employees, ps, scores, front, per);
      forall j | 0 <= j < |cs| && (cs[j].period != per || cs[j].employeeId !in ids)
        ensures RecordAll(cs, employees, ps, scores, ids, per)[j] == cs[j]
      {
        assert cs[j].employeeId !in ids ==> cs[j].employeeId !in front && cs[j].employeeId != ids[n];
        assert prior[j] == cs[j];
        assert CommissionKey(prior[j]) != EmployeePeriod(ids[n], per);
      }
    }
  }

  /** The score table once `score` is given to `e` on KPI `kpiId` for month
      `per`: the month's row for that KPI is overwritten if there is one,
      else a row is added; the weighted score is the score times the KPI's
      weight. A KPI that does not exist is an error. */
  function RecordScore(scores: seq<PerformanceScore>, kpis: seq<PerformanceKpi>, e: int, kpiId: int,
                       per: Period, score: real, notes: Option<string>): (r: Result<seq<PerformanceScore>>)
    ensures r.Err? <==> !(0 <= kpiId < |kpis|)
    ensures r.Err? ==> r.failure == NotFound
    ensures r.Ok? ==> IndexOfKey(r.value, ScoreKeyOf, ScoreKey(e, kpiId, per)).Some?
    ensures r.Ok? ==>
      var i := IndexOfKey(r.value, ScoreKeyOf, ScoreKey(e, kpiId, per)).value;
      r.value[i].score == score && r.value[i].notes == notes
      && r.value[i].weightedScore == Some(score * kpis[kpiId].weight)
      && (match IndexOfKey(scores, ScoreKeyOf, ScoreKey(e, kpiId, per))
          case Some(j) => i == j && r.value == scores[j := r.value[i]]
          case None => r.value == scores + [r.value[i]])
    ensures r.Ok? ==> forall k :: k != ScoreKey(e, kpiId, per) ==>
      IndexOfKey(r.value, ScoreKeyOf, k) == IndexOfKey(scores, ScoreKeyOf, k)
  {
    if !(0 <= kpiId < |kpis|) then Err(NotFound)
    else
      var w := score * kpis[kpiId].weight;
      match IndexOfKey(scores, ScoreKeyOf, ScoreKey(e, kpiId, per))
      case Some(j) =>
        var s := scores[j].(score := score, weightedScore := Some(w), notes := notes);
        forall k ensures IndexOfKey(scores[j := s], ScoreKeyOf, k) == IndexOfKey(scores, ScoreKeyOf, k) {
          OverwriteKeepsIndex(scores, ScoreKeyOf, j, s, k);
        }
        Ok(scores[j := s])
      case None =>
        var s := NewScore(e, kpiId, per, score, Some(w), notes);
        forall k | k != ScoreKey(e, kpiId, per) ensures IndexOfKey(scores + [s], ScoreKeyOf, k) == IndexOfKey(scores, ScoreKeyOf, k) {
          AppendOtherKeepsIndex(scores, ScoreKeyOf, s, k);
        }
        assert ScoreKeyOf((scores + [s])[|scores|]) == ScoreKey(e, kpiId, per);
        Ok(scores + [s])
  }

  /** Giving a score keeps at most one row per employee, KPI and month. */
  lemma RecordScoreKeepsUnique(scores: seq<PerformanceScore>, kpis: seq<PerformanceKpi>, e: int, kpiId: int,
                               per: Period, score: real, notes: Option<string>)
    requires UniqueKeys(scores, ScoreKeyOf)
    ensures var r := RecordScore(scores, kpis, e, kpiId, per, score, notes);
      r.Ok? ==> UniqueKeys(r.value, ScoreKeyOf)
  {
    var r := RecordScore(scores, kpis, e, kpiId, per, score, notes);
    if r.Ok? {
      var i := IndexOfKey(r.value, ScoreKeyOf, ScoreKey(e, kpiId, per)).value;
      match IndexOfKey(scores, ScoreKeyOf, ScoreKey(e, kpiId, per))
      case Some(j) => OverwriteSameKey(scores, ScoreKeyOf, j, r.value[i]);
      case None => AppendNewKey(scores, ScoreKeyOf, r.value[i]);
    }
  }

  /** The latest score wins: the employee's weighted total for the month moves
      by the new weighted score less whatever the KPI's row held before. */
  lemma RecordScoreMovesWeightedTotal(scores: seq<PerformanceScore>, kpis: seq<PerformanceKpi>, e: int, kpiId: int,
                                      per: Period, score: real, notes: Option<string>)
    requires 0 <= kpiId < |kpis|
    ensures var r := RecordScore(scores, kpis, e, kpiId, per, score, notes).value;
      var before := match IndexOfKey(scores, ScoreKeyOf, ScoreKey(e, kpiId, per))
        case Some(j) => scores[j].weightedScore.GetOr(0.0)
        case None => 0.0;
      WeightedTotal(r, e, per) == WeightedTotal(scores, e, per) - before + score * kpis[kpiId].weight
  {
    var r := RecordScore(scores, kpis, e, kpiId, per, score, notes).value;
    var i := IndexOfKey(r, ScoreKeyOf, ScoreKey(e, kpiId, per)).value;
    match IndexOfKey(scores, ScoreKeyOf, ScoreKey(e, kpiId, per))
    case Some(j) => WeightedTotalUpdate(scores, j, r[i], e, per);
    case None => WeightedTotalAppend(scores, r[i], e, per);
  }

  /** The ids of the active employees, in id order. */
  function ActiveIds(employees: seq<Employee>): (ids: seq<int>)
    ensures forall x :: x in ids <==> 0 <= x < |employees| && employees[x].isActive
    ensures forall a, b :: 0 <= a < b < |ids| ==> ids[a] < ids[b]
    decreases |employees|
  {
    if employees == [] then []
    else
      var n := |employees| - 1;
      var front := ActiveIds(employees[..n]);
      assert forall a :: 0 <= a < |front| ==> front[a] in front;
      if employees[n].isActive then front + [n] else front
  }

  /** The ids a batch covers: the ones asked for, or every active employee if none is. */
  function BatchIds(employees: seq<Employee>, requested: seq<int>): (ids: seq<int>)
    ensures requested != [] ==> ids == requested
    ensures requested == [] ==> forall x :: x in ids <==> 0 <= x < |employees| && employees[x].isActive
  {
    if requested == [] then ActiveIds(employees) else requested
  }

  /** A project of another employee or month changes nothing in the statement. */
  lemma FiguresIgnoreOthers(emp: Employee, ps: seq<Project>, scores: seq<PerformanceScore>, p: Project, e: int, per: Period)
    requires !(p.employeeId == e && p.signed == per)
    ensures FiguresFor(emp, ps + [p], scores, e, per) == FiguresFor(emp, ps, scores, e, per)
  {
    TotalAppend(ps, p, OwnedBy(e, per), FinalCommission);
    TotalAppend(ps, p, OwnedBy(e, per), MarketingCost);
  }

  /** A project of the employee's month adds its commission (0 if it has none)
      to the base, the final commission and the total salary, and its
      marketing cost to the reported deduction. */
  lemma FiguresAddOwnProject(emp: Employee, ps: seq<Project>, scores: seq<PerformanceScore>, p: Project, e: int, per: Period)
    requires p.employeeId == e && p.signed == per
    ensures var before, after := FiguresFor(emp, ps, scores, e, per), FiguresFor(emp, ps + [p], scores, e, per);
      after.baseCommission == before.baseCommission + p.finalCommission.GetOr(0.0)
      && after.finalCommission == before.finalCommission + p.finalCommission.GetOr(0.0)
      && after.totalSalary == before.totalSalary + p.finalCommission.GetOr(0.0)
      && after.marketingDeduction == before.marketingDeduction + p.marketingCostAllocated
      && after.performanceBonus == before.performanceBonus
  {
    TotalAppend(ps, p, OwnedBy(e, per), FinalCommission);
    TotalAppend(ps, p, OwnedBy(e, per), MarketingCost);
  }

  /** Sharing out another month's budget leaves this month's statement as it was. */
  lemma FiguresIgnoreOtherMonth(emp: Employee, ps: seq<Project>, budgets: seq<MarketingBudget>,
                                scores: seq<PerformanceScore>, e: int, per: Period, other: Period)
    requires other != per
    ensures FiguresFor(emp, Redistributed(ps, budgets, other), scores, e, per) == FiguresFor(emp, ps, scores, e, per)
  {
    var r := Redistributed(ps, budgets, other);
    forall i | 0 <= i < |ps| && ps[i].signed == per
      ensures r[i] == ps[i]
    {
      RedistributionStaysInMonth(ps, budgets, other, per, i);
    }
    TotalsAgree(ps, r, OwnedBy(e, per), FinalCommission);
    TotalsAgree(ps, r, OwnedBy(e, per), MarketingCost);
  }
}
