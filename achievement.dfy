/** Achievement against the monthly target: the read-only ratio used to rate a
    new project (calculate_achievement_rate) and the stored progress on the
    target row (update_target_achievement). The two guard the division
    differently: the ratio only avoids a zero target, the stored percentage
    is 0 for every target that is not positive. */
module Achievement {
  import opened Records
  import opened Tables
  import opened Ledger

  /** What the employee signed in the month, in total. */
  function MonthSales(ps: seq<Project>, e: int, per: Period): real {
    Total(ps, OwnedBy(e, per), ProjectValue)
  }

  /** A stored project adds its value to its own signer's month and nothing to any other. */
  lemma MonthSalesAppend(ps: seq<Project>, p: Project, e: int, per: Period)
    ensures p.employeeId == e && p.signed == per ==> MonthSales(ps + [p], e, per) == MonthSales(ps, e, per) + p.projectValue
    ensures !(p.employeeId == e && p.signed == per) ==> MonthSales(ps + [p], e, per) == MonthSales(ps, e, per)
  {
    TotalAppend(ps, p, OwnedBy(e, per), ProjectValue);
  }

  /** The position of the employee's target for the month: the first row
      with that employee and month, or None when there is none. */
  function TargetOf(targets: seq<Target>, e: int, per: Period): (r: Option<nat>)
    ensures r.Some? ==> r.value < |targets| && TargetKey(targets[r.value]) == EmployeePeriod(e, per)
    ensures r.Some? ==> forall j :: 0 <= j < r.value ==> TargetKey(targets[j]) != EmployeePeriod(e, per)
    ensures r.None? <==> forall j :: 0 <= j < |targets| ==> TargetKey(targets[j]) != EmployeePeriod(e, per)
  {
    IndexOfKey(targets, TargetKey, EmployeePeriod(e, per))
  }

  /** The share of the month's target the employee has signed: 0 without a
      target or with a zero target, else sales over target. */
  function AchievementRate(targets: seq<Target>, ps: seq<Project>, e: int, per: Period): (ratio: real)
    ensures TargetOf(targets, e, per).None? ==> ratio == 0.0
    ensures TargetOf(targets, e, per).Some? ==>
      var amount := targets[TargetOf(targets, e, per).value].targetAmount;
      (amount == 0.0 ==> ratio == 0.0) && (amount != 0.0 ==> ratio * amount == MonthSales(ps, e, per))
  {
    match TargetOf(targets, e, per)
    case None => 0.0
    case Some(i) =>
      if targets[i].targetAmount == 0.0 then 0.0
      else MonthSales(ps, e, per) / targets[i].targetAmount
  }

  /** A target row brought up to date with `sales`. */
  function Refreshed(t: Target, sales: real): (r: Target)
    ensures TargetKey(r) == TargetKey(t) && r.targetAmount == t.targetAmount
    ensures r.achievedAmount == sales
    ensures t.targetAmount > 0.0 ==> r.achievementPercentage * t.targetAmount == sales
    ensures t.targetAmount <= 0.0 ==> r.achievementPercentage == 0.0
  {
    t.(achievedAmount := sales,
       achievementPercentage := if t.targetAmount > 0.0 then sales / t.targetAmount else 0.0)
  }

  /** The targets after refreshing the employee's target for the month, if it has one. */
  function RefreshTarget(targets: seq<Target>, ps: seq<Project>, e: int, per: Period): (r: seq<Target>)
    ensures |r| == |targets|
    ensures forall j :: 0 <= j < |targets| ==> TargetKey(r[j]) == TargetKey(targets[j])
    ensures forall j :: 0 <= j < |targets| && TargetKey(targets[j]) != EmployeePeriod(e, per) ==> r[j] == targets[j]
    ensures TargetOf(targets, e, per).None? ==> r == targets
    ensures TargetOf(targets, e, per).Some? ==>
      var i := TargetOf(targets, e, per).value;
      r[i] == Refreshed(targets[i], MonthSales(ps, e, per))
  {
    match TargetOf(targets, e, per)
    case None => targets
    case Some(i) => targets[i := Refreshed(targets[i], MonthSales(ps, e, per))]
  }

  /** Refreshing twice without new projects leaves the same target fields as once. */
  lemma RefreshIdempotent(targets: seq<Target>, ps: seq<Project>, e: int, per: Period)
    ensures RefreshTarget(RefreshTarget(targets, ps, e, per), ps, e, per) == RefreshTarget(targets, ps, e, per)
  {
    match TargetOf(targets, e, per)
    case None =>
    case Some(i) =>
      var once := RefreshTarget(targets, ps, e, per);
      OverwriteKeepsIndex(targets, TargetKey, i, once[i], EmployeePeriod(e, per));
  }

  /** Where the target is positive, the stored percentage is the rating ratio. */
  lemma RefreshAgreesWithRate(targets: seq<Target>, ps: seq<Project>, e: int, per: Period)
    requires TargetOf(targets, e, per).Some?
    requires targets[TargetOf(targets, e, per).value].targetAmount > 0.0
    ensures var i := TargetOf(targets, e, per).value;
      RefreshTarget(targets, ps, e, per)[i].achievementPercentage == AchievementRate(targets, ps, e, per)
      && RefreshTarget(targets, ps, e, per)[i].achievedAmount == MonthSales(ps, e, per)
  {
  }

  /** A negative target splits the two: the rating ratio is sales over target,
      the stored percentage stays 0. */
  lemma NegativeTargetGuardsDisagree(targets: seq<Target>, ps: seq<Project>, e: int, per: Period)
    requires TargetOf(targets, e, per).Some?
    requires targets[TargetOf(targets, e, per).value].targetAmount < 0.0
    requires MonthSales(ps, e, per) != 0.0
    ensures var i := TargetOf(targets, e, per).value;
      RefreshTarget(targets, ps, e, per)[i].achievementPercentage == 0.0
      && AchievementRate(targets, ps, e, per) != 0.0
  {
  }

  /** A project of another employee or month does not move the ratio. */
  lemma RateIgnoresOtherProjects(targets: seq<Target>, ps: seq<Project>, p: Project, e: int, per: Period)
    requires !(p.employeeId == e && p.signed == per)
    ensures AchievementRate(targets, ps + [p], e, per) == AchievementRate(targets, ps, e, per)
  {
    TotalAppend(ps, p, OwnedBy(e, per), ProjectValue);
  }
}
