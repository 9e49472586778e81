/** Rating a newly signed project (the calculation part of create_project):
    the role's rate at the employee's achievement, less half a point for a
    project from social media, and the raw commission value times rate. */
module Assignment {
  import opened Records
  import opened Ledger
  import opened RateTable
  import opened Achievement

  /** The rate cut for a project that came from social media. */
  const SocialMediaPenalty: real := 0.005

  /** The rate a new project is given; the social-media cut has no floor. */
  function ProjectRate(role: string, ratio: real, fromSocialMedia: bool): (rate: real)
    ensures fromSocialMedia ==> rate == CommissionRate(role, ratio) - SocialMediaPenalty
    ensures !fromSocialMedia ==> rate == CommissionRate(role, ratio)
    ensures -SocialMediaPenalty <= rate <= 0.025
  {
    var rate := CommissionRate(role, ratio);
    if fromSocialMedia then rate - SocialMediaPenalty else rate
  }

  /** The draft project with its rate and its commission before any marketing deduction. */
  function Rated(draft: Project, role: string, ratio: real): (p: Project)
    ensures SameDeal(p, draft) && p.marketingCostAllocated == draft.marketingCostAllocated
    ensures p.commissionRate == Some(ProjectRate(role, ratio, draft.isFromSocialMedia))
    ensures p.finalCommission == Some(draft.projectValue * ProjectRate(role, ratio, draft.isFromSocialMedia))
    ensures p.clientName == draft.clientName && p.productType == draft.productType && p.notes == draft.notes
  {
    draft.(commissionRate := Some(ProjectRate(role, ratio, draft.isFromSocialMedia)),
           finalCommission := Some(draft.projectValue * ProjectRate(role, ratio, draft.isFromSocialMedia)))
  }

  /** The ratio a project is rated at is taken before the project is stored,
      so its own value is missing from it: once stored, the same ratio is
      higher by the project's value over the target. */
  lemma {:induction false} RatingExcludesOwnValue(targets: seq<Target>, ps: seq<Project>, p: Project)
    requires TargetOf(targets, p.employeeId, p.signed).Some?
    requires targets[TargetOf(targets, p.employeeId, p.signed).value].targetAmount != 0.0
    ensures var amount := targets[TargetOf(targets, p.employeeId, p.signed).value].targetAmount;
      AchievementRate(targets, ps + [p], p.employeeId, p.signed)
        == AchievementRate(targets, ps, p.employeeId, p.signed) + p.projectValue / amount
  {
    var e, per := p.employeeId, p.signed;
    var amount := targets[TargetOf(targets, e, per).value].targetAmount;
    TotalAppend(ps, p, OwnedBy(e, per), ProjectValue);
    assert MonthSales(ps + [p], e, per) == MonthSales(ps, e, per) + p.projectValue;
    DivideSum(MonthSales(ps, e, per), p.projectValue, amount);
  }

  lemma DivideSum(a: real, b: real, d: real)
    requires d != 0.0
    ensures (a + b) / d == a / d + b / d
  {
  }

  /** For the three known roles a social-media project's rate is never
      negative; for any other role it is exactly minus the cut. */
  lemma SocialRateSign(role: string, ratio: real)
    ensures role == SalesRep || role == TeamLeader || role == SalesManager ==> ProjectRate(role, ratio, true) >= 0.0
    ensures role != SalesRep && role != TeamLeader && role != SalesManager ==> ProjectRate(role, ratio, true) == -0.005
  {
  }

  /** A project from social media earns exactly the half point less. */
  lemma SocialCutIsHalfPoint(draft: Project, role: string, ratio: real)
    requires draft.isFromSocialMedia
    ensures Rated(draft, role, ratio).finalCommission.value
         == draft.projectValue * CommissionRate(role, ratio) - draft.projectValue * 0.005
  {
    var rate := CommissionRate(role, ratio);
    assert draft.projectValue * (rate - 0.005) == draft.projectValue * rate - draft.projectValue * 0.005;
  }
}
