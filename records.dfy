/** The rows of the sales store (src/models/sales.py), with their column
    defaults. Money is `real`; a signature date is reduced to its
    (month, year) period. Row ids of the auto-numbered tables (employees,
    projects, KPIs) are positions in their table; the keyed tables carry
    their natural key in the row. */
module Records {

  datatype Option<+T> = None | Some(value: T) {
    function GetOr(default: T): T {
      match this
      case Some(v) => v
      case None => default
    }
  }

  /** Why an operation of the engine fails. */
  datatype Failure =
    | NotFound        // the referenced employee or KPI does not exist
    | DuplicateKey    // a target or a budget already exists for the month
    | UnratedProject  // a marketing deduction met a project with no final commission

  datatype Result<+T> = Ok(value: T) | Err(failure: Failure)

  datatype Outcome = Pass | Fail(failure: Failure)

  /** The calendar month a row belongs to. */
  datatype Period = Period(month: int, year: int)

  /** Natural key of a target and of a commission: one per employee per month. */
  datatype EmployeePeriod = EmployeePeriod(employeeId: int, period: Period)

  /** Natural key of a performance score. */
  datatype ScoreKey = ScoreKey(employeeId: int, kpiId: int, period: Period)

  const SalesRep: string := "sales_rep"
  const TeamLeader: string := "team_leader"
  const SalesManager: string := "sales_manager"

  datatype Employee = Employee(
    name: string,
    role: string,
    baseSalary: real,
    teamId: Option<int>,
    isActive: bool)

  datatype Project = Project(
    employeeId: int,
    clientName: string,
    projectValue: real,
    productType: string,
    signed: Period,
    isFromSocialMedia: bool,
    marketingCostAllocated: real,
    commissionRate: Option<real>,
    finalCommission: Option<real>,
    notes: Option<string>)

  datatype Target = Target(
    employeeId: int,
    period: Period,
    targetAmount: real,
    achievedAmount: real,
    achievementPercentage: real)

  datatype MarketingBudget = MarketingBudget(
    period: Period,
    totalBudget: real,
    allocatedBudget: real,
    remainingBudget: real,
    createdBy: int)

  datatype PerformanceKpi = PerformanceKpi(
    name: string,
    description: Option<string>,
    weight: real,
    maxScore: real,
    isActive: bool)

  datatype PerformanceScore = PerformanceScore(
    employeeId: int,
    kpiId: int,
    period: Period,
    score: real,
    weightedScore: Option<real>,
    notes: Option<string>)

  datatype Commission = Commission(
    employeeId: int,
    period: Period,
    baseCommission: real,
    marketingDeduction: real,
    performanceBonus: real,
    finalCommission: real,
    totalSalary: real,
    isApproved: bool,
    approvedBy: Option<int>)

  function TargetKey(t: Target): EmployeePeriod { EmployeePeriod(t.employeeId, t.period) }
  function BudgetKey(b: MarketingBudget): Period { b.period }
  function ScoreKeyOf(s: PerformanceScore): ScoreKey { ScoreKey(s.employeeId, s.kpiId, s.period) }
  function CommissionKey(c: Commission): EmployeePeriod { EmployeePeriod(c.employeeId, c.period) }

  /** An employee as first stored: active unless said otherwise, in no team
      unless given one. */
  function NewEmployee(name: string, role: string, baseSalary: real,
                       teamId: Option<int> := None, isActive: bool := true): (m: Employee)
    ensures m.name == name && m.role == role && m.baseSalary == baseSalary
    ensures m.teamId == teamId && m.isActive == isActive
  {
    Employee(name, role, baseSalary, teamId, isActive)
  }

  /** A project as first stored: not from social media unless said, nothing
      allocated, and neither a rate nor a commission yet. */
  function NewProject(employeeId: int, clientName: string, projectValue: real, productType: string,
                      signed: Period, isFromSocialMedia: bool := false, notes: Option<string> := None): (p: Project)
    ensures p.employeeId == employeeId && p.projectValue == projectValue && p.signed == signed
    ensures p.isFromSocialMedia == isFromSocialMedia && p.clientName == clientName
    ensures p.productType == productType && p.notes == notes
    ensures p.marketingCostAllocated == 0.0
    ensures p.commissionRate.None? && p.finalCommission.None?
  {
    Project(employeeId, clientName, projectValue, productType, signed, isFromSocialMedia, 0.0, None, None, notes)
  }

  /** A target starts with nothing achieved; only the amount is required. */
  function NewTarget(employeeId: int, period: Period, targetAmount: real): (t: Target)
    ensures TargetKey(t) == EmployeePeriod(employeeId, period) && t.targetAmount == targetAmount
    ensures t.achievedAmount == 0.0 && t.achievementPercentage == 0.0
  {
    Target(employeeId, period, targetAmount, 0.0, 0.0)
  }

  /** A budget's allocated and remaining amounts are zero unless given. */
  function NewBudget(period: Period, totalBudget: real, createdBy: int,
                     allocatedBudget: real := 0.0, remainingBudget: real := 0.0): (b: MarketingBudget)
    ensures BudgetKey(b) == period && b.totalBudget == totalBudget && b.createdBy == createdBy
    ensures b.allocatedBudget == allocatedBudget && b.remainingBudget == remainingBudget
  {
    MarketingBudget(period, totalBudget, allocatedBudget, remainingBudget, createdBy)
  }

  /** A KPI needs a weight; its maximum score is 10 unless given, and it starts active. */
  function NewKpi(name: string, weight: real, description: Option<string> := None, maxScore: real := 10.0): (k: PerformanceKpi)
    ensures k.name == name && k.weight == weight && k.description == description
    ensures k.maxScore == maxScore && k.isActive
  {
    PerformanceKpi(name, description, weight, maxScore, true)
  }

  /** A score row; its weighted score may be absent. */
  function NewScore(employeeId: int, kpiId: int, period: Period, score: real,
                    weightedScore: Option<real> := None, notes: Option<string> := None): (s: PerformanceScore)
    ensures ScoreKeyOf(s) == ScoreKey(employeeId, kpiId, period)
    ensures s.score == score && s.weightedScore == weightedScore && s.notes == notes
  {
    PerformanceScore(employeeId, kpiId, period, score, weightedScore, notes)
  }

  /** A commission row: every money column is zero unless given, and it is not approved. */
  function NewCommission(employeeId: int, period: Period, baseCommission: real := 0.0,
                         marketingDeduction: real := 0.0, performanceBonus: real := 0.0,
                         finalCommission: real := 0.0, totalSalary: real := 0.0): (c: Commission)
    ensures CommissionKey(c) == EmployeePeriod(employeeId, period)
    ensures c.baseCommission == baseCommission && c.marketingDeduction == marketingDeduction
    ensures c.performanceBonus == performanceBonus && c.finalCommission == finalCommission
    ensures c.totalSalary == totalSalary
    ensures !c.isApproved && c.approvedBy.None?
  {
    Commission(employeeId, period, baseCommission, marketingDeduction, performanceBonus,
               finalCommission, totalSalary, false, None)
  }
}
