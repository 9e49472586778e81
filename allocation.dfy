/** Marketing cost allocation: a month's budget shared among the month's
    social-media projects in proportion to their value, each share written
    over the project's allocation and subtracted, floored at 0, from its
    CURRENT final commission (allocate_marketing_cost), and the same done for
    every social-media project of the month in table order
    (redistribute_marketing_costs). */
module Allocation {
  import opened Records
  import opened Tables
  import opened Ledger

  /** The total of the first budget row of the month, if there is one. */
  function BudgetFor(budgets: seq<MarketingBudget>, per: Period): (b: Option<real>)
    ensures b.Some? <==> IndexOfKey(budgets, BudgetKey, per).Some?
    ensures b.Some? ==> b.value == budgets[IndexOfKey(budgets, BudgetKey, per).value].totalBudget
  {
    match IndexOfKey(budgets, BudgetKey, per)
    case None => None
    case Some(i) => Some(budgets[i].totalBudget)
  }

  /** The value of all the month's social-media projects, whoever signed them. */
  function SocialTotal(ps: seq<Project>, per: Period): real {
    Total(ps, SocialIn(per), ProjectValue)
  }

  /** A stored project adds its value to the social total of its month exactly when it came from social media. */
  lemma SocialTotalAppend(ps: seq<Project>, p: Project, per: Period)
    ensures p.isFromSocialMedia && p.signed == per ==> SocialTotal(ps + [p], per) == SocialTotal(ps, per) + p.projectValue
    ensures !(p.isFromSocialMedia && p.signed == per) ==> SocialTotal(ps + [p], per) == SocialTotal(ps, per)
  {
    TotalAppend(ps, p, SocialIn(per), ProjectValue);
  }

  /** A month's budget is shared out only if it exists and the social total is not 0. */
  predicate Spreads(ps: seq<Project>, budgets: seq<MarketingBudget>, per: Period) {
    BudgetFor(budgets, per).Some? && SocialTotal(ps, per) != 0.0
  }

  /** The marketing cost one allocation gives project `id` for month `per`, or
      None when the allocation leaves the project alone. */
  function MarketingShare(ps: seq<Project>, budgets: seq<MarketingBudget>, id: int, per: Period): (a: Option<real>)
    ensures a.Some? <==> 0 <= id < |ps| && ps[id].isFromSocialMedia && Spreads(ps, budgets, per)
  {
    if 0 <= id < |ps| && ps[id].isFromSocialMedia && Spreads(ps, budgets, per) then
      Some(Fraction(BudgetFor(budgets, per).value, ps[id].projectValue, SocialTotal(ps, per)))
    else None
  }

  /** `budget * (value / total)`: the budget's share for a value out of a total. */
  function Fraction(budget: real, value: real, total: real): real
    requires total != 0.0
  {
    budget * (value / total)
  }

  /** A share is the budget's fraction of the project's value: the share
      times the month's social total is the budget times the value. */
  lemma ShareTimesSocialTotal(ps: seq<Project>, budgets: seq<MarketingBudget>, id: int, per: Period)
    requires MarketingShare(ps, budgets, id, per).Some?
    ensures MarketingShare(ps, budgets, id, per).value * SocialTotal(ps, per)
         == BudgetFor(budgets, per).value * ps[id].projectValue
  {
    FractionTimesTotal(BudgetFor(budgets, per).value, ps[id].projectValue, SocialTotal(ps, per));
  }

  /** Commission bookkeeping does not change any project's share. */
  lemma ShareOfSameDeals(ps: seq<Project>, qs: seq<Project>, budgets: seq<MarketingBudget>, id: int, per: Period)
    requires SameDeals(qs, ps)
    ensures MarketingShare(qs, budgets, id, per) == MarketingShare(ps, budgets, id, per)
  {
    SameDealsSameValue(qs, ps, SocialIn(per));
    assert SocialTotal(qs, per) == SocialTotal(ps, per);
    assert Spreads(qs, budgets, per) == Spreads(ps, budgets, per);
    if 0 <= id < |ps| {
      assert SameDeal(qs[id], ps[id]);
      assert qs[id].projectValue == ps[id].projectValue;
      assert qs[id].isFromSocialMedia == ps[id].isFromSocialMedia;
      if ps[id].isFromSocialMedia && Spreads(ps, budgets, per) {
        assert MarketingShare(ps, budgets, id, per).Some?;
        assert MarketingShare(qs, budgets, id, per).value == MarketingShare(ps, budgets, id, per).value;
      }
    }
  }

  lemma FractionTimesTotal(b: real, v: real, t: real)
    requires t != 0.0
    ensures Fraction(b, v, t) * t == b * v
  {
  }

  /** `max(0, x)`. */
  function Max0(x: real): (m: real)
    ensures m >= 0.0 && m >= x
    ensures m == 0.0 || m == x
  {
    if x > 0.0 then x else 0.0
  }

  /** A rated project after a deduction of `cost`: the allocation is
      written over the old one, the commission never drops below 0. */
  function Deducted(p: Project, cost: real): (r: Project)
    requires p.finalCommission.Some?
    ensures SameDeal(r, p) && r.commissionRate == p.commissionRate
    ensures r.clientName == p.clientName && r.productType == p.productType && r.notes == p.notes
    ensures r.marketingCostAllocated == cost
    ensures r.finalCommission.Some? && r.finalCommission.value == Max0(p.finalCommission.value - cost)
  {
    p.(marketingCostAllocated := cost, finalCommission := Some(Max0(p.finalCommission.value - cost)))
  }

  /** The deducted commission is never negative, and for a non-negative
      commission and cost it is never more than before. */
  lemma DeductionBounds(p: Project, cost: real)
    requires p.finalCommission.Some?
    ensures Deducted(p, cost).finalCommission.value >= 0.0
    ensures p.finalCommission.value >= 0.0 && cost >= 0.0 ==>
      Deducted(p, cost).finalCommission.value <= p.finalCommission.value
  {
  }

  /** One allocation for project `id` and month `per`: it fails on a project
      that has no final commission to deduct from. */
  function AllocateOnce(ps: seq<Project>, budgets: seq<MarketingBudget>, id: int, per: Period): (r: Result<seq<Project>>)
    ensures r.Err? <==> MarketingShare(ps, budgets, id, per).Some? && ps[id].finalCommission.None?
    ensures r.Err? ==> r.failure == UnratedProject
    ensures r.Ok? ==> SameDeals(r.value, ps)
    ensures r.Ok? ==> forall j :: 0 <= j < |ps| && j != id ==> r.value[j] == ps[j]
    ensures r.Ok? && MarketingShare(ps, budgets, id, per).None? ==> r.value == ps
    ensures r.Ok? && MarketingShare(ps, budgets, id, per).Some? ==>
      r.value[id] == Deducted(ps[id], MarketingShare(ps, budgets, id, per).value)
  {
    match MarketingShare(ps, budgets, id, per)
    case None => Ok(ps)
    case Some(a) =>
      if ps[id].finalCommission.None? then Err(UnratedProject)
      else Ok(ps[id := Deducted(ps[id], a)])
  }

  /** Allocating to the same project again gives it the same cost but takes
      that cost off its commission a second time. */
  lemma AllocateAgainDeductsAgain(ps: seq<Project>, budgets: seq<MarketingBudget>, id: int, per: Period)
    requires MarketingShare(ps, budgets, id, per).Some?
    requires AllocateOnce(ps, budgets, id, per).Ok?
    ensures var q := AllocateOnce(ps, budgets, id, per).value;
      var a := MarketingShare(ps, budgets, id, per).value;
      AllocateOnce(q, budgets, id, per).Ok?
      && AllocateOnce(q, budgets, id, per).value[id].marketingCostAllocated == q[id].marketingCostAllocated == a
      && AllocateOnce(q, budgets, id, per).value[id].finalCommission.value == Max0(q[id].finalCommission.value - a)
      && (a > 0.0 && q[id].finalCommission.value > 0.0 ==>
            AllocateOnce(q, budgets, id, per).value[id].finalCommission.value < q[id].finalCommission.value)
  {
    var q := AllocateOnce(ps, budgets, id, per).value;
    ShareOfSameDeals(ps, q, budgets, id, per);
  }

  /** The first social-media project of the month with no final commission,
      or the table's length if there is none. */
  function FirstUnrated(ps: seq<Project>, per: Period): (n: nat)
    ensures n <= |ps|
    ensures forall j :: 0 <= j < n && Selected(SocialIn(per), ps[j]) ==> ps[j].finalCommission.Some?
    ensures n < |ps| ==> Selected(SocialIn(per), ps[n]) && ps[n].finalCommission.None?
    decreases |ps|
  {
    if ps == [] then 0
    else if Selected(SocialIn(per), ps[0]) && ps[0].finalCommission.None? then 0
    else 1 + FirstUnrated(ps[1..], per)
  }

  /** Where a redistribution stops: at the first unrated social-media project
      if the budget is shared out at all, else after the whole table. */
  function StopsAt(ps: seq<Project>, budgets: seq<MarketingBudget>, per: Period): (n: nat)
    ensures n <= |ps|
  {
    if Spreads(ps, budgets, per) then FirstUnrated(ps, per) else |ps|
  }

  /** The table once the month's social-media projects before position `n`
      have had their allocation. */
  function RedistributedUpTo(ps: seq<Project>, budgets: seq<MarketingBudget>, per: Period, n: nat): (r: seq<Project>)
    requires n <= StopsAt(ps, budgets, per)
    ensures SameDeals(r, ps)
    ensures forall i :: 0 <= i < |ps| && !(i < n && Selected(SocialIn(per), ps[i]) && Spreads(ps, budgets, per)) ==>
      r[i] == ps[i]
    ensures forall i :: 0 <= i < n && Selected(SocialIn(per), ps[i]) && Spreads(ps, budgets, per) ==>
      ps[i].finalCommission.Some? && r[i] == Deducted(ps[i], MarketingShare(ps, budgets, i, per).value)
  {
    seq(|ps|, i requires 0 <= i < |ps| =>
      if i < n && Selected(SocialIn(per), ps[i]) && Spreads(ps, budgets, per)
      then Deducted(ps[i], MarketingShare(ps, budgets, i, per).value)
      else ps[i])
  }

  /** The table after redistribute_marketing_costs for month `per`. */
  function Redistributed(ps: seq<Project>, budgets: seq<MarketingBudget>, per: Period): (r: seq<Project>)
    ensures SameDeals(r, ps)
    ensures !Spreads(ps, budgets, per) ==> r == ps
    ensures forall i :: 0 <= i < |ps| && !Selected(SocialIn(per), ps[i]) ==> r[i] == ps[i]
    ensures FirstUnrated(ps, per) == |ps| ==> forall i :: 0 <= i < |ps| && Selected(SocialIn(per), ps[i]) && Spreads(ps, budgets, per) ==>
      r[i] == Deducted(ps[i], MarketingShare(ps, budgets, i, per).value)
  {
    RedistributedUpTo(ps, budgets, per, StopsAt(ps, budgets, per))
  }

  /** A redistribution fails exactly when it meets an unrated project it has to deduct from. */
  function RedistributionOutcome(ps: seq<Project>, budgets: seq<MarketingBudget>, per: Period): (o: Outcome)
    ensures o.Fail? <==> Spreads(ps, budgets, per) && FirstUnrated(ps, per) < |ps|
  {
    if StopsAt(ps, budgets, per) < |ps| then Fail(UnratedProject) else Pass
  }

  /** One step of the redistribution loop is one allocation, or nothing for a
      project that is not a social-media project of the month. */
  lemma RedistributeStep(ps: seq<Project>, budgets: seq<MarketingBudget>, per: Period, i: nat)
    requires i < StopsAt(ps, budgets, per)
    ensures var cur := RedistributedUpTo(ps, budgets, per, i);
      cur[i] == ps[i]
      && (Selected(SocialIn(per), ps[i]) ==> AllocateOnce(cur, budgets, i, per) == Ok(RedistributedUpTo(ps, budgets, per, i + 1)))
      && (!Selected(SocialIn(per), ps[i]) ==> cur == RedistributedUpTo(ps, budgets, per, i + 1))
  {
    var cur := RedistributedUpTo(ps, budgets, per, i);
    var next := RedistributedUpTo(ps, budgets, per, i + 1);
    ShareOfSameDeals(ps, cur, budgets, i, per);
    if Selected(SocialIn(per), ps[i]) {
      if Spreads(ps, budgets, per) {
        assert next == cur[i := Deducted(ps[i], MarketingShare(ps, budgets, i, per).value)];
      } else {
        assert next == cur;
      }
    } else {
      assert next == cur;
    }
  }

  /** The loop stops at an unrated project it has to deduct from. */
  lemma RedistributeFails(ps: seq<Project>, budgets: seq<MarketingBudget>, per: Period)
    requires StopsAt(ps, budgets, per) < |ps|
    ensures var n := StopsAt(ps, budgets, per);
      var cur := RedistributedUpTo(ps, budgets, per, n);
      Selected(SocialIn(per), ps[n]) && cur[n] == ps[n]
      && AllocateOnce(cur, budgets, n, per) == Err(UnratedProject)
  {
    var n := StopsAt(ps, budgets, per);
    var cur := RedistributedUpTo(ps, budgets, per, n);
    ShareOfSameDeals(ps, cur, budgets, n, per);
    assert MarketingShare(cur, budgets, n, per).Some?;
  }

  /** When every social-media project of the month is rated, the month's
      allocations add up to the whole budget. */
  lemma {:induction false} RedistributionSpendsBudget(ps: seq<Project>, budgets: seq<MarketingBudget>, per: Period)
    requires Spreads(ps, budgets, per)
    requires FirstUnrated(ps, per) == |ps|
    ensures Total(Redistributed(ps, budgets, per), SocialIn(per), MarketingCost) == BudgetFor(budgets, per).value
  {
    var b, t := BudgetFor(budgets, per).value, SocialTotal(ps, per);
    var fraction := (x: real) => Fraction(b, x, t);
    RedistributedRows(ps, budgets, per);
    forall x: real, y: real, z: real | z == x + y
      ensures fraction(z) == fraction(x) + fraction(y)
    {
      FractionOfParts(b, t, x, y);
    }
    FractionOfParts(b, t, 0.0, 0.0);
    assert RowsMapped(ps, Redistributed(ps, budgets, per), SocialIn(per), ProjectValue, MarketingCost, fraction);
    TotalMapped(ps, Redistributed(ps, budgets, per), SocialIn(per), ProjectValue, MarketingCost, fraction);
    FractionOfWhole(b, t);
  }

  /** After a completed redistribution every row's allocation is the
      budget's fraction of the row's value, 0 outside the month's
      social-media projects. */
  lemma RedistributedRows(ps: seq<Project>, budgets: seq<MarketingBudget>, per: Period)
    requires Spreads(ps, budgets, per)
    requires FirstUnrated(ps, per) == |ps|
    ensures var r, b, t := Redistributed(ps, budgets, per), BudgetFor(budgets, per).value, SocialTotal(ps, per);
      forall i :: 0 <= i < |ps| ==>
        Contribution(SocialIn(per), MarketingCost, r[i]) == Fraction(b, Contribution(SocialIn(per), ProjectValue, ps[i]), t)
  {
    forall i | 0 <= i < |ps| {
      RedistributedRow(ps, budgets, per, i);
    }
  }

  lemma RedistributedRow(ps: seq<Project>, budgets: seq<MarketingBudget>, per: Period, i: nat)
    requires Spreads(ps, budgets, per)
    requires FirstUnrated(ps, per) == |ps|
    requires i < |ps|
    ensures var r, b, t := Redistributed(ps, budgets, per), BudgetFor(budgets, per).value, SocialTotal(ps, per);
      Contribution(SocialIn(per), MarketingCost, r[i]) == Fraction(b, Contribution(SocialIn(per), ProjectValue, ps[i]), t)
  {
    var r, b, t := Redistributed(ps, budgets, per), BudgetFor(budgets, per).value, SocialTotal(ps, per);
    if Selected(SocialIn(per), ps[i]) {
      ShareIs(ps, budgets, per, i);
      assert r[i].marketingCostAllocated == MarketingShare(ps, budgets, i, per).value;
    } else {
      assert !Selected(SocialIn(per), r[i]);
      FractionOfParts(b, t, 0.0, 0.0);
    }
  }

  lemma ShareIs(ps: seq<Project>, budgets: seq<MarketingBudget>, per: Period, i: nat)
    requires Spreads(ps, budgets, per)
    requires i < |ps| && Selected(SocialIn(per), ps[i])
    ensures MarketingShare(ps, budgets, i, per)
         == Some(Fraction(BudgetFor(budgets, per).value, ps[i].projectValue, SocialTotal(ps, per)))
  {
  }

  /** Taking the fraction `x / t` of a budget is additive in `x`. */
  lemma FractionOfParts(b: real, t: real, x: real, y: real)
    requires t != 0.0
    ensures Fraction(b, x + y, t) == Fraction(b, x, t) + Fraction(b, y, t)
    ensures Fraction(b, 0.0, t) == 0.0
  {
  }

  lemma FractionOfWhole(b: real, t: real)
    requires t != 0.0
    ensures Fraction(b, t, t) == b
  {
  }

  /** The month's allocations are in proportion to the projects' values. */
  lemma RedistributionProportional(ps: seq<Project>, budgets: seq<MarketingBudget>, per: Period, i: nat, j: nat)
    requires Spreads(ps, budgets, per)
    requires i < StopsAt(ps, budgets, per) && j < StopsAt(ps, budgets, per)
    requires Selected(SocialIn(per), ps[i]) && Selected(SocialIn(per), ps[j])
    ensures var r := Redistributed(ps, budgets, per);
      r[i].marketingCostAllocated * ps[j].projectValue == r[j].marketingCostAllocated * ps[i].projectValue
  {
    RedistributedCost(ps, budgets, per, i);
    RedistributedCost(ps, budgets, per, j);
    CostsInProportion(Redistributed(ps, budgets, per), ps, BudgetFor(budgets, per).value, SocialTotal(ps, per), i, j);
  }

  /** The redistribution of month `per` shares the budget out and reaches social-media project `i`. */
  predicate Reaches(ps: seq<Project>, budgets: seq<MarketingBudget>, per: Period, i: nat) {
    Spreads(ps, budgets, per) && i < StopsAt(ps, budgets, per) && Selected(SocialIn(per), ps[i])
  }

  /** The cost a redistribution gives a social-media project it reaches. */
  lemma RedistributedCost(ps: seq<Project>, budgets: seq<MarketingBudget>, per: Period, i: nat)
    requires Reaches(ps, budgets, per, i)
    ensures Redistributed(ps, budgets, per)[i].marketingCostAllocated
         == Fraction(BudgetFor(budgets, per).value, ps[i].projectValue, SocialTotal(ps, per))
  {
    ShareIs(ps, budgets, per, i);
  }

  /** Rows whose costs are the budget's fractions of their values are costed in proportion to their values. */
  lemma CostsInProportion(r: seq<Project>, ps: seq<Project>, b: real, t: real, i: nat, j: nat)
    requires t != 0.0
    requires i < |r| && j < |r| && i < |ps| && j < |ps|
    requires r[i].marketingCostAllocated == Fraction(b, ps[i].projectValue, t)
    requires r[j].marketingCostAllocated == Fraction(b, ps[j].projectValue, t)
    ensures r[i].marketingCostAllocated * ps[j].projectValue == r[j].marketingCostAllocated * ps[i].projectValue
  {
  }

  /** Redistributing a month twice gives every social-media project the same
      cost again and takes it off the commission a second time. */
  lemma {:induction false} RedistributeAgainDeductsAgain(ps: seq<Project>, budgets: seq<MarketingBudget>, per: Period, i: nat)
    requires Spreads(ps, budgets, per)
    requires FirstUnrated(ps, per) == |ps|
    requires i < |ps| && Selected(SocialIn(per), ps[i])
    ensures var once := Redistributed(ps, budgets, per);
      var twice := Redistributed(once, budgets, per);
      RedistributionOutcome(once, budgets, per) == Pass
      && twice[i].marketingCostAllocated == once[i].marketingCostAllocated
      && twice[i].finalCommission == Some(Max0(once[i].finalCommission.value - once[i].marketingCostAllocated))
  {
    var once := Redistributed(ps, budgets, per);
    SameDealsSameValue(once, ps, SocialIn(per));
    assert Spreads(once, budgets, per);
    forall j | 0 <= j < |once| && Selected(SocialIn(per), once[j]) ensures once[j].finalCommission.Some? {
      assert Selected(SocialIn(per), ps[j]);
    }
    UnratedAbsent(once, per);
    ShareOfSameDeals(ps, once, budgets, i, per);
  }

  /** With every social-media project of the month rated, none stops a redistribution. */
  lemma {:induction false} UnratedAbsent(ps: seq<Project>, per: Period)
    requires forall j :: 0 <= j < |ps| && Selected(SocialIn(per), ps[j]) ==> ps[j].finalCommission.Some?
    ensures FirstUnrated(ps, per) == |ps|
  {
    if ps != [] {
      assert forall j :: 0 <= j < |ps| - 1 ==> ps[1..][j] == ps[j + 1];
      UnratedAbsent(ps[1..], per);
    }
  }

  /** Redistributing another month leaves the projects of this month as they were. */
  lemma RedistributionStaysInMonth(ps: seq<Project>, budgets: seq<MarketingBudget>, per: Period, other: Period, i: nat)
    requires other != per && i < |ps| && ps[i].signed == other
    ensures Redistributed(ps, budgets, per)[i] == ps[i]
  {
  }
}
