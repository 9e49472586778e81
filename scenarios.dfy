/** Worked months, stated on the model's functions. */
module Scenarios {
  import opened Records
  import opened Ledger
  import opened RateTable
  import opened Achievement
  import opened Assignment
  import opened Allocation
  import opened Aggregation

  /** A sales rep with a 100,000 target signs 60,000 and then 50,000 in the
      same month. The first project is rated before it is stored, at ratio 0,
      so it earns 1% (600); the second is rated at 0.6, so it earns 1.5% (750). */
  lemma TwoProjectsAgainstTarget()
    ensures var per := Period(3, 2025);
      var targets := [NewTarget(0, per, 100000.0)];
      var first := Rated(NewProject(0, "client a", 60000.0, "steel", per), SalesRep, AchievementRate(targets, [], 0, per));
      var second := Rated(NewProject(0, "client b", 50000.0, "wood", per), SalesRep, AchievementRate(targets, [first], 0, per));
      first.finalCommission == Some(600.0) && second.finalCommission == Some(750.0)
      && AchievementRate(targets, [first, second], 0, per) == 1.1
  {
    var per := Period(3, 2025);
    var targets := [NewTarget(0, per, 100000.0)];
    assert AchievementRate(targets, [], 0, per) == 0.0;
    var first := Rated(NewProject(0, "client a", 60000.0, "steel", per), SalesRep, 0.0);
    assert [first][..0] == [];
    assert MonthSales([first], 0, per) == 60000.0;
    assert AchievementRate(targets, [first], 0, per) == 0.6;
    var second := Rated(NewProject(0, "client b", 50000.0, "wood", per), SalesRep, 0.6);
    assert [first, second][..1] == [first];
    assert MonthSales([first, second], 0, per) == 110000.0;
  }

  /** Two social-media projects of 80,000 and 20,000 share a 10,000 budget as
      8,000 and 2,000. Their half-point-cut commissions (400 and 100) are
      smaller than that, so both fall to 0. */
  lemma SocialBudgetShared()
    ensures var per := Period(4, 2025);
      var budgets := [NewBudget(per, 10000.0, 0)];
      var a := Rated(NewProject(0, "client a", 80000.0, "steel", per, true), SalesRep, 0.0);
      var b := Rated(NewProject(1, "client b", 20000.0, "steel", per, true), SalesRep, 0.0);
      var r := Redistributed([a, b], budgets, per);
      a.finalCommission == Some(400.0) && b.finalCommission == Some(100.0)
      && RedistributionOutcome([a, b], budgets, per) == Pass
      && r[0].marketingCostAllocated == 8000.0 && r[1].marketingCostAllocated == 2000.0
      && r[0].finalCommission == Some(0.0) && r[1].finalCommission == Some(0.0)
  {
    var per := Period(4, 2025);
    var budgets := [NewBudget(per, 10000.0, 0)];
    var a := Rated(NewProject(0, "client a", 80000.0, "steel", per, true), SalesRep, 0.0);
    var b := Rated(NewProject(1, "client b", 20000.0, "steel", per, true), SalesRep, 0.0);
    var ps := [a, b];
    assert SocialTotal(ps, per) == 100000.0 by {
      TotalAppend([], a, SocialIn(per), ProjectValue);
      TotalAppend([a], b, SocialIn(per), ProjectValue);
      assert [] + [a] == [a] && [a] + [b] == ps;
    }
    assert BudgetFor(budgets, per) == Some(10000.0);
    assert StopsAt(ps, budgets, per) == 2 by {
      UnratedAbsent(ps, per);
    }
    assert MarketingShare(ps, budgets, 0, per) == Some(8000.0);
    assert MarketingShare(ps, budgets, 1, per) == Some(2000.0);
    var r := Redistributed(ps, budgets, per);
    assert r[0] == Deducted(a, 8000.0) && r[1] == Deducted(b, 2000.0);
    assert Max0(400.0 - 8000.0) == 0.0 && Max0(100.0 - 2000.0) == 0.0;
  }

  /** Weighted scores of 2.5 and 1.5 earn a bonus of 4,000, added to the
      project commissions for the final commission and to the salary for the total. */
  lemma BonusFromScores()
    ensures var per := Period(5, 2025);
      var emp := Employee("rep", SalesRep, 5000.0, None, true);
      var scores := [NewScore(0, 0, per, 5.0, Some(2.5)), NewScore(0, 1, per, 3.0, Some(1.5))];
      var f := FiguresFor(emp, [], scores, 0, per);
      f.performanceBonus == 4000.0 && f.finalCommission == 4000.0 && f.totalSalary == 9000.0
  {
    var per := Period(5, 2025);
    var scores := [NewScore(0, 0, per, 5.0, Some(2.5)), NewScore(0, 1, per, 3.0, Some(1.5))];
    WeightedTotalAppend([], scores[0], 0, per);
    WeightedTotalAppend([scores[0]], scores[1], 0, per);
    assert [] + [scores[0]] == [scores[0]] && [scores[0]] + [scores[1]] == scores;
    assert WeightedTotal(scores, 0, per) == 4.0;
  }
}
