/** The sums the engine takes over the projects and performance scores of a
    month. A missing sum (no matching row) is 0, as `sum(...) or 0.0` gives. */
module Ledger {
  import opened Records

  /** Which projects a sum ranges over. */
  datatype Selection =
    | OwnedBy(employeeId: int, period: Period)  // one employee's projects signed in the month
    | SocialIn(period: Period)                  // the month's projects from social media

  predicate Selected(s: Selection, p: Project) {
    match s
    case OwnedBy(e, per) => p.employeeId == e && p.signed == per
    case SocialIn(per) => p.isFromSocialMedia && p.signed == per
  }

  /** Which column of a project a sum adds up. */
  datatype Column = ProjectValue | FinalCommission | MarketingCost

  /** A missing final commission counts as 0 (`final_commission or 0`). */
  function ColumnOf(c: Column, p: Project): real {
    match c
    case ProjectValue => p.projectValue
    case FinalCommission => p.finalCommission.GetOr(0.0)
    case MarketingCost => p.marketingCostAllocated
  }

  function Contribution(s: Selection, c: Column, p: Project): real {
    if Selected(s, p) then ColumnOf(c, p) else 0.0
  }

  /** The sum of column `c` over the projects selected by `s`. */
  function Total(ps: seq<Project>, s: Selection, c: Column): real
    decreases |ps|
  {
    if ps == [] then 0.0
    else Total(ps[..|ps| - 1], s, c) + Contribution(s, c, ps[|ps| - 1])
  }

  /** A sum over no selected project is 0, as `sum(...) or 0.0` gives. */
  lemma {:induction false} TotalNoneSelected(ps: seq<Project>, s: Selection, c: Column)
    requires forall i :: 0 <= i < |ps| ==> !Selected(s, ps[i])
    ensures Total(ps, s, c) == 0.0
  {
    if ps != [] {
      var n := |ps| - 1;
      assert forall i :: 0 <= i < n ==> ps[..n][i] == ps[i];
      TotalNoneSelected(ps[..n], s, c);
    }
  }

  /** A sum of contributions none of which is negative is not negative. */
  lemma {:induction false} TotalNonNegative(ps: seq<Project>, s: Selection, c: Column)
    requires forall i :: 0 <= i < |ps| ==> Contribution(s, c, ps[i]) >= 0.0
    ensures Total(ps, s, c) >= 0.0
  {
    if ps != [] {
      var n := |ps| - 1;
      assert forall i :: 0 <= i < n ==> ps[..n][i] == ps[i];
      TotalNonNegative(ps[..n], s, c);
    }
  }

  /** Storing one more project adds exactly its own contribution. */
  lemma TotalAppend(ps: seq<Project>, p: Project, s: Selection, c: Column)
    ensures Total(ps + [p], s, c) == Total(ps, s, c) + Contribution(s, c, p)
  {
    assert (ps + [p])[..|ps|] == ps;
  }

  /** Two tables whose rows contribute, row by row, the image under an
      additive map `f` of each other's contributions have sums related by `f`. */
  lemma {:induction false} TotalMapped(ps: seq<Project>, qs: seq<Project>, s: Selection, c: Column, d: Column, f: real -> real)
    requires f(0.0) == 0.0
    requires forall x, y, z :: z == x + y ==> f(z) == f(x) + f(y)
    requires RowsMapped(ps, qs, s, c, d, f)
    ensures Total(qs, s, d) == f(Total(ps, s, c))
  {
    if ps != [] {
      var n := |ps| - 1;
      RowsMappedPrefix(ps, qs, s, c, d, f, n);
      TotalMapped(ps[..n], qs[..n], s, c, d, f);
      var x, y := Total(ps[..n], s, c), Contribution(s, c, ps[n]);
      assert Total(ps, s, c) == x + y;
      assert Total(qs, s, d) == f(x) + f(y);
    }
  }

  /** Row by row, what `qs` contributes to column `d` is `f` of what `ps` contributes to column `c`. */
  ghost predicate RowsMapped(ps: seq<Project>, qs: seq<Project>, s: Selection, c: Column, d: Column, f: real -> real) {
    |ps| == |qs| && forall i :: 0 <= i < |ps| ==> Contribution(s, d, qs[i]) == f(Contribution(s, c, ps[i]))
  }

  lemma RowsMappedPrefix(ps: seq<Project>, qs: seq<Project>, s: Selection, c: Column, d: Column, f: real -> real, n: nat)
    requires RowsMapped(ps, qs, s, c, d, f)
    requires n <= |ps|
    ensures RowsMapped(ps[..n], qs[..n], s, c, d, f)
  {
    assert forall i :: 0 <= i < n ==> ps[..n][i] == ps[i] && qs[..n][i] == qs[i];
  }

  /** Two tables whose rows contribute the same, row by row, have the same sum. */
  lemma {:induction false} TotalsAgree(ps: seq<Project>, qs: seq<Project>, s: Selection, c: Column)
    requires |ps| == |qs|
    requires forall i :: 0 <= i < |ps| ==> Contribution(s, c, qs[i]) == Contribution(s, c, ps[i])
    ensures Total(qs, s, c) == Total(ps, s, c)
  {
    if ps != [] {
      var n := |ps| - 1;
      assert forall i :: 0 <= i < n ==> ps[..n][i] == ps[i] && qs[..n][i] == qs[i];
      TotalsAgree(ps[..n], qs[..n], s, c);
    }
  }

  /** Replacing one project changes a sum by the difference of the two contributions. */
  lemma {:induction false} TotalUpdate(ps: seq<Project>, i: nat, x: Project, s: Selection, c: Column)
    requires i < |ps|
    ensures Total(ps[i := x], s, c) == Total(ps, s, c) - Contribution(s, c, ps[i]) + Contribution(s, c, x)
  {
    var n := |ps| - 1;
    if i == n {
      assert ps[i := x][..n] == ps[..n];
    } else {
      assert ps[i := x][..n] == ps[..n][i := x];
      TotalUpdate(ps[..n], i, x, s, c);
    }
  }

  /** Two projects are the same deal when they agree on owner, value, month and channel. */
  predicate SameDeal(p: Project, q: Project) {
    p.employeeId == q.employeeId && p.projectValue == q.projectValue
    && p.signed == q.signed && p.isFromSocialMedia == q.isFromSocialMedia
  }

  ghost predicate SameDeals(ps: seq<Project>, qs: seq<Project>) {
    |ps| == |qs| && forall i :: 0 <= i < |ps| ==> SameDeal(ps[i], qs[i])
  }

  /** Commission bookkeeping never changes what a month's sales add up to. */
  lemma SameDealsSameValue(ps: seq<Project>, qs: seq<Project>, s: Selection)
    requires SameDeals(ps, qs)
    ensures Total(ps, s, ProjectValue) == Total(qs, s, ProjectValue)
  {
    TotalsAgree(qs, ps, s, ProjectValue);
  }

  /** A missing weighted score counts as 0 (`weighted_score or 0`). */
  function ScoreContribution(e: int, per: Period, x: PerformanceScore): real {
    if x.employeeId == e && x.period == per then x.weightedScore.GetOr(0.0) else 0.0
  }

  /** The sum of one employee's weighted scores over every KPI of a month. */
  function WeightedTotal(scores: seq<PerformanceScore>, e: int, per: Period): real
    decreases |scores|
  {
    if scores == [] then 0.0
    else WeightedTotal(scores[..|scores| - 1], e, per) + ScoreContribution(e, per, scores[|scores| - 1])
  }

  /** An employee with no score row in the month has a weighted sum of 0. */
  lemma {:induction false} WeightedTotalNoRows(scores: seq<PerformanceScore>, e: int, per: Period)
    requires forall i :: 0 <= i < |scores| ==> !(scores[i].employeeId == e && scores[i].period == per)
    ensures WeightedTotal(scores, e, per) == 0.0
  {
    if scores != [] {
      var n := |scores| - 1;
      assert forall i :: 0 <= i < n ==> scores[..n][i] == scores[i];
      WeightedTotalNoRows(scores[..n], e, per);
    }
  }

  lemma WeightedTotalAppend(scores: seq<PerformanceScore>, x: PerformanceScore, e: int, per: Period)
    ensures WeightedTotal(scores + [x], e, per) == WeightedTotal(scores, e, per) + ScoreContribution(e, per, x)
  {
    assert (scores + [x])[..|scores|] == scores;
  }

  /** Replacing one score row changes the sum by the difference of the two rows. */
  lemma {:induction false} WeightedTotalUpdate(scores: seq<PerformanceScore>, i: nat, x: PerformanceScore, e: int, per: Period)
    requires i < |scores|
    ensures WeightedTotal(scores[i := x], e, per)
         == WeightedTotal(scores, e, per) - ScoreContribution(e, per, scores[i]) + ScoreContribution(e, per, x)
  {
    var n := |scores| - 1;
    if i == n {
      assert scores[i := x][..n] == scores[..n];
    } else {
      assert scores[i := x][..n] == scores[..n][i := x];
      WeightedTotalUpdate(scores[..n], i, x, e, per);
    }
  }
}
