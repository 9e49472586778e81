/** The commission rate table (get_commission_rate): a step function of the
    achievement ratio per role, each bracket inclusive at its upper bound. */
module RateTable {
  import opened Records

  /** The rate paid to an employee of `role` who reached `ratio` of the target. */
  function CommissionRate(role: string, ratio: real): (rate: real)
    ensures 0.0 <= rate <= 0.025
    ensures role == SalesManager ==> rate == 0.005
    ensures role != SalesRep && role != TeamLeader && role != SalesManager ==> rate == 0.0
  {
    if role == SalesRep then
      if ratio <= 0.5 then 0.01
      else if ratio <= 0.8 then 0.015
      else if ratio <= 1.0 then 0.02
      else 0.025
    else if role == TeamLeader then
      if ratio <= 0.5 then 0.005
      else if ratio <= 0.8 then 0.0075
      else if ratio <= 1.0 then 0.01
      else 0.0125
    else if role == SalesManager then 0.005
    else 0.0
  }

  /** A bracket pays `rate` to every ratio up to and including `upTo`. */
  datatype Bracket = Bracket(upTo: real, rate: real)

  /** Brackets tried in order; a ratio above all of them is paid `above`. */
  datatype Schedule = Schedule(brackets: seq<Bracket>, above: real)

  /** The rate table written as data, one schedule per role. */
  function ScheduleFor(role: string): Schedule {
    if role == SalesRep then
      Schedule([Bracket(0.5, 0.01), Bracket(0.8, 0.015), Bracket(1.0, 0.02)], 0.025)
    else if role == TeamLeader then
      Schedule([Bracket(0.5, 0.005), Bracket(0.8, 0.0075), Bracket(1.0, 0.01)], 0.0125)
    else if role == SalesManager then Schedule([], 0.005)
    else Schedule([], 0.0)
  }

  /** The rate of the first bracket that holds `ratio`. */
  function Lookup(brackets: seq<Bracket>, above: real, ratio: real): real {
    if brackets == [] then above
    else if ratio <= brackets[0].upTo then brackets[0].rate
    else Lookup(brackets[1..], above, ratio)
  }

  /** Rates never fall from one bracket to the next, nor to the open top bracket. */
  ghost predicate Rising(brackets: seq<Bracket>, above: real) {
    (forall i :: 0 <= i < |brackets| - 1 ==> brackets[i].rate <= brackets[i + 1].rate)
    && (brackets != [] ==> brackets[|brackets| - 1].rate <= above)
  }

  /** In a rising schedule no lookup pays less than the first bracket. */
  lemma {:induction false} LookupAtLeastFirst(brackets: seq<Bracket>, above: real, ratio: real)
    requires Rising(brackets, above)
    ensures brackets != [] ==> brackets[0].rate <= Lookup(brackets, above, ratio)
    ensures brackets == [] ==> Lookup(brackets, above, ratio) == above
  {
    if brackets != [] && ratio > brackets[0].upTo {
      var rest := brackets[1..];
      assert Rising(rest, above);
      LookupAtLeastFirst(rest, above, ratio);
    }
  }

  /** A rising schedule pays a larger ratio at least as much. */
  lemma {:induction false} LookupMonotone(brackets: seq<Bracket>, above: real, a: real, b: real)
    requires Rising(brackets, above)
    requires a <= b
    ensures Lookup(brackets, above, a) <= Lookup(brackets, above, b)
  {
    if brackets == [] {
    } else if a <= brackets[0].upTo {
      LookupAtLeastFirst(brackets, above, b);
    } else {
      var rest := brackets[1..];
      assert Rising(rest, above);
      LookupMonotone(rest, above, a, b);
    }
  }

  /** The coded rate table is exactly the bracket schedules. */
  lemma RateIsSchedule(role: string, ratio: real)
    ensures CommissionRate(role, ratio) == Lookup(ScheduleFor(role).brackets, ScheduleFor(role).above, ratio)
    ensures Rising(ScheduleFor(role).brackets, ScheduleFor(role).above)
  {
    var s := ScheduleFor(role);
    if s.brackets != [] {
      LookupOfThree(s.brackets[0], s.brackets[1], s.brackets[2], s.above, ratio);
      assert s.brackets == [s.brackets[0], s.brackets[1], s.brackets[2]];
    }
  }

  lemma LookupOfThree(b0: Bracket, b1: Bracket, b2: Bracket, above: real, ratio: real)
    ensures Lookup([b0, b1, b2], above, ratio) ==
      if ratio <= b0.upTo then b0.rate else if ratio <= b1.upTo then b1.rate
      else if ratio <= b2.upTo then b2.rate else above
  {
    assert [b2][1..] == [];
    assert Lookup([b2], above, ratio) == if ratio <= b2.upTo then b2.rate else above;
    assert [b1, b2][1..] == [b2];
    assert [b0, b1, b2][1..] == [b1, b2];
  }

  /** For a fixed role the rate never falls as the ratio rises. */
  lemma RateMonotone(role: string, a: real, b: real)
    requires a <= b
    ensures CommissionRate(role, a) <= CommissionRate(role, b)
  {
    RateIsSchedule(role, a);
    RateIsSchedule(role, b);
    LookupMonotone(ScheduleFor(role).brackets, ScheduleFor(role).above, a, b);
  }

  /** Each role's brackets, with the upper bound inclusive. */
  lemma RateBrackets(ratio: real)
    ensures CommissionRate(SalesRep, ratio) ==
      if ratio <= 0.5 then 0.01 else if ratio <= 0.8 then 0.015 else if ratio <= 1.0 then 0.02 else 0.025
    ensures CommissionRate(TeamLeader, ratio) ==
      if ratio <= 0.5 then 0.005 else if ratio <= 0.8 then 0.0075 else if ratio <= 1.0 then 0.01 else 0.0125
    ensures CommissionRate(SalesManager, ratio) == 0.005
    ensures CommissionRate(SalesRep, 0.5) == 0.01 && CommissionRate(SalesRep, 1.0) == 0.02
  {
  }
}
