/**
 * The date computations that the achievement evaluator and the statistics
 * aggregator share: the set of distinct check-in dates, the number of
 * check-ins on one day, and the current streak ending today.
 */
module Days {
  import opened Types

  /** The distinct dates of the check-ins (the source's `new Set(checkIns.map(c => c.date))`). */
  function DateSet(checkIns: seq<CheckIn>): (dates: set<Day>)
    ensures |dates| <= |checkIns|
    ensures forall c :: c in checkIns ==> c.date in dates
    ensures forall d :: d in dates ==> exists c :: c in checkIns && c.date == d
  {
    if checkIns == [] then {}
    else
      var last := checkIns[|checkIns| - 1];
      assert forall c :: c in checkIns ==> c in checkIns[..|checkIns| - 1] || c == last;
      DateSet(checkIns[..|checkIns| - 1]) + {last.date}
  }

  /**
   * The number of check-ins that satisfy `p` (the source's
   * `filter(p).length`): the number of positions whose check-in satisfies it.
   */
  function Count(checkIns: seq<CheckIn>, p: CheckIn -> bool): (n: nat)
    ensures n == |set i | 0 <= i < |checkIns| && p(checkIns[i])|
  {
    if checkIns == [] then 0
    else
      var k := |checkIns| - 1;
      var front := checkIns[..k];
      var before := set i | 0 <= i < k && p(front[i]);
      assert k !in before;
      assert (set i | 0 <= i < |checkIns| && p(checkIns[i])) == before + (if p(checkIns[k]) then {k} else {});
      Count(front, p) + (if p(checkIns[k]) then 1 else 0)
  }

  /** The number of check-ins dated `d` (the source's `filter(c => c.date === dateStr).length`). */
  function CountOn(checkIns: seq<CheckIn>, d: Day): nat
  {
    Count(checkIns, (c: CheckIn) => c.date == d)
  }

  /** A day has check-ins exactly when it is one of the distinct check-in dates. */
  lemma {:induction false} CountOnPositive(checkIns: seq<CheckIn>, d: Day)
    ensures CountOn(checkIns, d) > 0 <==> d in DateSet(checkIns)
  {
    if checkIns != [] {
      CountOnPositive(checkIns[..|checkIns| - 1], d);
    }
  }

  /** Every one of the `k` days `today`, `today - 1`, ..., `today - (k - 1)` is a check-in date. */
  predicate RunEndingAt(dates: set<Day>, today: Day, k: nat)
  {
    forall d :: today - k < d <= today ==> d in dates
  }

  /**
   * The current streak: the number of consecutive check-in dates counted
   * back from `today` until the first day without a check-in.
   */
  function Streak(dates: set<Day>, today: Day): (k: nat)
    ensures k <= |dates|
    ensures k == 0 <==> today !in dates
    decreases |dates|
  {
    if today in dates then 1 + Streak(dates - {today}, today - 1) else 0
  }

  /** The streak is a run ending today, and the day just before it has no check-in. */
  lemma {:induction false} StreakIsMaximalRun(dates: set<Day>, today: Day)
    ensures RunEndingAt(dates, today, Streak(dates, today))
    ensures today - Streak(dates, today) !in dates
    decreases |dates|
  {
    if today in dates {
      var rest := dates - {today};
      StreakIsMaximalRun(rest, today - 1);
      var k := Streak(rest, today - 1);
      assert RunEndingAt(rest, today - 1, k);
      forall d | today - (k + 1) < d <= today
        ensures d in dates
      {
        if d != today {
          assert d in rest;
        }
      }
      assert today - (k + 1) == (today - 1) - k;
    }
  }

  /** A run of `k` days ends today exactly when the streak is at least `k`. */
  lemma RunIffStreakAtLeast(dates: set<Day>, today: Day, k: nat)
    ensures RunEndingAt(dates, today, k) <==> k <= Streak(dates, today)
  {
    StreakIsMaximalRun(dates, today);
  }

  /** A run of `k` days ending today that is preceded by a gap is the streak. */
  lemma StreakUnique(dates: set<Day>, today: Day, k: nat)
    requires RunEndingAt(dates, today, k)
    requires today - k !in dates
    ensures Streak(dates, today) == k
  {
    RunIffStreakAtLeast(dates, today, k);
    StreakIsMaximalRun(dates, today);
  }

  /**
   * The streak loop: from today, step back one day at a time while the
   * day is a check-in date.
   */
  method CurrentStreak(dates: set<Day>, today: Day) returns (k: nat)
    ensures k == Streak(dates, today)
  {
    k := 0;
    var cursor := today;
    while cursor in dates
      invariant cursor == today - k
      invariant RunEndingAt(dates, today, k)
      invariant k <= Streak(dates, today)
      decreases Streak(dates, today) - k
    {
      k := k + 1;
      cursor := cursor - 1;
      RunIffStreakAtLeast(dates, today, k);
    }
    StreakUnique(dates, today, k);
  }
}
