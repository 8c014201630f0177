/**
 * The achievement evaluator: a fixed catalogue of achievements, seeded into
 * an empty store, and a pass that unlocks every locked achievement whose
 * category rule holds, stamping it and emitting one notification for it.
 */
module Achievements {
  import opened Types
  import opened Days
  import opened Calendar

  /** The thirteen achievements a new store is seeded with, all locked. */
  function Catalogue(): (r: seq<Achievement>)
    ensures |r| == 13
    ensures forall a :: a in r ==> a.unlockedAt == None
    ensures forall i, j :: 0 <= i < j < |r| ==> r[i].id != r[j].id
  {
    [ Achievement("consecutive-3", "初露锋芒", "连续打卡3天", Consecutive, Easy, "i-carbon-sprout", 3, false, None),
      Achievement("consecutive-7", "坚持一周", "连续打卡7天", Consecutive, Easy, "i-carbon-growth", 7, false, None),
      Achievement("consecutive-14", "两周达人", "连续打卡14天", Consecutive, Medium, "i-carbon-tree", 14, false, None),
      Achievement("consecutive-30", "月度冠军", "连续打卡30天", Consecutive, Hard, "i-carbon-forest", 30, false, None),
      Achievement("consecutive-100", "百日不倒", "连续打卡100天", Consecutive, Expert, "i-carbon-mountain", 100, false, None),
      Achievement("cumulative-10", "初次体验", "累计打卡10次", Cumulative, Easy, "i-carbon-star", 10, false, None),
      Achievement("cumulative-50", "渐入佳境", "累计打卡50次", Cumulative, Medium, "i-carbon-star-half", 50, false, None),
      Achievement("cumulative-100", "百次里程", "累计打卡100次", Cumulative, Hard, "i-carbon-star-filled", 100, false, None),
      Achievement("cumulative-365", "年度达人", "累计打卡365次", Cumulative, Expert, "i-carbon-badge", 365, false, None),
      Achievement("specific-30days", "计划达成", "完成一个30天计划", Specific, Medium, "i-carbon-task-complete", 30, false, None),
      Achievement("special-new-year", "新年快乐", "在新年第一天打卡", Special, Easy, "i-carbon-celebration", 1, false, None),
      Achievement("special-birthday", "生日祝福", "在生日当天打卡", Special, Easy, "i-carbon-cake", 1, true, None),
      Achievement("active-week", "活跃达人", "连续一周每天都进行打卡", Active, Medium, "i-carbon-activity", 7, false, None) ]
  }

  /** What `initializeAchievements` leaves in the store: the catalogue if it was empty. */
  function Seeded(stored: seq<Achievement>): seq<Achievement>
  {
    if stored == [] then Catalogue() else stored
  }

  /** Seeding never leaves the store empty, keeps a non-empty store, and is idempotent. */
  lemma SeededIdempotent(stored: seq<Achievement>)
    ensures Seeded(stored) != []
    ensures stored != [] ==> Seeded(stored) == stored
    ensures Seeded(Seeded(stored)) == Seeded(stored)
  {
    assert |Catalogue()| == 13;
  }

  /** An achievement counts as locked when `unlockedAt` is falsy: absent or the empty string. */
  predicate IsLocked(a: Achievement)
  {
    a.unlockedAt == None || a.unlockedAt == Some("")
  }

  /** The number of check-ins recorded against plan `planId` (the source's `filter(c => c.planId === plan.id).length`). */
  function CountForPlan(checkIns: seq<CheckIn>, planId: string): nat
  {
    Count(checkIns, (c: CheckIn) => c.planId == planId)
  }

  /**
   * A plan is completed when it has an end date and at least as many
   * check-ins as whole days from its start date to its end date.
   */
  predicate PlanCompleted(p: Plan, checkIns: seq<CheckIn>)
  {
    p.endDate.Some? && CountForPlan(checkIns, p.id) >= p.endDate.value - p.startDate
  }

  /** The completed plans, in the order of `plans`. */
  function CompletedPlans(plans: seq<Plan>, checkIns: seq<CheckIn>): (r: seq<Plan>)
    ensures forall p :: p in r ==> p in plans && PlanCompleted(p, checkIns)
    ensures forall p :: p in plans && PlanCompleted(p, checkIns) ==> p in r
    ensures |r| > 0 <==> exists p :: p in plans && PlanCompleted(p, checkIns)
  {
    if plans == [] then []
    else
      var last := plans[|plans| - 1];
      assert forall p :: p in plans ==> p in plans[..|plans| - 1] || p == last;
      CompletedPlans(plans[..|plans| - 1], checkIns) + (if PlanCompleted(last, checkIns) then [last] else [])
  }

  /** The inputs every category rule reads, computed once per evaluation. */
  datatype Facts = Facts(
    streak: nat,
    distinctDays: nat,
    planCompleted: bool,
    newYearCheckIn: bool,
    activeWeek: bool)

  /** The facts derived from the check-ins and plans on day `today`. */
  function FactsOf(checkIns: seq<CheckIn>, plans: seq<Plan>, today: Day): Facts
  {
    var dates := DateSet(checkIns);
    Facts(
      Streak(dates, today),
      |dates|,
      |CompletedPlans(plans, checkIns)| > 0,
      IsNewYearsDay(today) && today in dates,
      RunEndingAt(dates, today, 7))
  }

  /** The unlock rule of each category; special and active achievements unlock only under fixed ids. */
  predicate Qualifies(a: Achievement, f: Facts)
  {
    match a.category
    case Consecutive => f.streak >= a.requirement
    case Cumulative => f.distinctDays >= a.requirement
    case Specific => f.planCompleted
    case Special => a.id == "special-new-year" && f.newYearCheckIn
    case Active => a.id == "active-week" && f.activeWeek
  }

  predicate Unlocks(a: Achievement, f: Facts)
  {
    IsLocked(a) && Qualifies(a, f)
  }

  /** One achievement after its category's pass. */
  function Unlock(a: Achievement, f: Facts, stamp: string): Achievement
  {
    if Unlocks(a, f) then a.(unlockedAt := Some(stamp)) else a
  }

  /** One achievement after the pass over category `cat`, which leaves other categories alone. */
  function UnlockIn(a: Achievement, cat: Category, f: Facts, stamp: string): Achievement
  {
    if a.category == cat then Unlock(a, f, stamp) else a
  }

  /**
   * The stored list after a whole evaluation: same length and order, only
   * `unlockedAt` changes, an unlocked achievement stays as it was, and a
   * special or active achievement without a rule of its own never changes.
   */
  function Evaluated(achievements: seq<Achievement>, f: Facts, stamp: string): (r: seq<Achievement>)
    ensures |r| == |achievements|
    ensures forall j :: 0 <= j < |r| ==> r[j] == achievements[j].(unlockedAt := r[j].unlockedAt)
    ensures forall j :: 0 <= j < |r| && !IsLocked(achievements[j]) ==> r[j] == achievements[j]
    ensures forall j :: 0 <= j < |r| && achievements[j].category == Special && achievements[j].id != "special-new-year" ==> r[j] == achievements[j]
    ensures forall j :: 0 <= j < |r| && achievements[j].category == Active && achievements[j].id != "active-week" ==> r[j] == achievements[j]
    ensures forall j :: 0 <= j < |r| && Unlocks(achievements[j], f) ==> r[j].unlockedAt == Some(stamp)
    ensures forall j :: 0 <= j < |r| && !Unlocks(achievements[j], f) ==> r[j] == achievements[j]
    ensures stamp != "" ==> forall j :: 0 <= j < |r| ==> (IsLocked(achievements[j]) && !IsLocked(r[j]) <==> Unlocks(achievements[j], f))
  {
    seq(|achievements|, j requires 0 <= j < |achievements| => Unlock(achievements[j], f, stamp))
  }

  /** The ids notified by the pass over category `cat`, in list order. */
  function Notices(achievements: seq<Achievement>, cat: Category, f: Facts): (ids: seq<string>)
    ensures |ids| <= |achievements|
  {
    if achievements == [] then []
    else
      var a := achievements[|achievements| - 1];
      Notices(achievements[..|achievements| - 1], cat, f) + (if a.category == cat && Unlocks(a, f) then [a.id] else [])
  }

  /** All ids notified by one evaluation: the five category passes in the order the evaluator runs them. */
  function Notifications(achievements: seq<Achievement>, f: Facts): seq<string>
  {
    Notices(achievements, Consecutive, f) + Notices(achievements, Cumulative, f) + Notices(achievements, Specific, f)
      + Notices(achievements, Special, f) + Notices(achievements, Active, f)
  }

  /** The ids of the achievements that went from locked to unlocked between two versions of the list. */
  function NewlyUnlocked(before: seq<Achievement>, after: seq<Achievement>): seq<string>
    requires |before| == |after|
  {
    if before == [] then []
    else
      var n := |before| - 1;
      NewlyUnlocked(before[..n], after[..n]) + (if IsLocked(before[n]) && !IsLocked(after[n]) then [before[n].id] else [])
  }

  /** A category pass only depends on the achievements of its own category. */
  lemma {:induction false} NoticesFrame(l1: seq<Achievement>, l2: seq<Achievement>, cat: Category, f: Facts)
    requires |l1| == |l2|
    requires forall j :: 0 <= j < |l1| && (l1[j].category == cat || l2[j].category == cat) ==> l1[j] == l2[j]
    ensures Notices(l1, cat, f) == Notices(l2, cat, f)
  {
    if l1 != [] {
      var n := |l1| - 1;
      NoticesFrame(l1[..n], l2[..n], cat, f);
    }
  }

  /** No pass notifies anything when nothing in the list unlocks. */
  lemma {:induction false} NoticesNone(l: seq<Achievement>, cat: Category, f: Facts)
    requires forall j :: 0 <= j < |l| ==> !Unlocks(l[j], f)
    ensures Notices(l, cat, f) == []
  {
    if l != [] {
      NoticesNone(l[..|l| - 1], cat, f);
    }
  }

  /** The ids of the achievements of category `cat` that went from locked to unlocked between two versions of the list. */
  function NewlyUnlockedIn(before: seq<Achievement>, after: seq<Achievement>, cat: Category): seq<string>
    requires |before| == |after|
  {
    if before == [] then []
    else
      var n := |before| - 1;
      NewlyUnlockedIn(before[..n], after[..n], cat)
        + (if before[n].category == cat && IsLocked(before[n]) && !IsLocked(after[n]) then [before[n].id] else [])
  }

  /**
   * The pass over a category notifies exactly the achievements of that
   * category that the evaluation moves from locked to unlocked, in list order.
   */
  lemma {:induction false} NoticesAreNewUnlocks(l: seq<Achievement>, cat: Category, f: Facts, stamp: string)
    requires stamp != ""
    ensures Notices(l, cat, f) == NewlyUnlockedIn(l, Evaluated(l, f, stamp), cat)
  {
    if l != [] {
      var n := |l| - 1;
      assert Evaluated(l, f, stamp)[..n] == Evaluated(l[..n], f, stamp);
      NoticesAreNewUnlocks(l[..n], cat, f, stamp);
    }
  }

  /** Every transition from locked to unlocked is in exactly one category. */
  lemma {:induction false} NewUnlocksByCategory(before: seq<Achievement>, after: seq<Achievement>)
    requires |before| == |after|
    ensures |NewlyUnlocked(before, after)|
      == |NewlyUnlockedIn(before, after, Consecutive)| + |NewlyUnlockedIn(before, after, Cumulative)|
       + |NewlyUnlockedIn(before, after, Specific)| + |NewlyUnlockedIn(before, after, Special)|
       + |NewlyUnlockedIn(before, after, Active)|
  {
    if before != [] {
      var n := |before| - 1;
      NewUnlocksByCategory(before[..n], after[..n]);
    }
  }

  /**
   * Exactly one notification is emitted per achievement that goes from
   * locked to unlocked: the notifications are the new unlocks grouped by
   * category in pass order, and there are as many as there are new unlocks.
   */
  lemma NotificationsAreNewUnlocks(l: seq<Achievement>, f: Facts, stamp: string)
    requires stamp != ""
    ensures var r := Evaluated(l, f, stamp);
      Notifications(l, f)
        == NewlyUnlockedIn(l, r, Consecutive) + NewlyUnlockedIn(l, r, Cumulative) + NewlyUnlockedIn(l, r, Specific)
         + NewlyUnlockedIn(l, r, Special) + NewlyUnlockedIn(l, r, Active)
    ensures |Notifications(l, f)| == |NewlyUnlocked(l, Evaluated(l, f, stamp))|
  {
    NoticesAreNewUnlocks(l, Consecutive, f, stamp);
    NoticesAreNewUnlocks(l, Cumulative, f, stamp);
    NoticesAreNewUnlocks(l, Specific, f, stamp);
    NoticesAreNewUnlocks(l, Special, f, stamp);
    NoticesAreNewUnlocks(l, Active, f, stamp);
    NewUnlocksByCategory(l, Evaluated(l, f, stamp));
  }

  /**
   * Running the evaluation a second time on the same facts changes nothing
   * and notifies nothing, whatever its timestamp.
   */
  lemma SecondEvaluationIsNoOp(l: seq<Achievement>, f: Facts, stamp: string, stamp2: string)
    requires stamp != ""
    ensures Evaluated(Evaluated(l, f, stamp), f, stamp2) == Evaluated(l, f, stamp)
    ensures Notifications(Evaluated(l, f, stamp), f) == []
  {
    var r := Evaluated(l, f, stamp);
    assert forall j :: 0 <= j < |r| ==> !Unlocks(r[j], f);
    NoticesNone(r, Consecutive, f);
    NoticesNone(r, Cumulative, f);
    NoticesNone(r, Specific, f);
    NoticesNone(r, Special, f);
    NoticesNone(r, Active, f);
  }

  /**
   * A consecutive achievement unlocks exactly when it is locked and every
   * one of the `requirement` days ending today has a check-in.
   */
  lemma ConsecutiveRule(a: Achievement, checkIns: seq<CheckIn>, plans: seq<Plan>, today: Day)
    requires a.category == Consecutive && a.requirement >= 0
    ensures Unlocks(a, FactsOf(checkIns, plans, today)) <==> IsLocked(a) && RunEndingAt(DateSet(checkIns), today, a.requirement)
  {
    RunIffStreakAtLeast(DateSet(checkIns), today, a.requirement);
  }

  /** The active-week rule holds exactly when the streak is at least seven days. */
  lemma ActiveWeekIffStreakOfSeven(checkIns: seq<CheckIn>, plans: seq<Plan>, today: Day)
    ensures FactsOf(checkIns, plans, today).activeWeek <==> FactsOf(checkIns, plans, today).streak >= 7
  {
    RunIffStreakAtLeast(DateSet(checkIns), today, 7);
  }

  /**
   * A cumulative achievement counts distinct dates: a further check-in on a
   * day that already has one changes no rule's input.
   */
  lemma CumulativeCountsDistinctDates(checkIns: seq<CheckIn>, c: CheckIn, plans: seq<Plan>, today: Day)
    requires c.date in DateSet(checkIns)
    ensures FactsOf(checkIns + [c], plans, today).distinctDays == FactsOf(checkIns, plans, today).distinctDays
    ensures FactsOf(checkIns + [c], plans, today).streak == FactsOf(checkIns, plans, today).streak
  {
    assert (checkIns + [c])[..|checkIns|] == checkIns;
    assert DateSet(checkIns + [c]) == DateSet(checkIns);
  }

  /**
   * A plan running from day `s` to day `s + 29` (the 1st to the 30th of a
   * month) is completed by 29 check-ins: the span is not inclusive.
   */
  lemma ThirtyDayPlanNeedsTwentyNine(p: Plan, checkIns: seq<CheckIn>)
    requires p.endDate == Some(p.startDate + 29)
    ensures PlanCompleted(p, checkIns) <==> CountForPlan(checkIns, p.id) >= 29
  {
  }

  /**
   * Five category passes, one per category in any fixed order of the
   * evaluator, together amount to one evaluation of the whole list.
   */
  lemma FivePasses(a0: seq<Achievement>, a1: seq<Achievement>, a2: seq<Achievement>, a3: seq<Achievement>,
                   a4: seq<Achievement>, a5: seq<Achievement>, f: Facts, stamp: string)
    requires |a0| == |a1| == |a2| == |a3| == |a4| == |a5|
    requires forall j :: 0 <= j < |a1| ==> a1[j] == UnlockIn(a0[j], Consecutive, f, stamp)
    requires forall j :: 0 <= j < |a2| ==> a2[j] == UnlockIn(a1[j], Cumulative, f, stamp)
    requires forall j :: 0 <= j < |a3| ==> a3[j] == UnlockIn(a2[j], Specific, f, stamp)
    requires forall j :: 0 <= j < |a4| ==> a4[j] == UnlockIn(a3[j], Special, f, stamp)
    requires forall j :: 0 <= j < |a5| ==> a5[j] == UnlockIn(a4[j], Active, f, stamp)
    ensures a5 == Evaluated(a0, f, stamp)
    ensures Notices(a1, Cumulative, f) == Notices(a0, Cumulative, f)
    ensures Notices(a2, Specific, f) == Notices(a0, Specific, f)
    ensures Notices(a3, Special, f) == Notices(a0, Special, f)
    ensures Notices(a4, Active, f) == Notices(a0, Active, f)
  {
    forall j | 0 <= j < |a0|
      ensures a5[j] == Unlock(a0[j], f, stamp)
      ensures a1[j].category == a2[j].category == a3[j].category == a4[j].category == a0[j].category
      ensures a0[j].category != Consecutive ==> a1[j] == a0[j]
      ensures a0[j].category !in {Consecutive, Cumulative} ==> a2[j] == a0[j]
      ensures a0[j].category in {Special, Active} ==> a3[j] == a0[j]
      ensures a0[j].category == Active ==> a4[j] == a0[j]
    {
      PassesOnOne(a0[j], a1[j], a2[j], a3[j], a4[j], a5[j], f, stamp);
    }
    var r := Evaluated(a0, f, stamp);
    assert forall j :: 0 <= j < |r| ==> r[j] == Unlock(a0[j], f, stamp);
    assert a5 == r;
    NoticesFrame(a1, a0, Cumulative, f);
    NoticesFrame(a2, a0, Specific, f);
    NoticesFrame(a3, a0, Special, f);
    NoticesFrame(a4, a0, Active, f);
  }

  /** The five passes on one achievement: only the pass of its own category can change it. */
  lemma PassesOnOne(x0: Achievement, x1: Achievement, x2: Achievement, x3: Achievement, x4: Achievement,
                    x5: Achievement, f: Facts, stamp: string)
    requires x1 == UnlockIn(x0, Consecutive, f, stamp) && x2 == UnlockIn(x1, Cumulative, f, stamp)
    requires x3 == UnlockIn(x2, Specific, f, stamp) && x4 == UnlockIn(x3, Special, f, stamp)
    requires x5 == UnlockIn(x4, Active, f, stamp)
    ensures x5 == Unlock(x0, f, stamp)
    ensures x1.category == x2.category == x3.category == x4.category == x0.category
    ensures x0.category != Consecutive ==> x1 == x0
    ensures x0.category !in {Consecutive, Cumulative} ==> x2 == x0
    ensures x0.category in {Special, Active} ==> x3 == x0
    ensures x0.category == Active ==> x4 == x0
  {
  }

  /** The checks of `active-week`: each of the seven days ending today has a check-in. */
  method ActiveWeek(dates: set<Day>, today: Day) returns (isActive: bool)
    ensures isActive <==> RunEndingAt(dates, today, 7)
  {
    isActive := true;
    for i := 0 to 7
      invariant isActive
      invariant RunEndingAt(dates, today, i)
    {
      if today - i !in dates {
        isActive := false;
        break;
      }
    }
  }

  /** The stored achievement list. */
  class AchievementStore {
    var achievements: seq<Achievement>

    constructor (stored: seq<Achievement>)
      ensures achievements == stored
    {
      achievements := stored;
    }

    /** Seeds the catalogue into an empty store. */
    method Initialize()
      modifies this
      ensures achievements == Seeded(old(achievements))
    {
      if |achievements| == 0 {
        achievements := Catalogue();
      }
    }

    /** One category pass: stamps each locked achievement of `cat` whose rule holds. */
    method UnlockCategory(cat: Category, f: Facts, stamp: string) returns (ids: seq<string>)
      requires stamp != ""
      modifies this
      ensures |achievements| == |old(achievements)|
      ensures forall j :: 0 <= j < |achievements| ==> achievements[j] == UnlockIn(old(achievements)[j], cat, f, stamp)
      ensures ids == Notices(old(achievements), cat, f)
    {
      ids := [];
      var i := 0;
      while i < |achievements|
        invariant 0 <= i <= |achievements| == |old(achievements)|
        invariant forall j :: 0 <= j < i ==> achievements[j] == UnlockIn(old(achievements)[j], cat, f, stamp)
        invariant forall j :: i <= j < |achievements| ==> achievements[j] == old(achievements)[j]
        invariant ids == Notices(old(achievements)[..i], cat, f)
      {
        var a := achievements[i];
        if a.category == cat && IsLocked(a) && Qualifies(a, f) {
          achievements := achievements[i := a.(unlockedAt := Some(stamp))];
          ids := ids + [a.id];
        }
        assert old(achievements)[..i + 1][..i] == old(achievements)[..i];
        i := i + 1;
      }
      assert old(achievements)[..i] == old(achievements);
    }

    /**
     * Evaluates every achievement against the check-ins and plans on day
     * `today`, stamping new unlocks with `stamp`; returns the ids notified.
     */
    method CheckAchievements(checkIns: seq<CheckIn>, plans: seq<Plan>, today: Day, stamp: string)
      returns (notified: seq<string>)
      requires stamp != ""
      modifies this
      ensures achievements == Evaluated(old(achievements), FactsOf(checkIns, plans, today), stamp)
      ensures notified == Notifications(old(achievements), FactsOf(checkIns, plans, today))
    {
      var dates := DateSet(checkIns);
      var streak := CurrentStreak(dates, today);
      var total := |dates|;
      var completed := CompletedPlans(plans, checkIns);
      var newYear := IsNewYearsDay(today) && today in dates;
      var active := ActiveWeek(dates, today);
      var f := Facts(streak, total, |completed| > 0, newYear, active);
      assert f == FactsOf(checkIns, plans, today);

      ghost var a0 := achievements;
      var consecutive := UnlockCategory(Consecutive, f, stamp);
      ghost var a1 := achievements;
      var cumulative := UnlockCategory(Cumulative, f, stamp);
      ghost var a2 := achievements;
      var specific := UnlockCategory(Specific, f, stamp);
      ghost var a3 := achievements;
      var special := UnlockCategory(Special, f, stamp);
      ghost var a4 := achievements;
      var activeIds := UnlockCategory(Active, f, stamp);
      notified := consecutive + cumulative + specific + special + activeIds;

      ghost var a5 := achievements;
      FivePasses(a0, a1, a2, a3, a4, a5, f, stamp);
    }
  }
}
