# Daily persistence: achievement evaluator and statistics aggregator

This project models the derived-state engine of a browser habit tracker. Users keep plans and log daily
check-ins. From the stored check-ins and plans, the engine does two things:

- **Achievement evaluator** (`Achievements`). A fixed catalogue of thirteen achievements is seeded
  into an empty store. Each evaluation unlocks every locked achievement whose category rule holds,
  stamps its `unlockedAt`, and emits one notification for it. The rules are:
  - consecutive: the current streak reaches the requirement;
  - cumulative: the number of distinct check-in dates reaches the requirement;
  - specific: any plan is completed;
  - special: `special-new-year` only;
  - active: `active-week` only.
- **Statistics aggregator** (`Statistics`). It recomputes the statistics record field by field:
  - the number of distinct dates;
  - the streak, and the longest streak as a running maximum;
  - the mood histogram;
  - the trailing 7-day and 30-day activity counts.

  It also builds a 30-day trend, a 365-day heatmap and two projections of the record.

Calendar dates are whole day numbers counted from 1970-01-01 in UTC. "Today" is a parameter.
Going back one day is `today - 1`. The date text `YYYY-MM-DD` is only needed for the New Year test,
which `Calendar.CivilFromDays` computes. The timestamp the source stamps (`now.toISOString()`) is an
opaque, non-empty `stamp` string. The stored collections are plain parameters (check-ins, plans) or
class fields:
- `Achievements.AchievementStore.achievements` is the stored list; the evaluator updates it in place.
- The fields of `Statistics.StatisticsStore` are those of the stored statistics record.

`Days` holds the date computations that both core files repeat: the set of distinct dates, the count
on one day and the streak loop. The source sorts the distinct dates, but the order never affects a
result, so they are a `set`. The mood histogram is an association list in order of first occurrence,
which is the key order a JavaScript object has. The notification is returned as the list of
achievement ids notified, in the order the evaluator runs its passes: consecutive, cumulative,
specific, special, active.

In two places the code behaves otherwise than a reader might expect, and the model follows the code:
- **Plan span.** A plan's span is `end - start` whole days. It is not the inclusive span that the
  description of `specific-30days` ("complete a 30-day plan") suggests. A plan from the 1st to the
  30th of a month is completed by 29 check-ins (`ThirtyDayPlanNeedsTwentyNine`). A plan whose end is
  not after its start is completed with no check-ins.
- **Empty timestamp.** An achievement is locked when `unlockedAt` is falsy, which means absent or
  the empty string (`IsLocked`).

## Model

| member | source | states |
|---|---|---|
| Calendar.CivilFromDays | src/composables/achievements.ts:161 | the ISO calendar date of a day number has a month in 1..12 and a day in 1..31 |
| Calendar.NewYear2024 | src/composables/achievements.ts:224 | day 19723 is 2024-01-01 and passes the `-01-01` test |
| Calendar.NewYearsEve2023 | src/composables/achievements.ts:224 | day 19722 is 2023-12-31 and fails the `-01-01` test |
| Days.DateSet | src/composables/achievements.ts:164 | the distinct check-in dates: every check-in's date is in it, each member is some check-in's date, and there are no more dates than check-ins |
| Days.CountOnPositive | src/composables/statistics.ts:49 | a day has at least one check-in exactly when it is one of the distinct check-in dates |
| Days.Streak | src/composables/achievements.ts:166-176 | the streak is at most the number of distinct dates, and is 0 exactly when today has no check-in, whatever the earlier history |
| Days.StreakIsMaximalRun | src/composables/achievements.ts:166-176 | every day from today back through the streak's length has a check-in, and the day just before that run has none |
| Days.RunIffStreakAtLeast | src/composables/achievements.ts:166-176 | k consecutive check-in days end today exactly when the streak is at least k, so the streak is the largest such k |
| Days.StreakUnique | src/composables/achievements.ts:166-176 | an unbroken run of N days ending today, preceded by a day without a check-in, makes the streak exactly N |
| Days.CurrentStreak | src/composables/achievements.ts:167-176 | the backward walk from today, which stops at the first day without a check-in, returns the streak (the loop in statistics.ts:19-28 is the same) |
| Achievements.Catalogue | src/composables/achievements.ts:5-145 | the catalogue has thirteen achievements, all locked, with distinct ids |
| Achievements.SeededIdempotent | src/composables/achievements.ts:148-152 | seeding puts the catalogue in an empty store, leaves a non-empty store as it is, and seeding twice is seeding once |
| Achievements.AchievementStore.Initialize | src/composables/achievements.ts:148-152 | the store afterwards is the catalogue if it was empty, and unchanged otherwise |
| Days.Count | src/composables/achievements.ts:201 | a `filter(...).length` count is the number of positions whose check-in satisfies the condition; the per-plan count used here, the per-day count of statistics.ts:49, the mood count and the window count are all this count with their own condition |
| Achievements.CompletedPlans | src/composables/achievements.ts:198-207 | exactly the plans that have an end date and at least end-minus-start check-ins are kept, and the result is non-empty exactly when some plan is completed |
| Achievements.ThirtyDayPlanNeedsTwentyNine | src/composables/achievements.ts:202-206 | a plan whose end is 29 days after its start is completed exactly when it has at least 29 check-ins |
| Achievements.Evaluated | src/composables/achievements.ts:179-257 | after an evaluation the list has the same length and order, only `unlockedAt` may change, an unlocked achievement is unchanged, an achievement whose rule unlocks it gets the evaluation's timestamp and every other one is left as it was, special ids other than `special-new-year` and active ids other than `active-week` never change, and an achievement goes from locked to unlocked exactly when it was locked and its category rule holds |
| Achievements.ConsecutiveRule | src/composables/achievements.ts:179-185 | a consecutive achievement unlocks exactly when it is locked and each of its `requirement` days ending today has a check-in |
| Achievements.CumulativeCountsDistinctDates | src/composables/achievements.ts:187-195 | another check-in on a day that already has one changes neither the distinct-day count used by cumulative achievements nor the streak |
| Achievements.ActiveWeekIffStreakOfSeven | src/composables/achievements.ts:239-250 | the active-week condition holds exactly when the streak is at least seven days |
| Achievements.ActiveWeek | src/composables/achievements.ts:240-250 | the seven-day check with early exit returns true exactly when each of today, today-1, ..., today-6 has a check-in |
| Achievements.NoticesAreNewUnlocks | src/composables/achievements.ts:180-184 | a category pass notifies exactly the achievements of that category that went from locked to unlocked, in list order |
| Achievements.NotificationsAreNewUnlocks | src/composables/achievements.ts:179-257 | the notifications of an evaluation are the new unlocks grouped by pass, and there is exactly one per achievement that went from locked to unlocked |
| Achievements.SecondEvaluationIsNoOp | src/composables/achievements.ts:181-257 | a second evaluation on the same inputs changes nothing and notifies nothing, whatever its timestamp |
| Achievements.FivePasses | src/composables/achievements.ts:178-257 | the five category passes, run one after another, amount to one evaluation of the whole list, and each pass notifies what it would notify on the list as stored before the evaluation |
| Achievements.AchievementStore.UnlockCategory | src/composables/achievements.ts:179-185 | a pass stamps each locked achievement of its category whose rule holds, leaves every other entry as it was, and returns the ids it stamped |
| Achievements.AchievementStore.CheckAchievements | src/composables/achievements.ts:155-258 | the stored list afterwards is the evaluation of the old list on the facts of the check-ins, plans and today, and the ids returned are that evaluation's notifications |
| Statistics.HistogramIsMoodCount | src/composables/statistics.ts:37-41 | the histogram's keys are distinct and are exactly the moods that occur; each key maps to the number of check-ins with that mood, and the counts add up to the number of check-ins |
| Statistics.MoodHistogram | src/composables/statistics.ts:37-40 | the loop over the check-ins builds the mood histogram |
| Statistics.WindowSum | src/composables/statistics.ts:44-61 | a trailing window of n per-day counts ending today adds up to the number of check-ins dated from today-n+1 through today |
| Statistics.TrailingWindow | src/composables/statistics.ts:44-50 | the window has n entries and entry i is the number of check-ins dated today-i, so entry 0 is today's count |
| Statistics.CheckInTrend | src/composables/statistics.ts:90-108 | the trend has 30 dates and 30 counts, oldest first: date j is today-(29-j) and count j is the number of check-ins on it |
| Statistics.HeatmapData | src/composables/statistics.ts:111-125 | the heatmap has 365 entries, oldest first: entry j is day today-(364-j) with its number of check-ins |
| Statistics.NextLongest | src/composables/statistics.ts:33-34 | the longest streak after an update is at least both the stored longest streak and the current streak, and is one of them |
| Statistics.LongestIsRunningMax | src/composables/statistics.ts:33-34 | over any series of updates the longest streak never decreases, is at least every streak seen, and is either its starting value or one of those streaks |
| Statistics.StatisticsStore.constructor | src/composables/storage.ts:75-83 | the default record has zero totals and streaks, no moods, and all-zero activity arrays of lengths 7 and 30 |
| Statistics.StatisticsStore.UpdateStatistics | src/composables/statistics.ts:5-62 | the record afterwards holds the distinct-day count, the streak, the running maximum of the longest streak, the mood histogram, and the weekly and monthly windows; its `achievements` field is unchanged |
| Statistics.Slices | src/composables/statistics.ts:65-79 | the mood chart has one slice per histogram entry, in the same order: the name is the label of the five known moods and the raw key otherwise, and the count is unchanged |
| Statistics.MoodChartOfHistogram | src/composables/statistics.ts:65-79 | the chart of a freshly computed histogram has one slice per distinct mood, each slice's value is that mood's number of check-ins, and the values add up to the number of check-ins |
| Statistics.ActivityDataAfterUpdate | src/composables/statistics.ts:82-87 | after an update the weekly data has 7 entries and the monthly data 30, entry i of either is the number of check-ins dated today-i, and the weekly data is the first week of the monthly data |

## Left out

- Calendar.CivilFromDays: only its month and day ranges and two worked days (2024-01-01 and 2023-12-31) are proved. Its agreement with the Gregorian calendar for every day number is not proved, because that needs non-linear arithmetic over whole 400-year eras.
- The browser notification is left out: the permission request, the title and body text, and the icon. A notification is modelled only as the id returned by `CheckAchievements`.
- Browser storage is left out: reading and writing `localStorage`, JSON parsing with its fallback to defaults, and the reactive write-back on every change. Collections are parameters or class fields.
- Real calendar and time-zone arithmetic is abstracted. This covers UTC `toISOString` against local `setDate`, daylight saving, and the millisecond division and `ceil` of the plan span. Dates are whole day numbers, and stepping back a day subtracts one.
- Date strings that fail to parse are not modelled. In the source such a plan span is NaN, and such a plan is never completed.
- Moods that name members of JavaScript's object prototype (`constructor`, `toString`, `__proto__`) are not modelled. Neither is the rule that integer-like keys are listed first. Both change how the source's plain objects count and order mood keys.
- The source checks the seven days of `active-week` inside that achievement's pass, once per matching achievement. The model checks them once per evaluation. The result is the same.
- Statistics.StatisticsStore.MoodDistribution and Statistics.StatisticsStore.ActivityData carry no contract of their own. What they return is stated by Statistics.Slices, Statistics.MoodChartOfHistogram and Statistics.ActivityDataAfterUpdate.
- User settings, id generation, time formatting, localisation loading, the toast wrappers and the CSS configuration have no part in the derived state and are not modelled.
