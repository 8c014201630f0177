/**
 * The statistics aggregator: a record recomputed from the check-ins on
 * every update (distinct days, streaks, mood histogram, trailing 7- and
 * 30-day activity), and read-only views over the check-ins (30-day trend,
 * 365-day heatmap) and over the record (mood slices, activity arrays).
 */
module Statistics {
  import opened Types
  import opened Days

  /** One entry of the mood histogram: a mood and the number of check-ins with it. */
  datatype MoodCount = MoodCount(mood: string, count: nat)

  /** One slice of the mood chart: a display name and a count. */
  datatype MoodSlice = MoodSlice(name: string, value: nat)

  datatype ActivityKind = Weekly | Monthly

  /** The number of check-ins with mood `mood`. */
  function CountMood(checkIns: seq<CheckIn>, mood: string): nat
  {
    Count(checkIns, (c: CheckIn) => c.mood == mood)
  }

  /** The moods that occur among the check-ins. */
  function MoodSet(checkIns: seq<CheckIn>): set<string>
  {
    set c | c in checkIns :: c.mood
  }

  /** The keys of a histogram, in insertion order. */
  function Keys(h: seq<MoodCount>): (ks: seq<string>)
    ensures |ks| == |h|
    ensures forall j :: 0 <= j < |h| ==> ks[j] == h[j].mood
  {
    if h == [] then [] else [h[0].mood] + Keys(h[1..])
  }

  predicate DistinctKeys(h: seq<MoodCount>)
  {
    forall i, j :: 0 <= i < j < |h| ==> h[i].mood != h[j].mood
  }

  /** The count stored under `mood`, or 0 when it is absent (the source's `moodCounts[mood] || 0`). */
  function Lookup(h: seq<MoodCount>, mood: string): nat
  {
    if h == [] then 0
    else if h[0].mood == mood then h[0].count
    else Lookup(h[1..], mood)
  }

  /** The sum of the counts of a histogram. */
  function Total(h: seq<MoodCount>): nat
  {
    if h == [] then 0 else h[0].count + Total(h[1..])
  }

  /** Adds one check-in with mood `mood`: increments its entry, or appends a new entry with count 1. */
  function Bump(h: seq<MoodCount>, mood: string): seq<MoodCount>
  {
    if h == [] then [MoodCount(mood, 1)]
    else if h[0].mood == mood then [MoodCount(mood, h[0].count + 1)] + h[1..]
    else [h[0]] + Bump(h[1..], mood)
  }

  /** The histogram the source's `forEach` builds: one entry per mood, in order of first occurrence. */
  function Histogram(checkIns: seq<CheckIn>): seq<MoodCount>
  {
    if checkIns == [] then [] else Bump(Histogram(checkIns[..|checkIns| - 1]), checkIns[|checkIns| - 1].mood)
  }

  /** Adding a check-in adds its mood to the keys, and to nothing else. */
  lemma {:induction false} BumpKeys(h: seq<MoodCount>, mood: string)
    ensures forall m :: m in Keys(Bump(h, mood)) <==> m in Keys(h) || m == mood
  {
    if h != [] && h[0].mood != mood {
      BumpKeys(h[1..], mood);
    }
  }

  /** Adding a check-in keeps the keys distinct. */
  lemma {:induction false} BumpDistinct(h: seq<MoodCount>, mood: string)
    requires DistinctKeys(h)
    ensures DistinctKeys(Bump(h, mood))
  {
    if h != [] && h[0].mood != mood {
      var t := h[1..];
      var b := Bump(h, mood);
      BumpDistinct(t, mood);
      BumpKeys(t, mood);
      assert b[1..] == Bump(t, mood);
      forall j | 0 < j < |b| ensures b[0].mood != b[j].mood {
        assert b[j].mood == Keys(Bump(t, mood))[j - 1];
        if b[j].mood != mood {
          assert b[j].mood in Keys(t);
          var k :| 0 <= k < |t| && Keys(t)[k] == b[j].mood;
          assert h[k + 1].mood == b[j].mood;
        }
      }
    }
  }

  /** Adding a check-in raises its mood's count by one and leaves every other count alone. */
  lemma {:induction false} BumpLookup(h: seq<MoodCount>, mood: string, m: string)
    ensures Lookup(Bump(h, mood), m) == Lookup(h, m) + (if m == mood then 1 else 0)
  {
    if h != [] && h[0].mood != mood {
      BumpLookup(h[1..], mood, m);
    }
  }

  /** Adding a check-in adds one to the total. */
  lemma {:induction false} BumpTotal(h: seq<MoodCount>, mood: string)
    ensures Total(Bump(h, mood)) == Total(h) + 1
  {
    if h != [] && h[0].mood != mood {
      BumpTotal(h[1..], mood);
    }
  }

  /**
   * The histogram counts every mood exactly: its keys are distinct and are
   * exactly the moods that occur, each maps to the number of check-ins
   * with that mood, and the counts add up to the number of check-ins.
   */
  lemma {:induction false} HistogramIsMoodCount(checkIns: seq<CheckIn>)
    ensures DistinctKeys(Histogram(checkIns))
    ensures forall m :: Lookup(Histogram(checkIns), m) == CountMood(checkIns, m)
    ensures forall m :: m in Keys(Histogram(checkIns)) <==> m in MoodSet(checkIns)
    ensures Total(Histogram(checkIns)) == |checkIns|
  {
    if checkIns != [] {
      var n := |checkIns| - 1;
      var p := checkIns[..n];
      HistogramIsMoodCount(p);
      BumpKeys(Histogram(p), checkIns[n].mood);
      BumpDistinct(Histogram(p), checkIns[n].mood);
      BumpTotal(Histogram(p), checkIns[n].mood);
      forall m ensures Lookup(Histogram(checkIns), m) == CountMood(checkIns, m) {
        BumpLookup(Histogram(p), checkIns[n].mood, m);
      }
      assert forall c :: c in checkIns <==> c in p || c == checkIns[n];
    }
  }

  /** The `forEach` over the check-ins that fills the mood histogram. */
  method MoodHistogram(checkIns: seq<CheckIn>) returns (h: seq<MoodCount>)
    ensures h == Histogram(checkIns)
  {
    h := [];
    for i := 0 to |checkIns|
      invariant h == Histogram(checkIns[..i])
    {
      assert checkIns[..i + 1][..i] == checkIns[..i];
      h := Bump(h, checkIns[i].mood);
    }
    assert checkIns[..|checkIns|] == checkIns;
  }

  /** The number of check-ins dated after `lo` and no later than `hi`. */
  function CountBetween(checkIns: seq<CheckIn>, lo: Day, hi: Day): nat
  {
    Count(checkIns, (c: CheckIn) => lo < c.date <= hi)
  }

  /** Widening a range by one day at its lower end adds that day's check-ins. */
  lemma {:induction false} CountBetweenWiden(checkIns: seq<CheckIn>, lo: Day, hi: Day)
    requires lo <= hi
    ensures CountBetween(checkIns, lo - 1, hi) == CountBetween(checkIns, lo, hi) + CountOn(checkIns, lo)
  {
    if checkIns != [] {
      CountBetweenWiden(checkIns[..|checkIns| - 1], lo, hi);
    }
  }

  /** An empty range of days holds no check-ins. */
  lemma {:induction false} CountBetweenEmpty(checkIns: seq<CheckIn>, lo: Day, hi: Day)
    requires hi <= lo
    ensures CountBetween(checkIns, lo, hi) == 0
  {
    if checkIns != [] {
      CountBetweenEmpty(checkIns[..|checkIns| - 1], lo, hi);
    }
  }

  function Sum(w: seq<nat>): nat
  {
    if w == [] then 0 else Sum(w[..|w| - 1]) + w[|w| - 1]
  }

  /**
   * A trailing window adds up to the number of check-ins in its days: a
   * window of `n` per-day counts ending today sums to the check-ins dated
   * `today - n + 1` through `today`.
   */
  lemma {:induction false} WindowSum(checkIns: seq<CheckIn>, today: Day, w: seq<nat>)
    requires forall i :: 0 <= i < |w| ==> w[i] == CountOn(checkIns, today - i)
    ensures Sum(w) == CountBetween(checkIns, today - |w|, today)
  {
    if w == [] {
      CountBetweenEmpty(checkIns, today, today);
    } else {
      var n := |w| - 1;
      var lo := today - n;
      WindowSum(checkIns, lo + n, w[..n]);
      CountBetweenWiden(checkIns, lo, today);
      assert lo - 1 == today - |w|;
      assert Sum(w) == Sum(w[..n]) + CountOn(checkIns, lo);
    }
  }

  /** A trailing window: entry `i` is the number of check-ins dated `today - i`. */
  method TrailingWindow(checkIns: seq<CheckIn>, today: Day, n: nat) returns (w: seq<nat>)
    ensures |w| == n
    ensures forall i :: 0 <= i < n ==> w[i] == CountOn(checkIns, today - i)
  {
    var a := new nat[n](_ => 0);
    for i := 0 to n
      invariant forall k :: 0 <= k < i ==> a[k] == CountOn(checkIns, today - k)
    {
      a[i] := CountOn(checkIns, today - i);
    }
    w := a[..];
  }

  /** The 30-day trend, oldest day first: `dates[j]` is `today - (29 - j)` and `counts[j]` its number of check-ins. */
  method CheckInTrend(checkIns: seq<CheckIn>, today: Day) returns (dates: seq<Day>, counts: seq<nat>)
    ensures |dates| == 30 && |counts| == 30
    ensures forall j :: 0 <= j < 30 ==> dates[j] == today - (29 - j) && counts[j] == CountOn(checkIns, dates[j])
  {
    dates, counts := [], [];
    var i := 29;
    while i >= 0
      invariant -1 <= i <= 29
      invariant |dates| == |counts| == 29 - i
      invariant forall j :: 0 <= j < |dates| ==> dates[j] == today - (29 - j) && counts[j] == CountOn(checkIns, dates[j])
    {
      var d := today - i;
      dates := dates + [d];
      counts := counts + [CountOn(checkIns, d)];
      i := i - 1;
    }
  }

  /** The 365-day heatmap, oldest day first: entry `j` is day `today - (364 - j)` with its number of check-ins. */
  method HeatmapData(checkIns: seq<CheckIn>, today: Day) returns (data: seq<(Day, nat)>)
    ensures |data| == 365
    ensures forall j :: 0 <= j < 365 ==> data[j] == (today - (364 - j), CountOn(checkIns, today - (364 - j)))
  {
    data := [];
    for i := 0 to 365
      invariant |data| == i
      invariant forall j :: 0 <= j < i ==> data[j] == (today - (i - 1 - j), CountOn(checkIns, today - (i - 1 - j)))
    {
      data := [(today - i, CountOn(checkIns, today - i))] + data;
    }
  }

  /** The longest streak after one update: the stored value, raised to the current streak if that is longer. */
  function NextLongest(stored: int, current: nat): (r: int)
    ensures r >= stored && r >= current
    ensures r == stored || r == current
  {
    if current > stored then current else stored
  }

  /** The longest streak after a series of updates that saw the streaks `streaks`, in order. */
  function LongestAfter(stored: int, streaks: seq<nat>): int
  {
    if streaks == [] then stored else NextLongest(LongestAfter(stored, streaks[..|streaks| - 1]), streaks[|streaks| - 1])
  }

  /**
   * Over any series of updates the longest streak never decreases, and it
   * ends as the maximum of its starting value and every streak seen.
   */
  lemma {:induction false} LongestIsRunningMax(stored: int, streaks: seq<nat>)
    ensures forall k :: 0 <= k <= |streaks| ==> LongestAfter(stored, streaks[..k]) <= LongestAfter(stored, streaks)
    ensures forall i :: 0 <= i < |streaks| ==> streaks[i] <= LongestAfter(stored, streaks)
    ensures LongestAfter(stored, streaks) == stored || exists i :: 0 <= i < |streaks| && LongestAfter(stored, streaks) == streaks[i]
  {
    if streaks != [] {
      var n := |streaks| - 1;
      var p := streaks[..n];
      LongestIsRunningMax(stored, p);
      assert forall k :: 0 <= k <= n ==> streaks[..k] == p[..k];
      assert streaks[..n + 1] == streaks;
      if LongestAfter(stored, p) != stored {
        var i :| 0 <= i < |p| && LongestAfter(stored, p) == p[i];
        assert p[i] == streaks[i];
      }
    }
  }

  /** The display name of a mood: the label of the five known moods, the key itself otherwise. */
  function MoodLabel(mood: string): string
  {
    if mood == "happy" then "开心 😊"
    else if mood == "normal" then "一般 😐"
    else if mood == "sad" then "难过 😢"
    else if mood == "angry" then "生气 😠"
    else if mood == "excited" then "兴奋 🤩"
    else mood
  }

  /** The stored statistics record. */
  class StatisticsStore {
    var totalCheckIns: nat
    var consecutiveDays: nat
    var longestStreak: int
    var achievements: seq<string>
    var moodDistribution: seq<MoodCount>
    var weeklyActivity: seq<nat>
    var monthlyActivity: seq<nat>

    /** The record as it stands after an update on `checkIns` on day `today`. */
    ghost predicate Reflects(checkIns: seq<CheckIn>, today: Day)
      reads this
    {
      && totalCheckIns == |DateSet(checkIns)|
      && consecutiveDays == Streak(DateSet(checkIns), today)
      && longestStreak >= consecutiveDays
      && moodDistribution == Histogram(checkIns)
      && |weeklyActivity| == 7
      && (forall i :: 0 <= i < 7 ==> weeklyActivity[i] == CountOn(checkIns, today - i))
      && |monthlyActivity| == 30
      && (forall i :: 0 <= i < 30 ==> monthlyActivity[i] == CountOn(checkIns, today - i))
    }

    /** The default record used when nothing is stored yet. */
    constructor ()
      ensures totalCheckIns == 0 && consecutiveDays == 0 && longestStreak == 0 && achievements == []
      ensures moodDistribution == [] && weeklyActivity == seq(7, _ => 0) && monthlyActivity == seq(30, _ => 0)
    {
      totalCheckIns, consecutiveDays, longestStreak, achievements := 0, 0, 0, [];
      moodDistribution := [];
      weeklyActivity := seq(7, _ => 0);
      monthlyActivity := seq(30, _ => 0);
    }

    /** Recomputes every field but `achievements` from the check-ins on day `today`. */
    method UpdateStatistics(checkIns: seq<CheckIn>, today: Day)
      modifies this
      ensures totalCheckIns == |DateSet(checkIns)|
      ensures consecutiveDays == Streak(DateSet(checkIns), today)
      ensures longestStreak == NextLongest(old(longestStreak), consecutiveDays)
      ensures moodDistribution == Histogram(checkIns)
      ensures |weeklyActivity| == 7 && forall i :: 0 <= i < 7 ==> weeklyActivity[i] == CountOn(checkIns, today - i)
      ensures |monthlyActivity| == 30 && forall i :: 0 <= i < 30 ==> monthlyActivity[i] == CountOn(checkIns, today - i)
      ensures achievements == old(achievements)
      ensures Reflects(checkIns, today)
    {
      var dates := DateSet(checkIns);
      totalCheckIns := |dates|;
      var streak := CurrentStreak(dates, today);
      consecutiveDays := streak;
      if streak > longestStreak {
        longestStreak := streak;
      }
      var moods := MoodHistogram(checkIns);
      moodDistribution := moods;
      var weekly := TrailingWindow(checkIns, today, 7);
      weeklyActivity := weekly;
      var monthly := TrailingWindow(checkIns, today, 30);
      monthlyActivity := monthly;
    }

    /** The mood chart of the stored histogram (the source's `getMoodDistribution`). */
    function MoodDistribution(): seq<MoodSlice>
      reads this
    {
      Slices(moodDistribution)
    }

    /** The weekly activity array for `Weekly`, the monthly one otherwise. */
    function ActivityData(kind: ActivityKind): seq<nat>
      reads this
    {
      if kind == Weekly then weeklyActivity else monthlyActivity
    }
  }

  /** The mood chart: one slice per histogram entry, in its order, named by its mood's label, with the count unchanged. */
  function Slices(h: seq<MoodCount>): (r: seq<MoodSlice>)
    ensures |r| == |h|
    ensures forall j :: 0 <= j < |r| ==> r[j] == MoodSlice(MoodLabel(h[j].mood), h[j].count)
  {
    if h == [] then [] else [MoodSlice(MoodLabel(h[0].mood), h[0].count)] + Slices(h[1..])
  }

  function SliceTotal(r: seq<MoodSlice>): nat
  {
    if r == [] then 0 else r[0].value + SliceTotal(r[1..])
  }

  lemma {:induction false} SliceTotalMatches(h: seq<MoodCount>)
    ensures SliceTotal(Slices(h)) == Total(h)
  {
    if h != [] {
      SliceTotalMatches(h[1..]);
    }
  }

  /** The histogram has one entry per distinct mood. */
  lemma HistogramSize(checkIns: seq<CheckIn>)
    ensures |Histogram(checkIns)| == |MoodSet(checkIns)|
  {
    var h := Histogram(checkIns);
    HistogramIsMoodCount(checkIns);
    DistinctKeysCardinality(h);
    var keys := set j | 0 <= j < |h| :: h[j].mood;
    forall m | m in MoodSet(checkIns) ensures m in keys {
      assert m in Keys(h);
      var j :| 0 <= j < |h| && Keys(h)[j] == m;
    }
    forall m | m in keys ensures m in MoodSet(checkIns) {
      var j :| 0 <= j < |h| && h[j].mood == m;
      assert Keys(h)[j] == m;
    }
    assert keys == MoodSet(checkIns);
  }

  /**
   * The mood chart of the histogram of the check-ins has one slice per
   * distinct mood, each slice's value is the number of check-ins with that
   * mood, and the values add up to the number of check-ins.
   */
  lemma MoodChartOfHistogram(checkIns: seq<CheckIn>)
    ensures var h := Histogram(checkIns);
      && |Slices(h)| == |MoodSet(checkIns)|
      && (forall j :: 0 <= j < |h| ==> Slices(h)[j] == MoodSlice(MoodLabel(h[j].mood), CountMood(checkIns, h[j].mood)))
      && SliceTotal(Slices(h)) == |checkIns|
  {
    var h := Histogram(checkIns);
    HistogramIsMoodCount(checkIns);
    HistogramSize(checkIns);
    SliceTotalMatches(h);
    forall j | 0 <= j < |h| ensures h[j].count == CountMood(checkIns, h[j].mood) {
      LookupDistinct(h, j);
    }
  }

  /** In a histogram with distinct keys, looking up an entry's key gives that entry's count. */
  lemma {:induction false} LookupDistinct(h: seq<MoodCount>, j: nat)
    requires DistinctKeys(h) && j < |h|
    ensures Lookup(h, h[j].mood) == h[j].count
  {
    if j > 0 {
      LookupDistinct(h[1..], j - 1);
    }
  }

  /** A histogram with distinct keys has as many entries as keys. */
  lemma {:induction false} DistinctKeysCardinality(h: seq<MoodCount>)
    requires DistinctKeys(h)
    ensures |set j | 0 <= j < |h| :: h[j].mood| == |h|
  {
    if h != [] {
      var t := h[1..];
      DistinctKeysCardinality(t);
      assert (set j | 0 <= j < |h| :: h[j].mood) == {h[0].mood} + (set j | 0 <= j < |t| :: t[j].mood);
    }
  }

  /**
   * After an update, the weekly data has 7 entries and the monthly data 30;
   * entry `i` of either is the number of check-ins dated `today - i`, so the
   * weekly data is the first week of the monthly data.
   */
  lemma ActivityDataAfterUpdate(s: StatisticsStore, checkIns: seq<CheckIn>, today: Day, kind: ActivityKind)
    requires s.Reflects(checkIns, today)
    ensures |s.ActivityData(kind)| == (if kind == Weekly then 7 else 30)
    ensures forall i :: 0 <= i < |s.ActivityData(kind)| ==> s.ActivityData(kind)[i] == CountOn(checkIns, today - i)
    ensures s.ActivityData(Weekly) == s.ActivityData(Monthly)[..7]
  {
  }
}
