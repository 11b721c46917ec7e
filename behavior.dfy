/**
 * The behaviour engine: how regularly a user invests (systematic investment
 * plan contributions, monthly purchase streaks, spacing of purchases), how
 * they withdraw and sell (withdrawal volatility, holding periods, panic
 * selling, short-term round trips), their risk tolerance, and the 0–100
 * behaviour score that sums them up.
 *
 * Day and month keys come from the host calendar (`Runtime`). Day keys are
 * `toDateString()` labels and are ordered by character code, as the engine's
 * `sort()` orders them, which is not in general their order in time. Month
 * keys are year–month pairs ordered as their zero-padded `YYYY-MM` strings.
 */
module BehaviorEngine {
  import opened Ledger
  import opened Grouping
  import opened LedgerSort

  /** A sale within this many days of a purchase on the same platform is panic selling. */
  const PanicSellingDays: int := 7

  // ============================================================ SIP behaviour

  datatype Frequency = NoContributions | Daily | Weekly | BiWeekly | Monthly | Irregular

  predicate IsSipPurchase(t: Tx) { t.kind == Purchase && t.sipContribution }

  function DayOf(rt: Runtime): Tx -> string
  {
    (t: Tx) => rt.dayLabel(t.timestamp)
  }

  /** `Object.keys(groupTransactionsByDate(txs)).sort()`: distinct day labels by character code. */
  function DayKeys(rt: Runtime, txs: seq<Tx>): seq<string>
  {
    SortedKeys(FirstSeen(txs, DayOf(rt)), StrLess)
  }

  /** Days from the day key dates[i - 1] to dates[i]. */
  function DayGap(rt: Runtime, dates: seq<string>, i: nat): real
    requires 0 < i < |dates|
  {
    (rt.dayStart(dates[i]) - rt.dayStart(dates[i - 1])) as real / DayMs as real
  }

  /** The gaps between successive keys; there is one fewer than there are keys. */
  function DayGaps(rt: Runtime, dates: seq<string>): (g: seq<real>)
    ensures |g| == if dates == [] then 0 else |dates| - 1
  {
    if |dates| <= 1 then []
    else seq(|dates| - 1, j requires 0 <= j < |dates| - 1 => DayGap(rt, dates, j + 1))
  }

  /** The label of an average gap of `avg` days. */
  function FrequencyOfGap(avg: real): Frequency
  {
    if avg <= 3.0 then Daily
    else if avg <= 10.0 then Weekly
    else if avg <= 20.0 then BiWeekly
    else if avg <= 45.0 then Monthly
    else Irregular
  }

  /** `calculateSIPFrequency` on the sorted day keys. */
  function SipFrequency(rt: Runtime, dates: seq<string>): Frequency
  {
    if |dates| < 2 then Irregular else FrequencyOfGap(Mean(DayGaps(rt, dates)))
  }

  /** The interval, in days, that each frequency label expects. */
  function ExpectedInterval(f: Frequency): Option<real>
  {
    match f
    case Daily => Some(1.0)
    case Weekly => Some(7.0)
    case BiWeekly => Some(14.0)
    case Monthly => Some(30.0)
    case _ => None
  }

  /** A gap within 30 % either side of the expected interval. */
  function OnSchedule(expected: real): real -> bool
  {
    (gap: real) => Abs(gap - expected) <= expected * 0.3
  }

  /** `calculateSIPConsistency`: the share of gaps that are on schedule. */
  function SipConsistency(rt: Runtime, dates: seq<string>, f: Frequency): (c: real)
    ensures 0.0 <= c <= 1.0
    ensures ExpectedInterval(f).None? || |dates| < 2 ==> c == 0.0
  {
    var expected := ExpectedInterval(f);
    if expected.None? then 0.0
    else
      var gaps := DayGaps(rt, dates);
      if |gaps| == 0 then 0.0
      else
        var onTime := Filter(gaps, OnSchedule(expected.value));
        QuotientAtMost(|onTime| as real, |gaps| as real, 1.0);
        |onTime| as real / |gaps| as real
  }

  /** How many of the last gaps of g, counting back from the end, are at most `bound`. */
  function TrailingWithin(g: seq<real>, bound: real): (n: nat)
    ensures n <= |g|
  {
    if g == [] || g[|g| - 1] > bound then 0 else 1 + TrailingWithin(g[..|g| - 1], bound)
  }

  /** `calculateCurrentStreak`: the latest key and the keys before it while each gap is at most 8 days. */
  function CurrentStreakOf(rt: Runtime, dates: seq<string>): (n: nat)
    ensures dates != [] ==> 1 <= n <= |dates|
  {
    if dates == [] then 0 else 1 + TrailingWithin(DayGaps(rt, dates), 8.0)
  }

  /** The streak counts exactly the trailing gaps within the bound and stops at the first one beyond it. */
  lemma {:induction false} TrailingWithinExact(g: seq<real>, bound: real)
    ensures forall j :: |g| - TrailingWithin(g, bound) <= j < |g| ==> g[j] <= bound
    ensures TrailingWithin(g, bound) < |g| ==> g[|g| - 1 - TrailingWithin(g, bound)] > bound
  {
    if g != [] && g[|g| - 1] <= bound {
      var init := g[..|g| - 1];
      TrailingWithinExact(init, bound);
      assert forall j :: 0 <= j < |init| ==> init[j] == g[j];
    }
  }

  function Reversed<T>(s: seq<T>): (r: seq<T>)
    ensures |r| == |s| && forall i :: 0 <= i < |s| ==> r[i] == s[|s| - 1 - i]
  {
    seq(|s|, i requires 0 <= i < |s| => s[|s| - 1 - i])
  }

  /** The per-day gap loop that both SIP helpers run over the sorted keys. */
  method GapsBetween(rt: Runtime, dates: seq<string>) returns (intervals: seq<real>)
    ensures intervals == DayGaps(rt, dates)
  {
    intervals := [];
    var i := 1;
    while i < |dates|
      invariant 1 <= i <= |dates| || (dates == [] && i == 1)
      invariant |intervals| == i - 1
      invariant forall j :: 0 <= j < i - 1 ==> intervals[j] == DayGap(rt, dates, j + 1)
    {
      var days := (rt.dayStart(dates[i]) - rt.dayStart(dates[i - 1])) as real / DayMs as real;
      intervals := intervals + [days];
      i := i + 1;
    }
  }

  method CalculateSipFrequency(rt: Runtime, dates: seq<string>) returns (f: Frequency)
    ensures f == SipFrequency(rt, dates)
  {
    if |dates| < 2 {
      return Irregular;
    }
    var intervals := GapsBetween(rt, dates);
    var avgInterval := Sum(intervals) / |intervals| as real;
    f := FrequencyOfGap(avgInterval);
  }

  method CalculateSipConsistency(rt: Runtime, dates: seq<string>, frequency: Frequency) returns (c: real)
    ensures c == SipConsistency(rt, dates, frequency)
  {
    var expected := ExpectedInterval(frequency);
    if expected.None? {
      return 0.0;
    }
    var intervals := GapsBetween(rt, dates);
    if |intervals| == 0 {
      return 0.0;
    }
    var consistent := Filter(intervals, OnSchedule(expected.value));
    c := |consistent| as real / |intervals| as real;
  }

  /** A run of k trailing gaps within the bound, preceded by one beyond it or by nothing, is the streak. */
  lemma {:induction false} TrailingFromSuffix(g: seq<real>, k: nat, bound: real)
    requires k <= |g|
    requires forall j :: |g| - k <= j < |g| ==> g[j] <= bound
    requires k < |g| ==> g[|g| - 1 - k] > bound
    ensures TrailingWithin(g, bound) == k
  {
    if k > 0 {
      var init := g[..|g| - 1];
      assert forall j :: 0 <= j < |init| ==> init[j] == g[j];
      TrailingFromSuffix(init, k - 1, bound);
    }
  }

  /** Days from the key recent[i] to the key before it in the newest-first walk. */
  function RecentGap(rt: Runtime, recent: seq<string>, i: nat): real
    requires 0 < i < |recent|
  {
    (rt.dayStart(recent[i - 1]) - rt.dayStart(recent[i])) as real / DayMs as real
  }

  /** Walking the keys newest first, the i-th difference is the gap before the i-th newest key. */
  lemma ReversedGap(rt: Runtime, dates: seq<string>, i: nat)
    requires 0 < i < |dates|
    ensures RecentGap(rt, Reversed(dates), i) == DayGaps(rt, dates)[|dates| - i - 1]
  {
    var recent, n := Reversed(dates), |dates|;
    assert recent[i - 1] == dates[n - i] && recent[i] == dates[n - i - 1];
    assert DayGaps(rt, dates)[n - i - 1] == DayGap(rt, dates, n - i);
  }

  /** `calculateCurrentStreak`, walking the keys newest first. */
  method CalculateCurrentStreak(rt: Runtime, dates: seq<string>) returns (streak: nat)
    ensures streak == CurrentStreakOf(rt, dates)
    ensures dates != [] ==> 1 <= streak <= |dates|
  {
    var recent := Reversed(dates);
    if |recent| == 0 {
      return 0;
    }
    ghost var g := DayGaps(rt, dates);
    ghost var n := |dates|;
    streak := 1;
    var i := 1;
    while i < |recent|
      invariant 1 <= i <= n
      invariant streak == i
      invariant forall j :: n - i <= j < n - 1 ==> g[j] <= 8.0
    {
      var daysDiff := RecentGap(rt, recent, i);
      ReversedGap(rt, dates, i);
      if daysDiff <= 8.0 {
        streak := streak + 1;
      } else {
        TrailingFromSuffix(g, i - 1, 8.0);
        break;
      }
      i := i + 1;
    }
    if i == n {
      TrailingFromSuffix(g, n - 1, 8.0);
    }
    assert streak == 1 + TrailingWithin(g, 8.0);
  }

  datatype SipBehavior = SipBehavior(
    active: bool,
    consistency: real,
    avgAmount: real,
    frequency: Frequency,
    streak: nat,
    totalContributions: nat,
    totalAmount: real,
    lastContribution: Option<int>)

  /**
   * `analyzeSIPBehavior`. `lastContribution` is the first SIP record's
   * timestamp, absent when that timestamp is falsy (zero).
   */
  function SipBehaviorOf(rt: Runtime, history: seq<Tx>): (r: SipBehavior)
    ensures !r.active <==> Filter(history, IsSipPurchase) == []
    ensures !r.active ==> r.frequency == NoContributions && r.consistency == 0.0 && r.streak == 0
    ensures r.totalContributions == |Filter(history, IsSipPurchase)|
    ensures 0.0 <= r.consistency <= 1.0
  {
    var sip := Filter(history, IsSipPurchase);
    if sip == [] then SipBehavior(false, 0.0, 0.0, NoContributions, 0, 0, 0.0, None)
    else
      var dates := DayKeys(rt, sip);
      var frequency := SipFrequency(rt, dates);
      SipBehavior(true, SipConsistency(rt, dates, frequency), Sum(Amounts(sip)) / |sip| as real, frequency,
        CurrentStreakOf(rt, dates), |sip|, Sum(Amounts(sip)),
        if sip[0].timestamp == 0 then None else Some(sip[0].timestamp))
  }

  method AnalyzeSipBehavior(rt: Runtime, history: seq<Tx>) returns (r: SipBehavior)
    ensures r == SipBehaviorOf(rt, history)
  {
    var sip := Filter(history, IsSipPurchase);
    if |sip| == 0 {
      return SipBehavior(false, 0.0, 0.0, NoContributions, 0, 0, 0.0, None);
    }
    var order, byDate := GroupBy(sip, DayOf(rt));
    var dates := SortedKeys(order, StrLess);
    var frequency := CalculateSipFrequency(rt, dates);
    var consistency := CalculateSipConsistency(rt, dates, frequency);
    var streak := CalculateCurrentStreak(rt, dates);
    var avgAmount := Sum(Amounts(sip)) / |sip| as real;
    r := SipBehavior(true, consistency, avgAmount, frequency, streak, |sip|, Sum(Amounts(sip)),
      if sip[0].timestamp == 0 then None else Some(sip[0].timestamp));
  }

  /** The day keys are exactly the days on which a SIP contribution was made, each once, in label order. */
  lemma DayKeysAreContributionDays(rt: Runtime, sip: seq<Tx>)
    ensures StrictlySorted(DayKeys(rt, sip), StrLess)
    ensures forall d :: d in DayKeys(rt, sip) <==> exists i :: 0 <= i < |sip| && rt.dayLabel(sip[i].timestamp) == d
    ensures |DayKeys(rt, sip)| <= |sip|
  {
    StringOrder();
    var order := FirstSeen(sip, DayOf(rt));
    SortedKeysCorrect(order, StrLess);
    forall d | d in DayKeys(rt, sip)
      ensures exists i :: 0 <= i < |sip| && rt.dayLabel(sip[i].timestamp) == d
    {
      FirstSeenSound(sip, DayOf(rt), d);
    }
    forall d | exists i :: 0 <= i < |sip| && rt.dayLabel(sip[i].timestamp) == d
      ensures d in DayKeys(rt, sip)
    {
      var i :| 0 <= i < |sip| && rt.dayLabel(sip[i].timestamp) == d;
      assert DayOf(rt)(sip[i]) == d;
    }
  }

  /**
   * A plan whose contribution days are all exactly `e` days apart, e being one
   * of the expected intervals, is recognised with its frequency and is fully
   * consistent.
   */
  lemma EvenlySpacedPlan(rt: Runtime, dates: seq<string>, e: real)
    requires |dates| >= 2
    requires e == 1.0 || e == 7.0 || e == 14.0 || e == 30.0
    requires forall j :: 0 <= j < |dates| - 1 ==> DayGaps(rt, dates)[j] == e
    ensures ExpectedInterval(SipFrequency(rt, dates)) == Some(e)
    ensures SipConsistency(rt, dates, SipFrequency(rt, dates)) == 1.0
  {
    var gaps := DayGaps(rt, dates);
    VarianceOfConstant(gaps, e);
    var f := FrequencyOfGap(e);
    assert SipFrequency(rt, dates) == f;
    assert ExpectedInterval(f) == Some(e);
    forall j | 0 <= j < |gaps| ensures OnSchedule(e)(gaps[j]) {
      assert gaps[j] == e;
    }
    FilterKeepsAll(gaps, OnSchedule(e));
    var n := |gaps| as real;
    assert SipConsistency(rt, dates, f) == n / n;
    QuotientAtLeast(n, n, 1.0);
    QuotientAtMost(n, n, 1.0);
  }

  /** A filter that keeps every element keeps the whole list. */
  lemma {:induction false} FilterKeepsAll<T>(s: seq<T>, p: T -> bool)
    requires forall j :: 0 <= j < |s| ==> p(s[j])
    ensures Filter(s, p) == s
  {
    if s != [] {
      var init := s[..|s| - 1];
      assert forall j :: 0 <= j < |init| ==> init[j] == s[j];
      FilterKeepsAll(init, p);
      assert p(s[|s| - 1]);
      assert s == init + [s[|s| - 1]];
    }
  }

  // ============================================================ monthly streak

  /** A calendar month; `month` runs from 1 to 12 when it comes from the calendar. */
  datatype MonthKey = MonthKey(year: int, month: int)

  predicate ValidMonth(k: MonthKey) { 1 <= k.month <= 12 }

  /** The key's position in time: months since January of year 0. */
  function MonthNumber(k: MonthKey): int { 12 * k.year + k.month - 1 }

  /** The month key of a record: the year and the 1-based month of its timestamp. */
  function MonthOf(rt: Runtime): Tx -> MonthKey
  {
    (t: Tx) => MonthKey(rt.monthIndex(t.timestamp) / 12, rt.monthIndex(t.timestamp) % 12 + 1)
  }

  /** The order in which `sort()` puts zero-padded `YYYY-MM` keys. */
  predicate MonthBefore(a: MonthKey, b: MonthKey)
  {
    a.year < b.year || (a.year == b.year && a.month < b.month)
  }

  lemma MonthOrder()
    ensures StrictTotalOrder(MonthBefore)
  {
  }

  /** For calendar months the key order is the order in time. */
  lemma MonthBeforeInTime(a: MonthKey, b: MonthKey)
    requires ValidMonth(a) && ValidMonth(b)
    ensures MonthBefore(a, b) <==> MonthNumber(a) < MonthNumber(b)
    ensures MonthNumber(a) == MonthNumber(b) <==> a == b
  {
  }

  /** The key the current-streak check looks for: the month before k. */
  function PrevMonth(k: MonthKey): MonthKey
  {
    if k.month == 1 then MonthKey(k.year - 1, 12) else MonthKey(k.year, k.month - 1)
  }

  /** The key the longest-streak check expects after k. */
  function NextMonth(k: MonthKey): MonthKey
  {
    if k.month == 12 then MonthKey(k.year + 1, 1) else MonthKey(k.year, k.month + 1)
  }

  lemma AdjacentMonths(k: MonthKey)
    requires ValidMonth(k)
    ensures ValidMonth(PrevMonth(k)) && MonthNumber(PrevMonth(k)) == MonthNumber(k) - 1
    ensures ValidMonth(NextMonth(k)) && MonthNumber(NextMonth(k)) == MonthNumber(k) + 1
  {
  }

  /** `Object.keys(groupByMonthYear(txs)).sort()`. */
  function MonthKeys(rt: Runtime, txs: seq<Tx>): seq<MonthKey>
  {
    SortedKeys(FirstSeen(txs, MonthOf(rt)), MonthBefore)
  }

  /** The keys as the month grouping produces them: strictly increasing calendar months. */
  ghost predicate MonthList(months: seq<MonthKey>)
  {
    StrictlySorted(months, MonthBefore) && forall i :: 0 <= i < |months| ==> ValidMonth(months[i])
  }

  /** The month keys are the distinct purchase months, in increasing order. */
  lemma MonthKeysWellFormed(rt: Runtime, txs: seq<Tx>)
    ensures MonthList(MonthKeys(rt, txs))
    ensures |MonthKeys(rt, txs)| <= |txs|
    ensures txs != [] ==> MonthKeys(rt, txs) != []
  {
    MonthOrder();
    var order := FirstSeen(txs, MonthOf(rt));
    SortedKeysCorrect(order, MonthBefore);
    var months := MonthKeys(rt, txs);
    forall i | 0 <= i < |months| ensures ValidMonth(months[i]) {
      FirstSeenSound(txs, MonthOf(rt), months[i]);
    }
    if txs != [] {
      assert MonthOf(rt)(txs[0]) in order;
    }
  }

  /** The length of the run of consecutive calendar months that ends at key i. */
  function RunEndingAt(months: seq<MonthKey>, i: nat): (n: nat)
    requires i < |months|
    ensures 1 <= n <= i + 1
  {
    if i == 0 || months[i] != NextMonth(months[i - 1]) then 1 else 1 + RunEndingAt(months, i - 1)
  }

  /** The longest run ending at one of the first k keys. */
  function LongestRunBefore(months: seq<MonthKey>, k: nat): (n: nat)
    requires 0 < k <= |months|
    ensures forall j :: 0 <= j < k ==> RunEndingAt(months, j) <= n
    ensures exists j :: 0 <= j < k && RunEndingAt(months, j) == n
  {
    if k == 1 then RunEndingAt(months, 0)
    else
      var m := LongestRunBefore(months, k - 1);
      var r := RunEndingAt(months, k - 1);
      if r > m then r else m
  }

  /** `calculateLongestStreak`: the longest run of consecutive months. */
  function LongestStreakOf(months: seq<MonthKey>): nat
  {
    if months == [] then 0 else LongestRunBefore(months, |months|)
  }

  /**
   * Counting back from key i for as long as the month before each key is one
   * of the keys, as `calculateCurrentMonthStreak` does.
   */
  function BackCount(months: seq<MonthKey>, i: nat): nat
    requires i < |months|
  {
    if PrevMonth(months[i]) in months then 1 + (if i == 0 then 0 else BackCount(months, i - 1)) else 0
  }

  /** `calculateCurrentMonthStreak`; today's date does not enter into it. */
  function CurrentMonthStreakOf(months: seq<MonthKey>): nat
  {
    if months == [] then 0 else 1 + BackCount(months, |months| - 1)
  }

  method CalculateCurrentMonthStreak(months: seq<MonthKey>) returns (streak: nat)
    ensures streak == CurrentMonthStreakOf(months)
  {
    if |months| == 0 {
      return 0;
    }
    streak := 1;
    var i := |months| - 1;
    while i >= 0
      invariant -1 <= i < |months|
      invariant CurrentMonthStreakOf(months) == streak + if i >= 0 then BackCount(months, i) else 0
    {
      var expected := PrevMonth(months[i]);
      if expected in months {
        streak := streak + 1;
      } else {
        break;
      }
      i := i - 1;
    }
  }

  method CalculateLongestStreak(months: seq<MonthKey>) returns (longest: nat)
    ensures longest == LongestStreakOf(months)
  {
    if |months| == 0 {
      return 0;
    }
    longest := 1;
    var current := 1;
    var i := 1;
    while i < |months|
      invariant 1 <= i <= |months|
      invariant current == RunEndingAt(months, i - 1)
      invariant longest == LongestRunBefore(months, i)
    {
      var expected := NextMonth(months[i - 1]);
      if months[i].month == expected.month && months[i].year == expected.year {
        current := current + 1;
        longest := if longest >= current then longest else current;
      } else {
        current := 1;
      }
      i := i + 1;
    }
  }

  /** In a list of increasing calendar months, the month before key i is a key only as key i - 1. */
  lemma PrevMonthInList(months: seq<MonthKey>, i: nat)
    requires MonthList(months) && i < |months|
    ensures PrevMonth(months[i]) in months <==> i > 0 && months[i] == NextMonth(months[i - 1])
  {
    AdjacentMonths(months[i]);
    if PrevMonth(months[i]) in months {
      var j :| 0 <= j < |months| && months[j] == PrevMonth(months[i]);
      if j >= i {
        if j > i {
          MonthBeforeInTime(months[i], months[j]);
        }
      } else if j < i - 1 {
        MonthBeforeInTime(months[j], months[i - 1]);
        MonthBeforeInTime(months[i - 1], months[i]);
      }
      assert j == i - 1;
      AdjacentMonths(months[i - 1]);
      MonthBeforeInTime(NextMonth(months[i - 1]), months[i]);
    }
    if i > 0 && months[i] == NextMonth(months[i - 1]) {
      AdjacentMonths(months[i - 1]);
      MonthBeforeInTime(PrevMonth(months[i]), months[i - 1]);
    }
  }

  lemma {:induction false} BackCountIsRun(months: seq<MonthKey>, i: nat)
    requires MonthList(months) && i < |months|
    ensures 1 + BackCount(months, i) == RunEndingAt(months, i)
  {
    PrevMonthInList(months, i);
    if i > 0 && months[i] == NextMonth(months[i - 1]) {
      BackCountIsRun(months, i - 1);
    }
  }

  /** The current streak is the run that ends at the latest month, and no run is longer than the longest. */
  lemma StreakOrder(months: seq<MonthKey>)
    requires MonthList(months) && months != []
    ensures CurrentMonthStreakOf(months) == RunEndingAt(months, |months| - 1)
    ensures 1 <= CurrentMonthStreakOf(months) <= LongestStreakOf(months) <= |months|
    ensures forall i :: 0 <= i < |months| ==> RunEndingAt(months, i) <= LongestStreakOf(months)
  {
    BackCountIsRun(months, |months| - 1);
  }

  /** Thirty days in milliseconds, the source's unit of a month span. */
  const ThirtyDaysMs: int := 30 * DayMs

  /** The time between the starts of the first and the last month, in milliseconds. */
  function MonthGap(rt: Runtime, months: seq<MonthKey>): (g: int)
    requires |months| >= 2
    ensures g >= 0
  {
    var diff := rt.monthStart(MonthNumber(months[|months| - 1])) - rt.monthStart(MonthNumber(months[0]));
    if diff < 0 then -diff else diff
  }

  /**
   * `calculateTimeSpanInMonths`: 1 for fewer than two months, otherwise the
   * gap between the first and last month in 30-day units, rounded up.
   */
  function TimeSpanInMonths(rt: Runtime, months: seq<MonthKey>): (r: int)
    ensures |months| < 2 ==> r == 1
    ensures r >= 0
    ensures |months| >= 2 ==> (r - 1) * ThirtyDaysMs < MonthGap(rt, months) <= r * ThirtyDaysMs
  {
    if |months| < 2 then 1
    else
      var diff := rt.monthStart(MonthNumber(months[|months| - 1])) - rt.monthStart(MonthNumber(months[0]));
      var r := Ceil(Abs(diff as real) / ThirtyDaysMs as real);
      CeilOfQuotient(MonthGap(rt, months), ThirtyDaysMs, r);
      r
  }

  /** Rounding g / unit up gives the number of whole units that first cover g. */
  lemma CeilOfQuotient(g: int, unit: int, r: int)
    requires g >= 0 && unit > 0
    requires r == Ceil(g as real / unit as real)
    ensures r >= 0
    ensures (r - 1) * unit < g <= r * unit
  {
    var x := g as real / unit as real;
    QuotientAtMost(g as real, unit as real, r as real);
    QuotientAtMost(g as real, unit as real, (r - 1) as real);
    QuotientAtLeast(g as real, unit as real, 0.0);
    assert (r * unit) as real == r as real * unit as real;
    assert ((r - 1) * unit) as real == (r - 1) as real * unit as real;
  }

  datatype MonthlyStreak = MonthlyStreak(
    currentStreak: nat,
    longestStreak: nat,
    totalMonths: nat,
    consistency: real,
    months: seq<MonthKey>)

  /** `analyzeMonthlyStreak`. */
  function MonthlyStreakOf(rt: Runtime, history: seq<Tx>): (r: MonthlyStreak)
    ensures r.consistency <= 1.0
  {
    var purchases := Purchases(history);
    if purchases == [] then MonthlyStreak(0, 0, 0, 0.0, [])
    else
      var months := MonthKeys(rt, purchases);
      if months == [] then MonthlyStreak(0, 0, 0, 0.0, [])
      else
        var total := |months|;
        var span := TimeSpanInMonths(rt, months);
        var consistency := if total > 0 then total as real / MaxInt(span, 1) as real else 0.0;
        MonthlyStreak(CurrentMonthStreakOf(months), LongestStreakOf(months), total, Min(consistency, 1.0), months)
  }

  method AnalyzeMonthlyStreak(rt: Runtime, history: seq<Tx>) returns (r: MonthlyStreak)
    ensures r == MonthlyStreakOf(rt, history)
  {
    var purchases := Purchases(history);
    if |purchases| == 0 {
      return MonthlyStreak(0, 0, 0, 0.0, []);
    }
    var order, monthlyPurchases := GroupBy(purchases, MonthOf(rt));
    var months := SortedKeys(order, MonthBefore);
    if |months| == 0 {
      return MonthlyStreak(0, 0, 0, 0.0, []);
    }
    var currentStreak := CalculateCurrentMonthStreak(months);
    var longestStreak := CalculateLongestStreak(months);
    var totalMonths := |months|;
    var timeSpan := TimeSpanInMonths(rt, months);
    var consistency := if totalMonths > 0 then totalMonths as real / MaxInt(timeSpan, 1) as real else 0.0;
    r := MonthlyStreak(currentStreak, longestStreak, totalMonths, Min(consistency, 1.0), months);
  }

  /**
   * With at least one purchase: the current streak is the run ending at the
   * latest purchase month, at most the longest streak, which is at most the
   * number of months with purchases; the consistency is a positive fraction.
   */
  lemma MonthlyStreakBounds(rt: Runtime, history: seq<Tx>)
    requires Purchases(history) != []
    ensures var r := MonthlyStreakOf(rt, history);
      && r.months != []
      && r.currentStreak == RunEndingAt(r.months, |r.months| - 1)
      && 1 <= r.currentStreak <= r.longestStreak <= r.totalMonths == |r.months|
      && r.totalMonths <= |Purchases(history)|
      && 0.0 < r.consistency <= 1.0
  {
    var purchases := Purchases(history);
    var months := MonthKeys(rt, purchases);
    MonthKeysWellFormed(rt, purchases);
    StreakOrder(months);
    var d := MaxInt(TimeSpanInMonths(rt, months), 1) as real;
    var c := |months| as real / d;
    QuotientPositive(|months| as real, d);
    var r := MonthlyStreakOf(rt, history);
    assert r == MonthlyStreak(CurrentMonthStreakOf(months), LongestStreakOf(months), |months|, Min(c, 1.0), months);
  }

  // ============================================================ withdrawals

  predicate IsWithdrawal(t: Tx) { t.kind == Withdrawal }

  /**
   * `calculateVolatility`: the coefficient of variation, standard deviation
   * over mean. It is 0 for fewer than two values, and 0 where the source
   * would divide by a zero mean.
   */
  function Volatility(rt: Runtime, values: seq<real>): real
  {
    if |values| <= 1 then 0.0
    else
      var mean := Mean(values);
      if mean == 0.0 then 0.0 else rt.sqrt(Variance(values)) / mean
  }

  datatype WithdrawalPattern = LowVolatility | MediumVolatility | HighVolatility

  function PatternOf(volatility: real): WithdrawalPattern
  {
    if volatility > 0.5 then HighVolatility
    else if volatility > 0.25 then MediumVolatility
    else LowVolatility
  }

  /** The three amounts are reported only when there is a withdrawal. */
  datatype VolatilityAnalysis = VolatilityAnalysis(
    volatility: real,
    pattern: WithdrawalPattern,
    withdrawals: nat,
    avgWithdrawal: Option<real>,
    maxWithdrawal: Option<real>,
    totalWithdrawn: Option<real>)

  /** `analyzeVolatilityPatterns`: records of type withdrawal only; sales do not count. */
  function VolatilityOf(rt: Runtime, history: seq<Tx>): (r: VolatilityAnalysis)
    ensures r.withdrawals == |Filter(history, IsWithdrawal)|
    ensures r.pattern == PatternOf(r.volatility)
    ensures r.maxWithdrawal.Some? <==> r.withdrawals > 0
    ensures r.maxWithdrawal.Some? ==> forall t :: t in history && IsWithdrawal(t) ==> t.amount <= r.maxWithdrawal.value
    ensures r.maxWithdrawal.Some? ==> exists t :: t in history && IsWithdrawal(t) && t.amount == r.maxWithdrawal.value
    ensures r.avgWithdrawal.Some? <==> r.withdrawals > 0
    ensures r.totalWithdrawn.Some? <==> r.withdrawals > 0
    ensures r.withdrawals > 0 ==> r.avgWithdrawal.value == Mean(Amounts(Filter(history, IsWithdrawal)))
    ensures r.withdrawals > 0 ==> r.totalWithdrawn.value == Sum(Amounts(Filter(history, IsWithdrawal)))
    ensures r.withdrawals > 0 ==> r.avgWithdrawal.value <= r.maxWithdrawal.value
  {
    var withdrawals := Filter(history, IsWithdrawal);
    if withdrawals == [] then VolatilityAnalysis(0.0, LowVolatility, 0, None, None, None)
    else
      var amounts := Amounts(withdrawals);
      var volatility := Volatility(rt, amounts);
      var top := MaxReal(amounts);
      assert forall t :: t in withdrawals ==> t.amount <= top by {
        forall t | t in withdrawals ensures t.amount <= top {
          var j :| 0 <= j < |withdrawals| && withdrawals[j] == t;
          assert amounts[j] == t.amount;
        }
      }
      assert exists t :: t in history && IsWithdrawal(t) && t.amount == top by {
        var j :| 0 <= j < |amounts| && amounts[j] == top;
        assert withdrawals[j] in withdrawals;
      }
      MeanBetween(amounts, MinReal(amounts), top);
      VolatilityAnalysis(volatility, PatternOf(volatility), |withdrawals|, Some(Sum(amounts) / |amounts| as real),
        Some(top), Some(Sum(amounts)))
  }

  /** Equal values have no volatility. */
  lemma SteadyValues(rt: Runtime, values: seq<real>, c: real)
    requires IsSqrt(rt.sqrt)
    requires forall j :: 0 <= j < |values| ==> values[j] == c
    ensures Volatility(rt, values) == 0.0
  {
    if |values| > 1 {
      VarianceOfConstant(values, c);
    }
  }

  /** Equal withdrawal amounts have no volatility. */
  lemma EqualWithdrawalsAreSteady(rt: Runtime, history: seq<Tx>, c: real)
    requires IsSqrt(rt.sqrt)
    requires forall t :: t in history && IsWithdrawal(t) ==> t.amount == c
    ensures VolatilityOf(rt, history).volatility == 0.0
    ensures VolatilityOf(rt, history).pattern == LowVolatility
  {
    var withdrawals := Filter(history, IsWithdrawal);
    var amounts := Amounts(withdrawals);
    forall j | 0 <= j < |amounts| ensures amounts[j] == c {
      assert withdrawals[j] in withdrawals;
    }
    SteadyValues(rt, amounts, c);
  }

  /** Non-negative withdrawal amounts give a non-negative volatility. */
  lemma VolatilityNonNegative(rt: Runtime, history: seq<Tx>)
    requires IsSqrt(rt.sqrt)
    requires forall t :: t in history ==> t.amount >= 0.0
    ensures VolatilityOf(rt, history).volatility >= 0.0
  {
    var withdrawals := Filter(history, IsWithdrawal);
    if withdrawals != [] {
      var amounts := Amounts(withdrawals);
      assert VolatilityOf(rt, history).volatility == Volatility(rt, amounts);
      forall j | 0 <= j < |amounts| ensures 0.0 <= amounts[j] {
        assert withdrawals[j] in history;
      }
      SpreadNonNegative(rt, amounts);
    }
  }

  /** For non-negative values and a true square root the coefficient of variation is non-negative. */
  lemma SpreadNonNegative(rt: Runtime, values: seq<real>)
    requires IsSqrt(rt.sqrt)
    requires forall j :: 0 <= j < |values| ==> 0.0 <= values[j]
    ensures Volatility(rt, values) >= 0.0
  {
    if |values| > 1 {
      VarianceNonNegative(values);
      MeanBetween(values, 0.0, MaxReal(values));
      var mean := Mean(values);
      if mean != 0.0 {
        QuotientAtLeast(rt.sqrt(Variance(values)), mean, 0.0);
      }
    }
  }

  /** A record that is not a withdrawal leaves the withdrawal analysis unchanged. */
  lemma OnlyWithdrawalsCount(rt: Runtime, history: seq<Tx>, t: Tx)
    requires !IsWithdrawal(t)
    ensures VolatilityOf(rt, history + [t]) == VolatilityOf(rt, history)
  {
    assert (history + [t])[..|history|] == history;
    assert Filter(history + [t], IsWithdrawal) == Filter(history, IsWithdrawal);
  }

  // ============================================================ holding periods

  /** Days from each purchase to now; every purchase counts as still held. */
  function HoldingPeriods(purchases: seq<Tx>, now: int): (r: seq<real>)
    ensures |r| == |purchases|
  {
    seq(|purchases|, i requires 0 <= i < |purchases| => (now - purchases[i].timestamp) as real / DayMs as real)
  }

  predicate IsLongTerm(days: real) { days >= 180.0 }

  datatype HoldingSummary = HoldingSummary(avgDays: int, minDays: int, maxDays: int, longTermPercentage: int)

  /**
   * `calculateHoldings` on one platform's records. The sale dates the source
   * collects are never used.
   */
  function CalculateHoldings(txs: seq<Tx>, now: int): (h: HoldingSummary)
    ensures h.minDays <= h.avgDays <= h.maxDays
    ensures 0 <= h.longTermPercentage <= 100
  {
    var purchases := Purchases(txs);
    if purchases == [] then HoldingSummary(0, 0, 0, 0)
    else
      var periods := HoldingPeriods(purchases, now);
      PeriodSummaryBounds(periods);
      HoldingSummary(Round(Mean(periods)), Round(MinReal(periods)), Round(MaxReal(periods)),
        Round(LongTermShare(periods) * 100.0))
  }

  /** The fraction of holding periods of at least 180 days. */
  function LongTermShare(periods: seq<real>): real
    requires periods != []
  {
    |Filter(periods, IsLongTerm)| as real / |periods| as real
  }

  lemma PeriodSummaryBounds(periods: seq<real>)
    requires periods != []
    ensures Round(MinReal(periods)) <= Round(Mean(periods)) <= Round(MaxReal(periods))
    ensures 0 <= Round(LongTermShare(periods) * 100.0) <= 100
  {
    MeanRoundBetween(periods);
    LongTermPercentBounds(periods);
  }

  lemma MeanRoundBetween(periods: seq<real>)
    requires periods != []
    ensures Round(MinReal(periods)) <= Round(Mean(periods)) <= Round(MaxReal(periods))
  {
    var lo, hi := MinReal(periods), MaxReal(periods);
    MeanBetween(periods, lo, hi);
    RoundMonotone(lo, Mean(periods));
    RoundMonotone(Mean(periods), hi);
  }

  lemma LongTermPercentBounds(periods: seq<real>)
    requires periods != []
    ensures 0.0 <= LongTermShare(periods) <= 1.0
    ensures 0 <= Round(LongTermShare(periods) * 100.0) <= 100
  {
    var n := |Filter(periods, IsLongTerm)| as real;
    QuotientAtMost(n, |periods| as real, 1.0);
    QuotientAtLeast(n, |periods| as real, 0.0);
  }

  /** One entry of the per-asset holding dictionary. */
  datatype AssetHolding = AssetHolding(
    platform: Platform,
    avgHoldingDays: int,
    minHoldingDays: int,
    maxHoldingDays: int,
    totalTransactions: nat,
    longTermPercentage: int)

  function HoldingEntry(history: seq<Tx>, now: int, p: Platform): AssetHolding
  {
    var txs := OnPlatform(history, p);
    var h := CalculateHoldings(txs, now);
    AssetHolding(p, h.avgDays, h.minDays, h.maxDays, |txs|, h.longTermPercentage)
  }

  /** The dictionary after the first k platforms: one entry for each platform with records. */
  function AssetHoldingsUpTo(history: seq<Tx>, now: int, k: nat): seq<AssetHolding>
    requires k <= |PlatformOrder|
  {
    if k == 0 then []
    else
      AssetHoldingsUpTo(history, now, k - 1)
      + (if OnPlatform(history, PlatformOrder[k - 1]) == [] then [] else [HoldingEntry(history, now, PlatformOrder[k - 1])])
  }

  datatype HoldingTerm = LongTerm | MediumTerm | ShortTerm

  datatype HoldingAnalysis = HoldingAnalysis(assetHoldings: seq<AssetHolding>, averageDays: int, overallPattern: HoldingTerm)

  function AvgDaysOf(entries: seq<AssetHolding>): (r: seq<real>)
    ensures |r| == |entries|
  {
    seq(|entries|, i requires 0 <= i < |entries| => entries[i].avgHoldingDays as real)
  }

  predicate IsPositive(x: real) { x > 0.0 }

  /** The average over the assets whose average holding is positive, or 0. */
  function OverallHoldingDays(entries: seq<AssetHolding>): (avg: real)
    ensures avg >= 0.0
  {
    var positive := Filter(AvgDaysOf(entries), IsPositive);
    if positive == [] then 0.0
    else
      assert forall i :: 0 <= i < |positive| ==> IsPositive(positive[i]);
      MeanBetween(positive, 0.0, MaxReal(positive));
      Mean(positive)
  }

  function HoldingTermOf(avg: real): HoldingTerm
  {
    if avg > 180.0 then LongTerm else if avg > 30.0 then MediumTerm else ShortTerm
  }

  /** `analyzeHoldingPatterns`. */
  function HoldingsOf(history: seq<Tx>, now: int): (r: HoldingAnalysis)
    ensures r.averageDays >= 0
  {
    var entries := AssetHoldingsUpTo(history, now, |PlatformOrder|);
    var avg := OverallHoldingDays(entries);
    HoldingAnalysis(entries, Round(avg), HoldingTermOf(avg))
  }

  /** Taking one more platform adds its entry when it has records. */
  lemma HoldingsStep(history: seq<Tx>, now: int, i: nat)
    requires i < |PlatformOrder|
    ensures AssetHoldingsUpTo(history, now, i + 1)
         == AssetHoldingsUpTo(history, now, i)
          + (if OnPlatform(history, PlatformOrder[i]) == [] then [] else [HoldingEntry(history, now, PlatformOrder[i])])
  {
  }

  method AnalyzeHoldingPatterns(history: seq<Tx>, now: int) returns (r: HoldingAnalysis)
    ensures r == HoldingsOf(history, now)
  {
    var holdingAnalysis: seq<AssetHolding> := [];
    for i := 0 to |PlatformOrder|
      invariant holdingAnalysis == AssetHoldingsUpTo(history, now, i)
    {
      var asset := PlatformOrder[i];
      var assetTransactions := OnPlatform(history, asset);
      HoldingsStep(history, now, i);
      if |assetTransactions| == 0 {
        continue;
      }
      var holdings := CalculateHoldings(assetTransactions, now);
      var entry := AssetHolding(asset, holdings.avgDays, holdings.minDays,
        holdings.maxDays, |assetTransactions|, holdings.longTermPercentage);
      assert entry == HoldingEntry(history, now, asset);
      holdingAnalysis := holdingAnalysis + [entry];
    }
    assert holdingAnalysis == AssetHoldingsUpTo(history, now, |PlatformOrder|);
    var avgHoldingDays := OverallHoldingDays(holdingAnalysis);
    r := HoldingAnalysis(holdingAnalysis, Round(avgHoldingDays), HoldingTermOf(avgHoldingDays));
  }

  /** The dictionary lists exactly the platforms that have records, with their record counts. */
  lemma {:induction false} AssetHoldingsListed(history: seq<Tx>, now: int, k: nat, p: Platform)
    requires k <= |PlatformOrder|
    ensures (exists e :: e in AssetHoldingsUpTo(history, now, k) && e.platform == p)
        <==> p in PlatformOrder[..k] && OnPlatform(history, p) != []
    ensures forall e :: e in AssetHoldingsUpTo(history, now, k) ==> e.totalTransactions == |OnPlatform(history, e.platform)|
  {
    if k > 0 {
      AssetHoldingsListed(history, now, k - 1, p);
      assert PlatformOrder[..k] == PlatformOrder[..k - 1] + [PlatformOrder[k - 1]];
      var q := PlatformOrder[k - 1];
      if q == p && OnPlatform(history, p) != [] {
        assert HoldingEntry(history, now, p) in AssetHoldingsUpTo(history, now, k);
      }
    }
  }

  // ============================================================ panic selling

  /** A purchase on the sale's platform no more than seven days before it, or any time after it. */
  predicate InPanicWindow(sale: Tx, p: Tx)
  {
    p.platform == sale.platform && sale.timestamp - p.timestamp <= PanicSellingDays * DayMs
  }

  function PanicWindow(sale: Tx): Tx -> bool
  {
    (p: Tx) => InPanicWindow(sale, p)
  }

  function Panicked(purchases: seq<Tx>): Tx -> bool
  {
    (sale: Tx) => Filter(purchases, PanicWindow(sale)) != []
  }

  datatype PanicEvent = PanicEvent(saleDate: int, purchaseDates: seq<int>, daysBetween: real, assetType: Platform, amount: real)

  /** The event the loop builds for one sale. */
  function EventFromWindow(sale: Tx, inWindow: seq<Tx>): PanicEvent
    requires inWindow != []
  {
    PanicEvent(sale.timestamp, Timestamps(inWindow), (sale.timestamp - inWindow[0].timestamp) as real / DayMs as real,
      sale.platform, sale.amount)
  }

  function PanicEventFor(purchases: seq<Tx>, sale: Tx): (e: Option<PanicEvent>)
    ensures e.Some? <==> Panicked(purchases)(sale)
  {
    var inWindow := Filter(purchases, PanicWindow(sale));
    if inWindow == [] then None else Some(EventFromWindow(sale, inWindow))
  }

  /** The events for the sales in order, one for each sale with a purchase in its window. */
  function PanicEvents(purchases: seq<Tx>, sales: seq<Tx>): seq<PanicEvent>
  {
    if sales == [] then []
    else
      var e := PanicEventFor(purchases, sales[|sales| - 1]);
      PanicEvents(purchases, sales[..|sales| - 1]) + (if e.Some? then [e.value] else [])
  }

  datatype Severity = NoPanic | LowSeverity | MediumSeverity | HighSeverity

  function SeverityOf(events: nat): Severity
  {
    if events == 0 then NoPanic else if events <= 2 then LowSeverity else if events <= 5 then MediumSeverity else HighSeverity
  }

  datatype PanicSelling = PanicSelling(totalEvents: nat, events: seq<PanicEvent>, severity: Severity)

  /** There is one event per sale or withdrawal that has a purchase in its window. */
  lemma {:induction false} PanicEventsCount(purchases: seq<Tx>, sales: seq<Tx>)
    ensures |PanicEvents(purchases, sales)| == |Filter(sales, Panicked(purchases))|
    ensures |PanicEvents(purchases, sales)| <= |sales|
  {
    if sales != [] {
      PanicEventsCount(purchases, sales[..|sales| - 1]);
    }
  }

  lemma PanicStep(purchases: seq<Tx>, sales: seq<Tx>, i: nat)
    requires i < |sales|
    ensures var inWindow := Filter(purchases, PanicWindow(sales[i]));
      PanicEvents(purchases, sales[..i + 1])
      == PanicEvents(purchases, sales[..i]) + if inWindow == [] then [] else [EventFromWindow(sales[i], inWindow)]
  {
    assert sales[..i + 1][..i] == sales[..i];
  }

  /** `analyzePanicSelling`. */
  method AnalyzePanicSelling(history: seq<Tx>) returns (r: PanicSelling)
    ensures r.events == PanicEvents(Purchases(history), Sales(history))
    ensures r.totalEvents == |r.events| == |Filter(Sales(history), Panicked(Purchases(history)))|
    ensures r.totalEvents <= |Sales(history)|
    ensures r.severity == SeverityOf(r.totalEvents)
  {
    var purchases := Purchases(history);
    var sales := Sales(history);
    var panicSellingEvents := 0;
    var panicEvents: seq<PanicEvent> := [];
    for i := 0 to |sales|
      invariant panicEvents == PanicEvents(purchases, sales[..i])
      invariant panicSellingEvents == |panicEvents|
    {
      var sale := sales[i];
      PanicStep(purchases, sales, i);
      var assetPurchases := Filter(purchases, PanicWindow(sale));
      if |assetPurchases| > 0 {
        panicSellingEvents := panicSellingEvents + 1;
        var event := EventFromWindow(sale, assetPurchases);
        panicEvents := panicEvents + [event];
      }
    }
    assert sales[..|sales|] == sales;
    PanicEventsCount(purchases, sales);
    r := PanicSelling(panicSellingEvents, panicEvents, SeverityOf(panicSellingEvents));
  }

  /** A purchase on the same platform made after the sale also makes it a panic sale. */
  lemma LaterPurchasePanics(purchases: seq<Tx>, sale: Tx, p: Tx)
    requires p in purchases && p.platform == sale.platform && p.timestamp >= sale.timestamp
    ensures Panicked(purchases)(sale)
  {
    assert PanicWindow(sale)(p);
  }

  /** Without purchases there is no panic selling. */
  lemma NoPurchasesNoPanic(purchases: seq<Tx>, sales: seq<Tx>)
    requires purchases == []
    ensures PanicEvents(purchases, sales) == []
  {
    PanicEventsCount(purchases, sales);
  }

  // ============================================================ investment patterns

  function Over(bound: real): real -> bool { (x: real) => x > bound }
  function Under(bound: real): real -> bool { (x: real) => x < bound }

  datatype SizePattern = NoInvestmentsPattern | RegularSize | LumpSum | MicroSize

  datatype InvestmentStyle = NoStyle | WellDiversified | MicroInvestor | LargeInvestor | RegularInvestor

  /** The three totals are reported only when there is a purchase. */
  datatype InvestmentPatterns = InvestmentPatterns(
    pattern: SizePattern,
    investmentStyle: InvestmentStyle,
    regularity: real,
    diversification: real,
    avgInvestment: Option<real>,
    totalInvestments: Option<nat>,
    totalAmount: Option<real>)

  /** Lump sums when large amounts outnumber small ones more than twice over, micro in the opposite case. */
  function SizePatternOf(large: nat, small: nat): SizePattern
  {
    if large > small * 2 then LumpSum else if small > large * 2 then MicroSize else RegularSize
  }

  /** The platforms the records were made on. */
  function PlatformsOf(txs: seq<Tx>): set<Platform>
  {
    set i | 0 <= i < |txs| :: txs[i].platform
  }

  /** There are only four platforms. */
  lemma PlatformsBound(txs: seq<Tx>)
    ensures |PlatformsOf(txs)| <= 4
    ensures txs != [] ==> |PlatformsOf(txs)| >= 1
  {
    var all := {Gold, Silver, Platinum, Binr};
    forall p | p in PlatformsOf(txs) ensures p in all {
      match p
      case Gold => case Silver => case Platinum => case Binr =>
    }
    SubsetCard(PlatformsOf(txs), all);
    if txs != [] {
      assert txs[0].platform in PlatformsOf(txs);
    }
  }

  lemma SubsetCard<T>(a: set<T>, b: set<T>)
    requires a <= b
    ensures |a| <= |b|
  {
    assert b == a + (b - a);
  }

  /** The share of the four platforms used, between a quarter and one for a non-empty list. */
  function Diversification(purchases: seq<Tx>): (d: real)
    ensures purchases != [] ==> 0.25 <= d <= 1.0
  {
    PlatformsBound(purchases);
    |PlatformsOf(purchases)| as real / 4.0
  }

  /** `categorizeInvestmentStyle`. */
  function StyleOf(avgInvestment: real, diversification: real): InvestmentStyle
  {
    if diversification > 0.75 then WellDiversified
    else if avgInvestment < 1000.0 then MicroInvestor
    else if avgInvestment > 25000.0 then LargeInvestor
    else RegularInvestor
  }

  /**
   * The intervals between successive records, earlier-listed minus later-listed
   * timestamp, in units of `unit` milliseconds; one fewer than the records.
   */
  function Intervals(txs: seq<Tx>, unit: real): (r: seq<real>)
    requires unit > 0.0
    ensures |r| == if txs == [] then 0 else |txs| - 1
  {
    if |txs| <= 1 then []
    else seq(|txs| - 1, j requires 0 <= j < |txs| - 1 => Interval(txs, j + 1, unit))
  }

  /** The time from record i back to record i - 1. */
  function Interval(txs: seq<Tx>, i: nat, unit: real): real
    requires 0 < i < |txs| && unit > 0.0
  {
    (txs[i - 1].timestamp - txs[i].timestamp) as real / unit
  }

  /** The interval loop that both `calculateInvestmentRegularity` and `calculateConsistencyScore` run. */
  method IntervalsBetween(txs: seq<Tx>, unit: real) returns (intervals: seq<real>)
    requires unit > 0.0
    ensures intervals == Intervals(txs, unit)
  {
    intervals := [];
    var i := 1;
    while i < |txs|
      invariant 1 <= i <= |txs| || (txs == [] && i == 1)
      invariant |intervals| == i - 1
      invariant forall j :: 0 <= j < i - 1 ==> intervals[j] == Interval(txs, j + 1, unit)
    {
      var interval := Interval(txs, i, unit);
      intervals := intervals + [interval];
      i := i + 1;
    }
  }

  /**
   * One minus the coefficient of variation (standard deviation over mean),
   * floored at 0. Where the mean is 0 the source divides by zero; the result
   * is then 0.
   */
  function Steadiness(rt: Runtime, values: seq<real>): (r: real)
    requires values != []
    ensures r >= 0.0
  {
    var mean := Mean(values);
    if mean == 0.0 then 0.0 else Max(0.0, 1.0 - rt.sqrt(Variance(values)) / mean)
  }

  /** `calculateInvestmentRegularity`: 0.5 for at most one purchase, else steadiness of the gaps in days. */
  function Regularity(rt: Runtime, purchases: seq<Tx>): (r: real)
    ensures r >= 0.0
  {
    if |purchases| <= 1 then 0.5 else Steadiness(rt, Intervals(purchases, DayMs as real))
  }

  method CalculateInvestmentRegularity(rt: Runtime, purchases: seq<Tx>) returns (r: real)
    ensures r == Regularity(rt, purchases)
  {
    if |purchases| <= 1 {
      return 0.5;
    }
    var timeIntervals := IntervalsBetween(purchases, DayMs as real);
    var mean := Sum(timeIntervals) / |timeIntervals| as real;
    if mean == 0.0 {
      return 0.0;
    }
    var variance := Sum(SquaredDeviations(timeIntervals, mean)) / |timeIntervals| as real;
    var stdDev := rt.sqrt(variance);
    r := Max(0.0, 1.0 - stdDev / mean);
  }

  /** With a positive mean the steadiness is at most 1, and it is exactly 1 when the values do not vary. */
  lemma SteadinessBounds(rt: Runtime, values: seq<real>)
    requires IsSqrt(rt.sqrt) && values != [] && Mean(values) > 0.0
    ensures Steadiness(rt, values) <= 1.0
    ensures Steadiness(rt, values) == 1.0 <==> Variance(values) == 0.0
  {
    var v := Variance(values);
    VarianceNonNegative(values);
    var sd := rt.sqrt(v);
    QuotientAtLeast(sd, Mean(values), 0.0);
    if sd / Mean(values) == 0.0 {
      assert sd * Mean(values) == 0.0 * Mean(values) by {
        assert (sd / Mean(values)) * Mean(values) == sd;
      }
      assert sd == 0.0;
      assert v == sd * sd;
    }
  }

  /** `analyzeInvestmentPatterns`. */
  function InvestmentPatternsOf(rt: Runtime, history: seq<Tx>): (r: InvestmentPatterns)
    ensures r.pattern == NoInvestmentsPattern <==> Purchases(history) == []
    ensures Purchases(history) != [] ==> 0.25 <= r.diversification <= 1.0
    ensures r.totalInvestments == if Purchases(history) == [] then None else Some(|Purchases(history)|)
    ensures r.regularity >= 0.0
  {
    var purchases := Purchases(history);
    if purchases == [] then InvestmentPatterns(NoInvestmentsPattern, NoStyle, 0.0, 0.0, None, None, None)
    else PatternsWith(purchases, Regularity(rt, purchases))
  }

  /** The patterns of a non-empty list of purchases, given their regularity. */
  function PatternsWith(purchases: seq<Tx>, regularity: real): (r: InvestmentPatterns)
    requires purchases != []
    ensures r.pattern != NoInvestmentsPattern && r.regularity == regularity
    ensures r.diversification == Diversification(purchases) && 0.25 <= r.diversification <= 1.0
    ensures r.diversification > 0.75 ==> r.investmentStyle == WellDiversified
    ensures r.totalInvestments == Some(|purchases|)
  {
    var amounts := Amounts(purchases);
    var avgInvestment := Sum(amounts) / |amounts| as real;
    var large := |Filter(amounts, Over(avgInvestment * 2.0))|;
    var small := |Filter(amounts, Under(avgInvestment * 0.5))|;
    var diversification := Diversification(purchases);
    InvestmentPatterns(SizePatternOf(large, small), StyleOf(avgInvestment, diversification),
      regularity, diversification, Some(avgInvestment), Some(|purchases|), Some(Sum(amounts)))
  }

  /** Purchases on all four platforms make a well-diversified investor, whatever the amounts. */
  lemma AllPlatformsWellDiversified(rt: Runtime, history: seq<Tx>)
    requires forall p: Platform :: OnPlatform(Purchases(history), p) != []
    ensures InvestmentPatternsOf(rt, history).investmentStyle == WellDiversified
    ensures InvestmentPatternsOf(rt, history).diversification == 1.0
  {
    var purchases := Purchases(history);
    forall p: Platform ensures p in PlatformsOf(purchases) {
      var on := OnPlatform(purchases, p);
      assert on[0] in on;
      var j :| 0 <= j < |purchases| && purchases[j] == on[0];
    }
    assert {Gold, Silver, Platinum, Binr} <= PlatformsOf(purchases);
    SubsetCard({Gold, Silver, Platinum, Binr}, PlatformsOf(purchases));
    PlatformsBound(purchases);
    assert |PlatformsOf(purchases)| == 4;
    assert InvestmentPatternsOf(rt, history) == PatternsWith(purchases, Regularity(rt, purchases));
  }

  /** Purchases spaced by the same positive gap are perfectly regular. */
  lemma EvenlySpacedPurchases(rt: Runtime, purchases: seq<Tx>, gap: int)
    requires IsSqrt(rt.sqrt) && |purchases| >= 2 && gap > 0
    requires forall j :: 0 <= j < |purchases| - 1 ==> purchases[j].timestamp - purchases[j + 1].timestamp == gap
    ensures Regularity(rt, purchases) == 1.0
  {
    var g := Intervals(purchases, DayMs as real);
    var c := gap as real / DayMs as real;
    assert forall j :: 0 <= j < |g| ==> g[j] == c;
    VarianceOfConstant(g, c);
    QuotientAtLeast(gap as real, DayMs as real, 0.0);
    assert c > 0.0 by {
      QuotientAtMost(gap as real, DayMs as real, 0.0);
    }
  }

  method AnalyzeInvestmentPatterns(rt: Runtime, history: seq<Tx>) returns (r: InvestmentPatterns)
    ensures r == InvestmentPatternsOf(rt, history)
  {
    var purchases := Purchases(history);
    if |purchases| == 0 {
      return InvestmentPatterns(NoInvestmentsPattern, NoStyle, 0.0, 0.0, None, None, None);
    }
    var regularity := CalculateInvestmentRegularity(rt, purchases);
    r := PatternsWith(purchases, regularity);
  }

  // ============================================================ consistency

  /**
   * `calculateConsistencyScore`: the steadiness of the intervals between
   * successive purchases, in milliseconds, capped at 1; 0.5 for a single
   * purchase and 0 for none.
   */
  function ConsistencyScore(rt: Runtime, history: seq<Tx>): (c: real)
    ensures 0.0 <= c <= 1.0
    ensures Purchases(history) == [] ==> c == 0.0
    ensures |Purchases(history)| == 1 ==> c == 0.5
  {
    var purchases := Purchases(history);
    if purchases == [] then 0.0
    else if |purchases| == 1 then 0.5
    else Min(1.0, Steadiness(rt, Intervals(purchases, 1.0)))
  }

  method CalculateConsistencyScore(rt: Runtime, history: seq<Tx>) returns (c: real)
    ensures c == ConsistencyScore(rt, history)
  {
    var purchases := Purchases(history);
    if |purchases| == 0 {
      return 0.0;
    }
    var timeIntervals := IntervalsBetween(purchases, 1.0);
    if |timeIntervals| == 0 {
      return 0.5;
    }
    var avgInterval := Sum(timeIntervals) / |timeIntervals| as real;
    if avgInterval == 0.0 {
      return 0.0;
    }
    var variance := Sum(SquaredDeviations(timeIntervals, avgInterval)) / |timeIntervals| as real;
    var stdDev := rt.sqrt(variance);
    var consistency := Max(0.0, 1.0 - stdDev / avgInterval);
    c := Min(1.0, consistency);
  }

  /** The intervals add up to the time between the first and the last record. */
  lemma {:induction false} SpanTelescopes(txs: seq<Tx>)
    requires |txs| >= 1
    ensures Sum(Intervals(txs, 1.0)) == (txs[0].timestamp - txs[|txs| - 1].timestamp) as real
  {
    if |txs| >= 2 {
      var init := txs[..|txs| - 1];
      SpanTelescopes(init);
      var g := Intervals(txs, 1.0);
      assert g[..|g| - 1] == Intervals(init, 1.0);
    }
  }

  /** When the first and last purchases carry the same timestamp the mean interval is 0, and so is the consistency. */
  lemma ZeroSpanNoConsistency(rt: Runtime, history: seq<Tx>)
    requires |Purchases(history)| >= 2
    requires Purchases(history)[0].timestamp == Purchases(history)[|Purchases(history)| - 1].timestamp
    ensures ConsistencyScore(rt, history) == 0.0
  {
    SpanTelescopes(Purchases(history));
  }

  /** Purchases listed newest first and evenly spaced are perfectly consistent. */
  lemma EvenlySpacedConsistency(rt: Runtime, history: seq<Tx>, gap: int)
    requires IsSqrt(rt.sqrt) && |Purchases(history)| >= 2 && gap > 0
    requires var p := Purchases(history);
      forall j :: 0 <= j < |p| - 1 ==> p[j].timestamp - p[j + 1].timestamp == gap
    ensures ConsistencyScore(rt, history) == 1.0
  {
    var g := Intervals(Purchases(history), 1.0);
    assert forall j :: 0 <= j < |g| ==> g[j] == gap as real;
    VarianceOfConstant(g, gap as real);
  }

  // ============================================================ short-term trading

  function TxPlatform(t: Tx): Platform { t.platform }

  /** A purchase followed by a sale or withdrawal, or a sale followed by a purchase. */
  predicate IsRoundTrip(current: Tx, next: Tx)
  {
    || (current.kind == Purchase && (next.kind == Sale || next.kind == Withdrawal))
    || (current.kind == Sale && next.kind == Purchase)
  }

  predicate QuickRoundTrip(current: Tx, next: Tx)
  {
    IsRoundTrip(current, next) && (next.timestamp - current.timestamp) as real / DayMs as real <= 30.0
  }

  /** The adjacent pairs of s that are quick round trips. */
  function RoundTrips(s: seq<Tx>): (n: nat)
    ensures n <= if s == [] then 0 else |s| - 1
  {
    if |s| < 2 then 0
    else RoundTrips(s[..|s| - 1]) + if QuickRoundTrip(s[|s| - 2], s[|s| - 1]) then 1 else 0
  }

  /** The round trips on the platforms in `keys`, each platform's records in time order. */
  function ShortTermOver(history: seq<Tx>, keys: seq<Platform>): nat
  {
    if keys == [] then 0
    else ShortTermOver(history, keys[..|keys| - 1]) + RoundTrips(Sort(Ascending, GroupOf(history, TxPlatform, keys[|keys| - 1])))
  }

  /** `identifyShortTermTrading`. */
  function ShortTermCount(history: seq<Tx>): nat
  {
    ShortTermOver(history, FirstSeen(history, TxPlatform))
  }

  /** The pair loop over one platform's sorted records. */
  method CountQuickRoundTrips(a: array<Tx>) returns (n: nat)
    ensures n == RoundTrips(a[..])
  {
    if a.Length == 0 {
      return 0;
    }
    n := 0;
    var i := 0;
    while i < a.Length - 1
      invariant 0 <= i <= a.Length - 1
      invariant n == RoundTrips(a[..i + 1])
    {
      assert a[..i + 2][..i + 1] == a[..i + 1];
      if QuickRoundTrip(a[i], a[i + 1]) {
        n := n + 1;
      }
      i := i + 1;
    }
    assert a[..i + 1] == a[..];
  }

  /** Taking one more platform adds that platform's round trips. */
  lemma ShortTermStep(history: seq<Tx>, keys: seq<Platform>, k: nat)
    requires k < |keys|
    ensures ShortTermOver(history, keys[..k + 1])
         == ShortTermOver(history, keys[..k]) + RoundTrips(Sort(Ascending, GroupOf(history, TxPlatform, keys[k])))
  {
    assert keys[..k + 1][..k] == keys[..k];
  }

  method IdentifyShortTermTrading(history: seq<Tx>) returns (shortTermCount: nat)
    ensures shortTermCount == ShortTermCount(history)
  {
    var order, transactionsByAsset := GroupBy(history, TxPlatform);
    shortTermCount := 0;
    for k := 0 to |order|
      invariant shortTermCount == ShortTermOver(history, order[..k])
    {
      var platform := order[k];
      assert platform in transactionsByAsset;
      var group := transactionsByAsset[platform];
      assert group == GroupOf(history, TxPlatform, platform);
      var trips := AssetRoundTrips(group);
      ShortTermStep(history, order, k);
      shortTermCount := shortTermCount + trips;
    }
    assert order[..|order|] == order;
  }

  /** One platform's turn: its records sorted oldest first on a fresh array, then the pair loop. */
  method AssetRoundTrips(group: seq<Tx>) returns (trips: nat)
    ensures trips == RoundTrips(Sort(Ascending, group))
  {
    var assetTransactions := ToArray(group);
    SortLedger(assetTransactions, Ascending);
    trips := CountQuickRoundTrips(assetTransactions);
  }

  lemma {:induction false} NoSalesNoRoundTrips(s: seq<Tx>)
    requires forall j :: 0 <= j < |s| ==> !IsSale(s[j])
    ensures RoundTrips(s) == 0
  {
    if |s| >= 2 {
      NoSalesNoRoundTrips(s[..|s| - 1]);
    }
  }

  lemma {:induction false} NoSalesOver(history: seq<Tx>, keys: seq<Platform>)
    requires forall t :: t in history ==> !IsSale(t)
    ensures ShortTermOver(history, keys) == 0
  {
    if keys != [] {
      NoSalesOver(history, keys[..|keys| - 1]);
      var group := GroupOf(history, TxPlatform, keys[|keys| - 1]);
      var sorted := Sort(Ascending, group);
      SortCorrect(Ascending, group);
      forall j | 0 <= j < |sorted| ensures !IsSale(sorted[j]) {
        assert sorted[j] in multiset(group);
        var i :| 0 <= i < |group| && group[i] == sorted[j];
      }
      NoSalesNoRoundTrips(sorted);
    }
  }

  /** A ledger without sales or withdrawals has no short-term trading. */
  lemma NoSalesNoShortTermTrading(history: seq<Tx>)
    requires Sales(history) == []
    ensures ShortTermCount(history) == 0
  {
    assert forall t :: t in history ==> !IsSale(t);
    NoSalesOver(history, FirstSeen(history, TxPlatform));
  }

  /** A purchase sold again within 30 days on the same platform is one round trip. */
  lemma QuickSaleIsShortTerm(p: Tx, q: Tx)
    requires p.kind == Purchase && q.kind == Sale && p.platform == q.platform
    requires p.timestamp <= q.timestamp <= p.timestamp + 30 * DayMs
    ensures ShortTermCount([p, q]) == 1
  {
    var h := [p, q];
    PairGrouping(p, q);
    assert SortedBy(Ascending, h);
    SortOfSorted(Ascending, h);
    QuotientAtMost((q.timestamp - p.timestamp) as real, DayMs as real, 30.0);
    assert RoundTrips(h) == 1 by {
      assert h[..1] == [p];
    }
    var keys := [p.platform];
    assert keys[..0] == [];
    assert ShortTermOver(h, keys) == ShortTermOver(h, []) + RoundTrips(Sort(Ascending, GroupOf(h, TxPlatform, p.platform)));
  }

  lemma PairGrouping(p: Tx, q: Tx)
    requires p.platform == q.platform
    ensures FirstSeen([p, q], TxPlatform) == [p.platform]
    ensures GroupOf([p, q], TxPlatform, p.platform) == [p, q]
  {
    assert [p, q][..1] == [p];
    assert [p][..0] == [];
  }

  // ============================================================ risk tolerance

  datatype RiskIndicator =
    | HighValueInvestments
    | DiversifiedPortfolio
    | VolatileAssets
    | ConsistentLargeInvestments
    | ShortTermTrading

  datatype RiskAppetite = UnknownAppetite | Conservative | Balanced | Moderate | Aggressive

  datatype RiskTolerance = RiskTolerance(level: RiskAppetite, score: int, indicators: seq<RiskIndicator>)

  function Points(i: RiskIndicator): nat
  {
    match i
    case HighValueInvestments => 20
    case DiversifiedPortfolio => 15
    case VolatileAssets => 25
    case ConsistentLargeInvestments => 20
    case ShortTermTrading => 30
  }

  function PointsOf(indicators: seq<RiskIndicator>): nat
  {
    if indicators == [] then 0 else PointsOf(indicators[..|indicators| - 1]) + Points(indicators[|indicators| - 1])
  }

  function AmountOver(bound: real): Tx -> bool { (t: Tx) => t.amount > bound }

  /** The share of purchases above 10 000. */
  function LargeShare(purchases: seq<Tx>): real
    requires purchases != []
  {
    |Filter(purchases, AmountOver(10000.0))| as real / |purchases| as real
  }

  /** Whether the indicator is raised for a history with `shortTerm` short-term round trips. */
  predicate Raised(purchases: seq<Tx>, shortTerm: nat, i: RiskIndicator)
  {
    match i
    case HighValueInvestments => Filter(purchases, AmountOver(50000.0)) != []
    case DiversifiedPortfolio => |PlatformsOf(purchases)| >= 3
    case VolatileAssets => OnPlatform(purchases, Platinum) != []
    case ConsistentLargeInvestments => purchases != [] && LargeShare(purchases) > 0.5
    case ShortTermTrading => shortTerm > 3
  }

  /** `indicators.push(i)` when the check holds. */
  function Raise(acc: seq<RiskIndicator>, i: RiskIndicator, b: bool): seq<RiskIndicator>
  {
    if b then acc + [i] else acc
  }

  /** The indicators the flags raise, in the order the engine checks them. */
  function Indicators(flag: RiskIndicator -> bool): seq<RiskIndicator>
  {
    var s1 := Raise([], HighValueInvestments, flag(HighValueInvestments));
    var s2 := Raise(s1, DiversifiedPortfolio, flag(DiversifiedPortfolio));
    var s3 := Raise(s2, VolatileAssets, flag(VolatileAssets));
    var s4 := Raise(s3, ConsistentLargeInvestments, flag(ConsistentLargeInvestments));
    Raise(s4, ShortTermTrading, flag(ShortTermTrading))
  }

  function RaisedFor(purchases: seq<Tx>, shortTerm: nat): RiskIndicator -> bool
  {
    (i: RiskIndicator) => Raised(purchases, shortTerm, i)
  }

  /** The points an indicator adds when raised. */
  function PointsIf(flag: RiskIndicator -> bool, i: RiskIndicator): nat
  {
    if flag(i) then Points(i) else 0
  }

  lemma RaiseStep(acc: seq<RiskIndicator>, i: RiskIndicator, b: bool, x: RiskIndicator)
    ensures x in Raise(acc, i, b) <==> x in acc || (b && x == i)
  {
  }

  lemma RaisePoints(acc: seq<RiskIndicator>, i: RiskIndicator, b: bool)
    ensures PointsOf(Raise(acc, i, b)) == PointsOf(acc) + if b then Points(i) else 0
  {
    if b {
      assert (acc + [i])[..|acc|] == acc;
    }
  }

  /** The five checks in the engine's order, each raising its indicator when it holds. */
  function RaiseAll(b1: bool, b2: bool, b3: bool, b4: bool, b5: bool): seq<RiskIndicator>
  {
    Raise(Raise(Raise(Raise(Raise([], HighValueInvestments, b1), DiversifiedPortfolio, b2),
                      VolatileAssets, b3), ConsistentLargeInvestments, b4), ShortTermTrading, b5)
  }

  /** The check among five that decides indicator x. */
  function CheckFor(b1: bool, b2: bool, b3: bool, b4: bool, b5: bool, x: RiskIndicator): bool
  {
    match x
    case HighValueInvestments => b1
    case DiversifiedPortfolio => b2
    case VolatileAssets => b3
    case ConsistentLargeInvestments => b4
    case ShortTermTrading => b5
  }

  /** Asked of the five flags, the check for x is x's own flag. */
  lemma CheckOfFlag(flag: RiskIndicator -> bool, x: RiskIndicator)
    ensures CheckFor(flag(HighValueInvestments), flag(DiversifiedPortfolio), flag(VolatileAssets),
                     flag(ConsistentLargeInvestments), flag(ShortTermTrading), x) == flag(x)
  {
    match x
    case HighValueInvestments =>
    case DiversifiedPortfolio =>
    case VolatileAssets =>
    case ConsistentLargeInvestments =>
    case ShortTermTrading =>
  }

  /** Raising an indicator not yet listed keeps the list free of repeats. */
  lemma RaiseNoRepeats(acc: seq<RiskIndicator>, i: RiskIndicator, b: bool)
    requires NoRepeats(acc) && i !in acc
    ensures NoRepeats(Raise(acc, i, b))
  {
    if b {
      forall j, k | 0 <= j < k < |acc| + 1 ensures (acc + [i])[j] != (acc + [i])[k] {
        assert (acc + [i])[j] == acc[j];
      }
    }
  }

  /** Five checks in a row: x is listed exactly when its own check holds. */
  lemma RaisedMembers(b1: bool, b2: bool, b3: bool, b4: bool, b5: bool, x: RiskIndicator)
    ensures x in RaiseAll(b1, b2, b3, b4, b5) <==> CheckFor(b1, b2, b3, b4, b5, x)
  {
    var s1 := Raise([], HighValueInvestments, b1);
    var s2 := Raise(s1, DiversifiedPortfolio, b2);
    var s3 := Raise(s2, VolatileAssets, b3);
    var s4 := Raise(s3, ConsistentLargeInvestments, b4);
    RaiseStep([], HighValueInvestments, b1, x);
    RaiseStep(s1, DiversifiedPortfolio, b2, x);
    RaiseStep(s2, VolatileAssets, b3, x);
    RaiseStep(s3, ConsistentLargeInvestments, b4, x);
    RaiseStep(s4, ShortTermTrading, b5, x);
  }

  /** Five checks of five different indicators list nothing twice. */
  lemma RaisedNoRepeats(b1: bool, b2: bool, b3: bool, b4: bool, b5: bool)
    ensures NoRepeats(RaiseAll(b1, b2, b3, b4, b5))
  {
    var s1 := Raise([], HighValueInvestments, b1);
    var s2 := Raise(s1, DiversifiedPortfolio, b2);
    var s3 := Raise(s2, VolatileAssets, b3);
    var s4 := Raise(s3, ConsistentLargeInvestments, b4);
    RaiseNoRepeats([], HighValueInvestments, b1);
    RaiseNoRepeats(s1, DiversifiedPortfolio, b2);
    RaiseNoRepeats(s2, VolatileAssets, b3);
    RaiseNoRepeats(s3, ConsistentLargeInvestments, b4);
    RaiseNoRepeats(s4, ShortTermTrading, b5);
  }

  /** The indicators are the five checks asked of the flags in the engine's order. */
  lemma IndicatorsInOrder(flag: RiskIndicator -> bool)
    ensures Indicators(flag) == RaiseAll(flag(HighValueInvestments), flag(DiversifiedPortfolio), flag(VolatileAssets),
                                         flag(ConsistentLargeInvestments), flag(ShortTermTrading))
  {
  }

  /** An indicator is listed exactly when its flag is set, and none is listed twice. */
  lemma IndicatorsExact(flag: RiskIndicator -> bool, x: RiskIndicator)
    ensures x in Indicators(flag) <==> flag(x)
    ensures NoRepeats(Indicators(flag))
  {
    var b1, b2, b3 := flag(HighValueInvestments), flag(DiversifiedPortfolio), flag(VolatileAssets);
    var b4, b5 := flag(ConsistentLargeInvestments), flag(ShortTermTrading);
    RaisedMembers(b1, b2, b3, b4, b5, x);
    RaisedNoRepeats(b1, b2, b3, b4, b5);
    CheckOfFlag(flag, x);
    IndicatorsInOrder(flag);
  }

  /** The listed indicators carry the points of the raised flags. */
  lemma IndicatorsPoints(flag: RiskIndicator -> bool)
    ensures PointsOf(Indicators(flag))
         == PointsIf(flag, HighValueInvestments) + PointsIf(flag, DiversifiedPortfolio) + PointsIf(flag, VolatileAssets)
          + PointsIf(flag, ConsistentLargeInvestments) + PointsIf(flag, ShortTermTrading)
  {
    var s1 := Raise([], HighValueInvestments, flag(HighValueInvestments));
    var s2 := Raise(s1, DiversifiedPortfolio, flag(DiversifiedPortfolio));
    var s3 := Raise(s2, VolatileAssets, flag(VolatileAssets));
    var s4 := Raise(s3, ConsistentLargeInvestments, flag(ConsistentLargeInvestments));
    RaisePoints([], HighValueInvestments, flag(HighValueInvestments));
    RaisePoints(s1, DiversifiedPortfolio, flag(DiversifiedPortfolio));
    RaisePoints(s2, VolatileAssets, flag(VolatileAssets));
    RaisePoints(s3, ConsistentLargeInvestments, flag(ConsistentLargeInvestments));
    RaisePoints(s4, ShortTermTrading, flag(ShortTermTrading));
  }

  /** The level reads the uncapped point total. */
  function AppetiteOf(total: nat): (a: RiskAppetite)
    ensures a != UnknownAppetite
  {
    if total >= 70 then Aggressive else if total >= 50 then Moderate else if total >= 30 then Balanced else Conservative
  }

  /** `analyzeRiskTolerance`. */
  function RiskToleranceOf(history: seq<Tx>): (r: RiskTolerance)
    ensures r.level == UnknownAppetite <==> Purchases(history) == []
    ensures 0 <= r.score <= 100
  {
    var purchases := Purchases(history);
    if purchases == [] then RiskTolerance(UnknownAppetite, 0, []) else RiskOf(purchases, ShortTermCount(history))
  }

  /** The assessment of a non-empty list of purchases, given the short-term round trips. */
  function RiskOf(purchases: seq<Tx>, shortTerm: nat): (r: RiskTolerance)
    ensures r.level != UnknownAppetite && 0 <= r.score <= 100
  {
    var indicators := Indicators(RaisedFor(purchases, shortTerm));
    var total := PointsOf(indicators);
    RiskTolerance(AppetiteOf(total), MinInt(100, total), indicators)
  }

  /** The five checks, as the engine writes them. */
  lemma RaisedForChecks(purchases: seq<Tx>, shortTerm: nat)
    requires purchases != []
    ensures var flag := RaisedFor(purchases, shortTerm);
      && flag(HighValueInvestments) == (|Filter(purchases, AmountOver(50000.0))| > 0)
      && flag(DiversifiedPortfolio) == (|PlatformsOf(purchases)| >= 3)
      && flag(VolatileAssets) == (|OnPlatform(purchases, Platinum)| > 0)
      && flag(ConsistentLargeInvestments) == (|Filter(purchases, AmountOver(10000.0))| as real / |purchases| as real > 0.5)
      && flag(ShortTermTrading) == (shortTerm > 3)
  {
  }

  method AnalyzeRiskTolerance(history: seq<Tx>) returns (r: RiskTolerance)
    ensures r == RiskToleranceOf(history)
  {
    var purchases := Purchases(history);
    if |purchases| == 0 {
      return RiskTolerance(UnknownAppetite, 0, []);
    }
    var shortTermTransactions := IdentifyShortTermTrading(history);
    r := AssessRisk(purchases, shortTermTransactions);
  }

  /** The five checks of `analyzeRiskTolerance`, each pushing its indicator and adding its points. */
  method AssessRisk(purchases: seq<Tx>, shortTermTransactions: nat) returns (r: RiskTolerance)
    requires purchases != []
    ensures r == RiskOf(purchases, shortTermTransactions)
  {
    var indicators: seq<RiskIndicator> := [];
    var riskScore: nat := 0;
    var highValue := |Filter(purchases, AmountOver(50000.0))| > 0;
    indicators, riskScore := RaiseIf(indicators, riskScore, HighValueInvestments, highValue);
    var diversified := |PlatformsOf(purchases)| >= 3;
    indicators, riskScore := RaiseIf(indicators, riskScore, DiversifiedPortfolio, diversified);
    var volatile := |OnPlatform(purchases, Platinum)| > 0;
    indicators, riskScore := RaiseIf(indicators, riskScore, VolatileAssets, volatile);
    var largeInvestmentRatio := |Filter(purchases, AmountOver(10000.0))| as real / |purchases| as real;
    var consistentLarge := largeInvestmentRatio > 0.5;
    indicators, riskScore := RaiseIf(indicators, riskScore, ConsistentLargeInvestments, consistentLarge);
    var shortTerm := shortTermTransactions > 3;
    indicators, riskScore := RaiseIf(indicators, riskScore, ShortTermTrading, shortTerm);
    RaisedForChecks(purchases, shortTermTransactions);
    assert indicators == Indicators(RaisedFor(purchases, shortTermTransactions));
    r := RiskTolerance(AppetiteOf(riskScore), MinInt(100, riskScore), indicators);
  }

  /** `if (check) { indicators.push(i); riskScore += points }`: the score keeps the points of the listed indicators. */
  method RaiseIf(indicators: seq<RiskIndicator>, riskScore: nat, i: RiskIndicator, check: bool)
      returns (indicators': seq<RiskIndicator>, riskScore': nat)
    requires riskScore == PointsOf(indicators)
    ensures indicators' == Raise(indicators, i, check)
    ensures riskScore' == PointsOf(indicators')
  {
    indicators', riskScore' := indicators, riskScore;
    if check {
      indicators', riskScore' := indicators + [i], riskScore + Points(i);
    }
    RaisePoints(indicators, i, check);
  }

  /** Each indicator is listed, once, exactly when its condition holds; the score is their capped point total. */
  lemma RiskIndicatorsExact(history: seq<Tx>, i: RiskIndicator)
    requires Purchases(history) != []
    ensures var r := RiskToleranceOf(history);
      && (i in r.indicators <==> Raised(Purchases(history), ShortTermCount(history), i))
      && NoRepeats(r.indicators)
      && r.score == MinInt(100, PointsOf(r.indicators))
      && r.level == AppetiteOf(PointsOf(r.indicators))
  {
    IndicatorsExact(RaisedFor(Purchases(history), ShortTermCount(history)), i);
  }

  /** More than half of the purchases above 10 000 is what raises the consistent-large indicator. */
  lemma LargeShareMeansMajority(purchases: seq<Tx>)
    requires purchases != []
    ensures LargeShare(purchases) > 0.5 <==> 2 * |Filter(purchases, AmountOver(10000.0))| > |purchases|
  {
    QuotientAtMost(|Filter(purchases, AmountOver(10000.0))| as real, |purchases| as real, 0.5);
  }

  /** All five indicators add up to 110 points: the score is capped at 100 and the appetite is aggressive. */
  lemma AllIndicatorsAggressive(history: seq<Tx>)
    requires Purchases(history) != []
    requires forall i :: Raised(Purchases(history), ShortTermCount(history), i)
    ensures RiskToleranceOf(history).score == 100
    ensures RiskToleranceOf(history).level == Aggressive
  {
    var purchases, n := Purchases(history), ShortTermCount(history);
    var flag := RaisedFor(purchases, n);
    IndicatorsPoints(flag);
    assert Raised(purchases, n, HighValueInvestments) && Raised(purchases, n, DiversifiedPortfolio);
    assert Raised(purchases, n, VolatileAssets) && Raised(purchases, n, ConsistentLargeInvestments);
    assert Raised(purchases, n, ShortTermTrading);
    assert PointsIf(flag, HighValueInvestments) == 20 && PointsIf(flag, DiversifiedPortfolio) == 15;
    assert PointsIf(flag, VolatileAssets) == 25 && PointsIf(flag, ConsistentLargeInvestments) == 20;
    assert PointsIf(flag, ShortTermTrading) == 30;
  }

  /** Without any indicator the appetite is conservative with score 0. */
  lemma NoIndicatorsConservative(history: seq<Tx>)
    requires Purchases(history) != []
    requires forall i :: !Raised(Purchases(history), ShortTermCount(history), i)
    ensures RiskToleranceOf(history) == RiskTolerance(Conservative, 0, [])
  {
    var flag := RaisedFor(Purchases(history), ShortTermCount(history));
    assert !flag(HighValueInvestments) && !flag(DiversifiedPortfolio) && !flag(VolatileAssets);
    assert !flag(ConsistentLargeInvestments) && !flag(ShortTermTrading);
  }

  // ============================================================ behaviour score

  /** The panic-selling part: 10 without events, 2 fewer per event, never below 0. */
  function PanicPoints(events: nat): (p: real)
    ensures 0.0 <= p <= 10.0
  {
    if events == 0 then 10.0 else Max(0.0, 10.0 - events as real * 2.0)
  }

  /**
   * `calculateBehaviorScore`: 40 points for SIP consistency when a plan is
   * active, 20 per twelve months of current streak, 15 for low withdrawal
   * volatility, up to 15 for a year of holding, up to 10 for no panic selling;
   * at most 100.
   */
  function BehaviorScore(sip: SipBehavior, monthly: MonthlyStreak, volatility: VolatilityAnalysis,
                         holding: HoldingAnalysis, panic: PanicSelling): (score: real)
    ensures score <= 100.0
  {
    var sipPart := if sip.active then sip.consistency * 40.0 else 0.0;
    var streakPart := monthly.currentStreak as real / 12.0 * 20.0;
    var volatilityPart := (1.0 - volatility.volatility) * 15.0;
    var holdingPart := Min(15.0, holding.averageDays as real / 365.0 * 15.0);
    Min(100.0, sipPart + streakPart + volatilityPart + holdingPart + PanicPoints(panic.totalEvents))
  }

  /** The score is not negative while the volatility is at most 1. */
  lemma BehaviorScoreNonNegative(sip: SipBehavior, monthly: MonthlyStreak, volatility: VolatilityAnalysis,
                                 holding: HoldingAnalysis, panic: PanicSelling)
    requires 0.0 <= sip.consistency && volatility.volatility <= 1.0 && holding.averageDays >= 0
    ensures 0.0 <= BehaviorScore(sip, monthly, volatility, holding, panic)
  {
  }

  /** More panic sales never raise the score. */
  lemma PanicLowersScore(sip: SipBehavior, monthly: MonthlyStreak, volatility: VolatilityAnalysis,
                         holding: HoldingAnalysis, fewer: PanicSelling, more: PanicSelling)
    requires fewer.totalEvents <= more.totalEvents
    ensures BehaviorScore(sip, monthly, volatility, holding, more) <= BehaviorScore(sip, monthly, volatility, holding, fewer)
  {
    assert PanicPoints(more.totalEvents) <= PanicPoints(fewer.totalEvents);
  }

  /** A longer current streak never lowers the score. */
  lemma StreakRaisesScore(sip: SipBehavior, shorter: MonthlyStreak, longer: MonthlyStreak, volatility: VolatilityAnalysis,
                          holding: HoldingAnalysis, panic: PanicSelling)
    requires shorter.currentStreak <= longer.currentStreak
    ensures BehaviorScore(sip, shorter, volatility, holding, panic) <= BehaviorScore(sip, longer, volatility, holding, panic)
  {
  }

  /** A fully consistent plan, a year-long streak, steady withdrawals, a year of holding and no panic score 100. */
  lemma ExemplaryBehavior(sip: SipBehavior, monthly: MonthlyStreak, volatility: VolatilityAnalysis,
                          holding: HoldingAnalysis, panic: PanicSelling)
    requires sip.active && sip.consistency == 1.0 && monthly.currentStreak >= 12
    requires volatility.volatility == 0.0 && holding.averageDays >= 365 && panic.totalEvents == 0
    ensures BehaviorScore(sip, monthly, volatility, holding, panic) == 100.0
  {
  }

  /** The result of `analyzeBehavior`; `timestamp` is the clock reading it is stamped with. */
  datatype Behavior = Behavior(
    userId: string,
    timestamp: int,
    dailyWeeklySIP: SipBehavior,
    monthlyStreak: MonthlyStreak,
    volatilityWithdrawals: VolatilityAnalysis,
    holdingDuration: HoldingAnalysis,
    panicSellingEvents: PanicSelling,
    investmentPatterns: InvestmentPatterns,
    consistency: real,
    riskTolerance: RiskTolerance,
    overallScore: real)

  function PanicSellingOf(history: seq<Tx>): PanicSelling
  {
    var events := PanicEvents(Purchases(history), Sales(history));
    PanicSelling(|events|, events, SeverityOf(|events|))
  }

  /** `analyzeBehavior` at time `now`. */
  function BehaviorOf(rt: Runtime, userId: string, history: seq<Tx>, now: int): (b: Behavior)
    ensures b.overallScore == BehaviorScore(b.dailyWeeklySIP, b.monthlyStreak, b.volatilityWithdrawals,
                                            b.holdingDuration, b.panicSellingEvents)
    ensures b.overallScore <= 100.0
    ensures 0.0 <= b.consistency <= 1.0 && 0 <= b.riskTolerance.score <= 100
  {
    var sip := SipBehaviorOf(rt, history);
    var monthly := MonthlyStreakOf(rt, history);
    var volatility := VolatilityOf(rt, history);
    var holding := HoldingsOf(history, now);
    var panic := PanicSellingOf(history);
    Behavior(userId, now, sip, monthly, volatility, holding, panic, InvestmentPatternsOf(rt, history),
      ConsistencyScore(rt, history), RiskToleranceOf(history), BehaviorScore(sip, monthly, volatility, holding, panic))
  }

  method AnalyzeBehavior(rt: Runtime, userId: string, history: seq<Tx>, now: int) returns (b: Behavior)
    ensures b == BehaviorOf(rt, userId, history, now)
  {
    var sip := AnalyzeSipBehavior(rt, history);
    var monthly := AnalyzeMonthlyStreak(rt, history);
    var volatility := VolatilityOf(rt, history);
    var holding := AnalyzeHoldingPatterns(history, now);
    var panic := AnalyzePanicSelling(history);
    var patterns := AnalyzeInvestmentPatterns(rt, history);
    var consistency := CalculateConsistencyScore(rt, history);
    var risk := AnalyzeRiskTolerance(history);
    b := Behavior(userId, now, sip, monthly, volatility, holding, panic, patterns, consistency, risk,
      BehaviorScore(sip, monthly, volatility, holding, panic));
  }

  /** A user without records scores 25: the full volatility part and the full panic part. */
  lemma EmptyHistoryScore(rt: Runtime, userId: string, now: int)
    ensures BehaviorOf(rt, userId, [], now).overallScore == 25.0
  {
    var holding := HoldingsOf([], now);
    assert AssetHoldingsUpTo([], now, |PlatformOrder|) == [] by {
      assert AssetHoldingsUpTo([], now, 0) == [];
      assert AssetHoldingsUpTo([], now, 1) == [];
      assert AssetHoldingsUpTo([], now, 2) == [];
      assert AssetHoldingsUpTo([], now, 3) == [];
    }
    assert holding.averageDays == 0;
  }
}
