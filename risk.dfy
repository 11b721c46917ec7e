/**
 * The risk engine: withdrawal patterns, fraud indicators, wallet usage,
 * activity level, unusual transactions, geographical risk, velocity and
 * behavioural anomalies, folded into one weighted overall risk score.
 *
 * Two detectors sort the shared transaction ledger in place: the rapid
 * transaction check sorts it oldest first, the activity check newest first.
 * The analyses that run after them see the re-ordered ledger, so the ledger
 * is an `array<Tx>` here and the analyses are methods that say what they do
 * to it.
 *
 * Standard-deviation tests (`|x - mean| > k * stdDev`) are compared on
 * squares (`(x - mean)^2 > k^2 * variance`); `SquaredTest` shows the two agree
 * for an exact square root.
 */
module RiskEngine {
  import opened Ledger
  import opened Grouping
  import opened LedgerSort
  import PortfolioFetcher

  // ------------------------------------------------------------- thresholds

  const LargeWithdrawal: real := 50000.0
  /** Transactions per day above which the velocity check fires. */
  const SuspiciousFrequency: int := 10
  const InactivePeriod: int := 90
  const Deviation: real := 3.0
  const MinTransactions: nat := 5
  /** One minute, in milliseconds: the rapid-transaction window. */
  const RapidWindow: int := 60000

  const WithdrawalWeight: real := 0.30
  const FraudWeight: real := 0.40
  const WalletWeight: real := 0.15
  const ActivityWeight: real := 0.10
  const UnusualWeight: real := 0.05

  /** `cond ? [x] : []`: the element pushed when a check fires. */
  function Flag<T>(cond: bool, x: T): (r: seq<T>)
    ensures x in r <==> cond
    ensures |r| <= 1
  {
    if cond then [x] else []
  }

  /** `Math.abs(d) > k * Math.sqrt(v)` is the squared comparison, for an exact root. */
  lemma SquaredTest(sqrt: real -> real, d: real, v: real, k: real)
    requires IsSqrt(sqrt) && 0.0 <= v && 0.0 <= k
    ensures Abs(d) > k * sqrt(v) <==> d * d > k * k * v
  {
    var s := sqrt(v);
    var a, b := Abs(d), k * s;
    assert a * a == d * d;
    assert b * b == k * k * (s * s);
    ProductNonNegative(k, s);
    SquaresOrdered(a, b);
  }

  lemma SquaresOrdered(a: real, b: real)
    requires 0.0 <= a && 0.0 <= b
    ensures a > b <==> a * a > b * b
  {
    if a > b {
      assert a * a - b * b == (a - b) * (a + b);
      ProductPositive(a - b, a + b);
    } else {
      assert b * b - a * a == (b - a) * (a + b);
      ProductNonNegative(b - a, a + b);
    }
  }

  // ------------------------------------------------------ withdrawal patterns

  predicate IsLarge(t: Tx) { t.amount >= LargeWithdrawal }

  /** `consecutiveLarge` after reading s: the large withdrawals at the end of s. */
  function TrailingLarge(s: seq<Tx>): (n: nat)
    ensures n <= |s|
  {
    if s == [] || !IsLarge(s[|s| - 1]) then 0 else TrailingLarge(s[..|s| - 1]) + 1
  }

  /** `maxConsecutive` after reading s. */
  function LongestLargeRun(s: seq<Tx>): nat
  {
    if s == [] then 0
    else
      var before, here := LongestLargeRun(s[..|s| - 1]), TrailingLarge(s);
      if before >= here then before else here
  }

  /** The k records just before position j are all large. */
  predicate LargeRunEndsAt(s: seq<Tx>, j: int, k: nat)
    requires k <= j <= |s|
  {
    forall i :: j - k <= i < j ==> IsLarge(s[i])
  }

  lemma {:induction false} TrailingLargeAtLeast(s: seq<Tx>, k: nat)
    ensures TrailingLarge(s) >= k <==> k <= |s| && LargeRunEndsAt(s, |s|, k)
  {
    if s != [] && k > 0 {
      var init := s[..|s| - 1];
      TrailingLargeAtLeast(init, k - 1);
      assert forall i :: 0 <= i < |init| ==> init[i] == s[i];
    }
  }

  /** The longest run is at least k exactly when k consecutive large withdrawals occur somewhere. */
  lemma {:induction false} LongestRunAtLeast(s: seq<Tx>, k: nat)
    ensures LongestLargeRun(s) >= k <==> exists j :: k <= j <= |s| && LargeRunEndsAt(s, j, k)
  {
    if s == [] {
      if k == 0 {
        assert LargeRunEndsAt(s, 0, 0);
      }
    } else {
      var init := s[..|s| - 1];
      LongestRunAtLeast(init, k);
      TrailingLargeAtLeast(s, k);
      forall j | k <= j <= |init|
        ensures LargeRunEndsAt(init, j, k) <==> LargeRunEndsAt(s, j, k)
      {
        assert forall i :: 0 <= i < |init| ==> init[i] == s[i];
      }
    }
  }

  lemma {:induction false} LongestRunBound(s: seq<Tx>)
    ensures TrailingLarge(s) <= |Filter(s, IsLarge)|
    ensures LongestLargeRun(s) <= |Filter(s, IsLarge)|
  {
    if s != [] {
      LongestRunBound(s[..|s| - 1]);
    }
  }

  /** The `consecutiveLarge` / `maxConsecutive` loop over the withdrawals in ledger order. */
  method MaxConsecutiveLarge(withdrawals: seq<Tx>) returns (maxConsecutive: nat)
    ensures maxConsecutive == LongestLargeRun(withdrawals)
  {
    var consecutiveLarge: nat := 0;
    maxConsecutive := 0;
    var i := 0;
    while i < |withdrawals|
      invariant 0 <= i <= |withdrawals|
      invariant consecutiveLarge == TrailingLarge(withdrawals[..i])
      invariant maxConsecutive == LongestLargeRun(withdrawals[..i])
    {
      assert withdrawals[..i + 1][..i] == withdrawals[..i];
      if withdrawals[i].amount >= LargeWithdrawal {
        consecutiveLarge := consecutiveLarge + 1;
        maxConsecutive := if maxConsecutive >= consecutiveLarge then maxConsecutive else consecutiveLarge;
      } else {
        consecutiveLarge := 0;
      }
      i := i + 1;
    }
    assert withdrawals[..i] == withdrawals;
  }

  /** Gaps between successive withdrawal dates (sorted oldest first), in days. */
  function WithdrawalGaps(dates: seq<int>): (r: seq<real>)
    ensures |r| == if |dates| < 2 then 0 else |dates| - 1
  {
    if |dates| < 2 then []
    else seq(|dates| - 1, i requires 0 <= i < |dates| - 1 => (dates[i + 1] - dates[i]) as real / DayMs as real)
  }

  /** The interval loop: pushes each gap in days. */
  method GapsInDays(dates: seq<int>) returns (intervals: seq<real>)
    ensures intervals == WithdrawalGaps(dates)
  {
    intervals := [];
    ghost var gaps := WithdrawalGaps(dates);
    var i := 1;
    while i < |dates|
      invariant 1 <= i <= |dates| || (dates == [] && i == 1)
      invariant i - 1 <= |gaps| && intervals == gaps[..i - 1]
    {
      var gap := (dates[i] - dates[i - 1]) as real / DayMs as real;
      assert gaps[i - 1] == gap;
      assert gaps[..i] == gaps[..i - 1] + [gap];
      intervals := intervals + [gap];
      i := i + 1;
    }
    assert gaps[..|gaps|] == gaps;
  }

  /** The gaps add up to the span from the first date to the last, in days. */
  lemma {:induction false} GapsTelescope(dates: seq<int>)
    requires |dates| > 0
    ensures Sum(WithdrawalGaps(dates)) == (dates[|dates| - 1] - dates[0]) as real / DayMs as real
  {
    if |dates| >= 2 {
      var init := dates[..|dates| - 1];
      GapsTelescope(init);
      var g, h := WithdrawalGaps(dates), WithdrawalGaps(init);
      assert g[..|g| - 1] == h;
      var n := |dates|;
      var first, mid, last := dates[0] as real, dates[n - 2] as real, dates[n - 1] as real;
      var unit := DayMs as real;
      assert Sum(h) == (mid - first) / unit;
      assert g[|g| - 1] == (last - mid) / unit;
      assert Sum(g) == Sum(h) + g[|g| - 1];
      assert (mid - first) / unit + (last - mid) / unit == (last - first) / unit;
    }
  }

  function AvgInterval(gaps: seq<real>): real
  {
    if gaps == [] then 0.0 else Mean(gaps)
  }

  /** Withdrawals per 30 days over the span; 0 when the span is not positive. */
  function WithdrawalFrequency(n: nat, totalDays: real): real
  {
    if totalDays > 0.0 then n as real / (totalDays / 30.0) else 0.0
  }

  /** `calculateWithdrawalRiskScore`. */
  function WithdrawalRiskScore(large: nat, frequent: nat, sudden: bool): (r: int)
    ensures 0 <= r <= 40
  {
    var a := if large > 0 then MinInt(large * 10, 30) else 0;
    var b := if frequent > 0 then MinInt(frequent * 5, 20) else 0;
    var c := if sudden then 15 else 0;
    MinInt(40, a + b + c)
  }

  lemma WithdrawalRiskZero(large: nat, frequent: nat, sudden: bool)
    ensures WithdrawalRiskScore(large, frequent, sudden) == 0 <==> large == 0 && frequent == 0 && !sudden
  {
  }

  datatype WithdrawalPatterns = WithdrawalPatterns(
    largeWithdrawals: nat,
    frequentWithdrawals: nat,
    suddenPattern: bool,
    maxWithdrawal: real,
    totalWithdrawn: real,
    withdrawalFrequency: real,
    maxConsecutiveLarge: Option<nat>,
    avgInterval: Option<real>,
    riskScore: int)

  /** The result with no sale or withdrawal: every figure zero, no run or interval reported. */
  const NoWithdrawals := WithdrawalPatterns(0, 0, false, 0.0, 0.0, 0.0, None, None, 0)

  /** The withdrawal dates, oldest first. */
  function WithdrawalDates(withdrawals: seq<Tx>): (r: seq<int>)
    ensures |r| == |withdrawals|
  {
    SortCorrect(Ascending, withdrawals);
    Timestamps(Sort(Ascending, withdrawals))
  }

  /**
   * The figures of a non-empty withdrawal list, given its dates oldest first,
   * the gaps between them and its longest run of large withdrawals.
   */
  function PatternsFrom(w: seq<Tx>, dates: seq<int>, gaps: seq<real>, run: nat): (r: WithdrawalPatterns)
    requires w != [] && |dates| == |w|
    ensures 0 <= r.riskScore <= 40
  {
    var amounts := Amounts(w);
    var large := |Filter(w, IsLarge)|;
    var avg := AvgInterval(gaps);
    var frequent := if avg < 7.0 then |dates| else 0;
    var totalDays := (dates[|dates| - 1] - dates[0]) as real / DayMs as real;
    WithdrawalPatterns(
      large, frequent, run >= 3, MaxReal(amounts), Sum(amounts),
      Round2(WithdrawalFrequency(|w|, totalDays)), Some(run), Some(Round2(avg)),
      WithdrawalRiskScore(large, frequent, run >= 3))
  }

  /** `analyzeWithdrawalPatterns`: sales and withdrawals, in ledger order. */
  function WithdrawalPatternsOf(history: seq<Tx>): (r: WithdrawalPatterns)
    ensures 0 <= r.riskScore <= 40
    ensures r.maxConsecutiveLarge.Some? ==> r.maxConsecutiveLarge.value <= r.largeWithdrawals
    ensures r.largeWithdrawals <= |Sales(history)|
  {
    var w := Sales(history);
    if w == [] then NoWithdrawals
    else
      var dates := WithdrawalDates(w);
      LongestRunBound(w);
      PatternsFrom(w, dates, WithdrawalGaps(dates), LongestLargeRun(w))
  }

  method AnalyzeWithdrawalPatterns(history: seq<Tx>) returns (r: WithdrawalPatterns)
    ensures r == WithdrawalPatternsOf(history)
  {
    var withdrawals := Sales(history);
    if |withdrawals| == 0 {
      return NoWithdrawals;
    }
    var sorted := SortedCopy(withdrawals, Ascending);
    var withdrawalDates := Timestamps(sorted);
    var timeIntervals := GapsInDays(withdrawalDates);
    var maxConsecutive := MaxConsecutiveLarge(withdrawals);
    SortCorrect(Ascending, withdrawals);
    r := PatternsFrom(withdrawals, withdrawalDates, timeIntervals, maxConsecutive);
  }

  lemma NoSalesNoWithdrawalRisk(history: seq<Tx>)
    requires forall t :: t in history ==> !IsSale(t)
    ensures WithdrawalPatternsOf(history) == NoWithdrawals
  {
    FilterNone(history, IsSale);
  }

  /** A sudden pattern is three large withdrawals in a row, in ledger order. */
  lemma SuddenIffThreeInARow(history: seq<Tx>)
    ensures var w := Sales(history);
      WithdrawalPatternsOf(history).suddenPattern <==> exists j :: 3 <= j <= |w| && LargeRunEndsAt(w, j, 3)
  {
    var w := Sales(history);
    LongestRunAtLeast(w, 3);
  }

  /**
   * With two or more withdrawals they count as frequent exactly when the
   * span from the first to the last is under seven days per gap.
   */
  lemma FrequentIffDense(history: seq<Tx>)
    requires |Sales(history)| >= 2
    ensures var dates := WithdrawalDates(Sales(history));
      (WithdrawalPatternsOf(history).frequentWithdrawals > 0
       <==> dates[|dates| - 1] - dates[0] < 7 * (|dates| - 1) * DayMs)
  {
    var w := Sales(history);
    var dates := WithdrawalDates(w);
    var gaps := WithdrawalGaps(dates);
    assert WithdrawalPatternsOf(history) == PatternsFrom(w, dates, gaps, LongestLargeRun(w));
    AverageGapUnderAWeek(dates);
  }

  /** The average gap is under seven days exactly when the whole span is under seven days per gap. */
  lemma AverageGapUnderAWeek(dates: seq<int>)
    requires |dates| >= 2
    ensures AvgInterval(WithdrawalGaps(dates)) < 7.0 <==> dates[|dates| - 1] - dates[0] < 7 * (|dates| - 1) * DayMs
  {
    var gaps := WithdrawalGaps(dates);
    assert AvgInterval(gaps) == Sum(gaps) / (|dates| - 1) as real;
    GapsTelescope(dates);
    DenseSpan(dates[|dates| - 1] - dates[0], |dates| - 1, Sum(gaps));
  }

  /** The average gap is under 7 days exactly when the span is under 7 days per gap. */
  lemma DenseSpan(span: int, n: nat, total: real)
    requires n > 0 && total == span as real / DayMs as real
    ensures total / n as real < 7.0 <==> span < 7 * n * DayMs
  {
    QuotientAtLeast(total, n as real, 7.0);
    QuotientAtLeast(span as real, DayMs as real, 7.0 * n as real);
  }

  /** A single withdrawal has no interval; the average defaults to 0, which counts as frequent. */
  lemma SingleWithdrawalIsFrequent(history: seq<Tx>)
    requires |Sales(history)| == 1
    ensures WithdrawalPatternsOf(history).frequentWithdrawals == 1
    ensures WithdrawalPatternsOf(history).riskScore >= 5
  {
  }

  // -------------------------------------------------------- fraud indicators

  datatype FraudIndicator = UnusualAmounts | UnusualTiming | RapidTransactions | CircularTransactions
  datatype Severity = LowSeverity | MediumSeverity | HighSeverity

  function SeverityRank(s: Severity): nat
  {
    match s
    case LowSeverity => 0
    case MediumSeverity => 1
    case HighSeverity => 2
  }

  /** `determineSeverity`: high from 70, medium from 40. */
  function SeverityOf(score: int): (s: Severity)
    ensures s == HighSeverity <==> score >= 70
    ensures s == LowSeverity <==> score < 40
  {
    if score >= 70 then HighSeverity else if score >= 40 then MediumSeverity else LowSeverity
  }

  lemma SeverityMonotone(x: int, y: int)
    requires x <= y
    ensures SeverityRank(SeverityOf(x)) <= SeverityRank(SeverityOf(y))
  {
  }

  /** The user profile's `location` and `locations`; an absent field is `None`. */
  datatype Profile = Profile(location: Option<string>, locations: Option<seq<string>>)

  /** What the location and device consistency checks return. */
  datatype ConsistencyCheck = ConsistencyCheck(consistent: bool, score: int, indicators: seq<FraudIndicator>)

  /** `analyzeLocationConsistency`: a fixed answer in the engine. */
  function AnalyzeLocationConsistency(transactions: seq<Tx>, locations: seq<string>): ConsistencyCheck
  {
    ConsistencyCheck(true, 0, [])
  }

  /** `analyzeDeviceConsistency`: a fixed answer in the engine. */
  function AnalyzeDeviceConsistency(transactions: seq<Tx>): ConsistencyCheck
  {
    ConsistencyCheck(true, 0, [])
  }

  /** `userProfile && userProfile.locations`. */
  predicate ChecksLocations(profile: Option<Profile>)
  {
    profile.Some? && profile.value.locations.Some?
  }

  /** The fraud amount test: beyond three standard deviations of the mean and above twice the mean. */
  function SuspiciousAmount(mean: real, variance: real): Tx -> bool
  {
    (t: Tx) => (t.amount - mean) * (t.amount - mean) > Deviation * Deviation * variance && t.amount > mean * 2.0
  }

  /** The records failing the amount test; none for an empty ledger, whose mean is undefined. */
  function SuspiciousAmounts(s: seq<Tx>): seq<Tx>
  {
    if s == [] then [] else Filter(s, SuspiciousAmount(Mean(Amounts(s)), Variance(Amounts(s))))
  }

  /** `detectUnusualTimePatterns`: the hour of day is 2 to 5. */
  function UnusualHour(rt: Runtime): Tx -> bool
  {
    (t: Tx) => 2 <= rt.hourOf(t.timestamp) <= 5
  }

  /** `detectCircularTransactions`: both wallets present and equal. */
  predicate IsCircular(t: Tx)
  {
    t.from != "" && t.to != "" && t.from == t.to
  }

  /** The records the rapid check flags: each one less than a minute after its predecessor in s. */
  function Rapid(s: seq<Tx>): (r: seq<Tx>)
    ensures |s| > 0 ==> |r| < |s|
    ensures forall x :: x in r ==> x in s
  {
    if |s| < 2 then []
    else
      var n := |s|;
      Rapid(s[..n - 1]) + Flag(s[n - 1].timestamp - s[n - 2].timestamp < RapidWindow, s[n - 1])
  }

  /** The i-th record, with its predecessor, is flagged exactly when it follows within a minute. */
  lemma {:induction false} RapidExact(s: seq<Tx>, x: Tx)
    ensures x in Rapid(s) <==>
      exists i :: 1 <= i < |s| && s[i] == x && s[i].timestamp - s[i - 1].timestamp < RapidWindow
  {
    if |s| >= 2 {
      var init := s[..|s| - 1];
      RapidExact(init, x);
      assert forall i :: 0 <= i < |init| ==> init[i] == s[i];
    }
  }

  /** No two successive records within a minute: nothing is flagged. */
  lemma SpacedLedgerNotRapid(s: seq<Tx>)
    requires forall i :: 1 <= i < |s| ==> s[i].timestamp - s[i - 1].timestamp >= RapidWindow
    ensures Rapid(s) == []
  {
    if Rapid(s) != [] {
      RapidExact(s, Rapid(s)[0]);
    }
  }

  /**
   * `detectRapidTransactions`: sorts the ledger oldest first in place, then
   * flags each record less than a minute after its predecessor.
   */
  method DetectRapidTransactions(a: array<Tx>) returns (rapid: seq<Tx>)
    modifies a
    ensures a[..] == Sort(Ascending, old(a[..]))
    ensures rapid == Rapid(a[..])
  {
    SortLedger(a, Ascending);
    rapid := [];
    if a.Length < 2 {
      return;
    }
    var i := 1;
    while i < a.Length
      invariant 1 <= i <= a.Length
      invariant rapid == Rapid(a[..i])
    {
      assert a[..i + 1][..i] == a[..i];
      if a[i].timestamp - a[i - 1].timestamp < RapidWindow {
        rapid := rapid + [a[i]];
      }
      i := i + 1;
    }
    assert a[..i] == a[..];
  }

  /** The sorted ledger is oldest first and holds the same records. */
  lemma RapidCheckPermutes(s: seq<Tx>)
    ensures SortedBy(Ascending, Sort(Ascending, s)) && multiset(Sort(Ascending, s)) == multiset(s)
    ensures |Rapid(Sort(Ascending, s))| <= if s == [] then 0 else |s| - 1
  {
    SortCorrect(Ascending, s);
  }

  datatype FraudIndicators = FraudIndicators(
    suspiciousActivity: nat,
    indicators: seq<FraudIndicator>,
    score: int,
    severity: Severity,
    unusualAmounts: nat,
    unusualTimeTransactions: nat,
    rapidTransactions: nat,
    circularTransactions: nat)

  /** The uncapped fraud score: 10, 5, 15 and 20 points per flagged record, plus the consistency checks. */
  function FraudScore(amounts: nat, times: nat, rapid: nat, circular: nat,
                      location: Option<ConsistencyCheck>, device: ConsistencyCheck): int
  {
    10 * amounts + 5 * times + 15 * rapid + 20 * circular
    + (if location.Some? then location.value.score else 0) + device.score
  }

  /** `if (cond) list.push(x)`. */
  function Pushed<T(!new)>(acc: seq<T>, cond: bool, x: T): (r: seq<T>)
    ensures forall y :: y in r <==> y in acc || (cond && y == x)
    ensures |r| == |acc| + (if cond then 1 else 0)
  {
    if cond then acc + [x] else acc
  }

  /** The indicator kinds pushed, in the order of the checks. */
  function FraudKinds(amounts: nat, times: nat, rapid: nat, circular: nat,
                      location: Option<ConsistencyCheck>, device: ConsistencyCheck): seq<FraudIndicator>
  {
    var k := Pushed(Pushed(Pushed(Pushed([], amounts > 0, UnusualAmounts), times > 0, UnusualTiming),
                           rapid > 0, RapidTransactions), circular > 0, CircularTransactions);
    k + (if location.Some? then location.value.indicators else []) + device.indicators
  }

  function FraudFrom(amounts: nat, times: nat, rapid: nat, circular: nat,
                     location: Option<ConsistencyCheck>, device: ConsistencyCheck): FraudIndicators
  {
    var kinds := FraudKinds(amounts, times, rapid, circular, location, device);
    var raw := FraudScore(amounts, times, rapid, circular, location, device);
    FraudIndicators(|kinds|, kinds, MinInt(100, raw), SeverityOf(raw), amounts, times, rapid, circular)
  }

  /**
   * `detectFraudulentActivity` on the ledger s as it stands when called. The
   * amount and hour checks read s; the rapid check sorts it, and the circular
   * and consistency checks read the sorted ledger.
   */
  function FraudOf(rt: Runtime, s: seq<Tx>, profile: Option<Profile>): FraudIndicators
  {
    var sorted := Sort(Ascending, s);
    var location := if ChecksLocations(profile)
      then Some(AnalyzeLocationConsistency(sorted, profile.value.locations.value)) else None;
    FraudFrom(|SuspiciousAmounts(s)|, |Filter(s, UnusualHour(rt))|, |Rapid(sorted)|,
              |Filter(sorted, IsCircular)|, location, AnalyzeDeviceConsistency(sorted))
  }

  method DetectFraudulentActivity(rt: Runtime, a: array<Tx>, profile: Option<Profile>) returns (r: FraudIndicators)
    modifies a
    ensures a[..] == Sort(Ascending, old(a[..]))
    ensures r == FraudOf(rt, old(a[..]), profile)
  {
    var transactions := a[..];
    var suspiciousAmounts := SuspiciousAmounts(transactions);
    var unusualTime := Filter(transactions, UnusualHour(rt));
    var rapid := DetectRapidTransactions(a);
    var circular := Filter(a[..], IsCircular);
    var location: Option<ConsistencyCheck> := None;
    if ChecksLocations(profile) {
      location := Some(AnalyzeLocationConsistency(a[..], profile.value.locations.value));
    }
    var deviceRisk := AnalyzeDeviceConsistency(a[..]);
    r := ScoreFraud(|suspiciousAmounts|, |unusualTime|, |rapid|, |circular|, location, deviceRisk);
  }

  /** The `riskScore +=` and `indicators.push` steps of the fraud detector, from the checks' results. */
  method ScoreFraud(amounts: nat, times: nat, rapid: nat, circular: nat,
                    location: Option<ConsistencyCheck>, device: ConsistencyCheck) returns (r: FraudIndicators)
    ensures r == FraudFrom(amounts, times, rapid, circular, location, device)
  {
    var riskScore := 0;
    var indicators: seq<FraudIndicator> := [];
    ghost var k0 := indicators;
    if amounts > 0 {
      riskScore := riskScore + amounts * 10;
      indicators := indicators + [UnusualAmounts];
    }
    assert indicators == Pushed(k0, amounts > 0, UnusualAmounts) && riskScore == 10 * amounts;
    ghost var k1 := indicators;
    if times > 0 {
      riskScore := riskScore + times * 5;
      indicators := indicators + [UnusualTiming];
    }
    assert indicators == Pushed(k1, times > 0, UnusualTiming) && riskScore == 10 * amounts + 5 * times;
    ghost var k2 := indicators;
    if rapid > 0 {
      riskScore := riskScore + rapid * 15;
      indicators := indicators + [RapidTransactions];
    }
    assert indicators == Pushed(k2, rapid > 0, RapidTransactions) && riskScore == 10 * amounts + 5 * times + 15 * rapid;
    ghost var k3 := indicators;
    if circular > 0 {
      riskScore := riskScore + circular * 20;
      indicators := indicators + [CircularTransactions];
    }
    assert indicators == Pushed(k3, circular > 0, CircularTransactions);
    assert riskScore == 10 * amounts + 5 * times + 15 * rapid + 20 * circular;
    ghost var k4 := indicators;
    if location.Some? {
      riskScore := riskScore + location.value.score;
      if |location.value.indicators| > 0 {
        indicators := indicators + location.value.indicators;
      }
    }
    assert indicators == k4 + (if location.Some? then location.value.indicators else []);
    riskScore := riskScore + device.score;
    if |device.indicators| > 0 {
      indicators := indicators + device.indicators;
    }
    assert indicators == FraudKinds(amounts, times, rapid, circular, location, device);
    r := FraudIndicators(|indicators|, indicators, MinInt(100, riskScore), SeverityOf(riskScore),
                         amounts, times, rapid, circular);
  }

  /**
   * Each indicator kind is reported exactly when its check flagged a record,
   * `suspiciousActivity` counts the kinds, the score is the capped sum of the
   * per-record points and the severity is read from the uncapped sum.
   */
  predicate FraudReportExact(f: FraudIndicators)
  {
    var raw := 10 * f.unusualAmounts + 5 * f.unusualTimeTransactions + 15 * f.rapidTransactions + 20 * f.circularTransactions;
    && (UnusualAmounts in f.indicators <==> f.unusualAmounts > 0)
    && (UnusualTiming in f.indicators <==> f.unusualTimeTransactions > 0)
    && (RapidTransactions in f.indicators <==> f.rapidTransactions > 0)
    && (CircularTransactions in f.indicators <==> f.circularTransactions > 0)
    && f.suspiciousActivity == |f.indicators| <= 4
    && f.score == MinInt(100, raw) && 0 <= f.score <= 100
    && f.severity == SeverityOf(raw)
  }

  /** With the engine's fixed consistency answers the kinds and the score are the four checks'. */
  lemma FraudFromExact(amounts: nat, times: nat, rapid: nat, circular: nat,
                       location: Option<ConsistencyCheck>, device: ConsistencyCheck)
    requires location.Some? ==> location.value.score == 0 && location.value.indicators == []
    requires device.score == 0 && device.indicators == []
    ensures FraudReportExact(FraudFrom(amounts, times, rapid, circular, location, device))
  {
    var k := FraudKinds(amounts, times, rapid, circular, location, device);
    assert k == Pushed(Pushed(Pushed(Pushed([], amounts > 0, UnusualAmounts), times > 0, UnusualTiming),
                              rapid > 0, RapidTransactions), circular > 0, CircularTransactions);
  }

  /** The fraud report of any ledger and profile is exact in the sense of `FraudReportExact`. */
  lemma FraudIndicatorsExact(rt: Runtime, s: seq<Tx>, profile: Option<Profile>)
    ensures FraudReportExact(FraudOf(rt, s, profile))
  {
    var sorted := Sort(Ascending, s);
    var location := if ChecksLocations(profile)
      then Some(AnalyzeLocationConsistency(sorted, profile.value.locations.value)) else None;
    var a, t, r, c := |SuspiciousAmounts(s)|, |Filter(s, UnusualHour(rt))|, |Rapid(sorted)|, |Filter(sorted, IsCircular)|;
    assert FraudOf(rt, s, profile) == FraudFrom(a, t, r, c, location, AnalyzeDeviceConsistency(sorted));
    FraudFromExact(a, t, r, c, location, AnalyzeDeviceConsistency(sorted));
  }

  /** A ledger that trips no check has no indicators, score 0 and low severity. */
  lemma CleanLedgerNoFraud(rt: Runtime, s: seq<Tx>, profile: Option<Profile>)
    requires forall t :: t in s ==> !UnusualHour(rt)(t) && !IsCircular(t)
    requires SuspiciousAmounts(s) == []
    requires forall i :: 1 <= i < |Sort(Ascending, s)| ==>
      Sort(Ascending, s)[i].timestamp - Sort(Ascending, s)[i - 1].timestamp >= RapidWindow
    ensures FraudOf(rt, s, profile).indicators == []
    ensures FraudOf(rt, s, profile).score == 0 && FraudOf(rt, s, profile).severity == LowSeverity
  {
    var sorted := Sort(Ascending, s);
    SortCorrect(Ascending, s);
    FilterNone(s, UnusualHour(rt));
    forall t | t in sorted ensures !IsCircular(t) {
      assert t in multiset(sorted);
    }
    FilterNone(sorted, IsCircular);
    SpacedLedgerNotRapid(sorted);
    FraudIndicatorsExact(rt, s, profile);
  }

  // ------------------------------------------------------------ wallet usage

  datatype WalletIndicator = ExcessiveWallets | FrequentWalletChanges

  datatype WalletUsage = WalletUsage(
    count: nat,
    types: seq<Platform>,
    multiChainUsage: nat,
    indicators: seq<WalletIndicator>,
    riskScore: int)

  /**
   * The platforms whose holding carries an address, in the order gold,
   * silver, platinum, binr. The addresses are those of the fetched holdings,
   * `PortfolioFetcher.HoldingAddresses` of the portfolio.
   */
  function Wallets(addresses: PortfolioFetcher.Addresses): (r: seq<Platform>)
    ensures |r| <= 4
    ensures forall i, j :: 0 <= i < j < |r| ==> r[i] != r[j]
    ensures forall p :: p in r <==> PortfolioFetcher.HasAddress(addresses.At(p))
  {
    var gold, silver := PortfolioFetcher.HasAddress(addresses.gold), PortfolioFetcher.HasAddress(addresses.silver);
    var platinum, binr := PortfolioFetcher.HasAddress(addresses.platinum), PortfolioFetcher.HasAddress(addresses.binr);
    PlatformFlagsDistinct(gold, silver, platinum, binr);
    Flag(gold, Gold) + Flag(silver, Silver) + Flag(platinum, Platinum) + Flag(binr, Binr)
  }

  /** The pushed platforms are pairwise different, each check pushing its own. */
  lemma PlatformFlagsDistinct(gold: bool, silver: bool, platinum: bool, binr: bool)
    ensures var r := Flag(gold, Gold) + Flag(silver, Silver) + Flag(platinum, Platinum) + Flag(binr, Binr);
      forall i, j :: 0 <= i < j < |r| ==> r[i] != r[j]
  {
    var a, b, c, d := Flag(gold, Gold), Flag(silver, Silver), Flag(platinum, Platinum), Flag(binr, Binr);
    AppendDistinct(a, b);
    AppendDistinct(a + b, c);
    AppendDistinct(a + b + c, d);
  }

  /** Joining two lists without repeats that share no element gives a list without repeats. */
  lemma AppendDistinct<T>(a: seq<T>, b: seq<T>)
    requires forall i, j :: 0 <= i < j < |a| ==> a[i] != a[j]
    requires forall i, j :: 0 <= i < j < |b| ==> b[i] != b[j]
    requires forall x :: x in a ==> x !in b
    ensures forall i, j :: 0 <= i < j < |a + b| ==> (a + b)[i] != (a + b)[j]
  {
    forall i, j | 0 <= i < j < |a + b| ensures (a + b)[i] != (a + b)[j] {
      if i < |a| && |a| <= j {
        assert (a + b)[i] in a && (a + b)[j] in b;
      }
    }
  }

  /** `detectFrequentWalletChanges`: a fixed answer in the engine. */
  function DetectFrequentWalletChanges(userId: string, wallets: seq<Platform>): bool
  {
    false
  }

  /** `analyzeWalletUsage`, over the address each platform's holding carries. */
  function WalletUsageOf(userId: string, addresses: PortfolioFetcher.Addresses): (r: WalletUsage)
    ensures r.count <= 4 && 0 <= r.riskScore <= 20
    ensures ExcessiveWallets !in r.indicators
  {
    var wallets := Wallets(addresses);
    var excessive := |wallets| > 4;
    var changes := DetectFrequentWalletChanges(userId, wallets);
    var score := (if excessive then 15 else 0) + (if changes then 10 else 0);
    WalletUsage(|wallets|, Distinct(wallets), |Distinct(wallets)|,
                Flag(excessive, ExcessiveWallets) + Flag(changes, FrequentWalletChanges), MinInt(20, score))
  }

  /** Every wallet has its own platform: the distinct types are the wallets themselves. */
  lemma WalletTypesAreWallets(userId: string, addresses: PortfolioFetcher.Addresses)
    ensures var r := WalletUsageOf(userId, addresses);
      r.types == Wallets(addresses) && r.multiChainUsage == r.count
      && (forall p :: p in r.types <==> PortfolioFetcher.HasAddress(addresses.At(p)))
  {
    DistinctOfDistinct(Wallets(addresses));
  }

  // ---------------------------------------------------------- activity level

  datatype ActivityLevel = ActivityLevel(
    daysSinceLastActivity: int,
    activityFrequency: real,
    totalTransactions: Option<nat>,
    activeMonths: nat,
    riskScore: int)

  /** The result for an empty ledger; it reports no transaction total. */
  const NoActivity := ActivityLevel(365, 0.0, None, 0, 20)

  /** Risk points for the days since the last activity: 20 past 90 days, 10 past 30. */
  function InactivityRisk(days: int): int
  {
    if days > InactivePeriod then 20 else if days > 30 then 10 else 0
  }

  /** The month key (year and month) of each record. */
  function MonthIndexes(rt: Runtime, s: seq<Tx>): (r: seq<int>)
    ensures |r| == |s|
  {
    seq(|s|, i requires 0 <= i < |s| => rt.monthIndex(s[i].timestamp))
  }

  /** `analyzeActivityLevel` on the ledger s as it stands when called (it sorts s newest first). */
  function ActivityOf(rt: Runtime, s: seq<Tx>, now: int): (r: ActivityLevel)
    ensures r.riskScore == InactivityRisk(r.daysSinceLastActivity)
    ensures r.activeMonths <= |s|
    ensures s == [] ==> r == NoActivity
  {
    if s == [] then NoActivity
    else
      SortCorrect(Descending, s);
      var d := Sort(Descending, s);
      var days := (now - d[0].timestamp) / DayMs;
      var totalDays := (now - d[|d| - 1].timestamp) as real / DayMs as real;
      var frequency := |d| as real / Max(totalDays, 1.0);
      var months := set m | m in MonthIndexes(rt, d);
      SetOfSeqCard(MonthIndexes(rt, d));
      ActivityLevel(days, Round2(frequency), Some(|d|), |months|, InactivityRisk(days))
  }

  method AnalyzeActivityLevel(rt: Runtime, a: array<Tx>, now: int) returns (r: ActivityLevel)
    modifies a
    ensures a[..] == Sort(Descending, old(a[..]))
    ensures r == ActivityOf(rt, old(a[..]), now)
  {
    if a.Length == 0 {
      return NoActivity;
    }
    SortLedger(a, Descending);
    var lastTransaction := a[0].timestamp;
    var daysSinceLastActivity := (now - lastTransaction) / DayMs;
    var firstTransaction := a[a.Length - 1].timestamp;
    var totalDays := (now - firstTransaction) as real / DayMs as real;
    var activityFrequency := a.Length as real / Max(totalDays, 1.0);
    var monthlyActivity := ActiveMonths(rt, a[..]);
    r := ActivityLevel(daysSinceLastActivity, Round2(activityFrequency), Some(a.Length), |monthlyActivity|,
                       InactivityRisk(daysSinceLastActivity));
  }

  /** The month set loop: every record adds its month key. */
  method ActiveMonths(rt: Runtime, s: seq<Tx>) returns (months: set<int>)
    ensures months == set m | m in MonthIndexes(rt, s)
  {
    months := {};
    var keys := MonthIndexes(rt, s);
    for i := 0 to |s|
      invariant months == set m | m in keys[..i]
    {
      assert keys[..i + 1] == keys[..i] + [rt.monthIndex(s[i].timestamp)];
      months := months + {rt.monthIndex(s[i].timestamp)};
    }
    assert keys[..|s|] == keys;
  }

  /** The days since the last activity are counted from the newest record. */
  lemma ActivityFromNewest(rt: Runtime, s: seq<Tx>, now: int)
    requires s != []
    ensures exists t :: t in s && ActivityOf(rt, s, now).daysSinceLastActivity == (now - t.timestamp) / DayMs
                         && forall u :: u in s ==> u.timestamp <= t.timestamp
  {
    SortedHead(Descending, s);
    var t := Sort(Descending, s)[0];
    assert ActivityOf(rt, s, now).daysSinceLastActivity == (now - t.timestamp) / DayMs;
    assert forall u :: u in s ==> Key(Descending, t) <= Key(Descending, u);
  }

  // --------------------------------------------------- unusual transactions

  datatype UnusualPattern = LargeAmounts | UnusualTimingPattern

  datatype UnusualTransactions = UnusualTransactions(
    count: nat,
    patterns: seq<UnusualPattern>,
    riskScore: int,
    outliers: Option<seq<Tx>>)

  /** The result below five transactions; it reports no outlier list. */
  const TooFewTransactions := UnusualTransactions(0, [], 0, None)

  /** More than three standard deviations from the mean amount. */
  function AmountDeviates(mean: real, variance: real): Tx -> bool
  {
    (t: Tx) => (t.amount - mean) * (t.amount - mean) > Deviation * Deviation * variance
  }

  function AmountOutliers(s: seq<Tx>): seq<Tx>
  {
    if s == [] then [] else Filter(s, AmountDeviates(Mean(Amounts(s)), Variance(Amounts(s))))
  }

  /** The hour of day of each record. */
  function Hours(rt: Runtime, s: seq<Tx>): (r: seq<int>)
    ensures |r| == |s|
  {
    seq(|s|, i requires 0 <= i < |s| => rt.hourOf(s[i].timestamp))
  }

  function AsReals(s: seq<int>): (r: seq<real>)
    ensures |r| == |s|
  {
    seq(|s|, i requires 0 <= i < |s| => s[i] as real)
  }

  /** More than two standard deviations from the mean hour. */
  function HourDeviates(rt: Runtime, mean: real, variance: real): Tx -> bool
  {
    (t: Tx) => (rt.hourOf(t.timestamp) as real - mean) * (rt.hourOf(t.timestamp) as real - mean) > 4.0 * variance
  }

  /** `detectTimingOutliers`; none for an empty ledger, whose mean hour is undefined. */
  function TimingOutliers(rt: Runtime, s: seq<Tx>): seq<Tx>
  {
    if s == [] then []
    else
      var hours := AsReals(Hours(rt, s));
      Filter(s, HourDeviates(rt, Mean(hours), Variance(hours)))
  }

  /**
   * With a true square root, a record is a timing outlier exactly when its
   * hour lies more than two standard deviations from the mean hour.
   */
  lemma TimingOutliersExact(rt: Runtime, s: seq<Tx>, t: Tx)
    requires IsSqrt(rt.sqrt) && s != []
    ensures t in TimingOutliers(rt, s)
        <==> t in s && Abs(rt.hourOf(t.timestamp) as real - Mean(AsReals(Hours(rt, s))))
                       > 2.0 * rt.sqrt(Variance(AsReals(Hours(rt, s))))
  {
    var hours := AsReals(Hours(rt, s));
    var mean, variance := Mean(hours), Variance(hours);
    VarianceNonNegative(hours);
    SquaredTest(rt.sqrt, rt.hourOf(t.timestamp) as real - mean, variance, 2.0);
    assert HourDeviates(rt, mean, variance)(t)
       <==> (rt.hourOf(t.timestamp) as real - mean) * (rt.hourOf(t.timestamp) as real - mean) > 2.0 * 2.0 * variance;
  }

  function Ids(s: seq<Tx>): (r: seq<string>)
    ensures |r| == |s| && forall i :: 0 <= i < |s| ==> r[i] == s[i].id
  {
    seq(|s|, i requires 0 <= i < |s| => s[i].id)
  }

  /** Keeps each record whose id has not occurred before it: `findIndex` of its id is its own index. */
  function DedupById(s: seq<Tx>): (r: seq<Tx>)
    ensures |r| <= |s|
    ensures forall x :: x in r ==> x in s
    ensures forall i, j :: 0 <= i < j < |r| ==> r[i].id != r[j].id
    ensures forall i :: 0 <= i < |s| ==> s[i].id in Ids(r)
  {
    if s == [] then []
    else
      var init, x := s[..|s| - 1], s[|s| - 1];
      var d := DedupById(init);
      assert forall i :: 0 <= i < |init| ==> init[i] == s[i];
      assert forall y :: y in d ==> y.id in Ids(init);
      assert Ids(d + [x]) == Ids(d) + [x.id];
      if x.id in Ids(init) then d else d + [x]
  }

  /** The first record of s that carries the id. */
  function FirstWithId(s: seq<Tx>, id: string): (t: Tx)
    requires id in Ids(s)
    ensures t in s && t.id == id
    ensures exists i :: 0 <= i < |s| && s[i] == t && id !in Ids(s[..i])
  {
    var init, x := s[..|s| - 1], s[|s| - 1];
    assert Ids(s) == Ids(init) + [x.id];
    if id in Ids(init) then
      var t := FirstWithId(init, id);
      assert exists i :: 0 <= i < |s| && s[i] == t && id !in Ids(s[..i]) by {
        var i :| 0 <= i < |init| && init[i] == t && id !in Ids(init[..i]);
        assert s[..i] == init[..i];
      }
      t
    else
      assert s[..|s| - 1] == init;
      x
  }

  /** The kept ids are the ids of s in order of first appearance. */
  lemma {:induction false} DedupIdsFirstSeen(s: seq<Tx>)
    ensures Ids(DedupById(s)) == Distinct(Ids(s))
  {
    if s != [] {
      var init, x := s[..|s| - 1], s[|s| - 1];
      DedupIdsFirstSeen(init);
      var d := DedupById(init);
      var ids := Ids(s);
      assert ids[..|ids| - 1] == Ids(init);
      assert Distinct(ids) == if x.id in Distinct(Ids(init)) then Distinct(Ids(init)) else Distinct(Ids(init)) + [x.id];
      if x.id !in Ids(init) {
        assert Ids(d + [x]) == Ids(d) + [x.id];
      }
    }
  }

  /** An id already present before the last record has the same first record. */
  lemma FirstWithIdOfInit(s: seq<Tx>, id: string)
    requires s != [] && id in Ids(s[..|s| - 1])
    ensures id in Ids(s) && FirstWithId(s, id) == FirstWithId(s[..|s| - 1], id)
  {
    var init := s[..|s| - 1];
    var k :| 0 <= k < |init| && Ids(init)[k] == id;
    assert Ids(s)[k] == id;
  }

  /** Each kept record is the first record of s with its id. */
  lemma {:induction false} DedupKeepsFirst(s: seq<Tx>)
    ensures forall k :: 0 <= k < |DedupById(s)| ==>
      DedupById(s)[k].id in Ids(s) && DedupById(s)[k] == FirstWithId(s, DedupById(s)[k].id)
  {
    if s != [] {
      var init, x := s[..|s| - 1], s[|s| - 1];
      DedupKeepsFirst(init);
      var d := DedupById(init);
      forall k | 0 <= k < |d| ensures d[k].id in Ids(s) && d[k] == FirstWithId(s, d[k].id) {
        FirstWithIdOfInit(s, d[k].id);
      }
      if x.id !in Ids(init) {
        assert Ids(s)[|s| - 1] == x.id;
        assert FirstWithId(s, x.id) == x;
      }
    }
  }

  /** A list whose ids are already distinct is kept as it is. */
  lemma {:induction false} DedupOfDistinct(s: seq<Tx>)
    requires forall i, j :: 0 <= i < j < |s| ==> s[i].id != s[j].id
    ensures DedupById(s) == s
  {
    if s != [] {
      var init, x := s[..|s| - 1], s[|s| - 1];
      assert forall i :: 0 <= i < |init| ==> init[i] == s[i];
      DedupOfDistinct(init);
      assert x.id !in Ids(init) by {
        forall i | 0 <= i < |init| ensures Ids(init)[i] != x.id {
          assert init[i] == s[i] && x == s[|s| - 1];
        }
      }
      assert s == init + [x];
    }
  }

  predicate OffHours(h: int) { h < 6 || h > 23 }

  /** `identifyUnusualPatterns`. */
  function UnusualPatternsOf(rt: Runtime, u: seq<Tx>): (r: seq<UnusualPattern>)
    ensures u == [] ==> r == []
  {
    if u == [] then []
    else
      Flag(MaxReal(Amounts(u)) > 100000.0, LargeAmounts)
      + Flag(|Filter(Hours(rt, u), OffHours)| as real > |u| as real * 0.3, UnusualTimingPattern)
  }

  /**
   * Large amounts are reported exactly when some record exceeds 100 000, and
   * unusual timing exactly when more than 30% of the records fall in the off
   * hours; each at most once.
   */
  lemma UnusualPatternsExact(rt: Runtime, u: seq<Tx>)
    ensures LargeAmounts in UnusualPatternsOf(rt, u) <==> exists t :: t in u && t.amount > 100000.0
    ensures UnusualTimingPattern in UnusualPatternsOf(rt, u)
        <==> u != [] && 10 * |Filter(Hours(rt, u), OffHours)| > 3 * |u|
    ensures |UnusualPatternsOf(rt, u)| <= 2
  {
    if u != [] {
      var amounts := Amounts(u);
      var top := MaxReal(amounts);
      if top > 100000.0 {
        var j :| 0 <= j < |amounts| && amounts[j] == top;
        assert u[j] in u;
      } else {
        forall t | t in u ensures t.amount <= 100000.0 {
          var j :| 0 <= j < |u| && u[j] == t;
          assert amounts[j] == t.amount;
        }
      }
    }
  }

  /** The amount outliers followed by the timing outliers; all are records of s. */
  function OutlierCandidates(rt: Runtime, s: seq<Tx>): (r: seq<Tx>)
    ensures forall x :: x in r ==> x in s
  {
    AmountOutliers(s) + TimingOutliers(rt, s)
  }

  /** The report for the deduplicated outliers: count, patterns, points and the first ten. */
  function UnusualFrom(rt: Runtime, unique: seq<Tx>): (r: UnusualTransactions)
    ensures r.count == |unique|
    ensures r.riskScore == MinInt(15, 3 * r.count) && 0 <= r.riskScore <= 15
    ensures r.outliers == Some(unique[..MinInt(10, |unique|)])
  {
    UnusualTransactions(|unique|, UnusualPatternsOf(rt, unique), MinInt(15, |unique| * 3),
                        Some(unique[..MinInt(10, |unique|)]))
  }

  /** `detectUnusualTransactions` on the ledger s as it stands when called. */
  function UnusualOf(rt: Runtime, s: seq<Tx>): (r: UnusualTransactions)
    ensures |s| < MinTransactions ==> r == TooFewTransactions
    ensures r.riskScore == MinInt(15, 3 * r.count) && 0 <= r.riskScore <= 15
    ensures r.outliers.Some? ==> |r.outliers.value| == MinInt(10, r.count)
    ensures r.outliers.Some? ==> forall x :: x in r.outliers.value ==> x in s
    ensures |s| >= MinTransactions ==> r.count == |DedupById(AmountOutliers(s) + TimingOutliers(rt, s))|
    ensures |s| >= MinTransactions ==>
      r.outliers == Some(DedupById(AmountOutliers(s) + TimingOutliers(rt, s))[..MinInt(10, r.count)])
    ensures |s| >= MinTransactions ==> r.patterns == UnusualPatternsOf(rt, DedupById(AmountOutliers(s) + TimingOutliers(rt, s)))
  {
    if |s| < MinTransactions then TooFewTransactions
    else
      var unique := DedupById(OutlierCandidates(rt, s));
      assert forall x :: x in unique[..MinInt(10, |unique|)] ==> x in unique;
      UnusualFrom(rt, unique)
  }

  // ----------------------------------------------------- geographical risk

  datatype GeoIndicator = LocationUnknown | HighRiskLocation | LocationInconsistent

  datatype LocationConsistency = LocationConsistency(consistent: bool, score: int)

  datatype GeoRisk = GeoRisk(
    score: int,
    indicators: seq<GeoIndicator>,
    location: Option<string>,
    consistency: Option<LocationConsistency>)

  const HighRiskLocations: seq<string> := ["VPN-UNKNOWN", "TOR-EXIT", "SUSPICIOUS-REGION"]

  /** `checkLocationConsistency`: a fixed answer in the engine. */
  function CheckLocationConsistency(profile: Profile): LocationConsistency
  {
    LocationConsistency(true, 0)
  }

  /** A profile with a (truthy) location. */
  predicate KnownLocation(profile: Option<Profile>)
  {
    profile.Some? && profile.value.location.Some? && profile.value.location.value != ""
  }

  /** `analyzeGeographicalRisk`. */
  function GeoRiskOf(profile: Option<Profile>): (r: GeoRisk)
    ensures !KnownLocation(profile) ==> r.score == 5 && r.indicators == [LocationUnknown]
    ensures KnownLocation(profile) ==>
      (r.score == 20 <==> profile.value.location.value in HighRiskLocations)
      && (r.score == 0 <==> profile.value.location.value !in HighRiskLocations)
    ensures 0 <= r.score <= 20
  {
    if !KnownLocation(profile) then GeoRisk(5, [LocationUnknown], None, None)
    else
      var location := profile.value.location.value;
      var consistency := CheckLocationConsistency(profile.value);
      var high := location in HighRiskLocations;
      var score := (if high then 20 else 0) + (if !consistency.consistent then 10 else 0);
      GeoRisk(score, Flag(high, HighRiskLocation) + Flag(!consistency.consistent, LocationInconsistent),
              Some(location), Some(consistency))
  }

  // ----------------------------------------------------------------- velocity

  /** Average (rounded), largest and smallest number of records per period; `Math.max()` of nothing is absent. */
  datatype Velocity = Velocity(count: int, max: Option<nat>, min: Option<nat>)

  function MaxNat(s: seq<nat>): (m: nat)
    requires s != []
    ensures m in s && forall i :: 0 <= i < |s| ==> s[i] <= m
  {
    if |s| == 1 then s[0]
    else
      var rest := MaxNat(s[1..]);
      assert forall i :: 1 <= i < |s| ==> s[i] == s[1..][i - 1];
      if s[0] > rest then s[0] else rest
  }

  function MinNat(s: seq<nat>): (m: nat)
    requires s != []
    ensures m in s && forall i :: 0 <= i < |s| ==> m <= s[i]
  {
    if |s| == 1 then s[0]
    else
      var rest := MinNat(s[1..]);
      assert forall i :: 1 <= i < |s| ==> s[i] == s[1..][i - 1];
      if s[0] < rest then s[0] else rest
  }

  /** The velocity figures of a list of per-period counts. */
  function VelocityFrom(counts: seq<nat>): Velocity
  {
    if counts == [] then Velocity(0, None, None)
    else Velocity(Round(SumNat(counts) as real / |counts| as real), Some(MaxNat(counts)), Some(MinNat(counts)))
  }

  /** The velocity of the records grouped by label (day, week or month). */
  function VelocityOf<K(==,!new)>(labels: seq<K>): Velocity
  {
    VelocityFrom(Counts(labels))
  }

  /** The `counts[key] = (counts[key] || 0) + 1` loop, then the average, maximum and minimum. */
  method CalculateVelocity<K(==,!new)>(labels: seq<K>) returns (v: Velocity)
    ensures v == VelocityOf(labels)
  {
    var keys, counts := Tally(labels);
    v := VelocityFrom(ValuesOf(keys, counts));
  }

  /** The rounded average lies between the smallest and the largest count, and is at least 1. */
  lemma VelocityBetween<K(!new)>(labels: seq<K>)
    requires labels != []
    ensures var v := VelocityOf(labels);
      v.max.Some? && v.min.Some? && 1 <= v.min.value <= v.count <= v.max.value
  {
    var c := Counts(labels);
    assert labels[0] in Distinct(labels);
    var lo, hi := MinNat(c), MaxNat(c);
    SumNatBounds(c, lo, hi);
    var avg := SumNat(c) as real / |c| as real;
    MeanLike(SumNat(c), |c|, lo, hi);
    RoundMonotone(lo as real, avg);
    RoundMonotone(avg, hi as real);
  }

  lemma MeanLike(total: nat, n: nat, lo: nat, hi: nat)
    requires n > 0 && n * lo <= total <= n * hi
    ensures lo as real <= total as real / n as real <= hi as real
  {
    QuotientAtLeast(total as real, n as real, lo as real);
    QuotientAtMost(total as real, n as real, hi as real);
  }

  /** Each record's label: its day, its week and its month. */
  function Labels<K>(s: seq<Tx>, key: int -> K): (r: seq<K>)
    ensures |r| == |s|
  {
    seq(|s|, i requires 0 <= i < |s| => key(s[i].timestamp))
  }

  datatype VelocityAnalysis = VelocityAnalysis(daily: Velocity, weekly: Velocity, monthly: Velocity, riskScore: int)

  /** `performVelocityAnalysis`: 20 points when the rounded average per day exceeds 10. */
  function VelocityAnalysisOf(rt: Runtime, s: seq<Tx>): (r: VelocityAnalysis)
    ensures r.riskScore == (if r.daily.count > SuspiciousFrequency then 20 else 0)
  {
    var daily := VelocityOf(Labels(s, rt.dayLabel));
    var weekly := VelocityOf(Labels(s, rt.weekLabel));
    var monthly := VelocityOf(Labels(s, rt.monthIndex));
    var risk := if daily.count > SuspiciousFrequency then 20 else 0;
    VelocityAnalysis(daily, weekly, monthly, MinInt(25, risk))
  }

  method PerformVelocityAnalysis(rt: Runtime, s: seq<Tx>) returns (r: VelocityAnalysis)
    ensures r == VelocityAnalysisOf(rt, s)
  {
    var daily := CalculateVelocity(Labels(s, rt.dayLabel));
    var weekly := CalculateVelocity(Labels(s, rt.weekLabel));
    var monthly := CalculateVelocity(Labels(s, rt.monthIndex));
    var riskScore := 0;
    if daily.count > SuspiciousFrequency {
      riskScore := riskScore + 20;
    }
    r := VelocityAnalysis(daily, weekly, monthly, MinInt(25, riskScore));
  }

  /** No day with more than ten records: no velocity risk. */
  lemma QuietDaysNoVelocityRisk(rt: Runtime, s: seq<Tx>)
    requires forall t :: t in s ==> multiset(Labels(s, rt.dayLabel))[rt.dayLabel(t.timestamp)] <= SuspiciousFrequency
    ensures VelocityAnalysisOf(rt, s).riskScore == 0
  {
    var labels := Labels(s, rt.dayLabel);
    if labels != [] {
      VelocityBetween(labels);
      var c := Counts(labels);
      var i :| 0 <= i < |c| && c[i] == MaxNat(c);
      var d := Distinct(labels)[i];
      assert d in labels;
      var j :| 0 <= j < |labels| && labels[j] == d;
      assert s[j] in s && labels[j] == rt.dayLabel(s[j].timestamp);
      assert MaxNat(c) <= SuspiciousFrequency;
      assert VelocityOf(labels).max == Some(MaxNat(c));
    }
  }

  // --------------------------------------------------- behavioural anomalies

  datatype Anomaly = InvestmentPatternChange | SuddenPortfolioChange | TradingBehaviorChange

  datatype ChangeCheck = ChangeCheck(anomaly: bool, severity: int)

  /** `detectInvestmentPatternChange`: a fixed answer in the engine. */
  function DetectInvestmentPatternChange(s: seq<Tx>): ChangeCheck { ChangeCheck(false, 0) }

  /** `detectSuddenPortfolioChange`: a fixed answer in the engine. */
  function DetectSuddenPortfolioChange(s: seq<Tx>, addresses: PortfolioFetcher.Addresses): ChangeCheck { ChangeCheck(false, 0) }

  /** `detectTradingBehaviorChange`: a fixed answer in the engine. */
  function DetectTradingBehaviorChange(s: seq<Tx>): ChangeCheck { ChangeCheck(false, 0) }

  datatype BehavioralAnomalies = BehavioralAnomalies(anomalies: seq<Anomaly>, riskScore: int)

  /** `detectBehavioralAnomalies`: severities weighted 5, 10 and 8, capped at 20. */
  function AnomaliesFrom(pattern: ChangeCheck, portfolio: ChangeCheck, trading: ChangeCheck): (r: BehavioralAnomalies)
    ensures r.riskScore <= 20
    ensures forall a :: a in r.anomalies <==>
      (a == InvestmentPatternChange && pattern.anomaly) || (a == SuddenPortfolioChange && portfolio.anomaly)
      || (a == TradingBehaviorChange && trading.anomaly)
  {
    var anomalies := Pushed(Pushed(Pushed([], pattern.anomaly, InvestmentPatternChange),
                                   portfolio.anomaly, SuddenPortfolioChange), trading.anomaly, TradingBehaviorChange);
    var score := (if pattern.anomaly then pattern.severity * 5 else 0)
      + (if portfolio.anomaly then portfolio.severity * 10 else 0)
      + (if trading.anomaly then trading.severity * 8 else 0);
    BehavioralAnomalies(anomalies, MinInt(20, score))
  }

  function AnomaliesOf(s: seq<Tx>, addresses: PortfolioFetcher.Addresses): BehavioralAnomalies
  {
    AnomaliesFrom(DetectInvestmentPatternChange(s), DetectSuddenPortfolioChange(s, addresses),
                  DetectTradingBehaviorChange(s))
  }

  /** With the engine's fixed detectors there is never an anomaly. */
  lemma NoBehavioralAnomalies(s: seq<Tx>, addresses: PortfolioFetcher.Addresses)
    ensures AnomaliesOf(s, addresses) == BehavioralAnomalies([], 0)
  {
  }

  // ------------------------------------------------------------ overall risk

  /** The weighted sum of the parts as `calculateOverallRiskScore` adds them, before the cap. */
  function WeightedRisk(w: WithdrawalPatterns, f: FraudIndicators, wallet: WalletUsage, act: ActivityLevel,
                        u: UnusualTransactions, geo: GeoRisk, vel: VelocityAnalysis, anom: BehavioralAnomalies): real
  {
    w.riskScore as real * WithdrawalWeight + f.score as real * FraudWeight + wallet.riskScore as real * WalletWeight
    + act.riskScore as real * ActivityWeight + u.riskScore as real * UnusualWeight
    + geo.score as real + vel.riskScore as real + anom.riskScore as real
  }

  /** `calculateOverallRiskScore`: the weighted sum capped at 100, with no lower bound. */
  function OverallRiskScore(w: WithdrawalPatterns, f: FraudIndicators, wallet: WalletUsage, act: ActivityLevel,
                            u: UnusualTransactions, geo: GeoRisk, vel: VelocityAnalysis, anom: BehavioralAnomalies): (r: real)
    ensures r <= 100.0
    ensures WeightedRisk(w, f, wallet, act, u, geo, vel, anom) <= 100.0 ==> r == WeightedRisk(w, f, wallet, act, u, geo, vel, anom)
  {
    Min(100.0, WeightedRisk(w, f, wallet, act, u, geo, vel, anom))
  }

  datatype RiskLevel = MinimalRisk | LowRisk | MediumRisk | HighRisk

  function RiskRank(l: RiskLevel): nat
  {
    match l
    case MinimalRisk => 0
    case LowRisk => 1
    case MediumRisk => 2
    case HighRisk => 3
  }

  /** `determineRiskLevel`: high from 70, medium from 40, low from 20. */
  function RiskLevelOf(score: real): (l: RiskLevel)
    ensures l == HighRisk <==> score >= 70.0
    ensures l == MinimalRisk <==> score < 20.0
  {
    if score >= 70.0 then HighRisk
    else if score >= 40.0 then MediumRisk
    else if score >= 20.0 then LowRisk
    else MinimalRisk
  }

  lemma RiskLevelMonotone(x: real, y: real)
    requires x <= y
    ensures RiskRank(RiskLevelOf(x)) <= RiskRank(RiskLevelOf(y))
  {
  }

  datatype RiskFactor =
    | HighWithdrawalRisk
    | FraudIndicatorsDetected
    | InactiveAccount
    | UnusualTransactionPatterns
    | GeographicalRiskFactors

  /** `identifyRiskFactors`: one factor per threshold crossed, in this order. */
  function RiskFactorsOf(w: WithdrawalPatterns, f: FraudIndicators, act: ActivityLevel,
                         u: UnusualTransactions, geo: GeoRisk): (r: seq<RiskFactor>)
    ensures HighWithdrawalRisk in r <==> w.riskScore > 20
    ensures FraudIndicatorsDetected in r <==> f.score > 30
    ensures InactiveAccount in r <==> act.daysSinceLastActivity > 90
    ensures UnusualTransactionPatterns in r <==> u.count > 5
    ensures GeographicalRiskFactors in r <==> geo.score > 10
    ensures |r| <= 5
  {
    var r1 := Pushed([], w.riskScore > 20, HighWithdrawalRisk);
    var r2 := Pushed(r1, f.score > 30, FraudIndicatorsDetected);
    var r3 := Pushed(r2, act.daysSinceLastActivity > 90, InactiveAccount);
    var r4 := Pushed(r3, u.count > 5, UnusualTransactionPatterns);
    Pushed(r4, geo.score > 10, GeographicalRiskFactors)
  }

  datatype RiskAnalysis = RiskAnalysis(
    userId: string,
    timestamp: int,
    withdrawalPatterns: WithdrawalPatterns,
    fraudIndicators: FraudIndicators,
    walletCount: WalletUsage,
    activityLevel: ActivityLevel,
    unusualTransactions: UnusualTransactions,
    geographicalRisk: GeoRisk,
    velocityAnalysis: VelocityAnalysis,
    behavioralAnomalies: BehavioralAnomalies,
    overallRiskScore: real,
    riskLevel: RiskLevel,
    riskFactors: seq<RiskFactor>)

  /** The analysis from its parts: score, level and factors. */
  function AnalysisFrom(userId: string, now: int, w: WithdrawalPatterns, f: FraudIndicators, wallet: WalletUsage,
                        act: ActivityLevel, u: UnusualTransactions, geo: GeoRisk, vel: VelocityAnalysis,
                        anom: BehavioralAnomalies): (r: RiskAnalysis)
    ensures r.overallRiskScore == OverallRiskScore(w, f, wallet, act, u, geo, vel, anom)
    ensures r.riskLevel == RiskLevelOf(r.overallRiskScore)
    ensures r.riskFactors == RiskFactorsOf(w, f, act, u, geo)
  {
    var overall := OverallRiskScore(w, f, wallet, act, u, geo, vel, anom);
    RiskAnalysis(userId, now, w, f, wallet, act, u, geo, vel, anom, overall, RiskLevelOf(overall),
                 RiskFactorsOf(w, f, act, u, geo))
  }

  /**
   * `performRiskAnalysis` on the ledger s. The parts run in the order of the
   * result object: withdrawals and fraud read s (fraud sorts it oldest
   * first), wallet usage reads the addresses the fetched holdings carry, activity sorts the ledger newest
   * first, and unusual transactions, velocity and anomalies read that order.
   * The timestamp is the clock reading `now`.
   */
  function RiskAnalysisOf(rt: Runtime, userId: string, s: seq<Tx>, addresses: PortfolioFetcher.Addresses,
                          profile: Option<Profile>, now: int): RiskAnalysis
  {
    var ascending := Sort(Ascending, s);
    var descending := Sort(Descending, ascending);
    AnalysisFrom(userId, now,
      WithdrawalPatternsOf(s),
      FraudOf(rt, s, profile),
      WalletUsageOf(userId, addresses),
      ActivityOf(rt, ascending, now),
      UnusualOf(rt, descending),
      GeoRiskOf(profile),
      VelocityAnalysisOf(rt, descending),
      AnomaliesOf(descending, addresses))
  }

  method PerformRiskAnalysis(rt: Runtime, userId: string, a: array<Tx>, addresses: PortfolioFetcher.Addresses,
                             profile: Option<Profile>, now: int) returns (r: RiskAnalysis)
    modifies a
    ensures a[..] == Sort(Descending, Sort(Ascending, old(a[..])))
    ensures r == RiskAnalysisOf(rt, userId, old(a[..]), addresses, profile, now)
  {
    var withdrawalPatterns := AnalyzeWithdrawalPatterns(a[..]);
    var fraudIndicators := DetectFraudulentActivity(rt, a, profile);
    var walletCount := WalletUsageOf(userId, addresses);
    var activityLevel := AnalyzeActivityLevel(rt, a, now);
    var unusualTransactions := UnusualOf(rt, a[..]);
    var geographicalRisk := GeoRiskOf(profile);
    var velocityAnalysis := PerformVelocityAnalysis(rt, a[..]);
    var behavioralAnomalies := AnomaliesOf(a[..], addresses);
    r := AnalysisFrom(userId, now, withdrawalPatterns, fraudIndicators, walletCount, activityLevel,
                      unusualTransactions, geographicalRisk, velocityAnalysis, behavioralAnomalies);
  }

  /** After the analysis the ledger holds the same records, newest first. */
  lemma LedgerAfterAnalysis(s: seq<Tx>)
    ensures var after := Sort(Descending, Sort(Ascending, s));
      SortedBy(Descending, after) && multiset(after) == multiset(s)
  {
    SortCorrect(Ascending, s);
    SortCorrect(Descending, Sort(Ascending, s));
  }

  /**
   * The parts are bounded (withdrawals 40, fraud 100, activity 20, unusual 15,
   * location 20, velocity 20; wallet changes and anomalies are never
   * detected), so the overall score is at most 94.75 and the cap at 100 never
   * applies.
   */
  lemma OverallRiskBounds(rt: Runtime, userId: string, s: seq<Tx>, addresses: PortfolioFetcher.Addresses,
                          profile: Option<Profile>, now: int)
    ensures var r := RiskAnalysisOf(rt, userId, s, addresses, profile, now);
      0.0 <= r.overallRiskScore <= 94.75
      && r.overallRiskScore == WeightedRisk(r.withdrawalPatterns, r.fraudIndicators, r.walletCount, r.activityLevel,
                                            r.unusualTransactions, r.geographicalRisk, r.velocityAnalysis, r.behavioralAnomalies)
  {
    var ascending := Sort(Ascending, s);
    var descending := Sort(Descending, ascending);
    PartsWeightedRange(rt, userId, s, addresses, profile, now);
    var r := RiskAnalysisOf(rt, userId, s, addresses, profile, now);
    assert r == AnalysisFrom(userId, now, WithdrawalPatternsOf(s), FraudOf(rt, s, profile), WalletUsageOf(userId, addresses),
                             ActivityOf(rt, ascending, now), UnusualOf(rt, descending), GeoRiskOf(profile),
                             VelocityAnalysisOf(rt, descending), AnomaliesOf(descending, addresses));
  }

  /** The weighted sum of the parts the analysis computes lies in 0..94.75. */
  lemma PartsWeightedRange(rt: Runtime, userId: string, s: seq<Tx>, addresses: PortfolioFetcher.Addresses,
                           profile: Option<Profile>, now: int)
    ensures var ascending := Sort(Ascending, s);
      var descending := Sort(Descending, ascending);
      0.0 <= WeightedRisk(WithdrawalPatternsOf(s), FraudOf(rt, s, profile), WalletUsageOf(userId, addresses),
                          ActivityOf(rt, ascending, now), UnusualOf(rt, descending), GeoRiskOf(profile),
                          VelocityAnalysisOf(rt, descending), AnomaliesOf(descending, addresses)) <= 94.75
  {
    var ascending := Sort(Ascending, s);
    var descending := Sort(Descending, ascending);
    var w, f, wallet := WithdrawalPatternsOf(s), FraudOf(rt, s, profile), WalletUsageOf(userId, addresses);
    var act, u, geo := ActivityOf(rt, ascending, now), UnusualOf(rt, descending), GeoRiskOf(profile);
    var vel, anom := VelocityAnalysisOf(rt, descending), AnomaliesOf(descending, addresses);
    FraudIndicatorsExact(rt, s, profile);
    assert wallet.riskScore == 0;
    NoBehavioralAnomalies(descending, addresses);
    WeightedRiskRange(w, f, wallet, act, u, geo, vel, anom);
  }

  /** The weights applied to the parts' bounds. */
  lemma WeightedRiskRange(w: WithdrawalPatterns, f: FraudIndicators, wallet: WalletUsage, act: ActivityLevel,
                          u: UnusualTransactions, geo: GeoRisk, vel: VelocityAnalysis, anom: BehavioralAnomalies)
    requires 0 <= w.riskScore <= 40 && 0 <= f.score <= 100 && wallet.riskScore == 0
    requires act.riskScore == InactivityRisk(act.daysSinceLastActivity)
    requires 0 <= u.riskScore <= 15 && 0 <= geo.score <= 20 && 0 <= vel.riskScore <= 20 && anom.riskScore == 0
    ensures 0.0 <= WeightedRisk(w, f, wallet, act, u, geo, vel, anom) <= 94.75
  {
  }

  /** An empty ledger with no location: only inactivity and the unknown location score; 7 points, minimal risk. */
  lemma EmptyLedgerRisk(rt: Runtime, userId: string, addresses: PortfolioFetcher.Addresses, now: int)
    ensures var r := RiskAnalysisOf(rt, userId, [], addresses, None, now);
      r.overallRiskScore == 7.0 && r.riskLevel == MinimalRisk && r.riskFactors == [InactiveAccount]
  {
    var w, f, wallet := WithdrawalPatternsOf([]), FraudOf(rt, [], None), WalletUsageOf(userId, addresses);
    var act, u, geo := ActivityOf(rt, [], now), UnusualOf(rt, []), GeoRiskOf(None);
    var vel, anom := VelocityAnalysisOf(rt, []), AnomaliesOf([], addresses);
    EmptyLedgerParts(rt, userId, addresses, now);
    assert Sort(Ascending, []) == [] && Sort(Descending, []) == [];
    assert RiskAnalysisOf(rt, userId, [], addresses, None, now) == AnalysisFrom(userId, now, w, f, wallet, act, u, geo, vel, anom);
    assert WeightedRisk(w, f, wallet, act, u, geo, vel, anom) == 7.0;
    assert RiskFactorsOf(w, f, act, u, geo) == [InactiveAccount];
  }

  /** On an empty ledger with no profile only the inactivity and the unknown location score. */
  lemma EmptyLedgerParts(rt: Runtime, userId: string, addresses: PortfolioFetcher.Addresses, now: int)
    ensures WithdrawalPatternsOf([]) == NoWithdrawals
    ensures FraudOf(rt, [], None).score == 0
    ensures WalletUsageOf(userId, addresses).riskScore == 0
    ensures ActivityOf(rt, [], now) == NoActivity
    ensures UnusualOf(rt, []) == TooFewTransactions
    ensures GeoRiskOf(None).score == 5
    ensures VelocityAnalysisOf(rt, []).riskScore == 0
    ensures AnomaliesOf([], addresses).riskScore == 0
  {
    FraudIndicatorsExact(rt, [], None);
    NoBehavioralAnomalies([], addresses);
  }
}
