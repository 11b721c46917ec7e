/**
 * The credit-score engine: three sub-scores (assets up to 400 points,
 * behaviour up to 300, risk up to 200 built from penalties), their sum
 * clamped to the range 300..900, the seven-band category, the loan bracket
 * with its interest-rate and tenure bands, the explanatory reasons, the
 * national income fallback and the batch loop.
 *
 * The engine is modelled against the field shapes it reads itself: a holding
 * is its `value` (or `balance`), the monthly streak its `months`, withdrawal
 * volatility a number and panic selling a count. Amounts are `real`: the
 * rounding of Big.js quotients to 20 decimal places and of `.toNumber()` to a
 * double is not modelled.
 */
module ScoringEngine {
  import opened Ledger
  import RiskEngine
  import PortfolioFetcher

  const MinScore: real := 300.0
  const MaxScore: real := 900.0

  // --------------------------------------------------------- income estimate

  const MetroIncome: real := 25000.0
  const UrbanIncome: real := 18000.0
  const SemiUrbanIncome: real := 12000.0
  const RuralIncome: real := 8000.0

  /** `toLowerCase` on the ASCII letters. */
  function LowerChar(c: char): (r: char)
    ensures 'A' <= c <= 'Z' ==> 'a' <= r <= 'z'
    ensures !('A' <= c <= 'Z') ==> r == c
  {
    if 'A' <= c <= 'Z' then (c as int + 32) as char else c
  }

  function ToLower(s: string): (r: string)
    ensures |r| == |s| && forall i :: 0 <= i < |s| ==> r[i] == LowerChar(s[i])
  {
    seq(|s|, i requires 0 <= i < |s| => LowerChar(s[i]))
  }

  /** t occurs in s starting at position i. */
  predicate OccursAt(s: string, t: string, i: int)
  {
    0 <= i && i + |t| <= |s| && s[i..i + |t|] == t
  }

  /** `s.includes(t)`: t occurs in s at some position. */
  function Contains(s: string, t: string): (r: bool)
    ensures r <==> exists i :: OccursAt(s, t, i)
    decreases |s|
  {
    if |s| < |t| then false
    else if s[..|t|] == t then assert OccursAt(s, t, 0); true
    else
      var rest := Contains(s[1..], t);
      OccursInTail(s, t);
      rest
  }

  /** An occurrence after the first character is an occurrence in the tail, one position earlier. */
  lemma OccursShift(s: string, t: string, i: int)
    requires |s| > 0 && 1 <= i
    ensures OccursAt(s, t, i) <==> OccursAt(s[1..], t, i - 1)
  {
    if i + |t| <= |s| {
      assert s[i..i + |t|] == s[1..][i - 1..i - 1 + |t|];
    }
  }

  /** Without an occurrence at the start, t occurs in s exactly when it occurs in the tail. */
  lemma OccursInTail(s: string, t: string)
    requires |s| > 0 && !OccursAt(s, t, 0)
    ensures (exists i :: OccursAt(s, t, i)) <==> exists j :: OccursAt(s[1..], t, j)
  {
    if exists i :: OccursAt(s, t, i) {
      var i :| OccursAt(s, t, i);
      OccursShift(s, t, i);
    }
    if exists j :: OccursAt(s[1..], t, j) {
      var j :| OccursAt(s[1..], t, j);
      OccursShift(s, t, j + 1);
    }
  }

  predicate IsMetro(l: string)
  {
    Contains(l, "metro") || Contains(l, "mumbai") || Contains(l, "delhi") || Contains(l, "bangalore")
  }

  predicate IsSemiUrban(l: string)
  {
    Contains(l, "semi") || Contains(l, "tier 2")
  }

  /**
   * `getNationalIncomeEstimate`: a missing or empty location is urban; otherwise
   * the lower-cased text is searched for metro names first, then "rural", then
   * semi-urban words.
   */
  function NationalIncomeEstimate(location: Option<string>): (r: real)
    ensures r == MetroIncome || r == UrbanIncome || r == SemiUrbanIncome || r == RuralIncome
    ensures location.None? || location.value == "" ==> r == UrbanIncome
    ensures location.Some? && location.value != "" ==>
      var l := ToLower(location.value);
      && (r == MetroIncome <==> IsMetro(l))
      && (r == RuralIncome <==> !IsMetro(l) && Contains(l, "rural"))
      && (r == SemiUrbanIncome <==> !IsMetro(l) && !Contains(l, "rural") && IsSemiUrban(l))
  {
    if location.None? || location.value == "" then UrbanIncome
    else
      var l := ToLower(location.value);
      if IsMetro(l) then MetroIncome
      else if Contains(l, "rural") then RuralIncome
      else if IsSemiUrban(l) then SemiUrbanIncome
      else UrbanIncome
  }

  lemma ToLowerIdempotent(x: string)
    ensures ToLower(ToLower(x)) == ToLower(x)
  {
  }

  /** The estimate ignores the case of the letters: a lower-cased location gives the same income. */
  lemma IncomeEstimateIgnoresCase(x: string)
    ensures NationalIncomeEstimate(Some(x)) == NationalIncomeEstimate(Some(ToLower(x)))
  {
    ToLowerIdempotent(x);
  }

  // --------------------------------------------------------------- portfolio

  /**
   * What the engine reads of a portfolio: the `value` of each metal holding,
   * the `balance` of the stablecoin holding (None when the holding or the
   * field is absent), the stated income and the location.
   */
  datatype ScoringPortfolio = ScoringPortfolio(
    gold: Option<real>,
    silver: Option<real>,
    platinum: Option<real>,
    binr: Option<real>,
    userIncome: Option<real>,
    location: Option<string>)

  /** `userIncome || getNationalIncomeEstimate(location)`: a zero income counts as absent. */
  function IncomeEstimate(p: ScoringPortfolio): (r: real)
    ensures r != 0.0
    ensures p.userIncome.Some? && p.userIncome.value != 0.0 ==> r == p.userIncome.value
    ensures p.userIncome.None? || p.userIncome.value == 0.0 ==> r == NationalIncomeEstimate(p.location)
  {
    if p.userIncome.Some? && p.userIncome.value != 0.0 then p.userIncome.value
    else NationalIncomeEstimate(p.location)
  }

  /** `x?.value || 0`. */
  function OrZero(x: Option<real>): real { if x.Some? then x.value else 0.0 }

  function TotalAssets(p: ScoringPortfolio): real
  {
    OrZero(p.gold) + OrZero(p.silver) + OrZero(p.platinum) + OrZero(p.binr)
  }

  /**
   * The scoring view of a fetched portfolio: its holdings' values and the
   * stablecoin balance, with neither an income nor a location.
   */
  function PortfolioInputs(p: PortfolioFetcher.Portfolio): (r: ScoringPortfolio)
    ensures r.userIncome.None? && r.location.None?
  {
    var h := p.holdings;
    ScoringPortfolio(
      if h.gold.Some? then Some(h.gold.value.value) else None,
      if h.silver.Some? then Some(h.silver.value.value) else None,
      if h.platinum.Some? then Some(h.platinum.value.value) else None,
      if h.binr.Some? then Some(h.binr.value.balance) else None,
      None, None)
  }

  /** A fetched portfolio is scored against the urban income, and its total is the fetcher's total value. */
  lemma FetchedPortfolioInputs(p: PortfolioFetcher.Portfolio)
    ensures IncomeEstimate(PortfolioInputs(p)) == UrbanIncome
    ensures TotalAssets(PortfolioInputs(p)) == PortfolioFetcher.TotalValue(p.holdings)
  {
  }

  // ------------------------------------------------------------ asset score

  const GoldCap: real := 200.0
  const SilverCap: real := 80.0
  const PlatinumCap: real := 40.0
  const BinrCap: real := 80.0
  const SilverBenchmark: real := 5000.0
  const PlatinumBenchmark: real := 20000.0

  /** One holding's points: the value against its benchmark, scaled to the cap and capped; nothing unless positive. */
  function HoldingPoints(value: Option<real>, benchmark: real, cap: real): real
    requires benchmark != 0.0
  {
    if value.Some? && value.value > 0.0 then Min(cap, value.value / benchmark * cap) else 0.0
  }

  function GoldPoints(p: ScoringPortfolio): real { HoldingPoints(p.gold, IncomeEstimate(p), GoldCap) }
  function SilverPoints(p: ScoringPortfolio): real { HoldingPoints(p.silver, SilverBenchmark, SilverCap) }
  function PlatinumPoints(p: ScoringPortfolio): real { HoldingPoints(p.platinum, PlatinumBenchmark, PlatinumCap) }
  function BinrPoints(p: ScoringPortfolio): real { HoldingPoints(p.binr, IncomeEstimate(p) * 0.5, BinrCap) }

  /** The asset score: the four holdings' points, clamped to 0..400. */
  function AssetScoreOf(p: ScoringPortfolio): (r: real)
    ensures 0.0 <= r <= 400.0
  {
    Clamp(0.0, 400.0, GoldPoints(p) + SilverPoints(p) + PlatinumPoints(p) + BinrPoints(p))
  }

  /** `calculateAssetScore`: adds each positive holding's points to a running total. */
  method CalculateAssetScore(p: ScoringPortfolio) returns (score: real)
    ensures score == AssetScoreOf(p)
  {
    var income := IncomeEstimate(p);
    var total := 0.0;
    if p.gold.Some? && p.gold.value > 0.0 {
      total := total + Min(GoldCap, p.gold.value / income * GoldCap);
    }
    if p.silver.Some? && p.silver.value > 0.0 {
      total := total + Min(SilverCap, p.silver.value / SilverBenchmark * SilverCap);
    }
    if p.platinum.Some? && p.platinum.value > 0.0 {
      total := total + Min(PlatinumCap, p.platinum.value / PlatinumBenchmark * PlatinumCap);
    }
    if p.binr.Some? && p.binr.value > 0.0 {
      var benchmark := income * 0.5;
      total := total + Min(BinrCap, p.binr.value / benchmark * BinrCap);
    }
    score := Max(0.0, Min(400.0, total));
  }

  /** With a positive benchmark a holding earns between 0 and its cap, and something exactly when it is positive. */
  lemma HoldingPointsRange(value: Option<real>, benchmark: real, cap: real)
    requires benchmark > 0.0 && cap > 0.0
    ensures 0.0 <= HoldingPoints(value, benchmark, cap) <= cap
    ensures HoldingPoints(value, benchmark, cap) > 0.0 <==> value.Some? && value.value > 0.0
    ensures value.Some? && value.value >= benchmark ==> HoldingPoints(value, benchmark, cap) == cap
  {
    if value.Some? && value.value > 0.0 {
      var q := value.value / benchmark;
      assert q > 0.0;
      ProductPositive(q, cap);
      if value.value >= benchmark {
        QuotientAtLeast(value.value, benchmark, 1.0);
        assert q * cap >= cap;
      }
    }
  }

  /**
   * With a positive income the four holdings' points already lie in 0..400,
   * so the clamp changes nothing, and the score is positive exactly when
   * some holding is.
   */
  lemma AssetScoreUnclamped(p: ScoringPortfolio)
    requires IncomeEstimate(p) > 0.0
    ensures AssetScoreOf(p) == GoldPoints(p) + SilverPoints(p) + PlatinumPoints(p) + BinrPoints(p)
    ensures AssetScoreOf(p) > 0.0 <==>
      || (p.gold.Some? && p.gold.value > 0.0) || (p.silver.Some? && p.silver.value > 0.0)
      || (p.platinum.Some? && p.platinum.value > 0.0) || (p.binr.Some? && p.binr.value > 0.0)
  {
    var income := IncomeEstimate(p);
    HoldingPointsRange(p.gold, income, GoldCap);
    HoldingPointsRange(p.silver, SilverBenchmark, SilverCap);
    HoldingPointsRange(p.platinum, PlatinumBenchmark, PlatinumCap);
    HoldingPointsRange(p.binr, income * 0.5, BinrCap);
  }

  /** More of a holding never lowers its points, for a positive benchmark. */
  lemma HoldingPointsMonotone(x: real, y: real, benchmark: real, cap: real)
    requires benchmark > 0.0 && cap > 0.0 && x <= y
    ensures HoldingPoints(Some(x), benchmark, cap) <= HoldingPoints(Some(y), benchmark, cap)
  {
    if x > 0.0 {
      assert x / benchmark <= y / benchmark by {
        QuotientAtMost(x, benchmark, y / benchmark);
        assert y / benchmark * benchmark == y;
      }
      assert (y / benchmark - x / benchmark) * cap >= 0.0;
    } else if y > 0.0 {
      HoldingPointsRange(Some(y), benchmark, cap);
    }
  }

  // --------------------------------------------------------- behaviour score

  datatype SipSummary = SipSummary(active: bool, consistency: real)

  /**
   * What the engine reads of a behaviour profile. `volatilityWithdrawals` is
   * a number, `panicSellingEvents` a count and the monthly streak its
   * `months` (None when absent).
   */
  datatype ScoringBehavior = ScoringBehavior(
    dailyWeeklySIP: Option<SipSummary>,
    monthlyStreakMonths: Option<real>,
    volatilityWithdrawals: real,
    holdingAverageDays: Option<real>,
    panicSellingEvents: int)

  const SipPoints: real := 120.0
  const StreakPoints: real := 60.0
  const VolatilityPoints: real := 50.0
  const HoldingCap: real := 70.0
  const NoPanicPoints: int := 50

  /** An active plan earns 120 times its consistency; a zero consistency counts as 0.8. */
  function SipTerm(sip: Option<SipSummary>): real
  {
    if sip.Some? && sip.value.active then
      SipPoints * (if sip.value.consistency != 0.0 then sip.value.consistency else 0.8)
    else 0.0
  }

  function StreakTerm(months: Option<real>): real
  {
    if months.Some? && months.value > 0.0 then Min(StreakPoints, months.value / 12.0 * StreakPoints) else 0.0
  }

  /** The volatility term is skipped when the volatility is 0 (a falsy number). */
  function VolatilityTerm(v: real): real
  {
    if v != 0.0 then Max(0.0, VolatilityPoints * (1.0 - v)) else 0.0
  }

  function HoldingTerm(days: Option<real>): real
  {
    if days.Some? && days.value > 0.0 then Min(HoldingCap, days.value / 365.0 * HoldingCap) else 0.0
  }

  /** No panic sale earns 50; each one costs 10, at most 50 in all. */
  function PanicTerm(events: int): int
  {
    if events == 0 then NoPanicPoints else NoPanicPoints - MinInt(events * 10, NoPanicPoints)
  }

  /** The behaviour score: the five terms, clamped to 0..300. */
  function BehaviorScoreOf(b: ScoringBehavior): (r: real)
    ensures 0.0 <= r <= 300.0
  {
    Clamp(0.0, 300.0, SipTerm(b.dailyWeeklySIP) + StreakTerm(b.monthlyStreakMonths)
      + VolatilityTerm(b.volatilityWithdrawals) + HoldingTerm(b.holdingAverageDays)
      + PanicTerm(b.panicSellingEvents) as real)
  }

  /** `calculateBehaviorScore`: adds the terms to a running total. */
  method CalculateBehaviorScore(b: ScoringBehavior) returns (score: real)
    ensures score == BehaviorScoreOf(b)
  {
    var total := 0.0;
    if b.dailyWeeklySIP.Some? && b.dailyWeeklySIP.value.active {
      var consistency := if b.dailyWeeklySIP.value.consistency != 0.0 then b.dailyWeeklySIP.value.consistency else 0.8;
      total := total + SipPoints * consistency;
    }
    assert total == SipTerm(b.dailyWeeklySIP);
    if b.monthlyStreakMonths.Some? && b.monthlyStreakMonths.value > 0.0 {
      total := total + Min(StreakPoints, b.monthlyStreakMonths.value / 12.0 * StreakPoints);
    }
    assert total == SipTerm(b.dailyWeeklySIP) + StreakTerm(b.monthlyStreakMonths);
    if b.volatilityWithdrawals != 0.0 {
      total := total + Max(0.0, VolatilityPoints * (1.0 - b.volatilityWithdrawals));
    }
    ghost var partial := SipTerm(b.dailyWeeklySIP) + StreakTerm(b.monthlyStreakMonths) + VolatilityTerm(b.volatilityWithdrawals);
    assert total == partial;
    if b.holdingAverageDays.Some? && b.holdingAverageDays.value > 0.0 {
      total := total + Min(HoldingCap, b.holdingAverageDays.value / 365.0 * HoldingCap);
    }
    assert total == partial + HoldingTerm(b.holdingAverageDays);
    partial := total;
    if b.panicSellingEvents == 0 {
      total := total + NoPanicPoints as real;
    } else {
      var penalty := MinInt(b.panicSellingEvents * 10, NoPanicPoints);
      total := total + (NoPanicPoints - penalty) as real;
    }
    assert total == partial + PanicTerm(b.panicSellingEvents) as real;
    score := Max(0.0, Min(300.0, total));
  }

  /** The panic term is 50 − min(10n, 50) for every count, the zero case included, and lies in 0..50. */
  lemma PanicTermRange(events: nat)
    ensures PanicTerm(events) == NoPanicPoints - MinInt(events * 10, NoPanicPoints)
    ensures 0 <= PanicTerm(events) <= NoPanicPoints
    ensures PanicTerm(events) == 0 <==> events >= 5
  {
  }

  /**
   * For a consistency in 0..1, a volatility in 0..1 and a non-negative panic
   * count, each term stays within its maximum (120, 60, 50, 70, 50).
   */
  lemma BehaviorTermsBounded(b: ScoringBehavior)
    requires b.dailyWeeklySIP.Some? ==> 0.0 <= b.dailyWeeklySIP.value.consistency <= 1.0
    requires 0.0 <= b.volatilityWithdrawals <= 1.0
    requires b.panicSellingEvents >= 0
    ensures 0.0 <= SipTerm(b.dailyWeeklySIP) <= SipPoints
    ensures 0.0 <= StreakTerm(b.monthlyStreakMonths) <= StreakPoints
    ensures 0.0 <= VolatilityTerm(b.volatilityWithdrawals) <= VolatilityPoints
    ensures 0.0 <= HoldingTerm(b.holdingAverageDays) <= HoldingCap
    ensures 0 <= PanicTerm(b.panicSellingEvents) <= NoPanicPoints
  {
    if b.monthlyStreakMonths.Some? && b.monthlyStreakMonths.value > 0.0 {
      assert b.monthlyStreakMonths.value / 12.0 > 0.0;
    }
    if b.holdingAverageDays.Some? && b.holdingAverageDays.value > 0.0 {
      assert b.holdingAverageDays.value / 365.0 > 0.0;
    }
  }

  /**
   * The volatility term jumps at zero: no volatility at all earns nothing,
   * while a volatility just above zero earns almost the full 50 points.
   */
  lemma VolatilityTermJumpsAtZero(v: real)
    requires 0.0 < v <= 0.02
    ensures VolatilityTerm(0.0) == 0.0
    ensures VolatilityTerm(v) >= 49.0
  {
  }

  // -------------------------------------------------------------- risk score

  /**
   * What the engine reads of a risk analysis: the large-withdrawal count, the
   * suspicious-activity count, the wallet count, the days since the last
   * activity and the unusual-transaction count (None when the part is absent).
   */
  datatype RiskInputs = RiskInputs(
    largeWithdrawals: Option<int>,
    suspiciousActivity: Option<int>,
    walletCount: Option<int>,
    daysSinceLastActivity: Option<int>,
    unusualCount: Option<int>)

  /** The scoring view of a risk analysis: every part present. */
  function RiskInputsOf(a: RiskEngine.RiskAnalysis): (r: RiskInputs)
    ensures r.largeWithdrawals == Some(a.withdrawalPatterns.largeWithdrawals as int)
    ensures r.suspiciousActivity == Some(a.fraudIndicators.suspiciousActivity as int)
    ensures r.walletCount == Some(a.walletCount.count as int)
    ensures r.daysSinceLastActivity == Some(a.activityLevel.daysSinceLastActivity)
    ensures r.unusualCount == Some(a.unusualTransactions.count as int)
  {
    RiskInputs(Some(a.withdrawalPatterns.largeWithdrawals as int), Some(a.fraudIndicators.suspiciousActivity as int),
      Some(a.walletCount.count as int), Some(a.activityLevel.daysSinceLastActivity),
      Some(a.unusualTransactions.count as int))
  }

  const LargeWithdrawalPenalty: int := 60
  const PenaltyPerWithdrawal: int := 15
  const FraudPenalty: int := 100
  const MultipleWalletsPenalty: int := 20
  const NoActivityPenalty: int := 20
  const UnusualPenaltyCap: int := 30

  predicate Exceeds(x: Option<int>, bound: int) { x.Some? && x.value > bound }

  function WithdrawalPenalty(r: RiskInputs): int
  {
    if Exceeds(r.largeWithdrawals, 0)
    then MinInt(r.largeWithdrawals.value * PenaltyPerWithdrawal, LargeWithdrawalPenalty) else 0
  }

  function UnusualPenalty(r: RiskInputs): int
  {
    if Exceeds(r.unusualCount, 5) then MinInt(r.unusualCount.value * 5, UnusualPenaltyCap) else 0
  }

  /** All penalties together. */
  function Penalties(r: RiskInputs): (p: int)
    ensures 0 <= p <= 230
  {
    WithdrawalPenalty(r)
    + (if Exceeds(r.suspiciousActivity, 0) then FraudPenalty else 0)
    + (if Exceeds(r.walletCount, 3) then MultipleWalletsPenalty else 0)
    + (if Exceeds(r.daysSinceLastActivity, 90) then NoActivityPenalty else 0)
    + UnusualPenalty(r)
  }

  /** The risk score: 200 less the penalties, clamped to 0..200. */
  function RiskScoreOf(r: RiskInputs): (s: real)
    ensures 0.0 <= s <= 200.0
  {
    Clamp(0.0, 200.0, (200 - Penalties(r)) as real)
  }

  /**
   * `calculateRiskScore`: starts from 200 and applies each penalty in turn;
   * the withdrawal penalty is the −60 maximum scaled by the capped share.
   */
  method CalculateRiskScore(r: RiskInputs) returns (score: real)
    ensures score == RiskScoreOf(r)
  {
    var total := 200.0;
    if r.largeWithdrawals.Some? && r.largeWithdrawals.value > 0 {
      var totalPenalty := MinInt(r.largeWithdrawals.value * PenaltyPerWithdrawal, LargeWithdrawalPenalty) as real;
      total := total + -(LargeWithdrawalPenalty as real) * (totalPenalty / LargeWithdrawalPenalty as real);
    }
    if r.suspiciousActivity.Some? && r.suspiciousActivity.value > 0 {
      total := total - FraudPenalty as real;
    }
    if r.walletCount.Some? && r.walletCount.value > 3 {
      total := total - MultipleWalletsPenalty as real;
    }
    if r.daysSinceLastActivity.Some? && r.daysSinceLastActivity.value > 90 {
      total := total - NoActivityPenalty as real;
    }
    if r.unusualCount.Some? && r.unusualCount.value > 5 {
      total := total - MinInt(r.unusualCount.value * 5, UnusualPenaltyCap) as real;
    }
    score := Max(0.0, Min(200.0, total));
  }

  /** The full 200 points exactly when no penalty applies. */
  lemma FullRiskScoreIffNoPenalty(r: RiskInputs)
    ensures RiskScoreOf(r) == 200.0 <==>
      && !Exceeds(r.largeWithdrawals, 0) && !Exceeds(r.suspiciousActivity, 0) && !Exceeds(r.walletCount, 3)
      && !Exceeds(r.daysSinceLastActivity, 90) && !Exceeds(r.unusualCount, 5)
  {
  }

  /** Six or more unusual transactions always cost the full 30 points: the cap is reached at the threshold. */
  lemma UnusualPenaltyIsFlat(r: RiskInputs)
    ensures UnusualPenalty(r) == (if Exceeds(r.unusualCount, 5) then UnusualPenaltyCap else 0)
  {
  }

  /** The withdrawal penalty grows by 15 per large withdrawal up to 60 (four or more). */
  lemma WithdrawalPenaltySteps(r: RiskInputs)
    requires r.largeWithdrawals.Some? && r.largeWithdrawals.value >= 0
    ensures WithdrawalPenalty(r) == MinInt(15 * r.largeWithdrawals.value, 60)
    ensures WithdrawalPenalty(r) == 60 <==> r.largeWithdrawals.value >= 4
  {
  }

  /** The penalties never push the score above 200, so only the clamp at zero can apply. */
  lemma RiskScoreClampedBelowOnly(r: RiskInputs)
    ensures RiskScoreOf(r) == MaxInt(0, 200 - Penalties(r)) as real
    ensures RiskScoreOf(r) == 0.0 <==> Penalties(r) >= 200
  {
  }

  // ------------------------------------------------------------------ bands

  const Thresholds: seq<real> := [550.0, 600.0, 650.0, 700.0, 750.0, 800.0]

  /** How many of the six thresholds the score reaches: the band every table is indexed by. */
  function Band(score: real): (b: nat)
    ensures b <= 6
    ensures forall i :: 0 <= i < 6 ==> (Thresholds[i] <= score <==> i < b)
  {
    if score >= 800.0 then 6
    else if score >= 750.0 then 5
    else if score >= 700.0 then 4
    else if score >= 650.0 then 3
    else if score >= 600.0 then 2
    else if score >= 550.0 then 1
    else 0
  }

  lemma BandMonotone(x: real, y: real)
    requires x <= y
    ensures Band(x) <= Band(y)
  {
  }

  datatype Category = VeryPoor | Poor | Fair | Average | Good | VeryGood | Excellent

  function CategoryName(c: Category): string
  {
    match c
    case Excellent => "Excellent"
    case VeryGood => "Very Good"
    case Good => "Good"
    case Average => "Average"
    case Fair => "Fair"
    case Poor => "Poor"
    case VeryPoor => "Very Poor"
  }

  const Categories: seq<Category> := [VeryPoor, Poor, Fair, Average, Good, VeryGood, Excellent]

  /** `determineCategory`: the category of the score's band. */
  function CategoryOf(score: real): (c: Category)
    ensures c == Categories[Band(score)]
  {
    if score >= 800.0 then Excellent
    else if score >= 750.0 then VeryGood
    else if score >= 700.0 then Good
    else if score >= 650.0 then Average
    else if score >= 600.0 then Fair
    else if score >= 550.0 then Poor
    else VeryPoor
  }

  const InterestRates: seq<string> := ["24-26%", "22-24%", "20-22%", "18-20%", "16-18%", "14-16%", "12-14%"]

  /** `calculateInterestRate`: the rate band of the score's band. */
  function InterestRate(score: real): (r: string)
    ensures r == InterestRates[Band(score)]
  {
    if score >= 800.0 then "12-14%"
    else if score >= 750.0 then "14-16%"
    else if score >= 700.0 then "16-18%"
    else if score >= 650.0 then "18-20%"
    else if score >= 600.0 then "20-22%"
    else if score >= 550.0 then "22-24%"
    else "24-26%"
  }

  const Tenures: seq<string> := ["6 months", "6 months", "12 months", "18 months", "24 months", "36 months", "36 months"]

  /** `calculateTenure`: five bands, 550 and 800 being no step of their own. */
  function Tenure(score: real): (r: string)
    ensures r == Tenures[Band(score)]
  {
    if score >= 750.0 then "36 months"
    else if score >= 700.0 then "24 months"
    else if score >= 650.0 then "18 months"
    else if score >= 600.0 then "12 months"
    else "6 months"
  }

  /** A loan bracket: the share of the assets that may be lent, the ceiling and the share as text. */
  datatype Bracket = Bracket(percentage: real, baseAmount: int, text: string)

  const Brackets: seq<Bracket> := [
    Bracket(0.40, 10000, "40%"), Bracket(0.50, 15000, "50%"), Bracket(0.55, 20000, "55%"),
    Bracket(0.60, 25000, "60%"), Bracket(0.65, 35000, "65%"), Bracket(0.70, 40000, "70%"),
    Bracket(0.75, 50000, "75%")]

  /** The bracket `generateLoanRecommendation` selects. */
  function BracketOf(score: real): (b: Bracket)
    ensures b == Brackets[Band(score)]
    ensures 0.0 < b.percentage && 0 < b.baseAmount
  {
    if score >= 800.0 then Bracket(0.75, 50000, "75%")
    else if score >= 750.0 then Bracket(0.70, 40000, "70%")
    else if score >= 700.0 then Bracket(0.65, 35000, "65%")
    else if score >= 650.0 then Bracket(0.60, 25000, "60%")
    else if score >= 600.0 then Bracket(0.55, 20000, "55%")
    else if score >= 550.0 then Bracket(0.50, 15000, "50%")
    else Bracket(0.40, 10000, "40%")
  }

  /** A higher score never gets a smaller share, a lower ceiling or a worse category. */
  lemma BracketsMonotone(x: real, y: real)
    requires x <= y
    ensures BracketOf(x).percentage <= BracketOf(y).percentage
    ensures BracketOf(x).baseAmount <= BracketOf(y).baseAmount
    ensures Band(x) <= Band(y)
  {
  }

  datatype Recommendation = Recommendation(maxAmount: int, maxPercentage: string, interestRate: string, tenure: string)

  /**
   * `generateLoanRecommendation`: the bracket's share of the total assets,
   * never more than the bracket's ceiling, rounded.
   */
  function LoanRecommendation(score: real, p: ScoringPortfolio): (r: Recommendation)
    ensures r.maxAmount == Round(Min(TotalAssets(p) * BracketOf(score).percentage, BracketOf(score).baseAmount as real))
    ensures r.maxAmount <= BracketOf(score).baseAmount
    ensures TotalAssets(p) >= 0.0 ==> r.maxAmount >= 0
    ensures r.maxPercentage == BracketOf(score).text
    ensures r.interestRate == InterestRate(score) && r.tenure == Tenure(score)
  {
    var b := BracketOf(score);
    CappedAmountBounds(TotalAssets(p), b.percentage, b.baseAmount);
    Recommendation(Round(Min(TotalAssets(p) * b.percentage, b.baseAmount as real)), b.text, InterestRate(score), Tenure(score))
  }

  lemma CappedAmountBounds(total: real, percentage: real, base: int)
    requires percentage > 0.0 && base > 0
    ensures Round(Min(total * percentage, base as real)) <= base
    ensures total >= 0.0 ==> Round(Min(total * percentage, base as real)) >= 0
  {
    var amount := Min(total * percentage, base as real);
    RoundMonotone(amount, base as real);
    assert Round(base as real) == base;
    if total >= 0.0 {
      ProductNonNegative(total, percentage);
      RoundMonotone(0.0, amount);
    }
  }

  // ---------------------------------------------------------------- reasons

  datatype Reason =
    | StrongAssets | GoodAssets | ModerateAssets
    | ExcellentBehavior | GoodBehavior | StableBehavior
    | LowRiskProfile | ModerateRiskProfile | HigherRiskProfile

  function ReasonText(r: Reason): string
  {
    match r
    case StrongAssets => "Strong asset portfolio with diversified holdings"
    case GoodAssets => "Good asset base with solid gold and stablecoin reserves"
    case ModerateAssets => "Moderate asset accumulation showing investment discipline"
    case ExcellentBehavior => "Excellent investment behavior with consistent SIP contributions"
    case GoodBehavior => "Good investment habits with regular contributions"
    case StableBehavior => "Stable investment pattern with low volatility"
    case LowRiskProfile => "Low risk profile with minimal suspicious activity"
    case ModerateRiskProfile => "Moderate risk with standard transaction patterns"
    case HigherRiskProfile => "Higher risk profile - requires additional monitoring"
  }

  predicate IsRiskReason(x: Reason)
  {
    x == LowRiskProfile || x == ModerateRiskProfile || x == HigherRiskProfile
  }

  /** The asset reason: at most one, by tier of 300, 200 and 100 points. */
  function AssetReasons(asset: real): (r: seq<Reason>)
    ensures |r| <= 1 && forall x :: x in r ==> !IsRiskReason(x)
    ensures StrongAssets in r <==> asset >= 300.0
    ensures GoodAssets in r <==> 200.0 <= asset < 300.0
    ensures ModerateAssets in r <==> 100.0 <= asset < 200.0
  {
    if asset >= 300.0 then [StrongAssets]
    else if asset >= 200.0 then [GoodAssets]
    else if asset >= 100.0 then [ModerateAssets]
    else []
  }

  /** The behaviour reason: at most one, by tier of 250, 200 and 150 points. */
  function BehaviorReasons(behavior: real): (r: seq<Reason>)
    ensures |r| <= 1 && forall x :: x in r ==> !IsRiskReason(x)
    ensures ExcellentBehavior in r <==> behavior >= 250.0
    ensures GoodBehavior in r <==> 200.0 <= behavior < 250.0
    ensures StableBehavior in r <==> 150.0 <= behavior < 200.0
  {
    if behavior >= 250.0 then [ExcellentBehavior]
    else if behavior >= 200.0 then [GoodBehavior]
    else if behavior >= 150.0 then [StableBehavior]
    else []
  }

  /** The risk reason: low from 180, moderate from 150, higher below 100, none in between. */
  function RiskReasons(risk: real): (r: seq<Reason>)
    ensures |r| <= 1 && forall x :: x in r ==> IsRiskReason(x)
    ensures LowRiskProfile in r <==> risk >= 180.0
    ensures ModerateRiskProfile in r <==> 150.0 <= risk < 180.0
    ensures HigherRiskProfile in r <==> risk < 100.0
    ensures r == [] <==> 100.0 <= risk < 150.0
  {
    if risk >= 180.0 then [LowRiskProfile]
    else if risk >= 150.0 then [ModerateRiskProfile]
    else if risk < 100.0 then [HigherRiskProfile]
    else []
  }

  /** The reasons for three sub-scores: at most one per sub-score, in asset, behaviour, risk order. */
  function ReasonsOf(asset: real, behavior: real, risk: real): (r: seq<Reason>)
    ensures |r| <= 3
  {
    AssetReasons(asset) + BehaviorReasons(behavior) + RiskReasons(risk)
  }

  /** `generateScoringReasons`: pushes the reason of each sub-score that earns one. */
  method GenerateScoringReasons(asset: real, behavior: real, risk: real) returns (reasons: seq<Reason>)
    ensures reasons == ReasonsOf(asset, behavior, risk)
  {
    reasons := [];
    if asset >= 300.0 {
      reasons := reasons + [StrongAssets];
    } else if asset >= 200.0 {
      reasons := reasons + [GoodAssets];
    } else if asset >= 100.0 {
      reasons := reasons + [ModerateAssets];
    }
    assert reasons == AssetReasons(asset);
    if behavior >= 250.0 {
      reasons := reasons + [ExcellentBehavior];
    } else if behavior >= 200.0 {
      reasons := reasons + [GoodBehavior];
    } else if behavior >= 150.0 {
      reasons := reasons + [StableBehavior];
    }
    assert reasons == AssetReasons(asset) + BehaviorReasons(behavior);
    if risk >= 180.0 {
      reasons := reasons + [LowRiskProfile];
    } else if risk >= 150.0 {
      reasons := reasons + [ModerateRiskProfile];
    } else if risk < 100.0 {
      reasons := reasons + [HigherRiskProfile];
    }
  }

  /** Which reasons appear: each one exactly in its band of its sub-score. */
  lemma ReasonsExact(asset: real, behavior: real, risk: real)
    ensures var r := ReasonsOf(asset, behavior, risk);
      && (StrongAssets in r <==> asset >= 300.0)
      && (GoodAssets in r <==> 200.0 <= asset < 300.0)
      && (ModerateAssets in r <==> 100.0 <= asset < 200.0)
      && (ExcellentBehavior in r <==> behavior >= 250.0)
      && (GoodBehavior in r <==> 200.0 <= behavior < 250.0)
      && (StableBehavior in r <==> 150.0 <= behavior < 200.0)
      && (LowRiskProfile in r <==> risk >= 180.0)
      && (ModerateRiskProfile in r <==> 150.0 <= risk < 180.0)
      && (HigherRiskProfile in r <==> risk < 100.0)
  {
    var a, b, k := AssetReasons(asset), BehaviorReasons(behavior), RiskReasons(risk);
    assert forall x :: x in a + b + k <==> x in a || x in b || x in k;
  }

  /** A risk score from 100 up to but excluding 150 earns no risk reason, and only such a score. */
  lemma NoRiskReasonBand(asset: real, behavior: real, risk: real)
    ensures (forall x :: x in ReasonsOf(asset, behavior, risk) ==> !IsRiskReason(x)) <==> 100.0 <= risk < 150.0
  {
    var a, b, k := AssetReasons(asset), BehaviorReasons(behavior), RiskReasons(risk);
    assert forall x :: x in a + b + k <==> x in a || x in b || x in k;
    if k != [] {
      assert k[0] in a + b + k;
    }
  }

  // ------------------------------------------------------------ final score

  datatype Breakdown = Breakdown(assetScore: int, behaviorScore: int, riskScore: int)

  datatype ScoreResult = ScoreResult(
    score: int,
    category: Category,
    recommendation: Recommendation,
    breakdown: Breakdown,
    reasons: seq<Reason>,
    timestamp: int,
    validityDays: int)

  const ValidityDays: int := 30

  /** The sum of the sub-scores clamped to 300..900. */
  function FinalScore(asset: real, behavior: real, risk: real): (r: real)
    ensures MinScore <= r <= MaxScore
  {
    Max(MinScore, Min(MaxScore, asset + behavior + risk))
  }

  /**
   * A score from its sub-scores. Category and recommendation use the
   * unrounded final score; the reported score and breakdown are rounded.
   */
  function ResultFrom(p: ScoringPortfolio, asset: real, behavior: real, risk: real, now: int): ScoreResult
  {
    var final := FinalScore(asset, behavior, risk);
    ScoreResult(Round(final), CategoryOf(final), LoanRecommendation(final, p),
      Breakdown(Round(asset), Round(behavior), Round(risk)), ReasonsOf(asset, behavior, risk), now, ValidityDays)
  }

  /** The score of one user at time `now`. */
  function ScoreOf(p: ScoringPortfolio, b: ScoringBehavior, r: RiskInputs, now: int): ScoreResult
  {
    ResultFrom(p, AssetScoreOf(p), BehaviorScoreOf(b), RiskScoreOf(r), now)
  }

  const FailurePrefix: string := "Score calculation failed: "

  /**
   * `calculateScore` on possibly absent inputs: an absent portfolio, behaviour
   * or risk analysis makes the sub-score that reads it throw, and the error is
   * reported with the engine's prefix.
   */
  function CalculateScoreOf(p: Option<ScoringPortfolio>, b: Option<ScoringBehavior>, r: Option<RiskInputs>,
                            now: int): (res: Result<ScoreResult>)
    ensures res.Success? <==> p.Some? && b.Some? && r.Some?
    ensures res.Success? ==> res.value == ScoreOf(p.value, b.value, r.value, now)
    ensures res.Failure? ==> |res.error| >= |FailurePrefix| && res.error[..|FailurePrefix|] == FailurePrefix
  {
    if p.None? then Failure(FailurePrefix + "portfolio is missing")
    else if b.None? then Failure(FailurePrefix + "behavior is missing")
    else if r.None? then Failure(FailurePrefix + "risk analysis is missing")
    else Success(ScoreOf(p.value, b.value, r.value, now))
  }

  /** `calculateScore`: the three sub-scores, the clamp, category, recommendation and reasons. */
  method CalculateScore(p: Option<ScoringPortfolio>, b: Option<ScoringBehavior>, r: Option<RiskInputs>, now: int)
    returns (res: Result<ScoreResult>)
    ensures res == CalculateScoreOf(p, b, r, now)
  {
    if p.None? {
      return Failure(FailurePrefix + "portfolio is missing");
    }
    var asset := CalculateAssetScore(p.value);
    if b.None? {
      return Failure(FailurePrefix + "behavior is missing");
    }
    var behavior := CalculateBehaviorScore(b.value);
    if r.None? {
      return Failure(FailurePrefix + "risk analysis is missing");
    }
    var risk := CalculateRiskScore(r.value);
    var final := Max(MinScore, Min(MaxScore, asset + behavior + risk));
    assert final == FinalScore(asset, behavior, risk);
    var reasons := GenerateScoringReasons(asset, behavior, risk);
    res := Success(ScoreResult(Round(final), CategoryOf(final), LoanRecommendation(final, p.value),
      Breakdown(Round(asset), Round(behavior), Round(risk)), reasons, now, ValidityDays));
    assert res.value == ResultFrom(p.value, asset, behavior, risk, now);
  }

  /**
   * The reported score lies in 300..900; the upper clamp never applies
   * (the sub-scores add up to at most 900), and the breakdown stays within
   * each sub-score's range.
   */
  lemma ScoreInRange(p: ScoringPortfolio, b: ScoringBehavior, r: RiskInputs, now: int)
    ensures var s := ScoreOf(p, b, r, now);
      && 300 <= s.score <= 900
      && 0 <= s.breakdown.assetScore <= 400
      && 0 <= s.breakdown.behaviorScore <= 300
      && 0 <= s.breakdown.riskScore <= 200
    ensures FinalScore(AssetScoreOf(p), BehaviorScoreOf(b), RiskScoreOf(r))
         == Max(MinScore, AssetScoreOf(p) + BehaviorScoreOf(b) + RiskScoreOf(r))
  {
    var a, h, k := AssetScoreOf(p), BehaviorScoreOf(b), RiskScoreOf(r);
    var final := FinalScore(a, h, k);
    RoundRange(final, 300, 900);
    RoundRange(a, 0, 400);
    RoundRange(h, 0, 300);
    RoundRange(k, 0, 200);
  }

  lemma RoundRange(x: real, lo: int, hi: int)
    requires lo as real <= x <= hi as real
    ensures lo <= Round(x) <= hi
  {
    RoundMonotone(lo as real, x);
    RoundMonotone(x, hi as real);
    assert Round(lo as real) == lo;
    assert Round(hi as real) == hi;
  }

  /** The category follows the unrounded score, so a rounded 800 can still be "Very Good". */
  lemma CategoryOfUnroundedScore()
    ensures Round(799.5) == 800 && CategoryOf(799.5) == VeryGood
  {
  }

  /**
   * A user holding only gold worth 20 000, with the urban income and no
   * records: 200 asset points, 50 behaviour points (no panic selling), and
   * 180 risk points (the risk engine reports 365 days of inactivity for an
   * empty ledger). The score is 430, "Very Poor", with a loan of 8 000.
   */
  lemma GoldOnlyNoRecords(now: int)
    ensures var s := ScoreOf(ScoringPortfolio(Some(20000.0), None, None, None, None, None),
                             ScoringBehavior(None, None, 0.0, None, 0),
                             RiskInputs(Some(0), Some(0), Some(1), Some(365), Some(0)), now);
      && s.breakdown == Breakdown(200, 50, 180)
      && s.score == 430 && s.category == VeryPoor && s.recommendation.maxAmount == 8000
  {
    var p := ScoringPortfolio(Some(20000.0), None, None, None, None, None);
    assert IncomeEstimate(p) == UrbanIncome;
    assert GoldPoints(p) == 200.0;
    assert AssetScoreOf(p) == 200.0;
    assert Round(8000.0) == 8000;
  }

  /** What the scoring engine reads of the risk engine's analysis of an empty ledger. */
  lemma EmptyLedgerRiskInputs(rt: Runtime, userId: string, addresses: PortfolioFetcher.Addresses, now: int)
    ensures var r := RiskInputsOf(RiskEngine.RiskAnalysisOf(rt, userId, [], addresses, None, now));
      && r.largeWithdrawals == Some(0) && r.suspiciousActivity == Some(0)
      && r.daysSinceLastActivity == Some(365) && r.unusualCount == Some(0)
  {
    RiskEngine.EmptyLedgerRisk(rt, userId, addresses, now);
    RiskEngine.FraudIndicatorsExact(rt, [], None);
  }

  // ------------------------------------------------------------------ batch

  datatype UserData = UserData(
    userId: string,
    portfolio: Option<ScoringPortfolio>,
    behavior: Option<ScoringBehavior>,
    risk: Option<RiskInputs>)

  /** One batch entry: the score with `success: true`, or the error with `success: false`. */
  datatype BatchResult = Scored(userId: string, result: ScoreResult) | Failed(userId: string, error: string)

  function BatchEntry(u: UserData, now: int): (e: BatchResult)
    ensures e.userId == u.userId
    ensures e.Scored? <==> u.portfolio.Some? && u.behavior.Some? && u.risk.Some?
  {
    match CalculateScoreOf(u.portfolio, u.behavior, u.risk, now)
    case Success(s) => Scored(u.userId, s)
    case Failure(e) => Failed(u.userId, e)
  }

  /**
   * `batchCalculateScores`: one entry per user, in input order; a failing
   * user yields an error entry and the loop goes on with the next.
   */
  method BatchCalculateScores(users: seq<UserData>, now: int) returns (results: seq<BatchResult>)
    ensures |results| == |users|
    ensures forall i :: 0 <= i < |users| ==> results[i] == BatchEntry(users[i], now)
  {
    results := [];
    for i := 0 to |users|
      invariant results == Map(users[..i], EntryAt(now))
    {
      var entry := ScoreUser(users[i], now);
      assert users[..i + 1][..i] == users[..i];
      results := results + [entry];
    }
    assert users[..|users|] == users;
    MapAt(users, EntryAt(now));
  }

  /** The entry of one user, as the function the batch maps over the users. */
  function EntryAt(now: int): UserData -> BatchResult
  {
    u => BatchEntry(u, now)
  }

  /** One turn of the batch loop: the score, or the error the `catch` records. */
  method ScoreUser(u: UserData, now: int) returns (entry: BatchResult)
    ensures entry == BatchEntry(u, now)
  {
    var res := CalculateScore(u.portfolio, u.behavior, u.risk, now);
    entry := if res.Success? then Scored(u.userId, res.value) else Failed(u.userId, res.error);
  }

  function UserIds(users: seq<UserData>): (r: seq<string>)
    ensures |r| == |users| && forall i :: 0 <= i < |users| ==> r[i] == users[i].userId
  {
    seq(|users|, i requires 0 <= i < |users| => users[i].userId)
  }

  function ResultIds(results: seq<BatchResult>): (r: seq<string>)
    ensures |r| == |results| && forall i :: 0 <= i < |results| ==> r[i] == results[i].userId
  {
    seq(|results|, i requires 0 <= i < |results| => results[i].userId)
  }

  /** The batch answers for exactly the given users, in their order, whatever fails. */
  lemma BatchKeepsUsers(users: seq<UserData>, now: int, results: seq<BatchResult>)
    requires |results| == |users|
    requires forall i :: 0 <= i < |users| ==> results[i] == BatchEntry(users[i], now)
    ensures ResultIds(results) == UserIds(users)
  {
  }
}
