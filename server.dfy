/**
 * The loan helpers of the API server and the partition loop of its batch
 * scoring route. The helpers repeat the scoring engine's bracket, rate and
 * tenure tables; the lemmas here show that they agree with it.
 */
module LoanServer {
  import opened Ledger
  import ScoringEngine

  datatype Eligibility = Eligible | NotEligible

  function EligibilityText(e: Eligibility): string
  {
    match e
    case Eligible => "Eligible"
    case NotEligible => "Not Eligible"
  }

  datatype LoanRisk = LowLoanRisk | MediumLoanRisk | HighLoanRisk

  function LoanRiskText(r: LoanRisk): string
  {
    match r
    case LowLoanRisk => "Low"
    case MediumLoanRisk => "Medium"
    case HighLoanRisk => "High"
  }

  /** `getInterestRate`. */
  function GetInterestRate(score: real): (r: string)
    ensures r == ScoringEngine.InterestRate(score)
  {
    if score >= 800.0 then "12-14%"
    else if score >= 750.0 then "14-16%"
    else if score >= 700.0 then "16-18%"
    else if score >= 650.0 then "18-20%"
    else if score >= 600.0 then "20-22%"
    else if score >= 550.0 then "22-24%"
    else "24-26%"
  }

  /** `getTenure`. */
  function GetTenure(score: real): (r: string)
    ensures r == ScoringEngine.Tenure(score)
  {
    if score >= 750.0 then "36 months"
    else if score >= 700.0 then "24 months"
    else if score >= 650.0 then "18 months"
    else if score >= 600.0 then "12 months"
    else "6 months"
  }

  /** The bracket `calculateLoanEligibility` selects: the scoring engine's table. */
  function LoanBracket(score: real): (b: ScoringEngine.Bracket)
    ensures b == ScoringEngine.BracketOf(score)
  {
    if score >= 800.0 then ScoringEngine.Bracket(0.75, 50000, "75%")
    else if score >= 750.0 then ScoringEngine.Bracket(0.70, 40000, "70%")
    else if score >= 700.0 then ScoringEngine.Bracket(0.65, 35000, "65%")
    else if score >= 650.0 then ScoringEngine.Bracket(0.60, 25000, "60%")
    else if score >= 600.0 then ScoringEngine.Bracket(0.55, 20000, "55%")
    else if score >= 550.0 then ScoringEngine.Bracket(0.50, 15000, "50%")
    else ScoringEngine.Bracket(0.40, 10000, "40%")
  }

  datatype LoanEligibility = LoanEligibility(
    recommendedAmount: int,
    maxPercentage: string,
    interestRate: string,
    tenure: string,
    eligibility: Eligibility,
    riskLevel: LoanRisk)

  /**
   * `calculateLoanEligibility`. The monthly income is accepted and not used.
   * Eligible from 550; low risk from 700, medium from 600.
   */
  function CalculateLoanEligibility(score: real, portfolioValue: real, monthlyIncome: Option<real>): (r: LoanEligibility)
    ensures var b := ScoringEngine.BracketOf(score);
      && r.recommendedAmount == Round(Min(portfolioValue * b.percentage, b.baseAmount as real))
      && r.recommendedAmount <= b.baseAmount
      && (portfolioValue >= 0.0 ==> r.recommendedAmount >= 0)
      && r.maxPercentage == b.text
    ensures r.eligibility == Eligible <==> score >= 550.0
    ensures r.riskLevel == LowLoanRisk <==> score >= 700.0
    ensures r.riskLevel == HighLoanRisk <==> score < 600.0
  {
    var b := LoanBracket(score);
    var amount := Min(portfolioValue * b.percentage, b.baseAmount as real);
    ScoringEngine.CappedAmountBounds(portfolioValue, b.percentage, b.baseAmount);
    LoanEligibility(Round(amount), b.text, GetInterestRate(score), GetTenure(score),
      if score >= 550.0 then Eligible else NotEligible,
      if score >= 700.0 then LowLoanRisk else if score >= 600.0 then MediumLoanRisk else HighLoanRisk)
  }

  /**
   * The server's eligibility figures are the scoring engine's recommendation
   * for a portfolio whose total assets are the given value.
   */
  lemma EligibilityAgreesWithRecommendation(score: real, p: ScoringEngine.ScoringPortfolio, monthlyIncome: Option<real>)
    ensures var e := CalculateLoanEligibility(score, ScoringEngine.TotalAssets(p), monthlyIncome);
      var r := ScoringEngine.LoanRecommendation(score, p);
      && e.recommendedAmount == r.maxAmount && e.maxPercentage == r.maxPercentage
      && e.interestRate == r.interestRate && e.tenure == r.tenure
  {
  }

  /** Eligibility is exactly the engine's "Poor" category or better, and the risk level follows the category. */
  lemma EligibilityFollowsCategory(score: real, portfolioValue: real, monthlyIncome: Option<real>)
    ensures var e := CalculateLoanEligibility(score, portfolioValue, monthlyIncome);
      && (e.eligibility == Eligible <==> ScoringEngine.CategoryOf(score) != ScoringEngine.VeryPoor)
      && (e.riskLevel == LowLoanRisk <==> ScoringEngine.Band(score) >= 4)
      && (e.riskLevel == MediumLoanRisk <==> 2 <= ScoringEngine.Band(score) < 4)
  {
    var b := ScoringEngine.Band(score);
    assert ScoringEngine.Thresholds[0] == 550.0 && ScoringEngine.Thresholds[1] == 600.0;
    assert ScoringEngine.Thresholds[3] == 700.0;
  }

  // ------------------------------------------------------------------ batch

  const BatchSize: nat := 10

  /** What the per-user pipeline (fetch, behaviour, risk, score) yields for one user. */
  datatype Outcome =
    | Succeeded(score: int, category: ScoringEngine.Category, recommendation: ScoringEngine.Recommendation)
    | Errored(error: string)

  datatype Row = Row(userId: string, outcome: Outcome)

  predicate Succeeds(r: Row) { r.outcome.Succeeded? }
  predicate Fails(r: Row) { r.outcome.Errored? }

  /** The rows for a list of users, one per user, in order. */
  function RowsOf(userIds: seq<string>, process: string -> Outcome): (r: seq<Row>)
    ensures |r| == |userIds|
    ensures forall i :: 0 <= i < |userIds| ==> r[i] == Row(userIds[i], process(userIds[i]))
  {
    seq(|userIds|, i requires 0 <= i < |userIds| => Row(userIds[i], process(userIds[i])))
  }

  datatype Summary = Summary(totalProcessed: nat, successful: nat, failed: nat, results: seq<Row>)

  /**
   * The partition loop of `/api/score/batch`: slices of ten users in order,
   * each slice's rows appended after the previous ones. `process` stands for
   * the per-user pipeline, whose errors it reports as `Errored`.
   */
  method ScoreBatch(userIds: seq<string>, process: string -> Outcome) returns (s: Summary)
    ensures s.results == RowsOf(userIds, process)
    ensures s.totalProcessed == |userIds|
    ensures s.successful == |Filter(s.results, Succeeds)|
    ensures s.failed == |Filter(s.results, Fails)|
    ensures s.successful + s.failed == s.totalProcessed
  {
    var results: seq<Row> := [];
    var i := 0;
    while i < |userIds|
      invariant 0 <= i
      invariant i <= |userIds| ==> results == RowsOf(userIds[..i], process)
      invariant i > |userIds| ==> results == RowsOf(userIds, process)
      decreases |userIds| - i
    {
      var end := MinInt(i + BatchSize, |userIds|);
      var batch := userIds[i..end];
      var batchResults := ProcessSlice(batch, process);
      assert userIds[..end] == userIds[..i] + batch;
      RowsOfAppend(userIds[..i], batch, process);
      results := results + batchResults;
      if end == |userIds| {
        assert userIds[..end] == userIds;
      }
      i := i + BatchSize;
    }
    if i == |userIds| {
      assert userIds[..i] == userIds;
    }
    CountsPartition(results);
    s := Summary(|results|, |Filter(results, Succeeds)|, |Filter(results, Fails)|, results);
  }

  /** The `Promise.all` over one slice: one row per user of the slice, in order. */
  method ProcessSlice(batch: seq<string>, process: string -> Outcome) returns (batchResults: seq<Row>)
    ensures batchResults == RowsOf(batch, process)
  {
    batchResults := [];
    for k := 0 to |batch|
      invariant batchResults == RowsOf(batch[..k], process)
    {
      batchResults := batchResults + [Row(batch[k], process(batch[k]))];
    }
    assert batch[..|batch|] == batch;
  }

  /** The rows of two runs of users, one after the other, are the rows of the joined run. */
  lemma RowsOfAppend(a: seq<string>, b: seq<string>, process: string -> Outcome)
    ensures RowsOf(a + b, process) == RowsOf(a, process) + RowsOf(b, process)
  {
  }

  /** Every row either succeeds or fails, so the two counts add up to the number processed. */
  lemma {:induction false} CountsPartition(rows: seq<Row>)
    ensures |Filter(rows, Succeeds)| + |Filter(rows, Fails)| == |rows|
  {
    if rows != [] {
      CountsPartition(rows[..|rows| - 1]);
    }
  }
}
