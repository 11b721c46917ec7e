/**
 * The portfolio fetcher: per-platform holdings and histories assembled into one
 * portfolio, the metrics computed over it, and the five-minute cache of
 * assembled portfolios.
 *
 * The platform APIs are not called here. What each request would return is an
 * input: `None` for a request that failed (or, for a history, did not return
 * an array), `Some(response)` otherwise. Dates are millisecond timestamps and
 * `now` stands for `Date.now()`.
 */
module PortfolioFetcher {
  import opened Ledger
  import opened LedgerSort

  /** Five minutes, in milliseconds. */
  const CacheDuration: int := 5 * 60 * 1000

  /** One value per platform, looked up by platform as `userAddress[platform]` does. */
  datatype PerPlatform<T> = PerPlatform(gold: T, silver: T, platinum: T, binr: T)
  {
    function At(p: Platform): T
    {
      match p
      case Gold => gold
      case Silver => silver
      case Platinum => platinum
      case Binr => binr
    }
  }

  /** The wallet address object; an absent field is `None`. */
  type Addresses = PerPlatform<Option<string>>

  /** A JavaScript-truthy address: present and not the empty string. */
  predicate HasAddress(address: Option<string>)
  {
    address.Some? && address.value != ""
  }

  // ------------------------------------------------------------- holdings

  /** The body of a metal platform's portfolio response; absent fields are `None`. */
  datatype MetalResponse = MetalResponse(
    balance: Option<real>,
    tokens: Option<real>,
    inrValue: Option<real>,
    lastPurchaseDate: Option<int>,
    totalPurchases: Option<real>,
    avgPurchasePrice: Option<real>,
    currentPrice: Option<real>,
    profitLoss: Option<real>,
    profitLossPercentage: Option<real>,
    sipActive: Option<bool>,
    sipAmount: Option<real>,
    sipFrequency: Option<string>,
    vaultStored: Option<bool>,
    stakingRewards: Option<real>)

  /** The body of the BINR platform's portfolio response. */
  datatype BinrResponse = BinrResponse(
    balance: Option<real>,
    totalDeposits: Option<real>,
    totalWithdrawals: Option<real>,
    avgBalance: Option<real>,
    lastTransactionDate: Option<int>,
    transactionCount: Option<real>,
    interestEarned: Option<real>,
    yieldPercentage: Option<real>,
    walletType: Option<string>)

  /**
   * A gold, silver or platinum holding. The token symbol and display name the
   * source attaches are constants of the platform, which `platform` records.
   */
  datatype MetalHolding = MetalHolding(
    platform: Platform,
    address: string,
    balance: real,
    tokens: real,
    value: real,
    lastPurchase: Option<int>,
    totalPurchases: real,
    avgPurchasePrice: real,
    currentPrice: real,
    profitLoss: real,
    profitLossPercentage: real,
    sipActive: bool,
    sipAmount: real,
    sipFrequency: Option<string>,
    vaultStored: bool,
    stakingRewards: real)

  datatype BinrHolding = BinrHolding(
    address: string,
    balance: real,
    totalDeposits: real,
    totalWithdrawals: real,
    avgBalance: real,
    lastTransaction: Option<int>,
    transactionCount: real,
    interestEarned: real,
    yieldPercentage: real,
    walletType: string)

  /** `x || 0` on a numeric field. */
  function OrZero(x: Option<real>): real { if x.Some? then x.value else 0.0 }

  /** `x || false` on a boolean field. */
  function OrFalse(x: Option<bool>): bool { x.Some? && x.value }

  /** `x || null` on a string field: the empty string is falsy. */
  function OrNull(x: Option<string>): Option<string>
  {
    if x.Some? && x.value != "" then x else None
  }

  /**
   * `fetchGoldPortfolio` and its silver and platinum twins: no request without
   * an address, no holding when the request fails.
   */
  function FetchMetal(p: Platform, address: Option<string>, response: Option<MetalResponse>): (r: Option<MetalHolding>)
    ensures r.Some? <==> HasAddress(address) && response.Some?
    ensures r.Some? ==> r.value.platform == p && r.value.address == address.value
    ensures r.Some? ==> r.value.value == OrZero(response.value.inrValue)
  {
    if !HasAddress(address) || response.None? then None
    else
      var d := response.value;
      Some(MetalHolding(p, address.value, OrZero(d.balance), OrZero(d.tokens), OrZero(d.inrValue),
        d.lastPurchaseDate, OrZero(d.totalPurchases), OrZero(d.avgPurchasePrice), OrZero(d.currentPrice),
        OrZero(d.profitLoss), OrZero(d.profitLossPercentage), OrFalse(d.sipActive), OrZero(d.sipAmount),
        OrNull(d.sipFrequency), OrFalse(d.vaultStored), OrZero(d.stakingRewards)))
  }

  /** `fetchBINRPortfolio`; a missing wallet type reads as 'standard'. */
  function FetchBinr(address: Option<string>, response: Option<BinrResponse>): (r: Option<BinrHolding>)
    ensures r.Some? <==> HasAddress(address) && response.Some?
    ensures r.Some? ==> r.value.address == address.value && r.value.balance == OrZero(response.value.balance)
    ensures r.Some? ==> r.value.walletType != ""
  {
    if !HasAddress(address) || response.None? then None
    else
      var d := response.value;
      var wallet := OrNull(d.walletType);
      Some(BinrHolding(address.value, OrZero(d.balance), OrZero(d.totalDeposits), OrZero(d.totalWithdrawals),
        OrZero(d.avgBalance), d.lastTransactionDate, OrZero(d.transactionCount), OrZero(d.interestEarned),
        OrZero(d.yieldPercentage), if wallet.Some? then wallet.value else "standard"))
  }

  datatype Holdings = Holdings(
    gold: Option<MetalHolding>,
    silver: Option<MetalHolding>,
    platinum: Option<MetalHolding>,
    binr: Option<BinrHolding>)

  /** `portfolio.gold?.value || 0` and its siblings. */
  function MetalValue(h: Option<MetalHolding>): real { if h.Some? then h.value.value else 0.0 }
  function MetalTokens(h: Option<MetalHolding>): real { if h.Some? then h.value.tokens else 0.0 }
  function BinrBalance(h: Option<BinrHolding>): real { if h.Some? then h.value.balance else 0.0 }

  function TotalValue(h: Holdings): real
  {
    MetalValue(h.gold) + MetalValue(h.silver) + MetalValue(h.platinum) + BinrBalance(h.binr)
  }

  // ------------------------------------------------------------- metrics

  /** The asset allocation: percentages of the total, or the raw values when the total is not positive. */
  datatype Allocation = Allocation(gold: real, silver: real, platinum: real, binr: real)

  datatype Metrics = Metrics(
    totalValue: real,
    totalTokens: real,
    allocation: Allocation,
    diversificationScore: int,
    riskLevel: string,
    lastActivity: Option<int>)

  /** `(x / total * 100).toFixed(2)`, read back as the number the string denotes. */
  function Percent(x: real, total: real): real
    requires total != 0.0
  {
    ToFixed2(x / total * 100.0)
  }

  function AllocationOf(h: Holdings): (a: Allocation)
    ensures TotalValue(h) <= 0.0 ==>
      a == Allocation(MetalValue(h.gold), MetalValue(h.silver), MetalValue(h.platinum), BinrBalance(h.binr))
  {
    var total := TotalValue(h);
    if total > 0.0 then
      Allocation(Percent(MetalValue(h.gold), total), Percent(MetalValue(h.silver), total),
        Percent(MetalValue(h.platinum), total), Percent(BinrBalance(h.binr), total))
    else
      Allocation(MetalValue(h.gold), MetalValue(h.silver), MetalValue(h.platinum), BinrBalance(h.binr))
  }

  /** The allocation's weights in the order gold, silver, platinum, binr. */
  function Weights(a: Allocation): seq<real> { [a.gold, a.silver, a.platinum, a.binr] }

  function Positive(w: seq<real>): (r: seq<real>)
    ensures |r| <= |w|
    ensures forall i :: 0 <= i < |r| ==> r[i] > 0.0
  {
    if w == [] then []
    else if w[|w| - 1] > 0.0 then Positive(w[..|w| - 1]) + [w[|w| - 1]]
    else Positive(w[..|w| - 1])
  }

  /** `Math.pow(weight / 100, 2)`, which over the reals is w² / 10000. */
  function ShareSquared(w: real): (r: real)
    ensures r * 10000.0 == w * w
  {
    w * w / 10000.0
  }

  function SumSquares(w: seq<real>): real
  {
    if w == [] then 0.0 else SumSquares(w[..|w| - 1]) + ShareSquared(w[|w| - 1])
  }

  /**
   * `calculateDiversificationScore`: one minus the Herfindahl-Hirschman index of
   * the positive weights, in percent; a single holding scores 50, none scores 0.
   */
  function DiversificationScore(a: Allocation): (r: int)
    ensures Positive(Weights(a)) == [] ==> r == 0
    ensures |Positive(Weights(a))| == 1 ==> r == 50
  {
    var w := Positive(Weights(a));
    if |w| == 0 then 0
    else if |w| == 1 then 50
    else Round((1.0 - SumSquares(w)) * 100.0)
  }

  /** `calculateRiskLevel`. */
  function RiskLevel(h: Holdings): string
  {
    var gold, binr := MetalValue(h.gold), BinrBalance(h.binr);
    var silver, platinum := MetalValue(h.silver), MetalValue(h.platinum);
    var total := gold + binr + silver + platinum;
    if total == 0.0 then "No Assets"
    else if binr / total >= 0.5 then "Low"
    else if gold / total >= 0.6 then "Low"
    else if (gold + silver + platinum) / total >= 0.8 then "Medium"
    else "High"
  }

  /** The dates `getLastActivityDate` collects, in the order it collects them. */
  function ActivityDates(h: Holdings): seq<int>
  {
    (if h.gold.Some? && h.gold.value.lastPurchase.Some? then [h.gold.value.lastPurchase.value] else [])
    + (if h.silver.Some? && h.silver.value.lastPurchase.Some? then [h.silver.value.lastPurchase.value] else [])
    + (if h.platinum.Some? && h.platinum.value.lastPurchase.Some? then [h.platinum.value.lastPurchase.value] else [])
    + (if h.binr.Some? && h.binr.value.lastTransaction.Some? then [h.binr.value.lastTransaction.value] else [])
  }

  function MaxOf(s: seq<int>): (m: int)
    requires s != []
    ensures m in s
    ensures forall i :: 0 <= i < |s| ==> s[i] <= m
  {
    if |s| == 1 then s[0]
    else
      var rest := MaxOf(s[1..]);
      assert forall i :: 1 <= i < |s| ==> s[i] == s[1..][i - 1];
      if s[0] > rest then s[0] else rest
  }

  /** `getLastActivityDate`: the latest recorded date, or nothing when there is none. */
  function LastActivity(h: Holdings): (r: Option<int>)
    ensures r.None? <==> ActivityDates(h) == []
    ensures r.Some? ==> r.value in ActivityDates(h)
    ensures r.Some? ==> forall i :: 0 <= i < |ActivityDates(h)| ==> ActivityDates(h)[i] <= r.value
  {
    var dates := ActivityDates(h);
    if dates == [] then None else Some(MaxOf(dates))
  }

  /** `calculatePortfolioMetrics`. */
  function PortfolioMetrics(h: Holdings): (m: Metrics)
    ensures m.allocation == AllocationOf(h)
    ensures m.totalTokens == MetalTokens(h.gold) + MetalTokens(h.silver) + MetalTokens(h.platinum)
  {
    var alloc := AllocationOf(h);
    Metrics(TotalValue(h), MetalTokens(h.gold) + MetalTokens(h.silver) + MetalTokens(h.platinum),
      alloc, DiversificationScore(alloc), RiskLevel(h), LastActivity(h))
  }

  // ------------------------------------------------------ metric properties

  /** For a positive total the rounded percentages add up to 100 within two hundredths. */
  lemma AllocationSumsToHundred(h: Holdings)
    requires TotalValue(h) > 0.0
    ensures var a := AllocationOf(h); 99.98 <= a.gold + a.silver + a.platinum + a.binr <= 100.02
  {
    var t := TotalValue(h);
    var g, s, p, b := MetalValue(h.gold), MetalValue(h.silver), MetalValue(h.platinum), BinrBalance(h.binr);
    SharesSum(g, s, p, b, t);
  }

  lemma SharesSum(g: real, s: real, p: real, b: real, t: real)
    requires t == g + s + p + b && t != 0.0
    ensures g / t * 100.0 + s / t * 100.0 + p / t * 100.0 + b / t * 100.0 == 100.0
  {
    var qg, qs, qp, qb := g / t, s / t, p / t, b / t;
    assert qg * t == g && qs * t == s && qp * t == p && qb * t == b;
    var q := qg + qs + qp + qb;
    calc {
      q * t;
      qg * t + qs * t + qp * t + qb * t;
      g + s + p + b;
      1.0 * t;
    }
    assert (q - 1.0) * t == 0.0;
  }

  lemma {:induction false} SumSquaresBound(w: seq<real>, total: real)
    requires forall i :: 0 <= i < |w| ==> 0.0 <= w[i]
    requires total == Sum(w)
    ensures 0.0 <= SumSquares(w) * 10000.0 <= total * total
  {
    if w != [] {
      var init, last := w[..|w| - 1], w[|w| - 1];
      SumSquaresBound(init, Sum(init));
      SumNonNegative(init);
      var si := Sum(init);
      assert (si + last) * (si + last) == si * si + 2.0 * si * last + last * last;
      assert 0.0 <= si * last;
    }
  }

  /**
   * Weights that are non-negative and add up to at most a little over 100 give
   * a diversification score between 0 and 100.
   */
  lemma WeightsSum(a: Allocation)
    ensures Sum(Weights(a)) == a.gold + a.silver + a.platinum + a.binr
  {
    var w := Weights(a);
    assert w[..3] == [a.gold, a.silver, a.platinum];
    assert w[..3][..2] == [a.gold, a.silver];
    assert w[..3][..2][..1] == [a.gold];
    assert Sum([a.gold]) == a.gold;
    assert Sum([a.gold, a.silver]) == a.gold + a.silver;
    assert Sum([a.gold, a.silver, a.platinum]) == a.gold + a.silver + a.platinum;
  }

  lemma SquareBound(x: real, c: real)
    requires 0.0 <= x <= c
    ensures x * x <= c * c
  {
    assert x * x <= x * c;
    assert x * c <= c * c;
  }

  lemma DiversificationInRange(a: Allocation)
    requires a.gold >= 0.0 && a.silver >= 0.0 && a.platinum >= 0.0 && a.binr >= 0.0
    requires a.gold + a.silver + a.platinum + a.binr <= 100.2
    ensures 0 <= DiversificationScore(a) <= 100
  {
    var w := Positive(Weights(a));
    if |w| >= 2 {
      WeightsSum(a);
      PositiveBounded(Weights(a));
      var pos := Sum(w);
      SumSquaresBound(w, pos);
      SumNonNegative(w);
      SquareBound(pos, 100.2);
      var hhi := SumSquares(w);
      assert 0.0 <= hhi <= 1.004004;
      assert -0.4004 <= (1.0 - hhi) * 100.0 <= 100.0;
    }
  }

  lemma {:induction false} PositiveBounded(w: seq<real>)
    requires forall i :: 0 <= i < |w| ==> 0.0 <= w[i]
    ensures Sum(Positive(w)) == Sum(w)
  {
    if w != [] {
      PositiveBounded(w[..|w| - 1]);
    }
  }

  lemma PercentNonNegative(x: real, t: real)
    requires 0.0 <= x && 0.0 < t
    ensures 0.0 <= Percent(x, t)
  {
    assert 0.0 <= x / t;
  }

  /** With non-negative holdings the reported diversification is a score between 0 and 100. */
  lemma MetricsDiversificationInRange(h: Holdings)
    requires MetalValue(h.gold) >= 0.0 && MetalValue(h.silver) >= 0.0
    requires MetalValue(h.platinum) >= 0.0 && BinrBalance(h.binr) >= 0.0
    ensures 0 <= PortfolioMetrics(h).diversificationScore <= 100
  {
    var a := AllocationOf(h);
    var t := TotalValue(h);
    if t > 0.0 {
      AllocationSumsToHundred(h);
      PercentNonNegative(MetalValue(h.gold), t);
      PercentNonNegative(MetalValue(h.silver), t);
      PercentNonNegative(MetalValue(h.platinum), t);
      PercentNonNegative(BinrBalance(h.binr), t);
    }
    DiversificationInRange(a);
  }

  /**
   * For non-negative holdings the level is decided by the BINR share alone,
   * unless gold holds 60% or more: 'High' exactly when BINR holds more than a
   * fifth but less than half.
   */
  lemma RiskLevelBands(h: Holdings)
    requires MetalValue(h.gold) >= 0.0 && MetalValue(h.silver) >= 0.0
    requires MetalValue(h.platinum) >= 0.0 && BinrBalance(h.binr) >= 0.0
    requires TotalValue(h) > 0.0
    ensures var t, b, g := TotalValue(h), BinrBalance(h.binr), MetalValue(h.gold);
      && (RiskLevel(h) == "Low" <==> b >= 0.5 * t || g >= 0.6 * t)
      && (RiskLevel(h) == "Medium" <==> b < 0.5 * t && g < 0.6 * t && b <= 0.2 * t)
      && (RiskLevel(h) == "High" <==> 0.2 * t < b < 0.5 * t && g < 0.6 * t)
  {
    var g, s, p, b := MetalValue(h.gold), MetalValue(h.silver), MetalValue(h.platinum), BinrBalance(h.binr);
    var t := g + b + s + p;
    assert t == TotalValue(h);
    QuotientAtLeast(b, t, 0.5);
    QuotientAtLeast(g, t, 0.6);
    QuotientAtLeast(g + s + p, t, 0.8);
  }

  lemma RiskLevelNoAssets(h: Holdings)
    ensures TotalValue(h) == 0.0 <==> RiskLevel(h) == "No Assets"
  {
  }

  // ---------------------------------------------------- merged history

  /** Every record of a platform's history, tagged with that platform. */
  function Tag(txs: seq<Tx>, p: Platform): (r: seq<Tx>)
    ensures |r| == |txs|
    ensures forall i :: 0 <= i < |r| ==> r[i] == txs[i].(platform := p)
  {
    seq(|txs|, i requires 0 <= i < |txs| => txs[i].(platform := p))
  }

  /** The platform names `fetchTransactionHistory` walks through. */
  function PlatformName(p: Platform): string
  {
    match p
    case Gold => "gold"
    case Silver => "silver"
    case Platinum => "platinum"
    case Binr => "binr"
  }

  /** The keys of the platform table (`ASSET_PLATFORMS`) that holds each platform's base URL. */
  const PlatformTableKeys: seq<string> := ["bgt", "bst", "bpt", "binr"]

  /** Whether the platform table has an entry under the platform's name. */
  predicate InPlatformTable(p: Platform)
  {
    PlatformName(p) in PlatformTableKeys
  }

  /** Only BINR is listed under its own name; the metals are listed under their token names. */
  lemma OnlyBinrInPlatformTable(p: Platform)
    ensures InPlatformTable(p) <==> p == Binr
  {
    assert PlatformTableKeys[0] == "bgt" && PlatformTableKeys[1] == "bst";
    assert PlatformTableKeys[2] == "bpt" && PlatformTableKeys[3] == "binr";
    assert "gold" != "bgt" && "gold" != "bst" && "gold" != "bpt" && "gold" != "binr";
    assert "silver" != "bgt" && "silver" != "bst" && "silver" != "bpt" && "silver" != "binr";
    assert "platinum" != "bgt" && "platinum" != "bst" && "platinum" != "bpt" && "platinum" != "binr";
  }

  /**
   * What one platform adds to the merged history. A platform missing from
   * the platform table makes the request's URL throw, and the catch only
   * logs, so it adds nothing.
   */
  function Contribution(addresses: Addresses, history: PerPlatform<Option<seq<Tx>>>, p: Platform): seq<Tx>
  {
    if HasAddress(addresses.At(p)) && InPlatformTable(p) && history.At(p).Some? then Tag(history.At(p).value, p) else []
  }

  /** The records gathered from the first n platforms, before sorting. */
  function Gathered(addresses: Addresses, history: PerPlatform<Option<seq<Tx>>>, n: nat): seq<Tx>
    requires n <= |PlatformOrder|
  {
    if n == 0 then [] else Gathered(addresses, history, n - 1) + Contribution(addresses, history, PlatformOrder[n - 1])
  }

  /**
   * `fetchTransactionHistory`: the histories of the platforms that have an
   * address, are in the platform table and answered, tagged and merged,
   * newest first.
   */
  method FetchTransactionHistory(addresses: Addresses, history: PerPlatform<Option<seq<Tx>>>) returns (r: seq<Tx>)
    ensures r == Sort(Descending, Gathered(addresses, history, 4))
    ensures SortedBy(Descending, r) && multiset(r) == multiset(Gathered(addresses, history, 4))
  {
    var all: seq<Tx> := [];
    var i := 0;
    while i < |PlatformOrder|
      invariant 0 <= i <= |PlatformOrder|
      invariant all == Gathered(addresses, history, i)
    {
      var p := PlatformOrder[i];
      assert Gathered(addresses, history, i + 1) == all + Contribution(addresses, history, p);
      var address := addresses.At(p);
      if HasAddress(address) {
        if PlatformName(p) in PlatformTableKeys {
          var response := history.At(p);
          if response.Some? {
            all := all + Tag(response.value, p);
          }
        }
      }
      i := i + 1;
    }
    r := SortedCopy(all, Descending);
  }

  /** As written, the merged history is BINR's history alone, whatever the metals answer. */
  lemma GatheredIsBinrOnly(addresses: Addresses, history: PerPlatform<Option<seq<Tx>>>)
    ensures Gathered(addresses, history, 4) == IntendedContribution(addresses, history, Binr)
  {
    OnlyBinrInPlatformTable(Gold);
    OnlyBinrInPlatformTable(Silver);
    OnlyBinrInPlatformTable(Platinum);
    OnlyBinrInPlatformTable(Binr);
    assert Gathered(addresses, history, 1) == [];
    assert Gathered(addresses, history, 2) == [];
    assert Gathered(addresses, history, 3) == [];
  }

  /** A gold record that the intended merge keeps and the merge as written loses. */
  lemma MetalHistoriesLost(t: Tx)
    ensures var addresses := PerPlatform(Some("0xa"), None, None, None);
      var history := PerPlatform(Some([t]), None, None, None);
      && Gathered(addresses, history, 4) == []
      && IntendedGathered(addresses, history, 4) == [t.(platform := Gold)]
  {
    var addresses := PerPlatform(Some("0xa"), None, None, None);
    var history := PerPlatform(Some([t]), None, None, None);
    GatheredIsBinrOnly(addresses, history);
    IntendedGatheredIsConcatenation(addresses, history);
    assert Tag([t], Gold) == [t.(platform := Gold)];
  }

  /** What one platform would add if the request went to that platform's own base URL. */
  function IntendedContribution(addresses: Addresses, history: PerPlatform<Option<seq<Tx>>>, p: Platform): seq<Tx>
  {
    if HasAddress(addresses.At(p)) && history.At(p).Some? then Tag(history.At(p).value, p) else []
  }

  /** The intended records gathered from the first n platforms, before sorting. */
  function IntendedGathered(addresses: Addresses, history: PerPlatform<Option<seq<Tx>>>, n: nat): seq<Tx>
    requires n <= |PlatformOrder|
  {
    if n == 0 then [] else IntendedGathered(addresses, history, n - 1) + IntendedContribution(addresses, history, PlatformOrder[n - 1])
  }

  lemma IntendedGatheredIsConcatenation(addresses: Addresses, history: PerPlatform<Option<seq<Tx>>>)
    ensures IntendedGathered(addresses, history, 4)
         == IntendedContribution(addresses, history, Gold) + IntendedContribution(addresses, history, Silver)
          + IntendedContribution(addresses, history, Platinum) + IntendedContribution(addresses, history, Binr)
  {
    assert IntendedGathered(addresses, history, 1) == IntendedContribution(addresses, history, Gold);
    assert IntendedGathered(addresses, history, 2) == IntendedGathered(addresses, history, 1) + IntendedContribution(addresses, history, Silver);
    assert IntendedGathered(addresses, history, 3) == IntendedGathered(addresses, history, 2) + IntendedContribution(addresses, history, Platinum);
  }

  lemma ContributionTagged(addresses: Addresses, history: PerPlatform<Option<seq<Tx>>>, p: Platform, t: Tx)
    requires t in IntendedContribution(addresses, history, p)
    ensures t.platform == p && HasAddress(addresses.At(p)) && history.At(p).Some?
    ensures exists u :: u in history.At(p).value && t == u.(platform := p)
  {
    var txs := history.At(p).value;
    var i :| 0 <= i < |txs| && Tag(txs, p)[i] == t;
    assert txs[i] in txs;
  }

  /** The intended merged history holds only records of platforms that had an address and answered, tagged with their platform. */
  lemma MergedHistorySound(addresses: Addresses, history: PerPlatform<Option<seq<Tx>>>, t: Tx)
    requires t in IntendedGathered(addresses, history, 4)
    ensures HasAddress(addresses.At(t.platform)) && history.At(t.platform).Some?
    ensures exists u :: u in history.At(t.platform).value && t == u.(platform := t.platform)
  {
    IntendedGatheredIsConcatenation(addresses, history);
    if t in IntendedContribution(addresses, history, Gold) {
      ContributionTagged(addresses, history, Gold, t);
    } else if t in IntendedContribution(addresses, history, Silver) {
      ContributionTagged(addresses, history, Silver, t);
    } else if t in IntendedContribution(addresses, history, Platinum) {
      ContributionTagged(addresses, history, Platinum, t);
    } else {
      ContributionTagged(addresses, history, Binr, t);
    }
  }

  /** Every record of every platform that had an address and answered is in the intended merged history. */
  lemma MergedHistoryComplete(addresses: Addresses, history: PerPlatform<Option<seq<Tx>>>, p: Platform, u: Tx)
    requires HasAddress(addresses.At(p)) && history.At(p).Some? && u in history.At(p).value
    ensures u.(platform := p) in IntendedGathered(addresses, history, 4)
  {
    var txs := history.At(p).value;
    var i :| 0 <= i < |txs| && txs[i] == u;
    assert Tag(txs, p)[i] == u.(platform := p);
    assert u.(platform := p) in IntendedContribution(addresses, history, p);
    IntendedGatheredIsConcatenation(addresses, history);
  }

  // ---------------------------------------------------- cache and fetch

  /** An assembled portfolio. `timestamp` and `lastUpdated` are both the fetch time. */
  datatype Portfolio = Portfolio(
    userId: string,
    timestamp: int,
    holdings: Holdings,
    transactionHistory: seq<Tx>,
    metrics: Metrics)

  datatype CacheEntry = CacheEntry(data: Portfolio, timestamp: int)

  /** What `getCachedPortfolio` returns. */
  function CacheLookup(cache: map<string, CacheEntry>, key: string, now: int): (r: Option<Portfolio>)
    ensures r.Some? <==> key in cache && now - cache[key].timestamp <= CacheDuration
    ensures r.Some? ==> r.value == cache[key].data
  {
    if key !in cache then None
    else if now - cache[key].timestamp > CacheDuration then None
    else Some(cache[key].data)
  }

  /** The cache after `getCachedPortfolio`: an expired entry is gone. */
  function CacheAfterLookup(cache: map<string, CacheEntry>, key: string, now: int): (c: map<string, CacheEntry>)
    ensures forall k :: k in c ==> k in cache && c[k] == cache[k]
    ensures forall k :: k in cache && k != key ==> k in c
    ensures key in c <==> key in cache && now - cache[key].timestamp <= CacheDuration
  {
    if key in cache && now - cache[key].timestamp > CacheDuration then cache - {key} else cache
  }

  predicate StartsWith(s: string, prefix: string)
  {
    |prefix| <= |s| && s[..|prefix|] == prefix
  }

  /** The cache after `clearUserCache(userId)`. */
  function ClearedFor(cache: map<string, CacheEntry>, userId: string): (c: map<string, CacheEntry>)
    ensures forall k :: k in c <==> k in cache && !StartsWith(k, userId + "_")
    ensures forall k :: k in c ==> c[k] == cache[k]
  {
    map k | k in cache && !StartsWith(k, userId + "_") :: cache[k]
  }

  /** A portfolio just stored is found again until it is five minutes old. */
  lemma LookupAfterStore(cache: map<string, CacheEntry>, key: string, data: Portfolio, stored: int, now: int)
    ensures CacheLookup(cache[key := CacheEntry(data, stored)], key, now)
         == if now - stored <= CacheDuration then Some(data) else None
  {
  }

  /** Storing or evicting one key leaves every other key's lookup as it was. */
  lemma LookupOtherKey(cache: map<string, CacheEntry>, key: string, other: string, data: Portfolio, now: int, later: int)
    requires other != key
    ensures CacheLookup(cache[key := CacheEntry(data, now)], other, later) == CacheLookup(cache, other, later)
    ensures CacheLookup(CacheAfterLookup(cache, key, now), other, later) == CacheLookup(cache, other, later)
  {
  }

  /** `JSON.stringify` of a string: quotes around it, with the escapes the standard requires. */
  function JsonString(s: string): string
  {
    "\"" + JsonEscape(s) + "\""
  }

  function HexDigit(n: int): char
    requires 0 <= n < 16
  {
    if n < 10 then ('0' as int + n) as char else ('a' as int + n - 10) as char
  }

  function JsonEscape(s: string): string
  {
    if s == [] then ""
    else
      var c := s[0];
      var e :=
        if c == '"' then "\\\""
        else if c == '\\' then "\\\\"
        else if c as int == 8 then "\\b"
        else if c as int == 12 then "\\f"
        else if c == '\n' then "\\n"
        else if c == '\r' then "\\r"
        else if c == '\t' then "\\t"
        else if c < ' ' then "\\u00" + [HexDigit(c as int / 16), HexDigit(c as int % 16)]
        else [c];
      e + JsonEscape(s[1..])
  }

  /** One `"name":"value"` member, or nothing for an absent field. */
  function JsonMember(name: string, value: Option<string>): seq<string>
  {
    if value.Some? then ["\"" + name + "\":" + JsonString(value.value)] else []
  }

  function JoinComma(parts: seq<string>): string
  {
    if parts == [] then "" else if |parts| == 1 then parts[0] else parts[0] + "," + JoinComma(parts[1..])
  }

  /**
   * `JSON.stringify(userAddress)` for an address object whose fields were set
   * in the order gold, silver, platinum, binr; an absent argument prints as
   * `undefined` in the template string.
   */
  function AddressesJson(addresses: Option<Addresses>): string
  {
    if addresses.None? then "undefined"
    else
      var a := addresses.value;
      "{" + JoinComma(JsonMember("gold", a.gold) + JsonMember("silver", a.silver)
        + JsonMember("platinum", a.platinum) + JsonMember("binr", a.binr)) + "}"
  }

  /** The cache key of a user's portfolio. */
  function CacheKey(userId: string, addresses: Option<Addresses>): (k: string)
    ensures StartsWith(k, userId + "_")
  {
    assert (userId + "_" + AddressesJson(addresses))[..|userId + "_"|] == userId + "_";
    userId + "_" + AddressesJson(addresses)
  }

  /** After `clearUserCache(userId)` none of that user's portfolios is cached, whatever the addresses. */
  lemma ClearedUserMisses(cache: map<string, CacheEntry>, userId: string, addresses: Option<Addresses>, now: int)
    ensures CacheLookup(ClearedFor(cache, userId), CacheKey(userId, addresses), now) == None
  {
  }

  /** The portfolio assembled on a cache miss. */
  function Assemble(userId: string, a: Addresses, holdings: Holdings, history: seq<Tx>, now: int): (p: Portfolio)
    ensures p.userId == userId && p.holdings == holdings && p.transactionHistory == history
    ensures p.metrics == PortfolioMetrics(holdings)
  {
    Portfolio(userId, now, holdings, history, PortfolioMetrics(holdings))
  }

  /** The holdings a fetch yields from the given responses. */
  function FetchHoldings(a: Addresses, gold: Option<MetalResponse>, silver: Option<MetalResponse>,
                         platinum: Option<MetalResponse>, binr: Option<BinrResponse>): (h: Holdings)
    ensures h.gold.Some? <==> HasAddress(a.gold) && gold.Some?
    ensures h.silver.Some? <==> HasAddress(a.silver) && silver.Some?
    ensures h.platinum.Some? <==> HasAddress(a.platinum) && platinum.Some?
    ensures h.binr.Some? <==> HasAddress(a.binr) && binr.Some?
  {
    Holdings(FetchMetal(Gold, a.gold, gold), FetchMetal(Silver, a.silver, silver),
      FetchMetal(Platinum, a.platinum, platinum), FetchBinr(a.binr, binr))
  }

  /** `portfolio.gold?.address` and its siblings: the address each fetched holding carries. */
  function HoldingAddresses(h: Holdings): (a: Addresses)
    ensures a.gold.Some? <==> h.gold.Some?
    ensures a.silver.Some? <==> h.silver.Some?
    ensures a.platinum.Some? <==> h.platinum.Some?
    ensures a.binr.Some? <==> h.binr.Some?
  {
    PerPlatform(
      if h.gold.Some? then Some(h.gold.value.address) else None,
      if h.silver.Some? then Some(h.silver.value.address) else None,
      if h.platinum.Some? then Some(h.platinum.value.address) else None,
      if h.binr.Some? then Some(h.binr.value.address) else None)
  }

  /**
   * A fetched holding carries its address exactly when the platform had an
   * address and answered, and then it is the requested address.
   */
  lemma FetchedHoldingAddresses(a: Addresses, gold: Option<MetalResponse>, silver: Option<MetalResponse>,
                                platinum: Option<MetalResponse>, binr: Option<BinrResponse>)
    ensures var w := HoldingAddresses(FetchHoldings(a, gold, silver, platinum, binr));
      && (HasAddress(w.gold) <==> HasAddress(a.gold) && gold.Some?)
      && (HasAddress(w.silver) <==> HasAddress(a.silver) && silver.Some?)
      && (HasAddress(w.platinum) <==> HasAddress(a.platinum) && platinum.Some?)
      && (HasAddress(w.binr) <==> HasAddress(a.binr) && binr.Some?)
      && (forall p :: HasAddress(w.At(p)) ==> w.At(p) == a.At(p))
  {
  }

  /** What the platform APIs would answer to one fetch. */
  datatype Responses = Responses(
    gold: Option<MetalResponse>,
    silver: Option<MetalResponse>,
    platinum: Option<MetalResponse>,
    binr: Option<BinrResponse>,
    history: PerPlatform<Option<seq<Tx>>>)

  /** The fetcher and its portfolio cache, a map from cache key to stored portfolio and time. */
  class Fetcher {
    var cache: map<string, CacheEntry>

    constructor ()
      ensures cache == map[]
    {
      cache := map[];
    }

    /** `cachePortfolio`: stores the portfolio with the current time, replacing any entry. */
    method CachePortfolio(key: string, data: Portfolio, now: int)
      modifies this
      ensures cache == old(cache)[key := CacheEntry(data, now)]
    {
      cache := cache[key := CacheEntry(data, now)];
    }

    /** `getCachedPortfolio`: a fresh entry's data; an expired entry is deleted. */
    method GetCachedPortfolio(key: string, now: int) returns (r: Option<Portfolio>)
      modifies this
      ensures r == CacheLookup(old(cache), key, now)
      ensures cache == CacheAfterLookup(old(cache), key, now)
    {
      if key !in cache {
        return None;
      }
      var entry := cache[key];
      if now - entry.timestamp > CacheDuration {
        cache := cache - {key};
        return None;
      }
      return Some(entry.data);
    }

    /** `clearUserCache`: collects the keys that start with `userId_`, then deletes them. */
    method ClearUserCache(userId: string)
      modifies this
      ensures cache == ClearedFor(old(cache), userId)
    {
      var prefix := userId + "_";
      var keysToDelete: seq<string> := [];
      var remaining := cache.Keys;
      while remaining != {}
        invariant remaining <= cache.Keys
        invariant forall k :: k in keysToDelete <==> k in cache && k !in remaining && StartsWith(k, prefix)
        decreases remaining
      {
        var key :| key in remaining;
        if StartsWith(key, prefix) {
          keysToDelete := keysToDelete + [key];
        }
        remaining := remaining - {key};
      }
      var i := 0;
      while i < |keysToDelete|
        invariant 0 <= i <= |keysToDelete|
        invariant forall k :: k in cache <==> k in old(cache) && k !in keysToDelete[..i]
        invariant forall k :: k in cache ==> cache[k] == old(cache)[k]
      {
        assert keysToDelete[..i + 1] == keysToDelete[..i] + [keysToDelete[i]];
        cache := cache - {keysToDelete[i]};
        i := i + 1;
      }
      assert keysToDelete[..i] == keysToDelete;
    }

    /**
     * `fetchCompletePortfolio`: a fresh cached portfolio is returned as it is;
     * otherwise the holdings and history are assembled from the responses,
     * cached and returned. Reading a field of an absent address object throws,
     * which is the failure.
     */
    method FetchCompletePortfolio(userId: string, addresses: Option<Addresses>, responses: Responses, now: int)
      returns (r: Result<Portfolio>)
      modifies this
      ensures var key := CacheKey(userId, addresses);
        var hit := CacheLookup(old(cache), key, now);
        var swept := CacheAfterLookup(old(cache), key, now);
        if hit.Some? then r == Success(hit.value) && cache == swept
        else if addresses.None? then r.Failure? && cache == swept
        else
          && r.Success?
          && r.value == Assemble(userId, addresses.value,
               FetchHoldings(addresses.value, responses.gold, responses.silver, responses.platinum, responses.binr),
               Sort(Descending, Gathered(addresses.value, responses.history, 4)), now)
          && cache == swept[key := CacheEntry(r.value, now)]
    {
      var key := userId + "_" + AddressesJson(addresses);
      var cached := GetCachedPortfolio(key, now);
      if cached.Some? {
        return Success(cached.value);
      }
      if addresses.None? {
        return Failure("Portfolio fetch failed: Cannot read properties of undefined (reading 'gold')");
      }
      var a := addresses.value;
      var holdings := FetchHoldings(a, responses.gold, responses.silver, responses.platinum, responses.binr);
      var history := FetchTransactionHistory(a, responses.history);
      var portfolio := Assemble(userId, a, holdings, history, now);
      CachePortfolio(key, portfolio, now);
      return Success(portfolio);
    }
  }
}
