/**
 * Shared vocabulary of the scoring pipeline: transaction records as the four
 * asset platforms deliver them, the host primitives the services call (calendar
 * projections of a timestamp and Math.sqrt), and the small numeric helpers the
 * services use (JavaScript rounding, sums, means, population variance).
 *
 * Money and ratios are `real` (the scoring engine uses decimal arithmetic);
 * timestamps are integer milliseconds.
 */
module Ledger {

  datatype Option<+T> = None | Some(value: T)

  /** A value, or the message of the error the source would throw. */
  datatype Result<+T> = Success(value: T) | Failure(error: string)

  /** The four platforms; the history fetcher tags every record with one of them. */
  datatype Platform = Gold | Silver | Platinum | Binr

  /** The `type` field of a record; any other string is `OtherKind`. */
  datatype TxKind = Purchase | Sale | Withdrawal | OtherKind

  /**
   * One transaction record. `from` and `to` are wallet identifiers, the empty
   * string standing for an absent (falsy) field.
   */
  datatype Tx = Tx(
    id: string,
    platform: Platform,
    kind: TxKind,
    amount: real,
    timestamp: int,
    sipContribution: bool,
    from: string,
    to: string)

  /** The order in which the services visit the platforms: gold, silver, platinum, binr. */
  const PlatformOrder: seq<Platform> := [Gold, Silver, Platinum, Binr]

  const DayMs: int := 24 * 60 * 60 * 1000

  predicate IsSale(t: Tx) { t.kind == Sale || t.kind == Withdrawal }

  /**
   * What the services ask of the host: the local-calendar projections of a
   * timestamp and the square root. They are parameters, not computed here.
   *  - dayLabel:   `new Date(ts).toDateString()`
   *  - dayStart:   `new Date(label)`, the local midnight a day label denotes, in ms
   *  - weekLabel:  `toDateString()` of the Sunday that starts the week of ts
   *  - monthIndex: 12 * year + month of ts (local), the month key
   *  - monthStart: `new Date(year, month)` for a month index, in ms
   *  - hourOf:     `new Date(ts).getHours()`
   *  - sqrt:       `Math.sqrt`
   */
  datatype Runtime = Runtime(
    dayLabel: int -> string,
    dayStart: string -> int,
    weekLabel: int -> string,
    monthIndex: int -> int,
    monthStart: int -> int,
    hourOf: int -> int,
    sqrt: real -> real)

  /**
   * The square root the lemmas about standard deviations rely on: the
   * non-negative root of every non-negative number (the root of 0 is 0).
   */
  ghost predicate IsSqrt(sqrt: real -> real) {
    && sqrt(0.0) == 0.0
    && forall x: real {:trigger sqrt(x)} :: 0.0 <= x ==> 0.0 <= sqrt(x) && sqrt(x) * sqrt(x) == x
  }

  // ---------------------------------------------------------------- numbers

  /** JavaScript `Math.round`: halves go up. */
  function Round(x: real): (r: int)
    ensures x - 0.5 < r as real <= x + 0.5
  {
    (x + 0.5).Floor
  }

  /** `Math.round(x * 100) / 100`. */
  function Round2(x: real): (r: real)
    ensures x - 0.005 < r <= x + 0.005
  {
    Round(x * 100.0) as real / 100.0
  }

  /** `parseFloat(x.toFixed(2))`: nearest hundredth, halves away from zero. */
  function ToFixed2(x: real): (r: real)
    ensures -0.005 <= r - x <= 0.005
    ensures 0.0 <= x ==> 0.0 <= r
  {
    if x < 0.0 then -(Round(-x * 100.0) as real / 100.0) else Round(x * 100.0) as real / 100.0
  }

  /** `Math.ceil`. */
  function Ceil(x: real): (r: int)
    ensures x <= r as real < x + 1.0
  {
    -((-x).Floor)
  }

  lemma RoundMonotone(x: real, y: real)
    requires x <= y
    ensures Round(x) <= Round(y)
  {
  }

  /** x / t >= c exactly when x >= c * t, for positive t. */
  lemma QuotientAtLeast(x: real, t: real, c: real)
    requires t > 0.0
    ensures x / t >= c <==> x >= c * t
  {
    var q := x / t;
    assert q * t == x;
    if q >= c {
      assert (q - c) * t >= 0.0;
    } else {
      assert (c - q) * t > 0.0;
    }
  }

  /** x / t <= c exactly when x <= c * t, for positive t. */
  lemma QuotientAtMost(x: real, t: real, c: real)
    requires t > 0.0
    ensures x / t <= c <==> x <= c * t
  {
    var q := x / t;
    assert q * t == x;
    if q <= c {
      assert (c - q) * t >= 0.0;
    } else {
      assert (q - c) * t > 0.0;
    }
  }

  function Abs(x: real): real { if x < 0.0 then -x else x }
  function Min(a: real, b: real): real { if a <= b then a else b }
  function Max(a: real, b: real): real { if a >= b then a else b }
  function MinInt(a: int, b: int): int { if a <= b then a else b }
  function MaxInt(a: int, b: int): int { if a >= b then a else b }

  /** `Math.max(lo, Math.min(hi, x))`. */
  function Clamp(lo: real, hi: real, x: real): (r: real)
    requires lo <= hi
    ensures lo <= r <= hi
    ensures lo <= x <= hi ==> r == x
  {
    Max(lo, Min(hi, x))
  }

  function Sum(s: seq<real>): real
  {
    if s == [] then 0.0 else Sum(s[..|s| - 1]) + s[|s| - 1]
  }

  /** `Math.max(...s)` for a non-empty list. */
  function MaxReal(s: seq<real>): (m: real)
    requires s != []
    ensures m in s
    ensures forall i :: 0 <= i < |s| ==> s[i] <= m
  {
    if |s| == 1 then s[0]
    else
      var rest := MaxReal(s[1..]);
      assert forall i :: 1 <= i < |s| ==> s[i] == s[1..][i - 1];
      if s[0] > rest then s[0] else rest
  }

  /** `Math.min(...s)` for a non-empty list. */
  function MinReal(s: seq<real>): (m: real)
    requires s != []
    ensures m in s
    ensures forall i :: 0 <= i < |s| ==> m <= s[i]
  {
    if |s| == 1 then s[0]
    else
      var rest := MinReal(s[1..]);
      assert forall i :: 1 <= i < |s| ==> s[i] == s[1..][i - 1];
      if s[0] < rest then s[0] else rest
  }

  function Mean(s: seq<real>): real
    requires |s| > 0
  {
    Sum(s) / |s| as real
  }

  function SquaredDeviations(s: seq<real>, m: real): (r: seq<real>)
    ensures |r| == |s|
  {
    seq(|s|, i requires 0 <= i < |s| => (s[i] - m) * (s[i] - m))
  }

  /** Population variance, as the services compute it. */
  function Variance(s: seq<real>): real
    requires |s| > 0
  {
    Sum(SquaredDeviations(s, Mean(s))) / |s| as real
  }

  lemma {:induction false} SumNonNegative(s: seq<real>)
    requires forall i :: 0 <= i < |s| ==> 0.0 <= s[i]
    ensures 0.0 <= Sum(s)
  {
    if s != [] {
      SumNonNegative(s[..|s| - 1]);
    }
  }

  lemma {:induction false} SumOfConstant(s: seq<real>, c: real)
    requires forall i :: 0 <= i < |s| ==> s[i] == c
    ensures Sum(s) == |s| as real * c
  {
    if s != [] {
      SumOfConstant(s[..|s| - 1], c);
    }
  }

  lemma {:induction false} SumBounds(s: seq<real>, lo: real, hi: real)
    requires forall i :: 0 <= i < |s| ==> lo <= s[i] <= hi
    ensures |s| as real * lo <= Sum(s) <= |s| as real * hi
  {
    if s != [] {
      SumBounds(s[..|s| - 1], lo, hi);
    }
  }

  /** The mean lies between any lower and upper bound of the values. */
  lemma MeanBetween(s: seq<real>, lo: real, hi: real)
    requires |s| > 0
    requires forall i :: 0 <= i < |s| ==> lo <= s[i] <= hi
    ensures lo <= Mean(s) <= hi
  {
    SumBounds(s, lo, hi);
    QuotientAtLeast(Sum(s), |s| as real, lo);
    QuotientAtMost(Sum(s), |s| as real, hi);
  }

  lemma VarianceNonNegative(s: seq<real>)
    requires |s| > 0
    ensures 0.0 <= Variance(s)
  {
    var m := Mean(s);
    var d := SquaredDeviations(s, m);
    forall i | 0 <= i < |d| ensures 0.0 <= d[i] {
      ProductNonNegative(s[i] - m, s[i] - m);
    }
    SumNonNegative(d);
    QuotientAtLeast(Sum(d), |s| as real, 0.0);
  }

  lemma ProductNonNegative(a: real, b: real)
    requires (0.0 <= a && 0.0 <= b) || (a <= 0.0 && b <= 0.0)
    ensures 0.0 <= a * b
  {
  }

  lemma ProductPositive(a: real, b: real)
    requires 0.0 < a && 0.0 < b
    ensures 0.0 < a * b
  {
  }

  lemma QuotientPositive(x: real, t: real)
    requires 0.0 < x && 0.0 < t
    ensures 0.0 < x / t
  {
    var q := x / t;
    assert q * t == x;
  }

  /** All values equal: the spread is zero. */
  lemma VarianceOfConstant(s: seq<real>, c: real)
    requires |s| > 0
    requires forall i :: 0 <= i < |s| ==> s[i] == c
    ensures Mean(s) == c
    ensures Variance(s) == 0.0
  {
    SumOfConstant(s, c);
    var d := SquaredDeviations(s, Mean(s));
    SumOfConstant(d, 0.0);
  }

  // ------------------------------------------------------------- sequences

  function Filter<T>(s: seq<T>, p: T -> bool): (r: seq<T>)
    ensures |r| <= |s|
    ensures forall x :: x in r ==> x in s && p(x)
    ensures forall x :: x in s && p(x) ==> x in r
  {
    if s == [] then []
    else if p(s[|s| - 1]) then Filter(s[..|s| - 1], p) + [s[|s| - 1]]
    else Filter(s[..|s| - 1], p)
  }

  /** `s.map(f)`, built one element at a time as a loop that pushes would. */
  function Map<T, U>(s: seq<T>, f: T -> U): (r: seq<U>)
    ensures |r| == |s|
  {
    if s == [] then [] else Map(s[..|s| - 1], f) + [f(s[|s| - 1])]
  }

  lemma {:induction false} MapAt<T, U>(s: seq<T>, f: T -> U)
    ensures forall i :: 0 <= i < |s| ==> Map(s, f)[i] == f(s[i])
  {
    if s != [] {
      var init := s[..|s| - 1];
      MapAt(init, f);
      assert forall i :: 0 <= i < |init| ==> s[i] == init[i];
    }
  }

  /** No element occurs twice. */
  ghost predicate NoRepeats<T>(s: seq<T>)
  {
    forall i, j :: 0 <= i < j < |s| ==> s[i] != s[j]
  }

  lemma {:induction false} FilterNone<T>(s: seq<T>, p: T -> bool)
    requires forall x :: x in s ==> !p(x)
    ensures Filter(s, p) == []
  {
    if s != [] {
      FilterNone(s[..|s| - 1], p);
    }
  }

  function Amounts(s: seq<Tx>): (r: seq<real>)
    ensures |r| == |s| && forall i :: 0 <= i < |s| ==> r[i] == s[i].amount
  {
    seq(|s|, i requires 0 <= i < |s| => s[i].amount)
  }

  function Timestamps(s: seq<Tx>): (r: seq<int>)
    ensures |r| == |s| && forall i :: 0 <= i < |s| ==> r[i] == s[i].timestamp
  {
    seq(|s|, i requires 0 <= i < |s| => s[i].timestamp)
  }

  function Purchases(s: seq<Tx>): seq<Tx> { Filter(s, (t: Tx) => t.kind == Purchase) }
  function Sales(s: seq<Tx>): seq<Tx> { Filter(s, IsSale) }
  function OnPlatform(s: seq<Tx>, p: Platform): seq<Tx> { Filter(s, (t: Tx) => t.platform == p) }

}
