/** The two signal calculators of stockSelection1.py: the consecutive
    limit-up (streak) detector and the sustained-uptrend detector. Both take
    the daily bars the gateway returned for one instrument; a failed or empty
    fetch reaches them as an empty sequence. */
module Signals {
  import opened SeqUtil
  import opened Bars

  /** A day counts as limit-up when its percent change reaches 9.8. */
  const LimitUpPct: real := 9.8
  /** Bars needed before the trend detector computes anything. */
  const TrendDays: nat := 60
  const TrendUpPct: real := 30.0
  const TrendVolatilityPct: real := 25.0

  datatype StreakResult = StreakResult(qualifies: bool, days: nat)

  datatype TrendResult = TrendResult(qualifies: bool, returnPct: real, volatilityPct: real)

  predicate IsLimitUp(b: Bar) {
    b.pctChg >= LimitUpPct
  }

  // ---------------------------------------------------------------------
  // Streak detector

  /** Length of the run of limit-up days at the head of `s`, scanning at most
      `cap` days. */
  function LeadingLimitUps(s: seq<Bar>, cap: int): (d: nat)
    ensures d <= |s|
    ensures cap <= 0 ==> d == 0
    ensures cap >= 0 ==> d <= cap
    ensures forall i :: 0 <= i < d ==> IsLimitUp(s[i])
    ensures d < cap && d < |s| ==> !IsLimitUp(s[d])
    decreases |s|
  {
    if cap <= 0 || |s| == 0 || !IsLimitUp(s[0]) then 0
    else 1 + LeadingLimitUps(s[1..], cap - 1)
  }

  /** What calculate_limit_up_status returns for the fetched bars and a
      required streak length `k`. */
  function StreakStatus(bars: seq<Bar>, k: int): (r: StreakResult)
  {
    if |bars| == 0 || |bars| < k then StreakResult(false, 0)
    else
      var days := LeadingLimitUps(SortByDate(bars, true), k);
      StreakResult(days >= k, days)
  }

  /** Bounds on the streak answer: the count never exceeds the bars or a
      non-negative `k`, and a qualifying answer for such a `k` counts exactly
      `k` days. */
  lemma StreakStatusBounds(bars: seq<Bar>, k: int)
    ensures StreakStatus(bars, k).days <= |bars|
    ensures k >= 0 ==> StreakStatus(bars, k).days <= k
    ensures StreakStatus(bars, k).qualifies ==>
              |bars| >= 1 && |bars| >= k && (k >= 0 ==> StreakStatus(bars, k).days == k)
  {
    if |bars| > 0 && |bars| >= k {
      var s := SortByDate(bars, true);
      var d := LeadingLimitUps(s, k);
    }
  }

  /** calculate_limit_up_status: sort most recent first, then count limit-up
      days from the top, stopping at the first miss or after `k` days. */
  method LimitUpStatus(bars: seq<Bar>, k: int) returns (qualifies: bool, days: nat)
    ensures StreakResult(qualifies, days) == StreakStatus(bars, k)
  {
    if |bars| == 0 || |bars| < k {
      return false, 0;
    }
    var s := SortByDate(bars, true);
    days := 0;
    var i := 0;
    while i < k
      invariant 0 <= i <= |s|
      invariant days == i
      invariant forall j :: 0 <= j < i ==> IsLimitUp(s[j])
      invariant LeadingLimitUps(s, k) >= i
    {
      if i >= |s| {
        break;
      }
      if IsLimitUp(s[i]) {
        days := days + 1;
      } else {
        break;
      }
      i := i + 1;
    }
    qualifies := days >= k;
  }

  /** Too little history: no scan, (false, 0). */
  lemma StreakTooFewBars(bars: seq<Bar>, k: int)
    requires |bars| < k || |bars| == 0
    ensures StreakStatus(bars, k) == StreakResult(false, 0)
  {
  }

  /** The count is the run of limit-up days at the head of the most-recent-first
      order, capped at `k`, and the detector qualifies exactly when that run
      reaches `k`. */
  lemma StreakCount(bars: seq<Bar>, k: int)
    requires 0 < k <= |bars|
    ensures var r := StreakStatus(bars, k);
            var s := SortByDate(bars, true);
            && r.days <= k
            && (forall i :: 0 <= i < r.days ==> IsLimitUp(s[i]))
            && (r.days < k ==> !IsLimitUp(s[r.days]))
            && (r.qualifies <==> r.days == k)
  {
  }

  /** Qualification needs exactly the `k` most recent days to be limit-up. */
  lemma {:induction false} StreakQualifiesIff(bars: seq<Bar>, k: int)
    requires 0 < k
    ensures var s := SortByDate(bars, true);
            StreakStatus(bars, k).qualifies <==> k <= |s| && forall i :: 0 <= i < k ==> IsLimitUp(s[i])
  {
    if k <= |bars| {
      var s := SortByDate(bars, true);
      var d := LeadingLimitUps(s, k);
      assert StreakStatus(bars, k) == StreakResult(d >= k, d);
      assert |s| == |bars|;
      if d < k {
        assert d < |s| && !IsLimitUp(s[d]);
        assert !(forall i :: 0 <= i < k ==> IsLimitUp(s[i]));
        assert !StreakStatus(bars, k).qualifies;
      } else {
        assert d == k;
        assert forall i :: 0 <= i < k ==> IsLimitUp(s[i]);
        assert StreakStatus(bars, k).qualifies;
      }
    } else {
      assert !StreakStatus(bars, k).qualifies;
    }
  }

  /** Monotonicity: when the `n` most recent days are all limit-up, every
      required length `k` up to `n` qualifies with a streak of exactly `k`
      (the scan stops after `k` days). */
  lemma {:induction false} StreakMonotone(bars: seq<Bar>, n: nat, k: int)
    requires n <= |bars|
    requires forall i :: 0 <= i < n ==> IsLimitUp(SortByDate(bars, true)[i])
    requires 0 < k <= n
    ensures StreakStatus(bars, k) == StreakResult(true, k)
  {
  }

  /** +9.9% (most recent), +9.8%, +5% with k = 2 gives (true, 2), whatever
      order the provider returned the three bars in. */
  lemma StreakExample(b1: Bar, b2: Bar, b3: Bar, bars: seq<Bar>)
    requires b1.tradeDate > b2.tradeDate > b3.tradeDate
    requires b1.pctChg == 9.9 && b2.pctChg == 9.8 && b3.pctChg == 5.0
    requires multiset(bars) == multiset{b1, b2, b3}
    ensures StreakStatus(bars, 2) == StreakResult(true, 2)
  {
    NewestFirst(b1, b2, b3, SortByDate(bars, true));
    assert |bars| == 3 by {
      assert |bars| == |multiset(bars)|;
    }
    StreakMonotone(bars, 2, 2);
  }

  /** Three bars with distinct dates have exactly one most-recent-first order. */
  lemma NewestFirst(b1: Bar, b2: Bar, b3: Bar, s: seq<Bar>)
    requires b1.tradeDate > b2.tradeDate > b3.tradeDate
    requires multiset(s) == multiset{b1, b2, b3}
    requires SortedByDate(s, true)
    ensures s == [b1, b2, b3]
  {
    var expected := [b1, b2, b3];
    assert multiset(expected) == multiset{b1, b2, b3};
    SortedUnique(expected, s, true);
  }

  /** The streak does not depend on the order of the provider's rows when the
      trade dates are distinct. */
  lemma StreakIgnoresInputOrder(x: seq<Bar>, y: seq<Bar>, k: int)
    requires multiset(x) == multiset(y) && DistinctDates(x)
    ensures StreakStatus(x, k) == StreakStatus(y, k)
  {
    SortIgnoresInputOrder(x, y, true);
    assert |x| == |multiset(x)| == |y|;
  }

  // ---------------------------------------------------------------------
  // Trend detector

  /** The close column. */
  function Closes(s: seq<Bar>): seq<real> {
    seq(|s|, i requires 0 <= i < |s| => s[i].close)
  }

  /** Intraday range as a percentage of the open; 0 when the open is 0. */
  function Volatility(b: Bar): (r: real)
    ensures b.open == 0.0 ==> r == 0.0
    ensures b.open > 0.0 && b.low <= b.high ==> r >= 0.0
  {
    if b.open != 0.0 then (b.high - b.low) / b.open * 100.0 else 0.0
  }

  /** The volatility column. */
  function Volatilities(s: seq<Bar>): seq<real> {
    seq(|s|, i requires 0 <= i < |s| => Volatility(s[i]))
  }

  /** Total return in percent from the first to the last close; 0 when the
      first close is 0. */
  function ReturnPct(first: real, last: real): (r: real)
    ensures first == 0.0 ==> r == 0.0
    ensures first > 0.0 ==> (r >= 0.0 <==> last >= first)
  {
    if first != 0.0 then (last - first) / first * 100.0 else 0.0
  }

  function Mean(xs: seq<real>): real
    requires |xs| > 0
  {
    Sum(xs) / (|xs| as real)
  }

  /** `rolling(window=w).mean().fillna(0)` at position `i`. */
  function RollingMean(xs: seq<real>, w: nat, i: nat): (r: real)
    requires 0 < w && i < |xs|
    ensures i + 1 < w ==> r == 0.0
    ensures i + 1 >= w && (forall j :: i + 1 - w <= j <= i ==> xs[j] == xs[i]) ==> r == xs[i]
  {
    if i + 1 >= w then
      var window := xs[i + 1 - w..i + 1];
      assert forall j :: 0 <= j < w ==> window[j] == xs[i + 1 - w + j];
      SumFlat(window, xs[i]);
      Mean(window)
    else 0.0
  }

  /** `tail(n)`: the last `n` values, or all of them when there are fewer. */
  function Tail(xs: seq<real>, n: nat): (r: seq<real>)
    ensures |r| == if |xs| < n then |xs| else n
    ensures r == xs[|xs| - |r|..]
  {
    if |xs| <= n then xs else xs[|xs| - n..]
  }

  /** What calculate_trend_status returns for the fetched bars (before the
      two metrics are rounded to two decimals). */
  function TrendStatus(bars: seq<Bar>): (r: TrendResult)
  {
    if |bars| == 0 || |bars| < TrendDays then TrendResult(false, 0.0, 0.0)
    else TrendOfSorted(SortByDate(bars, false))
  }

  /** The statistics and the three-way test on bars already in ascending date
      order. */
  function TrendOfSorted(s: seq<Bar>): (r: TrendResult)
    requires |s| >= TrendDays
    ensures s[0].close == 0.0 ==> r.returnPct == 0.0 && !r.qualifies
    ensures r.qualifies ==> r.returnPct >= TrendUpPct && r.volatilityPct <= TrendVolatilityPct && ShortMaAboveLong(s)
  {
    var ret := TotalReturn(s);
    var avgVol := AverageVolatility(s);
    TrendResult(ret >= TrendUpPct && ShortMaAboveLong(s) && avgVol <= TrendVolatilityPct, ret, avgVol)
  }

  function TotalReturn(s: seq<Bar>): real
    requires |s| > 0
  {
    ReturnPct(s[0].close, s[|s| - 1].close)
  }

  /** The 5-day rolling mean of the closes is above the 20-day one at the
      last bar. */
  predicate ShortMaAboveLong(s: seq<Bar>)
    requires |s| > 0
  {
    var closes := Closes(s);
    RollingMean(closes, 5, |s| - 1) > RollingMean(closes, 20, |s| - 1)
  }

  /** Mean volatility of the last twenty bars. */
  function AverageVolatility(s: seq<Bar>): real
    requires |s| > 0
  {
    Mean(Tail(Volatilities(s), 20))
  }

  /** Too little history: no statistics, (false, 0, 0). */
  lemma TrendTooFewBars(bars: seq<Bar>)
    requires |bars| < TrendDays
    ensures TrendStatus(bars) == TrendResult(false, 0.0, 0.0)
  {
  }

  /** Whatever the bars, a qualifying answer carries a return of at least 30
      and a mean volatility of at most 25. */
  lemma TrendQualifiesWithinBounds(bars: seq<Bar>)
    ensures TrendStatus(bars).qualifies ==>
              TrendStatus(bars).returnPct >= TrendUpPct
              && TrendStatus(bars).volatilityPct <= TrendVolatilityPct
  {
    if |bars| >= TrendDays {
      var r := TrendOfSorted(SortByDate(bars, false));
    }
  }

  /** The return test without a division: for a positive first close the
      last close is at least 1.3 times it; for a negative one (dividing by it
      flips the comparison) at most 1.3 times it; a first close of 0 gives a
      return of 0, which never passes. */
  predicate ReturnReached(first: real, last: real) {
    if first > 0.0 then last * 10.0 >= first * 13.0
    else first < 0.0 && last * 10.0 <= first * 13.0
  }

  lemma ReturnThreshold(first: real, last: real)
    ensures ReturnPct(first, last) >= TrendUpPct <==> ReturnReached(first, last)
  {
    if first > 0.0 {
      RisingReturn(first, last);
    } else if first < 0.0 {
      FallingBase(first, last);
    }
  }

  lemma RisingReturn(first: real, last: real)
    requires first > 0.0
    ensures ReturnPct(first, last) >= TrendUpPct <==> last * 10.0 >= first * 13.0
  {
    var q := (last - first) / first;
    assert q * first == last - first;
    assert ReturnPct(first, last) == q * 100.0;
    ScaleByPositive(q, 0.3, first);
  }

  lemma FallingBase(first: real, last: real)
    requires first < 0.0
    ensures ReturnPct(first, last) >= TrendUpPct <==> last * 10.0 <= first * 13.0
  {
    var q := (last - first) / first;
    var d := -first;
    assert q * first == last - first;
    assert q * d == first - last;
    assert ReturnPct(first, last) == q * 100.0;
    ScaleByPositive(q, 0.3, d);
  }

  lemma ScaleByPositive(a: real, b: real, d: real)
    requires d > 0.0
    ensures a >= b <==> a * d >= b * d
  {
    if a >= b {
      assert (a - b) * d >= 0.0;
    } else {
      assert (b - a) * d > 0.0;
    }
  }

  /** The 5-day average is above the 20-day average exactly when the last five
      closes average above the fifteen closes before them. */
  lemma ShortAboveLong(c: seq<real>)
    requires |c| >= 20
    ensures var n := |c|;
            RollingMean(c, 5, n - 1) > RollingMean(c, 20, n - 1) <==>
            Mean(c[n - 5..]) > Mean(c[n - 20..n - 5])
  {
    var n := |c|;
    assert c[n - 5..n] == c[n - 5..];
    assert c[n - 20..n] == c[n - 20..n - 5] + c[n - 5..];
    SumAppend(c[n - 20..n - 5], c[n - 5..]);
  }

  /** The average of the last twenty volatilities is at most 25 exactly when
      they add up to at most 500. */
  lemma VolatilityThreshold(v: seq<real>)
    requires |v| >= 20
    ensures Mean(Tail(v, 20)) <= TrendVolatilityPct <==> Sum(v[|v| - 20..]) <= 500.0
  {
    var t := Tail(v, 20);
    if |v| > 20 { assert t == v[|v| - 20..]; } else { assert v[|v| - 20..] == v; }
    assert Mean(t) == Sum(t) / 20.0;
    DivideByTwenty(Sum(t), TrendVolatilityPct);
  }

  lemma DivideByTwenty(x: real, bound: real)
    ensures x / 20.0 <= bound <==> x <= bound * 20.0
  {
  }

  /** The detector's three conditions, restated on the date-sorted bars
      without divisions: the return test of ReturnReached, the
      last five closes average above the fifteen before them, and the last
      twenty volatilities add up to at most 500 (an average of at most 25). */
  predicate RisingCalmTrend(s: seq<Bar>)
    requires |s| >= 20
  {
    var n := |s|;
    var c := Closes(s);
    && ReturnReached(s[0].close, s[n - 1].close)
    && Mean(c[n - 5..]) > Mean(c[n - 20..n - 5])
    && Sum(Volatilities(s)[n - 20..]) <= 500.0
  }

  /** The trend detector qualifies exactly when the bars, sorted by date,
      satisfy RisingCalmTrend; a first close of 0 never qualifies. */
  lemma TrendQualifiesIff(bars: seq<Bar>)
    requires |bars| >= TrendDays
    ensures var s := SortByDate(bars, false);
            && (s[0].close == 0.0 ==> !TrendStatus(bars).qualifies)
            && (TrendStatus(bars).qualifies <==> RisingCalmTrend(s))
  {
    SortedTrendQualifiesIff(SortByDate(bars, false));
  }

  lemma SortedTrendQualifiesIff(s: seq<Bar>)
    requires |s| >= TrendDays
    ensures s[0].close == 0.0 ==> !TrendOfSorted(s).qualifies
    ensures TrendOfSorted(s).qualifies <==> RisingCalmTrend(s)
  {
    ReturnCondition(s);
    AverageCondition(s);
    VolatilityCondition(s);
  }

  /** The return test on date-sorted bars. */
  lemma ReturnCondition(s: seq<Bar>)
    requires |s| >= TrendDays
    ensures TotalReturn(s) >= TrendUpPct <==> ReturnReached(s[0].close, s[|s| - 1].close)
  {
    ReturnThreshold(s[0].close, s[|s| - 1].close);
  }

  /** The moving-average test on date-sorted bars. */
  lemma AverageCondition(s: seq<Bar>)
    requires |s| >= TrendDays
    ensures ShortMaAboveLong(s) <==> Mean(Closes(s)[|s| - 5..]) > Mean(Closes(s)[|s| - 20..|s| - 5])
  {
    var c := Closes(s);
    assert |c| == |s|;
    ShortAboveLong(c);
  }

  /** The volatility test on date-sorted bars. */
  lemma VolatilityCondition(s: seq<Bar>)
    requires |s| >= TrendDays
    ensures AverageVolatility(s) <= TrendVolatilityPct <==> Sum(Volatilities(s)[|s| - 20..]) <= 500.0
  {
    VolatilityThreshold(Volatilities(s));
  }

  /** As filter_all_stocks calls it, the trend detector receives the bars of
      one request; one bar per trading day gives them distinct dates. When
      every date lies in a set of fewer than sixty days (the trading days of
      the request's window), there are too few bars and the result is
      (false, 0, 0). */
  lemma TrendNeedsSixtyDates(bars: seq<Bar>, days: set<int>)
    requires DistinctDates(bars)
    requires forall i :: 0 <= i < |bars| ==> bars[i].tradeDate in days
    requires |days| < TrendDays
    ensures TrendStatus(bars) == TrendResult(false, 0.0, 0.0)
  {
    DistinctDatesWithin(bars, days);
  }

  /** A 60-bar series rising from a close of 10 to 14 (+40%), with the 5-day
      average above the 20-day one and an average volatility of 10%, is a
      trend stock reported as (true, 40, 10). */
  lemma TrendExample(bars: seq<Bar>)
    requires |bars| == 60
    requires var s := SortByDate(bars, false);
             && s[0].close == 10.0 && s[59].close == 14.0
             && ShortMaAboveLong(s)
             && AverageVolatility(s) == 10.0
    ensures TrendStatus(bars) == TrendResult(true, 40.0, 10.0)
  {
    var s := SortByDate(bars, false);
    assert TotalReturn(s) == 40.0 by {
      assert ReturnPct(10.0, 14.0) == 40.0;
    }
  }

  /** The trend result does not depend on the order of the provider's rows
      when the trade dates are distinct. */
  lemma TrendIgnoresInputOrder(x: seq<Bar>, y: seq<Bar>)
    requires multiset(x) == multiset(y) && DistinctDates(x)
    ensures TrendStatus(x) == TrendStatus(y)
  {
    SortIgnoresInputOrder(x, y, false);
    assert |x| == |multiset(x)| == |y|;
  }
}
