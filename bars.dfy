/** Daily bars as the provider returns them, and the sort by trade date that
    both detectors apply before scanning. */
module Bars {

  /** One row of a daily-bar table. `tradeDate` is YYYYMMDD read as a number,
      which orders chronologically; prices and percentages are exact reals. */
  datatype Bar = Bar(
    tradeDate: int,
    open: real,
    high: real,
    low: real,
    close: real,
    pctChg: real)

  /** `a` may stand before `b` in a table sorted by trade date
      (most recent first when `descending`). */
  predicate Precedes(a: Bar, b: Bar, descending: bool) {
    if descending then a.tradeDate >= b.tradeDate else a.tradeDate <= b.tradeDate
  }

  predicate SortedByDate(s: seq<Bar>, descending: bool) {
    forall i, j :: 0 <= i < j < |s| ==> Precedes(s[i], s[j], descending)
  }

  /** No two bars of one request share a trade date. */
  predicate DistinctDates(s: seq<Bar>) {
    forall i, j :: 0 <= i < j < |s| ==> s[i].tradeDate != s[j].tradeDate
  }

  function Insert(x: Bar, s: seq<Bar>, descending: bool): (r: seq<Bar>)
    requires SortedByDate(s, descending)
    ensures SortedByDate(r, descending)
    ensures multiset(r) == multiset(s) + multiset{x}
    ensures |r| == |s| + 1
  {
    if |s| == 0 then [x]
    else if Precedes(x, s[0], descending) then
      assert s == [s[0]] + s[1..];
      HeadThenSorted(x, s, descending);
      [x] + s
    else
      var rest := Insert(x, s[1..], descending);
      InsertBehindHead(x, s, rest, descending);
      [s[0]] + rest
  }

  /** When `x` does not go first, the head of `s` stays in front of `x`
      inserted into the rest. */
  lemma InsertBehindHead(x: Bar, s: seq<Bar>, rest: seq<Bar>, descending: bool)
    requires |s| > 0 && SortedByDate(s, descending) && !Precedes(x, s[0], descending)
    requires SortedByDate(rest, descending)
    requires multiset(rest) == multiset(s[1..]) + multiset{x}
    ensures SortedByDate([s[0]] + rest, descending)
    ensures multiset([s[0]] + rest) == multiset(s) + multiset{x}
  {
    forall k | 0 <= k < |rest| ensures Precedes(s[0], rest[k], descending) {
      assert rest[k] in multiset(rest);
      if rest[k] != x {
        assert rest[k] in multiset(s[1..]);
        var j :| 0 <= j < |s[1..]| && s[1..][j] == rest[k];
        assert s[j + 1] == rest[k];
      }
    }
    HeadThenSorted(s[0], rest, descending);
    assert s == [s[0]] + s[1..];
  }

  lemma HeadThenSorted(h: Bar, t: seq<Bar>, descending: bool)
    requires SortedByDate(t, descending)
    requires forall k :: 0 <= k < |t| ==> Precedes(h, t[k], descending)
    ensures SortedByDate([h] + t, descending)
  {
    var r := [h] + t;
    forall i, j | 0 <= i < j < |r| ensures Precedes(r[i], r[j], descending) {
      if i > 0 { assert r[i] == t[i - 1] && r[j] == t[j - 1]; }
      else { assert r[j] == t[j - 1]; }
    }
  }

  /** `sort_values("trade_date", ascending=not descending)`: a permutation of
      the bars ordered by date. */
  function SortByDate(s: seq<Bar>, descending: bool): (r: seq<Bar>)
    ensures SortedByDate(r, descending)
    ensures multiset(r) == multiset(s)
    ensures |r| == |s|
  {
    if |s| == 0 then []
    else
      assert s == [s[0]] + s[1..];
      Insert(s[0], SortByDate(s[1..], descending), descending)
  }

  /** Bars with distinct dates drawn from a set of days are at most as many as
      the days. */
  lemma {:induction false} DistinctDatesWithin(s: seq<Bar>, days: set<int>)
    requires DistinctDates(s)
    requires forall i :: 0 <= i < |s| ==> s[i].tradeDate in days
    ensures |s| <= |days|
    decreases |s|
  {
    if |s| > 0 {
      var rest := days - {s[0].tradeDate};
      forall i | 0 <= i < |s| - 1 ensures s[1..][i].tradeDate in rest {
        assert s[1..][i] == s[i + 1];
      }
      DistinctDatesWithin(s[1..], rest);
    }
  }

  /** Bars that share a trade date are the same bar (implied by DistinctDates). */
  predicate SameDateSameBar(s: seq<Bar>) {
    forall i, j :: 0 <= i < |s| && 0 <= j < |s| && s[i].tradeDate == s[j].tradeDate ==> s[i] == s[j]
  }

  lemma DistinctDatesSameBar(s: seq<Bar>)
    requires DistinctDates(s)
    ensures SameDateSameBar(s)
  {
  }

  /** Two date-sorted arrangements of the same bars coincide when no two
      different bars share a date: sorting leaves nothing to choose. */
  lemma {:induction false} SortedUnique(a: seq<Bar>, b: seq<Bar>, descending: bool)
    requires SortedByDate(a, descending) && SortedByDate(b, descending)
    requires multiset(a) == multiset(b)
    requires SameDateSameBar(a)
    ensures a == b
    decreases |a|
  {
    if |a| == 0 {
      assert |b| == |multiset(b)| == 0;
    } else {
      HeadsAgree(a, b, descending);
      TailsSameBars(a, b);
      assert SortedByDate(a[1..], descending) && SortedByDate(b[1..], descending);
      assert SameDateSameBar(a[1..]);
      SortedUnique(a[1..], b[1..], descending);
      assert a == [a[0]] + a[1..] && b == [b[0]] + b[1..];
    }
  }

  /** The first bars of two such arrangements are the same bar. */
  lemma HeadsAgree(a: seq<Bar>, b: seq<Bar>, descending: bool)
    requires |a| > 0
    requires SortedByDate(a, descending) && SortedByDate(b, descending)
    requires multiset(a) == multiset(b)
    requires SameDateSameBar(a)
    ensures |b| > 0 && a[0] == b[0]
  {
    assert a[0] in multiset(b);
    var j :| 0 <= j < |b| && b[j] == a[0];
    assert b[0] in multiset(a);
    var i :| 0 <= i < |a| && a[i] == b[0];
    if i > 0 { assert Precedes(a[0], a[i], descending); }
    if j > 0 { assert Precedes(b[0], b[j], descending); }
    assert a[0].tradeDate == a[i].tradeDate;
  }

  /** Removing the same first bar leaves the same bars. */
  lemma TailsSameBars(a: seq<Bar>, b: seq<Bar>)
    requires |a| > 0 && |b| > 0 && a[0] == b[0]
    requires multiset(a) == multiset(b)
    ensures multiset(a[1..]) == multiset(b[1..])
  {
    assert a == [a[0]] + a[1..] && b == [b[0]] + b[1..];
    assert multiset(a) == multiset{a[0]} + multiset(a[1..]);
    assert multiset(b) == multiset{b[0]} + multiset(b[1..]);
    assert multiset(a[1..]) == multiset(a) - multiset{a[0]};
    assert multiset(b[1..]) == multiset(b) - multiset{b[0]};
  }

  /** Sorting does not depend on the order in which the provider returned the
      bars, provided no two different bars share a trade date. */
  lemma SortIgnoresInputOrder(x: seq<Bar>, y: seq<Bar>, descending: bool)
    requires multiset(x) == multiset(y)
    requires DistinctDates(x)
    ensures SortByDate(x, descending) == SortByDate(y, descending)
  {
    var a, b := SortByDate(x, descending), SortByDate(y, descending);
    DistinctDatesSameBar(x);
    forall i, j | 0 <= i < |a| && 0 <= j < |a| && a[i].tradeDate == a[j].tradeDate
      ensures a[i] == a[j]
    {
      assert a[i] in multiset(x) && a[j] in multiset(x);
      var p :| 0 <= p < |x| && x[p] == a[i];
      var q :| 0 <= q < |x| && x[q] == a[j];
    }
    SortedUnique(a, b, descending);
  }
}
