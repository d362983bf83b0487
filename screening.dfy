/** filter_all_stocks: each qualified stock is run through the detectors the
    requested mode asks for, in batches of ten; a copy of its table row is
    annotated in place and appended to the result list once per detector
    that passes (and, in mode 全部, once as 未匹配 when no row carries its
    label yet); the list is then narrowed to one board and deduplicated by
    stock symbol. */
module Screening {
  import opened SeqUtil
  import opened Bars
  import opened Signals
  import opened Universe

  /** `连续涨停天数`, the default streak length of calculate_limit_up_status. */
  const StreakDays: nat := 2
  /** `CONFIG["batch_size"]`: candidates per batch. */
  const ScreenBatchSize: nat := 10
  /** The board filter value that keeps every board. */
  const AllBoards: string := "全部"

  /** `stock_type`: 全部, 连板票 or 趋势票. */
  datatype Mode = All | StreakOnly | TrendOnly

  /** `股票类型`: 连板票, 趋势票 or 未匹配. */
  datatype Label = Streak | Trend | Unmatched

  /** One result row: the stock's qualified-table row with the columns the
      screening adds; a column a row never received is None (the empty
      string after `fillna("")`). */
  datatype Row = Row(
    stock: Stock,
    category: Option<Label>,
    streakDays: Option<nat>,
    returnPct: Option<real>,
    volatilityPct: Option<real>)

  /** What the screening reads from outside: the daily bars a request
      `(code, start, end)` yields, the reference trade date, and the start
      dates the detectors derive from it (four and sixty calendar days
      earlier). */
  datatype Env = Env(
    daily: (string, string, string) -> seq<Bar>,
    tradeDate: string,
    streakStart: string,
    trendStart: string)

  /** `stock_type in ["全部", "连板票"]`. */
  predicate RunsStreak(mode: Mode) {
    mode != TrendOnly
  }

  /** `stock_type in ["全部", "趋势票"]`. */
  predicate RunsTrend(mode: Mode) {
    mode != StreakOnly
  }

  /** What the two detectors answer for one stock. */
  datatype Verdict = Verdict(streak: StreakResult, trend: TrendResult)

  /** The detectors' answers as a function of the stock. The specification
      below is stated for any such function; the screening loop uses the one
      its environment determines. */
  type Detectors = Stock -> Verdict

  /** calculate_limit_up_status and calculate_trend_status on the daily bars
      the environment yields for the stock's code. */
  function DetectorsOf(env: Env): Detectors {
    (s: Stock) => Verdict(StreakStatus(env.daily(s.tsCode, env.streakStart, env.tradeDate), StreakDays),
                              TrendStatus(env.daily(s.tsCode, env.trendStart, env.tradeDate)))
  }

  function StreakOf(s: Stock, det: Detectors): StreakResult {
    det(s).streak
  }

  function TrendOf(s: Stock, det: Detectors): TrendResult {
    det(s).trend
  }

  // ---------------------------------------------------------------------
  // The mutable result row

  /** `res_row = row.copy()`: a row object that the detectors annotate in
      place. The list of results holds references to such objects, so a
      later write shows through every earlier reference. */
  class ResultRow {
    const stock: Stock
    var category: Option<Label>
    var streakDays: Option<nat>
    var returnPct: Option<real>
    var volatilityPct: Option<real>

    constructor (s: Stock)
      ensures Value() == Row(s, None, None, None, None)
    {
      stock := s;
      category := None;
      streakDays := None;
      returnPct := None;
      volatilityPct := None;
    }

    /** The row as it reads now. */
    function Value(): Row
      reads this
    {
      Row(stock, category, streakDays, returnPct, volatilityPct)
    }
  }

  /** What `pd.DataFrame(result_list)` sees: each referenced row as it reads
      at the end. */
  function Snapshot(rs: seq<ResultRow>): (r: seq<Row>)
    reads rs
    ensures |r| == |rs|
    ensures forall k :: 0 <= k < |rs| ==> r[k] == rs[k].Value()
    decreases |rs|
  {
    if |rs| == 0 then [] else Snapshot(rs[..|rs| - 1]) + [rs[|rs| - 1].Value()]
  }

  /** `[r.name for r in result_list]`: the index labels of the referenced
      rows. The label comes from the immutable stock, so reading it needs no
      heap; NamesAreLabels relates it to the labels of the rows' values. */
  function Names(rs: seq<ResultRow>): seq<nat> {
    seq(|rs|, k requires 0 <= k < |rs| => rs[k].stock.index)
  }

  // ---------------------------------------------------------------------
  // Specification

  /** The index labels of a list of row values. */
  function Labels(rows: seq<Row>): (r: seq<nat>)
    ensures |r| == |rows|
    ensures forall k :: 0 <= k < |rows| ==> r[k] == rows[k].stock.index
  {
    if |rows| == 0 then [] else Labels(rows[..|rows| - 1]) + [rows[|rows| - 1].stock.index]
  }

  /** The row after the detectors the mode runs have written their columns:
      it carries the category of the last detector that passed. */
  function Annotated(s: Stock, mode: Mode, det: Detectors): (r: Row)
    ensures r.stock == s
    ensures r.category.Some? <==> Appends(s, mode, det) > 0
    ensures Appends(s, mode, det) == 2 ==> r.category == Some(Trend)
  {
    var st := StreakOf(s, det);
    var tr := TrendOf(s, det);
    Row(s,
        if RunsTrend(mode) && tr.qualifies then Some(Trend)
        else if RunsStreak(mode) && st.qualifies then Some(Streak)
        else None,
        if RunsStreak(mode) then Some(st.days) else None,
        if RunsTrend(mode) then Some(tr.returnPct) else None,
        if RunsTrend(mode) then Some(tr.volatilityPct) else None)
  }

  /** How often the detectors append the row. */
  function Appends(s: Stock, mode: Mode, det: Detectors): nat {
    (if RunsStreak(mode) && StreakOf(s, det).qualifies then 1 else 0)
    + (if RunsTrend(mode) && TrendOf(s, det).qualifies then 1 else 0)
  }

  /** What processing stock `s` appends to the rows `acc` already collected. */
  function StockRows(acc: seq<Row>, s: Stock, mode: Mode, det: Detectors): seq<Row> {
    var row := Annotated(s, mode, det);
    var matched := Repeated(row, Appends(s, mode, det));
    if mode == All && s.index !in Labels(acc + matched) then matched + [row.(category := Some(Unmatched))]
    else matched
  }

  /** `result_list` after the candidates `stocks`, in order. */
  function Collect(stocks: seq<Stock>, mode: Mode, det: Detectors): (r: seq<Row>)
    ensures |r| <= 2 * |stocks|
    decreases |stocks|
  {
    if |stocks| == 0 then []
    else
      var acc := Collect(stocks[..|stocks| - 1], mode, det);
      acc + StockRows(acc, stocks[|stocks| - 1], mode, det)
  }

  /** `所属板块` after `fillna("")`. */
  function MarketText(s: Stock): string {
    if s.market.Some? then s.market.value else ""
  }

  predicate OnBoard(board: string, r: Row) {
    MarketText(r.stock) == board
  }

  /** `result_df[result_df["所属板块"] == board_filter]` unless the filter is
      全部. */
  function BoardFilter(rows: seq<Row>, board: string): (r: seq<Row>)
    ensures Subseq(r, rows)
    ensures board == AllBoards ==> r == rows
    ensures board != AllBoards ==> forall x :: x in r <==> x in rows && MarketText(x.stock) == board
  {
    SubseqRefl(rows);
    if board == AllBoards then rows else Keep(rows, r => OnBoard(board, r))
  }

  /** The stock symbols (`股票代码`) of a list of rows. */
  function Symbols(rows: seq<Row>): (r: seq<string>)
    ensures |r| == |rows|
    ensures forall k :: 0 <= k < |rows| ==> r[k] == rows[k].stock.symbol
  {
    if |rows| == 0 then [] else Symbols(rows[..|rows| - 1]) + [rows[|rows| - 1].stock.symbol]
  }

  /** `drop_duplicates(subset=["股票代码"], keep="first")`. */
  function Dedup(rows: seq<Row>): (r: seq<Row>)
    ensures |r| <= |rows|
    ensures |rows| > 0 ==> |r| > 0
    decreases |rows|
  {
    if |rows| == 0 then []
    else
      var init := rows[..|rows| - 1];
      var last := rows[|rows| - 1];
      if last.stock.symbol in Symbols(init) then Dedup(init) else Dedup(init) + [last]
  }

  /** The index of the first row with symbol `sym`. */
  function FirstWith(rows: seq<Row>, sym: string): (k: nat)
    requires sym in Symbols(rows)
    ensures k < |rows| && rows[k].stock.symbol == sym
    ensures forall i :: 0 <= i < k ==> rows[i].stock.symbol != sym
    decreases |rows|
  {
    if rows[0].stock.symbol == sym then 0
    else
      assert sym in Symbols(rows[1..]) by {
        var j :| 0 <= j < |rows| && rows[j].stock.symbol == sym;
        assert rows[1..][j - 1].stock.symbol == sym;
      }
      1 + FirstWith(rows[1..], sym)
  }

  /** No two rows share a stock symbol. */
  predicate UniqueSymbols(rows: seq<Row>) {
    forall a, b :: 0 <= a < b < |rows| ==> rows[a].stock.symbol != rows[b].stock.symbol
  }

  /** Deduplication only drops rows, and keeps the survivors in their
      original order. */
  lemma {:induction false} DedupMembers(rows: seq<Row>)
    ensures Subseq(Dedup(rows), rows)
    ensures forall x :: x in Dedup(rows) ==> x in rows
    decreases |rows|
  {
    if |rows| == 0 {
      SubseqRefl(rows);
    } else {
      var init := rows[..|rows| - 1];
      DedupMembers(init);
      SubseqExtend(Dedup(init), init, rows[|rows| - 1]);
      assert init + [rows[|rows| - 1]] == rows;
      SubseqMembers(Dedup(rows), rows);
    }
  }

  /** After deduplication no two rows share a symbol. */
  lemma {:induction false} DedupUniqueSymbols(rows: seq<Row>)
    ensures UniqueSymbols(Dedup(rows))
    decreases |rows|
  {
    if |rows| > 0 {
      var init := rows[..|rows| - 1];
      var last := rows[|rows| - 1];
      DedupUniqueSymbols(init);
      if last.stock.symbol !in Symbols(init) {
        var d := Dedup(init);
        var r := d + [last];
        DedupMembers(init);
        forall a | 0 <= a < |d| ensures d[a].stock.symbol != last.stock.symbol {
          assert d[a] in init;
          var j :| 0 <= j < |init| && init[j] == d[a];
          assert Symbols(init)[j] == d[a].stock.symbol;
        }
        assert Dedup(rows) == r;
        forall a, b | 0 <= a < b < |r| ensures r[a].stock.symbol != r[b].stock.symbol {
          if b == |d| {
            assert r[a] == d[a] && r[b] == last;
          } else {
            assert r[a] == d[a] && r[b] == d[b];
          }
        }
      }
    }
  }

  /** Every symbol of the input survives deduplication. */
  lemma {:induction false} DedupCoversSymbols(rows: seq<Row>)
    ensures forall k :: 0 <= k < |rows| ==> rows[k].stock.symbol in Symbols(Dedup(rows))
    decreases |rows|
  {
    if |rows| > 0 {
      var init := rows[..|rows| - 1];
      var last := rows[|rows| - 1];
      DedupCoversSymbols(init);
      var d := Dedup(init);
      var r := Dedup(rows);
      var kept := last.stock.symbol !in Symbols(init);
      assert r == if kept then d + [last] else d;
      assert forall j :: 0 <= j < |d| ==> r[j] == d[j];
      forall k | 0 <= k < |rows| ensures rows[k].stock.symbol in Symbols(r) {
        if k < |init| {
          assert rows[k] == init[k];
          var j :| 0 <= j < |d| && Symbols(d)[j] == init[k].stock.symbol;
          assert Symbols(r)[j] == init[k].stock.symbol;
        } else if !kept {
          var i :| 0 <= i < |init| && Symbols(init)[i] == last.stock.symbol;
          assert init[i].stock.symbol == last.stock.symbol;
          var j :| 0 <= j < |d| && Symbols(d)[j] == init[i].stock.symbol;
          assert Symbols(r)[j] == last.stock.symbol;
        } else {
          assert Symbols(r)[|d|] == last.stock.symbol;
        }
      }
    }
  }

  /** A row is kept only if it is the first row with its symbol
      (`keep="first"`). */
  lemma {:induction false} DedupKeepsFirst(rows: seq<Row>)
    ensures forall x :: x in Dedup(rows) ==> x.stock.symbol in Symbols(rows) && x == rows[FirstWith(rows, x.stock.symbol)]
    decreases |rows|
  {
    if |rows| > 0 {
      var init := rows[..|rows| - 1];
      var last := rows[|rows| - 1];
      DedupKeepsFirst(init);
      forall x | x in Dedup(init)
        ensures x.stock.symbol in Symbols(rows) && x == rows[FirstWith(rows, x.stock.symbol)]
      {
        var k := FirstWith(init, x.stock.symbol);
        assert rows[k] == init[k];
        FirstWithUnique(rows, x.stock.symbol, k);
      }
      if last.stock.symbol !in Symbols(init) {
        forall i | 0 <= i < |init| ensures rows[i].stock.symbol != last.stock.symbol {
          assert Symbols(init)[i] == rows[i].stock.symbol;
        }
        FirstWithUnique(rows, last.stock.symbol, |rows| - 1);
      }
    }
  }

  /** Any index satisfying FirstWith's contract is FirstWith. */
  lemma FirstWithUnique(rows: seq<Row>, sym: string, k: nat)
    requires k < |rows| && rows[k].stock.symbol == sym
    requires forall i :: 0 <= i < k ==> rows[i].stock.symbol != sym
    ensures sym in Symbols(rows) && FirstWith(rows, sym) == k
  {
    assert Symbols(rows)[k] == sym;
  }

  /** The table filter_all_stocks returns. */
  function Screen(stocks: seq<Stock>, mode: Mode, board: string, det: Detectors): (r: seq<Row>)
    ensures |r| <= 2 * |stocks|
    ensures board != AllBoards ==> forall k :: 0 <= k < |r| ==> MarketText(r[k].stock) == board
  {
    var filtered := BoardFilter(Collect(stocks, mode, det), board);
    DedupMembers(filtered);
    Dedup(filtered)
  }

  // ---------------------------------------------------------------------
  // The screening loop

  /** Lines 300-312 of the loop body: run the detectors the mode asks for,
      write their columns into `row` and append a reference to `row` for each
      detector that passes. */
  method RunDetectors(list: seq<ResultRow>, row: ResultRow, mode: Mode, env: Env) returns (out: seq<ResultRow>)
    requires row.Value() == Row(row.stock, None, None, None, None)
    modifies row
    ensures row.Value() == Annotated(row.stock, mode, DetectorsOf(env))
    ensures out == list + Repeated(row, Appends(row.stock, mode, DetectorsOf(env)))
  {
    var s := row.stock;
    ghost var st := StreakOf(s, DetectorsOf(env));
    ghost var tr := TrendOf(s, DetectorsOf(env));
    out := list;
    var hits: nat := 0;
    if RunsStreak(mode) {
      var qualifies, days := LimitUpStatus(env.daily(s.tsCode, env.streakStart, env.tradeDate), StreakDays);
      assert qualifies == st.qualifies && days == st.days;
      row.streakDays := Some(days);
      if qualifies {
        row.category := Some(Streak);
        out := out + [row];
        hits := 1;
      }
    }
    assert out == list + Repeated(row, hits);
    if RunsTrend(mode) {
      var t := TrendStatus(env.daily(s.tsCode, env.trendStart, env.tradeDate));
      assert t == tr;
      row.returnPct := Some(t.returnPct);
      row.volatilityPct := Some(t.volatilityPct);
      if t.qualifies {
        row.category := Some(Trend);
        RepeatedSnoc(row, hits);
        AppendAssoc(list, Repeated(row, hits), row);
        out := out + [row];
        hits := hits + 1;
      }
    }
    assert out == list + Repeated(row, hits);
    assert hits == Appends(s, mode, DetectorsOf(env));
    assert row.Value() == Row(s,
        if RunsTrend(mode) && tr.qualifies then Some(Trend)
        else if RunsStreak(mode) && st.qualifies then Some(Streak)
        else None,
        if RunsStreak(mode) then Some(st.days) else None,
        if RunsTrend(mode) then Some(tr.returnPct) else None,
        if RunsTrend(mode) then Some(tr.volatilityPct) else None);
  }

  /** The body of the inner loop for one candidate: annotate a fresh copy
      `row` of its table row and append `m` references to it. `acc` is what
      the list already read as; only its labels matter. */
  method ScreenCandidate(list: seq<ResultRow>, s: Stock, mode: Mode, env: Env, ghost acc: seq<Row>)
    returns (out: seq<ResultRow>, row: ResultRow, ghost m: nat)
    requires Labels(acc) == Names(list)
    ensures fresh(row)
    ensures out == list + Repeated(row, m)
    ensures Repeated(row.Value(), m) == StockRows(acc, s, mode, DetectorsOf(env))
  {
    row := new ResultRow(s);
    out := RunDetectors(list, row, mode, env);
    m := Appends(s, mode, DetectorsOf(env));
    IndexPresent(acc, list, row, m, Annotated(s, mode, DetectorsOf(env)));
    if m > 0 {
      assert Names(out)[|list|] == s.index;
    }
    if mode == All && s.index !in Names(out) {
      row.category := Some(Unmatched);
      out := out + [row];
      m := 1;
    }
  }

  /** The references in `list` read as the rows the first `i` candidates
      produce. */
  predicate Screened(list: seq<ResultRow>, stocks: seq<Stock>, i: nat, mode: Mode, env: Env)
    reads list
  {
    i <= |stocks| && Snapshot(list) == Collect(stocks[..i], mode, DetectorsOf(env))
  }

  /** One pass of the inner loop: candidate `stocks[i]` is screened and its
      references appended to `list`. */
  method ScreenNext(stocks: seq<Stock>, i: nat, list: seq<ResultRow>, mode: Mode, env: Env)
    returns (out: seq<ResultRow>)
    requires i < |stocks|
    requires Screened(list, stocks, i, mode, env)
    ensures Screened(out, stocks, i + 1, mode, env)
  {
    ghost var acc := Snapshot(list);
    NamesAreLabels(list);
    ghost var m: nat;
    var row;
    out, row, m := ScreenCandidate(list, stocks[i], mode, env, acc);
    SnapshotFramed(list);
    CollectStep(stocks, i, mode, DetectorsOf(env), list, row, m);
  }

  /** One batch of the outer loop: the candidates `stocks[start..end]`, each
      screened in turn and appended to `list`. */
  method ScreenBatch(stocks: seq<Stock>, start: nat, end: nat, list: seq<ResultRow>, mode: Mode, env: Env)
    returns (out: seq<ResultRow>)
    requires start <= end <= |stocks|
    requires Screened(list, stocks, start, mode, env)
    ensures Screened(out, stocks, end, mode, env)
  {
    out := list;
    var i := start;
    while i < end
      invariant start <= i <= end
      invariant Screened(out, stocks, i, mode, env)
      decreases end - i
    {
      out := ScreenNext(stocks, i, out, mode, env);
      i := i + 1;
    }
  }

  /** filter_all_stocks on the qualified table `stocks`. */
  method FilterAllStocks(stocks: seq<Stock>, mode: Mode, board: string, env: Env) returns (result: seq<Row>)
    ensures result == Screen(stocks, mode, board, DetectorsOf(env))
  {
    var list: seq<ResultRow> := [];
    var start := 0;
    while start < |stocks|
      invariant start <= |stocks|
      invariant Screened(list, stocks, start, mode, env)
      decreases |stocks| - start
    {
      var end := if start + ScreenBatchSize < |stocks| then start + ScreenBatchSize else |stocks|;
      list := ScreenBatch(stocks, start, end, list, mode, env);
      start := end;
    }
    assert stocks[..start] == stocks;
    result := Dedup(BoardFilter(Snapshot(list), board));
  }

  // ---------------------------------------------------------------------
  // What the collected rows are

  /** The row a candidate is appended as: the detectors' columns, marked
      未匹配 when no detector's label was written. */
  function Final(s: Stock, mode: Mode, det: Detectors): Row {
    var a := Annotated(s, mode, det);
    if a.category.None? then a.(category := Some(Unmatched)) else a
  }

  /** The candidates a mode reports: all of them in 全部, the streak or trend
      stocks otherwise. */
  predicate Selected(s: Stock, mode: Mode, det: Detectors) {
    match mode
    case All => true
    case StreakOnly => StreakOf(s, det).qualifies
    case TrendOnly => TrendOf(s, det).qualifies
  }

  /** The columns a reported row carries for its stock: the streak length
      unless only trends were asked for, the return and volatility unless
      only streaks were, and the label of the mode, or in 全部 趋势票 when the
      trend passed, else 连板票 when the streak passed, else 未匹配. */
  predicate Reported(r: Row, mode: Mode, det: Detectors) {
    var st := StreakOf(r.stock, det);
    var tr := TrendOf(r.stock, det);
    && r.streakDays == (if mode == TrendOnly then None else Some(st.days))
    && r.returnPct == (if mode == StreakOnly then None else Some(tr.returnPct))
    && r.volatilityPct == (if mode == StreakOnly then None else Some(tr.volatilityPct))
    && r.category == Some(match mode
                          case StreakOnly => Streak
                          case TrendOnly => Trend
                          case All => if tr.qualifies then Trend else if st.qualifies then Streak else Unmatched)
  }

  predicate DistinctIndices(stocks: seq<Stock>) {
    forall a, b :: 0 <= a < b < |stocks| ==> stocks[a].index != stocks[b].index
  }

  predicate DistinctSymbols(stocks: seq<Stock>) {
    forall a, b :: 0 <= a < b < |stocks| ==> stocks[a].symbol != stocks[b].symbol
  }

  /** A selected candidate's final row is a reported row. */
  lemma FinalIsReported(s: Stock, mode: Mode, det: Detectors)
    requires Selected(s, mode, det)
    ensures Final(s, mode, det).stock == s && Reported(Final(s, mode, det), mode, det)
  {
  }

  /** Whatever one candidate appends is `m` references to its final row: none
      when its label is already present in 全部 or the mode does not select
      it, one or two otherwise. */
  lemma StockRowsCopies(acc: seq<Row>, s: Stock, mode: Mode, det: Detectors) returns (m: nat)
    ensures StockRows(acc, s, mode, det) == Repeated(Final(s, mode, det), m)
    ensures m <= 2
    ensures m > 0 ==> Selected(s, mode, det)
    ensures Selected(s, mode, det) && (mode != All || s.index !in Labels(acc)) ==> m > 0
  {
    var a := Annotated(s, mode, det);
    var n := Appends(s, mode, det);
    var matched := Repeated(a, n);
    if n > 0 {
      assert Labels(acc + matched)[|acc|] == s.index;
    } else {
      assert acc + matched == acc;
    }
    if mode == All && s.index !in Labels(acc + matched) {
      m := 1;
      assert StockRows(acc, s, mode, det) == [a.(category := Some(Unmatched))];
    } else {
      m := n;
    }
  }

  /** Every collected row is the reported row of a candidate the mode
      selects. */
  lemma {:induction false} CollectSound(stocks: seq<Stock>, mode: Mode, det: Detectors)
    ensures forall r :: r in Collect(stocks, mode, det) ==>
              r.stock in stocks && Selected(r.stock, mode, det) && r == Final(r.stock, mode, det)
    decreases |stocks|
  {
    if |stocks| > 0 {
      var init := stocks[..|stocks| - 1];
      var s := stocks[|stocks| - 1];
      CollectSound(init, mode, det);
      var acc := Collect(init, mode, det);
      var m := StockRowsCopies(acc, s, mode, det);
      forall r | r in Collect(stocks, mode, det)
        ensures r.stock in stocks && Selected(r.stock, mode, det) && r == Final(r.stock, mode, det)
      {
        if r in acc {
          assert r.stock in init;
          var i :| 0 <= i < |init| && init[i] == r.stock;
          assert stocks[i] == r.stock;
        } else {
          assert r in Repeated(Final(s, mode, det), m);
        }
      }
    }
  }

  /** With distinct labels, no collected row carries the label of a
      candidate not yet processed. */
  lemma LabelNotYetCollected(stocks: seq<Stock>, mode: Mode, det: Detectors)
    requires |stocks| > 0 && DistinctIndices(stocks)
    ensures stocks[|stocks| - 1].index !in Labels(Collect(stocks[..|stocks| - 1], mode, det))
  {
    var init := stocks[..|stocks| - 1];
    var s := stocks[|stocks| - 1];
    var acc := Collect(init, mode, det);
    CollectSound(init, mode, det);
    forall j | 0 <= j < |acc| ensures Labels(acc)[j] != s.index {
      assert acc[j] in acc;
      var i :| 0 <= i < |init| && init[i] == acc[j].stock;
      assert stocks[i] == acc[j].stock;
    }
  }

  /** Every candidate the mode selects is collected, provided index labels
      are distinct in 全部 (as they are in the qualified table). */
  lemma {:induction false} CollectComplete(stocks: seq<Stock>, mode: Mode, det: Detectors, k: nat)
    requires k < |stocks| && Selected(stocks[k], mode, det)
    requires mode == All ==> DistinctIndices(stocks)
    ensures Final(stocks[k], mode, det) in Collect(stocks, mode, det)
    decreases |stocks|
  {
    var init := stocks[..|stocks| - 1];
    var s := stocks[|stocks| - 1];
    var acc := Collect(init, mode, det);
    if k < |init| {
      assert init[k] == stocks[k];
      CollectComplete(init, mode, det, k);
    } else {
      if mode == All {
        LabelNotYetCollected(stocks, mode, det);
      }
      var m := StockRowsCopies(acc, s, mode, det);
      assert Collect(stocks, mode, det)[|acc|] == Final(s, mode, det);
    }
  }

  /** In 全部 every candidate's label appears among the collected rows,
      whether or not labels are distinct. */
  lemma {:induction false} EveryCandidateLabelled(stocks: seq<Stock>, det: Detectors)
    ensures forall k :: 0 <= k < |stocks| ==> stocks[k].index in Labels(Collect(stocks, All, det))
    decreases |stocks|
  {
    if |stocks| > 0 {
      var init := stocks[..|stocks| - 1];
      var s := stocks[|stocks| - 1];
      var acc := Collect(init, All, det);
      var rows := StockRows(acc, s, All, det);
      assert Collect(stocks, All, det) == acc + rows;
      assert stocks == init + [s];
      EveryCandidateLabelled(init, det);
      LabelledAfter(acc, s, det);
      LabelledStep(init, s, acc, rows);
    }
  }

  /** In 全部 a candidate's label is present once its rows are appended. */
  lemma LabelledAfter(acc: seq<Row>, s: Stock, det: Detectors)
    ensures s.index in Labels(acc + StockRows(acc, s, All, det))
  {
    var matched := Repeated(Annotated(s, All, det), Appends(s, All, det));
    if s.index in Labels(acc + matched) {
      assert StockRows(acc, s, All, det) == matched;
    } else {
      var rows := StockRows(acc, s, All, det);
      assert Labels(acc + rows)[|acc + rows| - 1] == s.index;
    }
  }

  lemma LabelledStep(init: seq<Stock>, s: Stock, acc: seq<Row>, rows: seq<Row>)
    requires forall k :: 0 <= k < |init| ==> init[k].index in Labels(acc)
    requires s.index in Labels(acc + rows)
    ensures forall k :: 0 <= k < |init| + 1 ==> (init + [s])[k].index in Labels(acc + rows)
  {
    LabelsGrow(acc, rows);
    forall k | 0 <= k < |init| + 1 ensures (init + [s])[k].index in Labels(acc + rows) {
      if k < |init| {
        assert (init + [s])[k] == init[k];
      }
    }
  }

  /** Appending rows keeps every label present. */
  lemma LabelsGrow(acc: seq<Row>, rows: seq<Row>)
    ensures forall x :: x in Labels(acc) ==> x in Labels(acc + rows)
  {
    forall x | x in Labels(acc) ensures x in Labels(acc + rows) {
      var j :| 0 <= j < |acc| && Labels(acc)[j] == x;
      assert Labels(acc + rows)[j] == x;
    }
  }

  /** A stock that passes both detectors in 全部 is appended twice, and both
      references show the last write: two identical rows labelled 趋势票
      that still carry the streak length. */
  lemma BothPassTwoTrendRows(acc: seq<Row>, s: Stock, det: Detectors)
    requires StreakOf(s, det).qualifies && TrendOf(s, det).qualifies
    ensures var rows := StockRows(acc, s, All, det);
            && |rows| == 2 && rows[0] == rows[1]
            && rows[0].category == Some(Trend)
            && rows[0].streakDays == Some(StreakOf(s, det).days)
  {
    var m := StockRowsCopies(acc, s, All, det);
  }

  // ---------------------------------------------------------------------
  // The returned table

  /** The returned rows have distinct symbols, lie on the requested board,
      and are each the reported row of a candidate the mode selects. */
  lemma ScreenSound(stocks: seq<Stock>, mode: Mode, board: string, det: Detectors)
    ensures UniqueSymbols(Screen(stocks, mode, board, det))
    ensures forall r :: r in Screen(stocks, mode, board, det) ==>
              && r.stock in stocks && Selected(r.stock, mode, det) && Reported(r, mode, det)
              && (board != AllBoards ==> MarketText(r.stock) == board)
  {
    var collected := Collect(stocks, mode, det);
    var filtered := BoardFilter(collected, board);
    DedupUniqueSymbols(filtered);
    DedupMembers(filtered);
    CollectSound(stocks, mode, det);
    SubseqMembers(filtered, collected);
    forall r | r in Screen(stocks, mode, board, det)
      ensures && r.stock in stocks && Selected(r.stock, mode, det) && Reported(r, mode, det)
              && (board != AllBoards ==> MarketText(r.stock) == board)
    {
      FinalIsReported(r.stock, mode, det);
    }
  }

  /** Every selected candidate on the requested board is represented in the
      returned table by a row with its symbol (its own row, or an earlier one
      with the same symbol). */
  lemma ScreenComplete(stocks: seq<Stock>, mode: Mode, board: string, det: Detectors, k: nat)
    requires k < |stocks| && Selected(stocks[k], mode, det)
    requires mode == All ==> DistinctIndices(stocks)
    requires board == AllBoards || MarketText(stocks[k]) == board
    ensures stocks[k].symbol in Symbols(Screen(stocks, mode, board, det))
  {
    var collected := Collect(stocks, mode, det);
    var filtered := BoardFilter(collected, board);
    CollectComplete(stocks, mode, det, k);
    var x := Final(stocks[k], mode, det);
    assert x in filtered;
    var j :| 0 <= j < |filtered| && filtered[j] == x;
    DedupCoversSymbols(filtered);
  }

  /** In 全部 over all boards, a table with distinct labels and symbols comes
      back with exactly one row per stock, in table order, each carrying its
      stock's reported columns. */
  lemma {:induction false} OneRowPerStock(stocks: seq<Stock>, det: Detectors)
    requires DistinctIndices(stocks) && DistinctSymbols(stocks)
    ensures var r := Screen(stocks, All, AllBoards, det);
            |r| == |stocks| && forall k :: 0 <= k < |stocks| ==> r[k].stock == stocks[k] && Reported(r[k], All, det)
    decreases |stocks|
  {
    if |stocks| > 0 {
      var init := stocks[..|stocks| - 1];
      var s := stocks[|stocks| - 1];
      OneRowPerStock(init, det);
      ScreenAllNext(stocks, det);
      FinalIsReported(s, All, det);
      RowsExtend(Screen(init, All, AllBoards, det), init, Final(s, All, det), s, det);
      assert init + [s] == stocks;
    }
  }

  /** One more stock and its reported row keep the rows and stocks in step. */
  lemma RowsExtend(rows: seq<Row>, stocks: seq<Stock>, x: Row, s: Stock, det: Detectors)
    requires |rows| == |stocks|
    requires forall k :: 0 <= k < |stocks| ==> rows[k].stock == stocks[k] && Reported(rows[k], All, det)
    requires x.stock == s && Reported(x, All, det)
    ensures var r := rows + [x];
            var t := stocks + [s];
            |r| == |t| && forall k :: 0 <= k < |t| ==> r[k].stock == t[k] && Reported(r[k], All, det)
  {
  }

  /** The last stock of such a table adds exactly its own row. */
  lemma ScreenAllNext(stocks: seq<Stock>, det: Detectors)
    requires |stocks| > 0 && DistinctIndices(stocks) && DistinctSymbols(stocks)
    ensures Screen(stocks, All, AllBoards, det)
            == Screen(stocks[..|stocks| - 1], All, AllBoards, det) + [Final(stocks[|stocks| - 1], All, det)]
  {
    var init := stocks[..|stocks| - 1];
    var s := stocks[|stocks| - 1];
    var acc := Collect(init, All, det);
    LabelNotYetCollected(stocks, All, det);
    var m := StockRowsCopies(acc, s, All, det);
    var x := Final(s, All, det);
    assert x.stock.symbol !in Symbols(acc) by {
      CollectSound(init, All, det);
      forall j | 0 <= j < |acc| ensures Symbols(acc)[j] != s.symbol {
        assert acc[j] in acc;
        var i :| 0 <= i < |init| && init[i] == acc[j].stock;
        assert stocks[i] == acc[j].stock;
      }
    }
    assert Collect(stocks, All, det) == acc + Repeated(x, m);
    DedupAppendCopies(acc, x, m);
  }

  /** Appending copies of a row with a new symbol keeps exactly one of them. */
  lemma {:induction false} DedupAppendCopies(acc: seq<Row>, x: Row, m: nat)
    requires m > 0 && x.stock.symbol !in Symbols(acc)
    ensures Dedup(acc + Repeated(x, m)) == Dedup(acc) + [x]
    decreases m
  {
    var init := acc + Repeated(x, m - 1);
    AppendAssoc(acc, Repeated(x, m - 1), x);
    DedupNext(init, x);
    if m > 1 {
      DedupAppendCopies(acc, x, m - 1);
      assert Symbols(init)[|acc|] == x.stock.symbol;
    } else {
      assert init == acc;
    }
  }

  /** Dedup on one more row. */
  lemma DedupNext(init: seq<Row>, last: Row)
    ensures Dedup(init + [last])
            == if last.stock.symbol in Symbols(init) then Dedup(init) else Dedup(init) + [last]
  {
    assert (init + [last])[..|init|] == init;
  }

  /** The qualified table's labels are distinct, so the completeness lemmas
      apply to it. */
  lemma QualifiedIndicesDistinct(eligible: seq<Instrument>, prices: seq<Quote>)
    ensures DistinctIndices(Qualify(eligible, prices))
  {
    QualifyKeepsJoinOrder(eligible, prices);
  }

  /** One more candidate appends its rows. */
  lemma CollectNext(stocks: seq<Stock>, i: nat, mode: Mode, det: Detectors)
    requires i < |stocks|
    ensures var acc := Collect(stocks[..i], mode, det);
            Collect(stocks[..i + 1], mode, det) == acc + StockRows(acc, stocks[i], mode, det)
  {
    assert stocks[..i + 1][..i] == stocks[..i];
  }

  /** One candidate's references extend the collected rows by its own rows. */
  lemma CollectStep(stocks: seq<Stock>, i: nat, mode: Mode, det: Detectors,
                    list: seq<ResultRow>, row: ResultRow, m: nat)
    requires i < |stocks|
    requires Snapshot(list) == Collect(stocks[..i], mode, det)
    requires Repeated(row.Value(), m) == StockRows(Snapshot(list), stocks[i], mode, det)
    ensures Snapshot(list + Repeated(row, m)) == Collect(stocks[..i + 1], mode, det)
  {
    SnapshotOfRepeated(list, row, m);
    CollectNext(stocks, i, mode, det);
  }

  /** The candidate's label is among the rows' labels exactly when it is
      among the referenced objects' labels. */
  lemma IndexPresent(acc: seq<Row>, list: seq<ResultRow>, row: ResultRow, n: nat, v: Row)
    requires Labels(acc) == Names(list)
    requires v.stock == row.stock
    ensures row.stock.index in Labels(acc + Repeated(v, n)) <==> row.stock.index in Names(list + Repeated(row, n))
  {
    var a := Labels(acc + Repeated(v, n));
    var b := Names(list + Repeated(row, n));
    assert a == b;
  }

  lemma NamesAreLabels(rs: seq<ResultRow>)
    ensures Names(rs) == Labels(Snapshot(rs))
  {
  }

  lemma AppendAssoc<T>(a: seq<T>, b: seq<T>, x: T)
    ensures (a + b) + [x] == a + (b + [x])
  {
  }

  /** The value of a list of rows depends only on those rows. */
  twostate lemma {:induction false} SnapshotFramed(rs: seq<ResultRow>)
    requires forall k :: 0 <= k < |rs| ==> unchanged(rs[k])
    ensures Snapshot(rs) == old(Snapshot(rs))
    decreases |rs|
  {
    if |rs| > 0 {
      SnapshotFramed(rs[..|rs| - 1]);
    }
  }

  /** Appending `n` references to one row shows that row's value `n` times. */
  lemma SnapshotOfRepeated(list: seq<ResultRow>, row: ResultRow, n: nat)
    ensures Snapshot(list + Repeated(row, n)) == Snapshot(list) + Repeated(row.Value(), n)
  {
  }
}
