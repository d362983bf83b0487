/** The universe qualifier of get_all_qualified_stocks: the venue and ETF
    filters on the listed instruments, the batched quote download, the left
    join of quotes onto instruments, the minimum-price filter and the
    exchange-name mapping. */
module Universe {
  import opened SeqUtil

  /** One row of the listed-instrument table (`stock_basic`). A missing name or
      market (NaN in the table) is None. */
  datatype Instrument = Instrument(
    tsCode: string,
    symbol: string,
    name: Option<string>,
    industry: Option<string>,
    market: Option<string>,
    listDate: string,
    exchange: string)

  /** One row of the daily quote table for the reference trade date. */
  datatype Quote = Quote(tsCode: string, close: real, pctChg: real, vol: real, amount: real)

  /** A row of the left join: `index` is its label in the joined table. */
  datatype Joined = Joined(index: nat, inst: Instrument, quote: Option<Quote>)

  /** A row of the qualified table, after renaming: `index` is the label it
      kept from the joined table, `price` the latest close, `turnover` the
      amount in units of ten thousand and `exchange` the exchange's full name
      (None for codes outside the three known exchanges). */
  datatype Stock = Stock(
    index: nat,
    tsCode: string,
    symbol: string,
    name: Option<string>,
    market: Option<string>,
    industry: Option<string>,
    exchange: Option<string>,
    listDate: string,
    price: real,
    pctChg: real,
    vol: real,
    turnover: real)

  /** The two growth boards excluded from the universe. */
  const ExcludedBoards: seq<string> := ["创业板", "科创板"]
  const MinStockPrice: real := 3.0
  /** Codes per quote request. */
  const QuoteBatchSize: nat := 500

  // ---------------------------------------------------------------------
  // Filters on the instrument table

  /** `~market.isin(ExcludedBoards)`: a missing market is kept. */
  predicate OnAllowedBoard(i: Instrument) {
    !(i.market.Some? && i.market.value in ExcludedBoards)
  }

  /** `name.str.contains("ETF|etf", na=False)`: exactly these two spellings;
      a missing name does not match. */
  predicate NamedLikeEtf(name: Option<string>) {
    name.Some? && (Contains(name.value, "ETF") || Contains(name.value, "etf"))
  }

  predicate NotEtf(i: Instrument) {
    !NamedLikeEtf(i.name)
  }

  /** The instruments left after the venue filter and then the ETF filter. */
  function Eligible(universe: seq<Instrument>): (r: seq<Instrument>)
    ensures Subseq(r, universe)
    ensures forall k :: 0 <= k < |r| ==> OnAllowedBoard(r[k]) && NotEtf(r[k])
  {
    var boards := Keep(universe, OnAllowedBoard);
    var e := Keep(boards, NotEtf);
    SubseqTransitive(e, boards, universe);
    assert forall k :: 0 <= k < |e| ==> e[k] in boards;
    e
  }

  lemma EligibleIff(universe: seq<Instrument>, i: Instrument)
    ensures i in Eligible(universe) <==> i in universe && OnAllowedBoard(i) && NotEtf(i)
  {
    var boards := Keep(universe, OnAllowedBoard);
    var e := Keep(boards, NotEtf);
    if i in universe && OnAllowedBoard(i) && NotEtf(i) {
      var p :| 0 <= p < |universe| && universe[p] == i;
      var q :| 0 <= q < |boards| && boards[q] == i;
    }
    if i in e {
      var p :| 0 <= p < |e| && e[p] == i;
      var q :| 0 <= q < |boards| && boards[q] == i;
    }
  }

  /** The ETF test is case-sensitive in exactly two spellings: mixed case
      such as "Etf" does not match. */
  lemma EtfPatternExample()
    ensures NamedLikeEtf(Some("沪深300ETF"))
    ensures NamedLikeEtf(Some("etf基金"))
    ensures !NamedLikeEtf(Some("Etf"))
    ensures !NamedLikeEtf(None)
  {
    assert "沪深300ETF"[5..8] == "ETF";
    ContainsAt("沪深300ETF", "ETF");
    assert OccursAt("沪深300ETF", "ETF", 5);
    assert "Etf"[..3] != "ETF" by { assert "Etf"[1] != "ETF"[1]; }
    assert "Etf"[..3] != "etf" by { assert "Etf"[0] != "etf"[0]; }
    ShorterNeverContains("Etf"[1..], "ETF");
    ShorterNeverContains("Etf"[1..], "etf");
  }

  /** The mapping applied to the exchange column; other codes map to NaN. */
  function ExchangeName(code: string): (r: Option<string>)
    ensures r.Some? <==> code in {"SSE", "SZSE", "BSE"}
  {
    if code == "SSE" then Some("上海证券交易所")
    else if code == "SZSE" then Some("深圳证券交易所")
    else if code == "BSE" then Some("北京证券交易所")
    else None
  }

  // ---------------------------------------------------------------------
  // The batched quote download

  function Codes(insts: seq<Instrument>): (r: seq<string>)
    ensures |r| == |insts| && forall k :: 0 <= k < |insts| ==> r[k] == insts[k].tsCode
  {
    if |insts| == 0 then [] else [insts[0].tsCode] + Codes(insts[1..])
  }

  /** `pd.concat` of the per-batch answers; None as soon as one request
      fails (the exception aborts the whole download). */
  function FetchAll(fetch: seq<string> -> Option<seq<Quote>>, batches: seq<seq<string>>): Option<seq<Quote>> {
    if |batches| == 0 then Some([])
    else match fetch(batches[0]) {
      case None => None
      case Some(q) =>
        match FetchAll(fetch, batches[1..]) {
          case None => None
          case Some(rest) => Some(q + rest)
        }
    }
  }

  function Prepend(acc: seq<Quote>, r: Option<seq<Quote>>): Option<seq<Quote>> {
    match r
    case None => None
    case Some(q) => Some(acc + q)
  }

  /** The quote loop: request the codes 500 at a time and concatenate the
      answers in request order. */
  method FetchQuotes(codes: seq<string>, fetch: seq<string> -> Option<seq<Quote>>)
    returns (prices: Option<seq<Quote>>)
    ensures prices == FetchAll(fetch, Batches(codes, QuoteBatchSize))
  {
    var acc: seq<Quote> := [];
    var i := 0;
    assert codes[0..] == codes;
    PrependNothing(FetchAll(fetch, Batches(codes, QuoteBatchSize)));
    while i < |codes|
      invariant 0 <= i <= |codes|
      invariant FetchAll(fetch, Batches(codes, QuoteBatchSize)) ==
                Prepend(acc, FetchAll(fetch, Batches(codes[i..], QuoteBatchSize)))
      decreases |codes| - i
    {
      var end := if i + QuoteBatchSize < |codes| then i + QuoteBatchSize else |codes|;
      var batch := codes[i..end];
      BatchesFrom(codes, i, QuoteBatchSize);
      FetchAllCons(fetch, batch, Batches(codes[end..], QuoteBatchSize));
      var answer := fetch(batch);
      if answer.None? {
        return None;
      }
      PrependTwice(acc, answer.value, FetchAll(fetch, Batches(codes[end..], QuoteBatchSize)));
      acc := acc + answer.value;
      i := end;
    }
    assert codes[i..] == [];
    assert acc + [] == acc;
    prices := Some(acc);
  }

  lemma PrependNothing(r: Option<seq<Quote>>)
    ensures Prepend([], r) == r
  {
    if r.Some? { assert [] + r.value == r.value; }
  }

  lemma PrependTwice(a: seq<Quote>, b: seq<Quote>, r: Option<seq<Quote>>)
    ensures Prepend(a + b, r) == Prepend(a, Prepend(b, r))
  {
    if r.Some? { assert (a + b) + r.value == a + (b + r.value); }
  }

  lemma FetchAllCons(fetch: seq<string> -> Option<seq<Quote>>, b: seq<string>, rest: seq<seq<string>>)
    ensures FetchAll(fetch, [b] + rest) ==
            if fetch(b).None? then None else Prepend(fetch(b).value, FetchAll(fetch, rest))
  {
    assert ([b] + rest)[0] == b && ([b] + rest)[1..] == rest;
  }

  /** The batches from offset `i` on: the slice `i..i+n` (or up to the end),
      then the batches of what follows. */
  lemma BatchesFrom<T>(s: seq<T>, i: nat, n: nat)
    requires n > 0 && i < |s|
    ensures var end := if i + n < |s| then i + n else |s|;
            Batches(s[i..], n) == [s[i..end]] + Batches(s[end..], n)
  {
    if |s| - i > n {
      assert s[i..][..n] == s[i..i + n];
      assert s[i..][n..] == s[i + n..];
    } else {
      assert s[|s|..] == [];
      assert s[i..] == s[i..|s|];
    }
  }

  /** Every code is requested exactly once, in order, and no request holds
      more than 500 codes. */
  lemma QuoteBatchesCoverCodes(codes: seq<string>)
    ensures Flatten(Batches(codes, QuoteBatchSize)) == codes
    ensures forall b :: b in Batches(codes, QuoteBatchSize) ==> 0 < |b| <= QuoteBatchSize
  {
  }

  // ---------------------------------------------------------------------
  // Left join, price filters and renaming

  predicate QuotesCode(code: string, q: Quote) {
    q.tsCode == code
  }

  /** The quote rows whose code is `code`, in table order. */
  function QuotesOf(code: string, prices: seq<Quote>): (r: seq<Quote>)
    ensures forall k :: 0 <= k < |r| ==> r[k] in prices && r[k].tsCode == code
    ensures forall k :: 0 <= k < |prices| && prices[k].tsCode == code ==> prices[k] in r
  {
    Keep(prices, q => QuotesCode(code, q))
  }

  /** A row of the join before labelling: an instrument and its quote, if any. */
  datatype Match = Match(inst: Instrument, quote: Option<Quote>)

  /** The rows of one instrument: one per matching quote, or a single row
      with no quote. */
  function JoinOne(i: Instrument, matches: seq<Quote>): (r: seq<Match>)
    ensures |r| == if |matches| == 0 then 1 else |matches|
    ensures forall k :: 0 <= k < |r| ==> r[k].inst == i
    ensures |matches| == 0 ==> r == [Match(i, None)]
    ensures forall k :: 0 <= k < |matches| ==> r[k].quote == Some(matches[k])
    decreases |matches|
  {
    if |matches| == 0 then [Match(i, None)]
    else if |matches| == 1 then [Match(i, Some(matches[0]))]
    else [Match(i, Some(matches[0]))] + JoinOne(i, matches[1..])
  }

  /** The rows of instrument `i` against the whole quote table. */
  function JoinRows(i: Instrument, prices: seq<Quote>): (r: seq<Match>)
    ensures |r| >= 1
    ensures forall k :: 0 <= k < |r| ==> r[k].inst == i
    ensures forall k :: 0 <= k < |r| && r[k].quote.Some? ==>
              r[k].quote.value in prices && r[k].quote.value.tsCode == i.tsCode
  {
    JoinOne(i, QuotesOf(i.tsCode, prices))
  }

  /** Each quote for the instrument's code has its own row. */
  lemma RowOfQuoteIn(i: Instrument, prices: seq<Quote>, q: Quote) returns (k: nat)
    requires q in prices && q.tsCode == i.tsCode
    ensures k < |JoinRows(i, prices)| && JoinRows(i, prices)[k].quote == Some(q)
  {
    var m := QuotesOf(i.tsCode, prices);
    var p :| 0 <= p < |prices| && prices[p] == q;
    var j :| 0 <= j < |m| && m[j] == q;
    k := j;
  }

  /** The rows of `insts[p..]`, instrument by instrument. */
  function JoinFrom(insts: seq<Instrument>, prices: seq<Quote>, p: nat): (r: seq<Match>)
    requires p <= |insts|
    ensures |r| >= |insts| - p
    decreases |insts| - p
  {
    if p == |insts| then [] else JoinRows(insts[p], prices) + JoinFrom(insts, prices, p + 1)
  }

  /** `pd.merge(instruments, prices, on="ts_code", how="left")`: the rows of
      each instrument in table order, labelled 0, 1, 2, ... */
  function LeftJoin(insts: seq<Instrument>, prices: seq<Quote>): (r: seq<Joined>)
    ensures |r| >= |insts|
    ensures var m := JoinFrom(insts, prices, 0);
            |r| == |m| && forall k :: 0 <= k < |r| ==> r[k] == Joined(k, m[k].inst, m[k].quote)
  {
    var m := JoinFrom(insts, prices, 0);
    seq(|m|, k requires 0 <= k < |m| => Joined(k, m[k].inst, m[k].quote))
  }

  /** Every joined row pairs an instrument of the table with either no quote
      or a quote for that instrument's code. */
  lemma LeftJoinSound(insts: seq<Instrument>, prices: seq<Quote>)
    ensures var r := LeftJoin(insts, prices);
            forall k :: 0 <= k < |r| ==> RowFrom(r[k], insts, prices)
  {
    forall k | 0 <= k < |LeftJoin(insts, prices)|
      ensures RowFrom(LeftJoin(insts, prices)[k], insts, prices)
    {
      var p := MatchSound(insts, prices, 0, k);
    }
  }

  predicate RowFrom(j: Joined, insts: seq<Instrument>, prices: seq<Quote>) {
    && j.inst in insts
    && (j.quote.Some? ==> j.quote.value in prices && j.quote.value.tsCode == j.inst.tsCode)
  }

  /** The row at position `k` of JoinFrom comes from instrument `insts[q]`. */
  lemma {:induction false} MatchSound(insts: seq<Instrument>, prices: seq<Quote>, p: nat, k: nat)
    returns (q: nat)
    requires p <= |insts| && k < |JoinFrom(insts, prices, p)|
    ensures p <= q < |insts|
    ensures var j := JoinFrom(insts, prices, p)[k];
            && j.inst == insts[q]
            && (j.quote.Some? ==> j.quote.value in prices && j.quote.value.tsCode == insts[q].tsCode)
    decreases |insts| - p
  {
    var head := JoinRows(insts[p], prices);
    var tail := JoinFrom(insts, prices, p + 1);
    if k < |head| {
      q := p;
      assert JoinFrom(insts, prices, p)[k] == head[k];
    } else {
      q := MatchSound(insts, prices, p + 1, k - |head|);
      assert JoinFrom(insts, prices, p)[k] == tail[k - |head|];
    }
  }

  /** A left join loses no instrument: each one has a row. */
  lemma LeftJoinHasInstrument(insts: seq<Instrument>, prices: seq<Quote>, t: nat)
    requires t < |insts|
    ensures var r := LeftJoin(insts, prices);
            exists k :: 0 <= k < |r| && r[k].inst == insts[t]
  {
    var k := RowOf(insts, prices, 0, t, None);
    assert LeftJoin(insts, prices)[k].inst == insts[t];
  }

  /** ... and each quote for an instrument's code has a row pairing the two. */
  lemma LeftJoinHasQuote(insts: seq<Instrument>, prices: seq<Quote>, t: nat, x: nat)
    requires t < |insts| && x < |prices| && prices[x].tsCode == insts[t].tsCode
    ensures var r := LeftJoin(insts, prices);
            exists k :: 0 <= k < |r| && r[k].inst == insts[t] && r[k].quote == Some(prices[x])
  {
    var k := RowOf(insts, prices, 0, t, Some(x));
    assert LeftJoin(insts, prices)[k].inst == insts[t];
  }

  /** The position in JoinFrom of a row of `insts[t]`, the one paired with
      `prices[x]` when a quote position is given. */
  lemma {:induction false} RowOf(insts: seq<Instrument>, prices: seq<Quote>, p: nat, t: nat, x: Option<nat>)
    returns (k: nat)
    requires p <= t < |insts|
    requires x.Some? ==> x.value < |prices| && prices[x.value].tsCode == insts[t].tsCode
    ensures k < |JoinFrom(insts, prices, p)| && JoinFrom(insts, prices, p)[k].inst == insts[t]
    ensures x.Some? ==> JoinFrom(insts, prices, p)[k].quote == Some(prices[x.value])
    decreases |insts| - p
  {
    var head := JoinRows(insts[p], prices);
    var tail := JoinFrom(insts, prices, p + 1);
    if p == t {
      if x.Some? {
        k := RowOfQuoteIn(insts[t], prices, prices[x.value]);
      } else {
        k := 0;
      }
      assert JoinFrom(insts, prices, p)[k] == head[k];
    } else {
      var r := RowOf(insts, prices, p + 1, t, x);
      k := |head| + r;
      assert JoinFrom(insts, prices, p)[k] == tail[r];
    }
  }

  predicate HasPrice(j: Joined) {
    j.quote.Some?
  }

  /** `最新价格(元) >= 3.0`; a missing price compares false. */
  predicate PriceAtLeastMin(j: Joined) {
    j.quote.Some? && j.quote.value.close >= MinStockPrice
  }

  function ToStock(j: Joined): Stock
    requires j.quote.Some?
  {
    var i, q := j.inst, j.quote.value;
    Stock(j.index, i.tsCode, i.symbol, i.name, i.market, i.industry, ExchangeName(i.exchange),
          i.listDate, q.close, q.pctChg, q.vol, q.amount / 10000.0)
  }

  function ToStocks(js: seq<Joined>): (r: seq<Stock>)
    requires forall k :: 0 <= k < |js| ==> js[k].quote.Some?
    ensures |r| == |js| && forall k :: 0 <= k < |js| ==> r[k] == ToStock(js[k])
  {
    if |js| == 0 then [] else [ToStock(js[0])] + ToStocks(js[1..])
  }

  /** `notna()` and then `>= 3.0` on the price column of a joined table,
      followed by the renaming: the qualified rows, in table order. */
  function PriceFilter(joined: seq<Joined>): (r: seq<Stock>)
    ensures |r| <= |joined|
    ensures forall k :: 0 <= k < |r| ==> r[k].price >= MinStockPrice
  {
    ToStocks(Keep(Keep(joined, HasPrice), PriceAtLeastMin))
  }

  /** The qualified table built from the eligible instruments and the
      downloaded quotes. */
  function Qualify(eligible: seq<Instrument>, prices: seq<Quote>): (r: seq<Stock>)
    ensures |r| <= |LeftJoin(eligible, prices)|
    ensures forall k :: 0 <= k < |r| ==> r[k].price >= MinStockPrice
  {
    PriceFilter(LeftJoin(eligible, prices))
  }

  /** The price filter keeps exactly the joined rows with a price of at
      least 3.0, in their order and with their labels. */
  lemma PriceFilterSelects(joined: seq<Joined>)
    ensures var r := PriceFilter(joined);
            forall k :: 0 <= k < |joined| && PriceAtLeastMin(joined[k]) ==> ToStock(joined[k]) in r
    ensures var r := PriceFilter(joined);
            forall s :: s in r ==> exists k :: 0 <= k < |joined| && PriceAtLeastMin(joined[k]) && s == ToStock(joined[k])
  {
    var priced := Keep(joined, HasPrice);
    var rows := Keep(priced, PriceAtLeastMin);
    var r := ToStocks(rows);
    forall k | 0 <= k < |joined| && PriceAtLeastMin(joined[k])
      ensures ToStock(joined[k]) in r
    {
      var p :| 0 <= p < |priced| && priced[p] == joined[k];
      var x :| 0 <= x < |rows| && rows[x] == joined[k];
      assert r[x] == ToStock(joined[k]);
    }
    forall s | s in r
      ensures exists k :: 0 <= k < |joined| && PriceAtLeastMin(joined[k]) && s == ToStock(joined[k])
    {
      var x :| 0 <= x < |rows| && r[x] == s;
      assert rows[x] in priced;
      var k :| 0 <= k < |joined| && joined[k] == rows[x];
    }
  }

  /** The price filter is an order-preserving selection of a table labelled
      by position: each row is the joined row at its label, and the labels
      strictly increase. */
  lemma PriceFilterKeepsOrder(joined: seq<Joined>)
    requires forall k :: 0 <= k < |joined| ==> joined[k].index == k
    ensures var r := PriceFilter(joined);
            && (forall k :: 0 <= k < |r| ==> r[k].index < |joined| && r[k] == ToStock(joined[r[k].index]))
            && (forall a, b :: 0 <= a < b < |r| ==> r[a].index < r[b].index)
  {
    var priced := Keep(joined, HasPrice);
    var rows := Keep(priced, PriceAtLeastMin);
    SubseqTransitive(rows, priced, joined);
    LabelsOfSubseq(rows, joined);
  }

  /** `s` is the row made from instrument `i` and quote `q`, and they pass
      every rule. */
  predicate QualifiedFrom(s: Stock, i: Instrument, q: Quote) {
    && OnAllowedBoard(i) && NotEtf(i)
    && q.tsCode == i.tsCode && q.close >= MinStockPrice
    && s.tsCode == i.tsCode && s.symbol == i.symbol && s.name == i.name && s.market == i.market
    && s.industry == i.industry && s.listDate == i.listDate && s.exchange == ExchangeName(i.exchange)
    && s.price == q.close && s.pctChg == q.pctChg && s.vol == q.vol && s.turnover == q.amount / 10000.0
  }

  /** Every qualified row passed every rule: an allowed board, a name that is
      not an ETF's, a quote for its code, and a price of at least 3.0. */
  lemma QualifiedRowsPassRules(universe: seq<Instrument>, prices: seq<Quote>, s: Stock)
    requires s in Qualify(Eligible(universe), prices)
    ensures exists i, q :: i in universe && q in prices && QualifiedFrom(s, i, q)
  {
    var e := Eligible(universe);
    var joined := LeftJoin(e, prices);
    PriceFilterSelects(joined);
    var k :| 0 <= k < |joined| && PriceAtLeastMin(joined[k]) && s == ToStock(joined[k]);
    var j := joined[k];
    var p := MatchSound(e, prices, 0, k);
    EligibleIff(universe, e[p]);
    assert QualifiedFrom(s, j.inst, j.quote.value);
  }

  /** Conversely, an instrument that passes the rules and has a quote at or
      above the minimum price is in the qualified table with that quote. */
  lemma QualifyComplete(universe: seq<Instrument>, prices: seq<Quote>, i: Instrument, q: Quote)
    requires i in universe && OnAllowedBoard(i) && NotEtf(i)
    requires q in prices && q.tsCode == i.tsCode && q.close >= MinStockPrice
    ensures exists s :: s in Qualify(Eligible(universe), prices) && QualifiedFrom(s, i, q)
  {
    var e := Eligible(universe);
    EligibleIff(universe, i);
    var joined := LeftJoin(e, prices);
    var p :| 0 <= p < |e| && e[p] == i;
    var x :| 0 <= x < |prices| && prices[x] == q;
    var k := RowOf(e, prices, 0, p, Some(x));
    PriceFilterSelects(joined);
    assert PriceAtLeastMin(joined[k]);
    assert QualifiedFrom(ToStock(joined[k]), i, q);
  }

  /** The qualified table keeps the order of the joined table. */
  lemma QualifyKeepsJoinOrder(eligible: seq<Instrument>, prices: seq<Quote>)
    ensures var joined := LeftJoin(eligible, prices);
            var r := Qualify(eligible, prices);
            && (forall k :: 0 <= k < |r| ==> r[k].index < |joined| && r[k] == ToStock(joined[r[k].index]))
            && (forall a, b :: 0 <= a < b < |r| ==> r[a].index < r[b].index)
  {
    PriceFilterKeepsOrder(LeftJoin(eligible, prices));
  }

  lemma {:induction false} SubseqTransitive<T>(a: seq<T>, b: seq<T>, c: seq<T>)
    requires Subseq(a, b) && Subseq(b, c)
    ensures Subseq(a, c)
    decreases |c|
  {
    if |a| > 0 {
      if b[0] == c[0] {
        if a[0] == b[0] {
          SubseqTransitive(a[1..], b[1..], c[1..]);
        } else {
          SubseqTransitive(a, b[1..], c[1..]);
        }
      } else {
        SubseqTransitive(a, b, c[1..]);
        if a[0] == c[0] {
          SubseqDropHead(a, c[1..]);
        }
      }
    }
  }

  /** A selection from rows labelled by position keeps each row's label as
      its position in the whole, in increasing order. */
  lemma {:induction false} LabelsOfSubseq(a: seq<Joined>, b: seq<Joined>)
    requires Subseq(a, b)
    requires |b| > 0 ==> forall k :: 0 <= k < |b| ==> b[k].index == b[0].index + k
    ensures forall k :: 0 <= k < |a| ==>
              |b| > 0 && b[0].index <= a[k].index < b[0].index + |b| && a[k] == b[a[k].index - b[0].index]
    ensures forall x, y :: 0 <= x < y < |a| ==> a[x].index < a[y].index
    decreases |b|
  {
    if |a| > 0 {
      if a[0] == b[0] {
        LabelsOfSubseq(a[1..], b[1..]);
      } else {
        LabelsOfSubseq(a, b[1..]);
      }
    }
  }

  /** Three instruments, one on an excluded board, one priced at 2.5 and one
      at 5.0: only the last qualifies. */
  lemma ThreeInstrumentExample(growth: Instrument, cheap: Instrument, good: Instrument,
                               qGrowth: Quote, qCheap: Quote, qGood: Quote)
    requires growth.market == Some("创业板")
    requires cheap.market == Some("主板") && good.market == Some("主板")
    requires NotEtf(cheap) && NotEtf(good)
    requires qGrowth.tsCode == growth.tsCode && qCheap.tsCode == cheap.tsCode && qGood.tsCode == good.tsCode
    requires growth.tsCode != cheap.tsCode && growth.tsCode != good.tsCode && cheap.tsCode != good.tsCode
    requires qCheap.close == 2.5 && qGood.close == 5.0
    ensures var r := Qualify(Eligible([growth, cheap, good]), [qGrowth, qCheap, qGood]);
            |r| == 1 && r[0].tsCode == good.tsCode && r[0].price == 5.0
  {
    EligibleExample(growth, cheap, good);
    var prices := [qGrowth, qCheap, qGood];
    OnlyQuote(cheap.tsCode, qGrowth, qCheap, qGood);
    OnlyQuote(good.tsCode, qGrowth, qGood, qCheap);
    QuotesOfThree(good.tsCode, qGrowth, qCheap, qGood);
    JoinTwo(cheap, good, prices, qCheap, qGood);
    var joined := LeftJoin([cheap, good], prices);
    PriceFilterTwo(joined);
  }

  lemma EligibleExample(growth: Instrument, cheap: Instrument, good: Instrument)
    requires !OnAllowedBoard(growth) && OnAllowedBoard(cheap) && OnAllowedBoard(good)
    requires NotEtf(cheap) && NotEtf(good)
    ensures Eligible([growth, cheap, good]) == [cheap, good]
  {
    KeepDropsFirst(growth, cheap, good, OnAllowedBoard);
    KeepCons(cheap, [good], NotEtf);
    KeepCons(good, [], NotEtf);
    assert [cheap, good] == [cheap] + [good] && [good] == [good] + [];
  }

  lemma KeepDropsFirst<T>(x: T, y: T, z: T, p: T -> bool)
    requires !p(x) && p(y) && p(z)
    ensures Keep([x, y, z], p) == [y, z]
  {
    KeepCons(x, [y, z], p);
    KeepCons(y, [z], p);
    KeepCons(z, [], p);
    assert [x, y, z] == [x] + [y, z];
    assert [y, z] == [y] + [z] && [z] == [z] + [];
  }

  /** Two instruments with one quote each join into two labelled rows. */
  lemma JoinTwo(a: Instrument, b: Instrument, prices: seq<Quote>, qa: Quote, qb: Quote)
    requires QuotesOf(a.tsCode, prices) == [qa] && QuotesOf(b.tsCode, prices) == [qb]
    ensures LeftJoin([a, b], prices) == [Joined(0, a, Some(qa)), Joined(1, b, Some(qb))]
  {
    assert JoinRows(a, prices) == [Match(a, Some(qa))];
    assert JoinRows(b, prices) == [Match(b, Some(qb))];
    assert JoinFrom([a, b], prices, 2) == [];
    assert JoinFrom([a, b], prices, 1) == [Match(b, Some(qb))];
    assert JoinFrom([a, b], prices, 0) == [Match(a, Some(qa)), Match(b, Some(qb))];
  }

  lemma PriceFilterTwo(joined: seq<Joined>)
    requires |joined| == 2 && joined[0].quote.Some? && joined[1].quote.Some?
    requires joined[0].quote.value.close == 2.5 && joined[1].quote.value.close == 5.0
    ensures PriceFilter(joined) == [ToStock(joined[1])]
  {
    assert joined == [joined[0]] + ([joined[1]] + []);
    KeepCons(joined[0], [joined[1]], HasPrice);
    KeepCons(joined[1], [], HasPrice);
    assert Keep(joined, HasPrice) == joined;
    KeepCons(joined[0], [joined[1]], PriceAtLeastMin);
    KeepCons(joined[1], [], PriceAtLeastMin);
  }

  /** With three quotes of which only `mine` carries `code`, the quotes of
      `code` are just `mine`. */
  lemma OnlyQuote(code: string, a: Quote, mine: Quote, b: Quote)
    requires a.tsCode != code && mine.tsCode == code && b.tsCode != code
    ensures QuotesOf(code, [a, mine, b]) == [mine]
  {
    var p := (q: Quote) => QuotesCode(code, q);
    KeepCons(a, [mine, b], p);
    KeepCons(mine, [b], p);
    KeepCons(b, [], p);
    assert [a, mine, b] == [a] + [mine, b];
    assert [mine, b] == [mine] + [b] && [b] == [b] + [];
  }

  lemma QuotesOfThree(code: string, a: Quote, b: Quote, c: Quote)
    requires b.tsCode != code
    ensures QuotesOf(code, [a, c, b]) == QuotesOf(code, [a, b, c])
  {
    var p := (q: Quote) => QuotesCode(code, q);
    KeepCons(a, [c, b], p);
    KeepCons(c, [b], p);
    KeepCons(b, [], p);
    KeepCons(a, [b, c], p);
    KeepCons(b, [c], p);
    KeepCons(c, [], p);
    assert [a, c, b] == [a] + [c, b] && [c, b] == [c] + [b] && [b] == [b] + [];
    assert [a, b, c] == [a] + [b, c] && [b, c] == [b] + [c] && [c] == [c] + [];
  }
}
