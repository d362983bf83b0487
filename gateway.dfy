/** The two cached data requests: get_real_daily_data (one code's daily bars
    over a date range) and get_all_qualified_stocks (the qualified universe).
    Each consults the cache first, calls the data provider on a miss and
    stores only what it may store. The provider's answers and the clock are
    parameters: `now` is the clock reading of the cache lookup and `stamp`
    the later reading written into a new entry once the download is done. */
module Gateway {
  import opened SeqUtil
  import opened Bars
  import opened Universe
  import opened Cache

  /** The provider's daily-bar request `(code, start, end)`, on normalised
      dates: None when the request raises. */
  type DailySource = (string, string, string) -> Option<seq<Bar>>

  /** The provider's quote request for a batch of codes on a trade date. */
  type QuoteSource = (seq<string>, string) -> Option<seq<Quote>>

  // ---------------------------------------------------------------------
  // Daily bars

  /** What get_real_daily_data returns and the cache afterwards. */
  function DailyOutcome(entries: map<string, Entry>, code: string, startDate: string, endDate: string,
                        now: int, stamp: int, source: DailySource): (r: (seq<Bar>, map<string, Entry>))
    requires WellTyped(entries)
    ensures WellTyped(r.1)
    ensures FreshPayload(entries, DailyKey(code, startDate, endDate), now).Some? ==> r.1 == entries
    ensures r.1 == entries || (|r.0| > 0 && r.1 == entries[DailyKey(code, startDate, endDate) := Entry(stamp, DailyTable(r.0))])
  {
    var key := DailyKey(code, startDate, endDate);
    DailyKeyNotQualified(code, startDate, endDate);
    match FreshPayload(entries, key, now)
    case Some(p) => (p.bars, entries)
    case None =>
      match source(code, NormaliseDate(startDate), NormaliseDate(endDate))
      case None => ([], entries)
      case Some(bars) =>
        if |bars| == 0 then ([], entries)
        else (bars, entries[key := Entry(stamp, DailyTable(bars))])
  }

  method DailyBars(cache: DataCache, code: string, startDate: string, endDate: string,
                   now: int, stamp: int, source: DailySource) returns (bars: seq<Bar>)
    requires cache.Valid()
    modifies cache
    ensures cache.Valid()
    ensures (bars, cache.entries) == DailyOutcome(old(cache.entries), code, startDate, endDate, now, stamp, source)
  {
    var key := DailyKey(code, startDate, endDate);
    DailyKeyNotQualified(code, startDate, endDate);
    var hit := cache.Lookup(key, now);
    if hit.Some? {
      return hit.value.bars;
    }
    var start := NormaliseDate(startDate);
    var end := NormaliseDate(endDate);
    var answer := source(code, start, end);
    if answer.None? {
      return [];
    }
    if |answer.value| == 0 {
      return [];
    }
    cache.Store(key, stamp, DailyTable(answer.value));
    bars := answer.value;
  }

  /** A fresh entry answers the request: the provider is not consulted and
      the cache does not change. */
  lemma DailyHit(entries: map<string, Entry>, code: string, startDate: string, endDate: string,
                 now: int, stamp: int, source: DailySource)
    requires WellTyped(entries)
    requires FreshPayload(entries, DailyKey(code, startDate, endDate), now).Some?
    ensures var r := DailyOutcome(entries, code, startDate, endDate, now, stamp, source);
            r.1 == entries && DailyTable(r.0) == entries[DailyKey(code, startDate, endDate)].payload
  {
    DailyKeyNotQualified(code, startDate, endDate);
  }

  /** On a miss the provider is asked with dash-free dates, what it returns
      is what the caller gets, and only a non-empty answer is stored, stamped
      with the time of writing. */
  lemma DailyMiss(entries: map<string, Entry>, code: string, startDate: string, endDate: string,
                  now: int, stamp: int, source: DailySource)
    requires WellTyped(entries)
    requires FreshPayload(entries, DailyKey(code, startDate, endDate), now).None?
    ensures var answer := source(code, NormaliseDate(startDate), NormaliseDate(endDate));
            var r := DailyOutcome(entries, code, startDate, endDate, now, stamp, source);
            && r.0 == (if answer.Some? then answer.value else [])
            && r.1 == if answer.None? || |answer.value| == 0 then entries
                      else entries[DailyKey(code, startDate, endDate) := Entry(stamp, DailyTable(answer.value))]
  {
  }

  /** Only non-empty answers are stored, only under their own key. */
  lemma DailyStoresOnlyItsKey(entries: map<string, Entry>, code: string, startDate: string, endDate: string,
                              now: int, stamp: int, source: DailySource)
    requires WellTyped(entries)
    ensures var r := DailyOutcome(entries, code, startDate, endDate, now, stamp, source);
            && (|r.0| == 0 ==> r.1 == entries)
            && (forall k :: k != DailyKey(code, startDate, endDate) ==>
                  (k in r.1 <==> k in entries) && (k in entries ==> r.1[k] == entries[k]))
  {
    DailyKeyNotQualified(code, startDate, endDate);
  }

  /** After a request that returned bars, the cache holds them under the
      request's key (stamped `stamp` when they were downloaded), and asking
      again while that entry is fresh returns the same bars from the cache,
      whatever the provider would now say, without writing again. */
  lemma DailyRepeatIsStable(entries: map<string, Entry>, code: string, startDate: string, endDate: string,
                            now: int, stamp: int, source: DailySource,
                            later: int, stamp2: int, source2: DailySource)
    requires WellTyped(entries)
    ensures var first := DailyOutcome(entries, code, startDate, endDate, now, stamp, source);
            var key := DailyKey(code, startDate, endDate);
            && (|first.0| > 0 ==> key in first.1 && first.1[key].payload == DailyTable(first.0))
            && (|first.0| > 0 && FreshPayload(entries, key, now).None? ==> first.1[key].stamp == stamp)
            && (|first.0| > 0 && IsFresh(first.1[key], later) ==>
                  DailyOutcome(first.1, code, startDate, endDate, later, stamp2, source2) == first)
  {
    DailyKeyNotQualified(code, startDate, endDate);
  }

  /** Two spellings of the same range share the provider request but not the
      cache entry. */
  lemma DashedAndPlainDatesShareRequest(code: string, endDate: string)
    ensures DailyKey(code, "2024-01-05", endDate) != DailyKey(code, "20240105", endDate)
    ensures NormaliseDate("2024-01-05") == NormaliseDate("20240105")
  {
    NormaliseDateExample();
    NormaliseDateProperties("20240105");
    var k1 := DailyKey(code, "2024-01-05", endDate);
    var k2 := DailyKey(code, "20240105", endDate);
    assert k1[6 + |code| + 1 + 4] == '-';
    assert k2[6 + |code| + 1 + 4] == '0';
  }

  // ---------------------------------------------------------------------
  // The qualified universe

  /** The batched quote download of `codes` on trade date `date`. */
  function Download(codes: seq<string>, date: string, quotes: QuoteSource): Option<seq<Quote>> {
    FetchAll(batch => quotes(batch, date), Batches(codes, QuoteBatchSize))
  }

  /** Every provider request succeeded and there was at least one code to
      ask for, so the qualified table was built. */
  predicate Answered(listing: Option<seq<Instrument>>, tradeDate: Option<string>, quotes: QuoteSource) {
    && listing.Some? && tradeDate.Some?
    && |Codes(Eligible(listing.value))| > 0
    && Download(Codes(Eligible(listing.value)), tradeDate.value, quotes).Some?
  }

  /** What get_all_qualified_stocks returns and the cache afterwards.
      `listing` is the instrument table (None when that request raises) and
      `tradeDate` the trade date the calendar gives (None when it raises). */
  function QualifiedOutcome(entries: map<string, Entry>, now: int, stamp: int, listing: Option<seq<Instrument>>,
                            tradeDate: Option<string>, quotes: QuoteSource): (r: (seq<Stock>, map<string, Entry>))
    requires WellTyped(entries)
    ensures WellTyped(r.1)
    ensures FreshPayload(entries, QualifiedKey, now).Some? ==> r.1 == entries
    ensures r.1 == entries || r.1 == entries[QualifiedKey := Entry(stamp, QualifiedTable(r.0))]
  {
    match FreshPayload(entries, QualifiedKey, now)
    case Some(p) => (p.stocks, entries)
    case None =>
      if listing.None? || tradeDate.None? then ([], entries)
      else
        var eligible := Eligible(listing.value);
        var codes := Codes(eligible);
        if |codes| == 0 then ([], entries)
        else
          match Download(codes, tradeDate.value, quotes)
          case None => ([], entries)
          case Some(prices) =>
            var stocks := Qualify(eligible, prices);
            StoreKeepsWellTyped(entries, QualifiedKey, Entry(stamp, QualifiedTable(stocks)));
            (stocks, entries[QualifiedKey := Entry(stamp, QualifiedTable(stocks))])
  }

  method QualifiedStocks(cache: DataCache, now: int, stamp: int, listing: Option<seq<Instrument>>,
                         tradeDate: Option<string>, quotes: QuoteSource) returns (stocks: seq<Stock>)
    requires cache.Valid()
    modifies cache
    ensures cache.Valid()
    ensures (stocks, cache.entries) == QualifiedOutcome(old(cache.entries), now, stamp, listing, tradeDate, quotes)
  {
    var hit := cache.Lookup(QualifiedKey, now);
    if hit.Some? {
      return hit.value.stocks;
    }
    if listing.None? || tradeDate.None? {
      return [];
    }
    var eligible := Eligible(listing.value);
    var codes := Codes(eligible);
    if |codes| == 0 {
      // The quote table is never created and reading its amount column raises.
      return [];
    }
    var date := tradeDate.value;
    var prices := FetchQuotes(codes, batch => quotes(batch, date));
    if prices.None? {
      return [];
    }
    stocks := Qualify(eligible, prices.value);
    cache.Store(QualifiedKey, stamp, QualifiedTable(stocks));
  }

  /** Computed (not cached) rows come from the provider's answers: each is
      made from an instrument of the listing and a quote of the download,
      and obeys every rule of the universe. */
  lemma QualifiedMissRowsPassRules(entries: map<string, Entry>, now: int, stamp: int, listing: Option<seq<Instrument>>,
                                   tradeDate: Option<string>, quotes: QuoteSource, s: Stock)
    requires WellTyped(entries)
    requires FreshPayload(entries, QualifiedKey, now).None?
    requires s in QualifiedOutcome(entries, now, stamp, listing, tradeDate, quotes).0
    ensures listing.Some? && tradeDate.Some?
    ensures exists prices :: Download(Codes(Eligible(listing.value)), tradeDate.value, quotes) == Some(prices) &&
              exists i, q :: i in listing.value && q in prices && QualifiedFrom(s, i, q)
  {
    var eligible := Eligible(listing.value);
    var codes := Codes(eligible);
    var prices := Download(codes, tradeDate.value, quotes);
    QualifiedRowsPassRules(listing.value, prices.value, s);
  }

  /** Every failure returns an empty table and leaves the cache alone; an
      answered request returns the qualified table built from the answers and
      stores it, stamped with the time of writing, even when no stock
      qualified. */
  lemma QualifiedStoresOnSuccess(entries: map<string, Entry>, now: int, stamp: int, listing: Option<seq<Instrument>>,
                                 tradeDate: Option<string>, quotes: QuoteSource)
    requires WellTyped(entries)
    requires FreshPayload(entries, QualifiedKey, now).None?
    ensures var r := QualifiedOutcome(entries, now, stamp, listing, tradeDate, quotes);
            && (!Answered(listing, tradeDate, quotes) ==> r == ([], entries))
            && (Answered(listing, tradeDate, quotes) ==>
                  var eligible := Eligible(listing.value);
                  && r.0 == Qualify(eligible, Download(Codes(eligible), tradeDate.value, quotes).value)
                  && r.1 == entries[QualifiedKey := Entry(stamp, QualifiedTable(r.0))])
  {
  }

  /** An empty instrument list after filtering never reaches the cache. */
  lemma NoEligibleNotCached(entries: map<string, Entry>, now: int, stamp: int, listing: seq<Instrument>,
                            tradeDate: Option<string>, quotes: QuoteSource)
    requires WellTyped(entries)
    requires FreshPayload(entries, QualifiedKey, now).None?
    requires |Eligible(listing)| == 0
    ensures QualifiedOutcome(entries, now, stamp, Some(listing), tradeDate, quotes) == ([], entries)
  {
  }

  /** After a request that wrote the cache, the entry carries the time of
      writing `stamp`, and asking again within 24 hours of it returns the
      same table from the cache, whatever the provider would now answer. */
  lemma QualifiedRepeatIsStable(entries: map<string, Entry>, now: int, stamp: int,
                                listing: Option<seq<Instrument>>, tradeDate: Option<string>, quotes: QuoteSource,
                                later: int, stamp2: int,
                                listing2: Option<seq<Instrument>>, tradeDate2: Option<string>, quotes2: QuoteSource)
    requires WellTyped(entries)
    ensures var first := QualifiedOutcome(entries, now, stamp, listing, tradeDate, quotes);
            && (first.1 != entries ==> first.1[QualifiedKey] == Entry(stamp, QualifiedTable(first.0)))
            && (first.1 != entries && later - stamp < TtlMicros ==>
                  QualifiedOutcome(first.1, later, stamp2, listing2, tradeDate2, quotes2) == first)
  {
  }
}
