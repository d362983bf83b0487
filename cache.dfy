/** The pickle-backed data cache: entries stamped with the time they were
    written, a 24-hour freshness window, the cache keys of the two cached
    requests, and the date normalisation applied before a daily request. */
module Cache {
  import opened SeqUtil
  import opened Bars
  import opened Universe

  /** `cache_expire_hours * 3600` seconds, in microseconds (the resolution of
      the ISO time stamps the cache stores). */
  const TtlMicros: int := 24 * 3600 * 1000000

  const QualifiedKey: string := "qualified_stocks"

  /** What a cache entry holds: the qualified table or one code's daily bars. */
  datatype Payload = QualifiedTable(stocks: seq<Stock>) | DailyTable(bars: seq<Bar>)

  /** `(cached_time, data)`: `stamp` is the writing time in microseconds. */
  datatype Entry = Entry(stamp: int, payload: Payload)

  /** An entry is used while less than 24 hours have passed since it was
      written (a clock that went backwards keeps it fresh). */
  predicate IsFresh(e: Entry, now: int) {
    now - e.stamp < TtlMicros
  }

  /** The payload a lookup of `key` at time `now` uses, if any. */
  function FreshPayload(entries: map<string, Entry>, key: string, now: int): Option<Payload> {
    if key in entries && IsFresh(entries[key], now) then Some(entries[key].payload) else None
  }

  /** `f"daily_{ts_code}_{start_date}_{end_date}"`, on the dates as passed in. */
  function DailyKey(code: string, startDate: string, endDate: string): (r: string)
    ensures |r| == 8 + |code| + |startDate| + |endDate|
    ensures r[..6] == "daily_" && r[6..6 + |code|] == code
  {
    "daily_" + code + "_" + startDate + "_" + endDate
  }

  /** The qualified table lives under its own key and daily bars under daily
      keys. */
  predicate WellTyped(entries: map<string, Entry>) {
    forall k :: k in entries ==> (entries[k].payload.QualifiedTable? <==> k == QualifiedKey)
  }

  /** The cache file's dictionary. Each request loads it, may add one entry,
      and saves it back; the object stands for the file between requests. */
  class DataCache {
    var entries: map<string, Entry>

    predicate Valid()
      reads this
    {
      WellTyped(entries)
    }

    /** No cache file yet: `load_cache` answers `{}`. */
    constructor ()
      ensures entries == map[] && Valid()
    {
      entries := map[];
    }

    /** The fresh payload under `key`, if any. */
    function Lookup(key: string, now: int): (r: Option<Payload>)
      reads this
      ensures r.Some? <==> key in entries && now - entries[key].stamp < TtlMicros
      ensures r.Some? ==> r.value == entries[key].payload
    {
      FreshPayload(entries, key, now)
    }

    /** `cache_data[key] = (now, payload)` followed by `save_cache`. */
    method Store(key: string, now: int, p: Payload)
      requires Valid()
      requires p.QualifiedTable? <==> key == QualifiedKey
      modifies this
      ensures Valid()
      ensures entries == old(entries)[key := Entry(now, p)]
    {
      entries := entries[key := Entry(now, p)];
    }
  }

  /** Writing an entry of the right kind keeps the cache well typed. */
  lemma StoreKeepsWellTyped(entries: map<string, Entry>, key: string, e: Entry)
    requires WellTyped(entries)
    requires e.payload.QualifiedTable? <==> key == QualifiedKey
    ensures WellTyped(entries[key := e])
  {
  }

  /** An entry written at `now` is fresh at once. */
  lemma StoredIsFresh(entries: map<string, Entry>, key: string, now: int, p: Payload)
    ensures FreshPayload(entries[key := Entry(now, p)], key, now) == Some(p)
  {
  }

  /** Writing one key leaves every other lookup as it was. */
  lemma StoreKeepsOtherKeys(entries: map<string, Entry>, key: string, e: Entry, other: string, now: int)
    requires other != key
    ensures FreshPayload(entries[key := e], other, now) == FreshPayload(entries, other, now)
  {
  }

  /** An entry written at `stamp` is used exactly while `now` is less than 24
      hours after it. */
  lemma FreshWindow(entries: map<string, Entry>, key: string, stamp: int, p: Payload, now: int)
    ensures FreshPayload(entries[key := Entry(stamp, p)], key, now) == Some(p) <==> now < stamp + TtlMicros
    ensures FreshPayload(entries[key := Entry(stamp, p)], key, now) == None <==> now >= stamp + TtlMicros
  {
  }

  /** No daily key is the qualified table's key. */
  lemma DailyKeyNotQualified(code: string, startDate: string, endDate: string)
    ensures DailyKey(code, startDate, endDate) != QualifiedKey
  {
    assert DailyKey(code, startDate, endDate)[0] == 'd';
    assert QualifiedKey[0] == 'q';
  }

  /** Daily keys of different requests differ, provided codes and start
      dates contain no underscore (as exchange codes and dates do not). */
  lemma {:induction false} DailyKeyInjective(c1: string, s1: string, e1: string, c2: string, s2: string, e2: string)
    requires '_' !in c1 && '_' !in c2 && '_' !in s1 && '_' !in s2
    requires DailyKey(c1, s1, e1) == DailyKey(c2, s2, e2)
    ensures c1 == c2 && s1 == s2 && e1 == e2
  {
    var t1 := c1 + "_" + (s1 + "_" + e1);
    var t2 := c2 + "_" + (s2 + "_" + e2);
    assert DailyKey(c1, s1, e1) == "daily_" + t1;
    assert DailyKey(c2, s2, e2) == "daily_" + t2;
    assert t1 == DailyKey(c1, s1, e1)[6..];
    assert t2 == DailyKey(c2, s2, e2)[6..];
    SplitAtSeparator(c1, s1 + "_" + e1, c2, s2 + "_" + e2);
    SplitAtSeparator(s1, e1, s2, e2);
  }

  /** Splitting `a + "_" + b` at the first underscore recovers `a` and `b`. */
  lemma SplitAtSeparator(a1: string, b1: string, a2: string, b2: string)
    requires '_' !in a1 && '_' !in a2
    requires a1 + "_" + b1 == a2 + "_" + b2
    ensures a1 == a2 && b1 == b2
  {
    var t := a1 + "_" + b1;
    FirstSeparator(a1, b1);
    FirstSeparator(a2, b2);
    assert |a1| == |a2|;
    assert a1 == t[..|a1|] && a2 == (a2 + "_" + b2)[..|a2|];
    assert b1 == t[|a1| + 1..] && b2 == (a2 + "_" + b2)[|a2| + 1..];
  }

  lemma FirstSeparator(a: string, b: string)
    requires '_' !in a
    ensures (a + "_" + b)[|a|] == '_'
    ensures forall i :: 0 <= i < |a| ==> (a + "_" + b)[i] != '_'
  {
    forall i | 0 <= i < |a| ensures (a + "_" + b)[i] != '_' {
      assert (a + "_" + b)[i] == a[i];
    }
  }

  // ---------------------------------------------------------------------
  // Date normalisation for the daily request

  /** `s.replace("-", "")`. */
  function RemoveDashes(s: string): (r: string)
    ensures '-' !in r
    ensures |r| <= |s|
  {
    if |s| == 0 then []
    else if s[0] == '-' then RemoveDashes(s[1..])
    else [s[0]] + RemoveDashes(s[1..])
  }

  /** `d.replace("-", "") if "-" in d else d`: "2024-01-05" becomes
      "20240105" and "20240105" is left alone. */
  function NormaliseDate(d: string): (r: string)
    ensures '-' !in r && |r| <= |d|
    ensures '-' !in d ==> r == d
  {
    if '-' in d then RemoveDashes(d) else d
  }

  predicate NotDash(c: char) {
    c != '-'
  }

  /** Normalisation deletes exactly the dashes and keeps every other
      character in order. */
  lemma {:induction false} NormaliseDeletesDashes(d: string)
    ensures NormaliseDate(d) == Keep(d, NotDash)
  {
    RemoveDashesIsKeep(d);
    if '-' !in d {
      KeepAllWhenNoDash(d);
    }
  }

  lemma {:induction false} RemoveDashesIsKeep(s: string)
    ensures RemoveDashes(s) == Keep(s, NotDash)
    decreases |s|
  {
    if |s| > 0 {
      RemoveDashesIsKeep(s[1..]);
      KeepCons(s[0], s[1..], NotDash);
      assert s == [s[0]] + s[1..];
    }
  }

  lemma {:induction false} KeepAllWhenNoDash(s: string)
    requires '-' !in s
    ensures Keep(s, NotDash) == s
    decreases |s|
  {
    if |s| > 0 {
      assert '-' !in s[1..];
      KeepAllWhenNoDash(s[1..]);
      KeepCons(s[0], s[1..], NotDash);
      assert s == [s[0]] + s[1..];
    }
  }

  /** A normalised date has no dash, normalising twice is normalising once,
      and a date without dashes is untouched. */
  lemma NormaliseDateProperties(d: string)
    ensures '-' !in NormaliseDate(d)
    ensures NormaliseDate(NormaliseDate(d)) == NormaliseDate(d)
    ensures '-' !in d ==> NormaliseDate(d) == d
  {
  }

  lemma {:induction false} RemoveDashesAppend(a: string, b: string)
    ensures RemoveDashes(a + b) == RemoveDashes(a) + RemoveDashes(b)
    decreases |a|
  {
    if |a| == 0 {
      assert a + b == b;
    } else {
      assert (a + b)[1..] == a[1..] + b;
      RemoveDashesAppend(a[1..], b);
    }
  }

  lemma {:induction false} RemoveDashesNoDash(s: string)
    requires '-' !in s
    ensures RemoveDashes(s) == s
    decreases |s|
  {
    if |s| > 0 {
      assert '-' !in s[1..];
      RemoveDashesNoDash(s[1..]);
      assert s == [s[0]] + s[1..];
    }
  }

  /** "2024-01-05" is requested as "20240105". */
  lemma NormaliseDateExample()
    ensures NormaliseDate("2024-01-05") == "20240105"
  {
    var d := "2024-01-05";
    assert d[4] == '-';
    assert d == "2024" + "-01-05";
    RemoveDashesAppend("2024", "-01-05");
    RemoveDashesNoDash("2024");
    MonthDayExample();
    JoinDigits();
  }

  lemma JoinDigits()
    ensures "2024" + "0105" == "20240105"
  {
  }

  lemma MonthDayExample()
    ensures RemoveDashes("-01-05") == "0105"
  {
    assert "-01-05" == "-" + ("01" + ("-" + "05"));
    RemoveDashesAppend("-", "01" + ("-" + "05"));
    RemoveDashesAppend("01", "-" + "05");
    RemoveDashesAppend("-", "05");
    RemoveDashesNoDash("01");
    RemoveDashesNoDash("05");
    assert "01" + "05" == "0105";
  }
}
