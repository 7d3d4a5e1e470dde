/**
 * The dashboard's aggregation (app/dashboard/page.tsx): the seven monthly
 * buckets of the activity chart and the open-rate and month-over-month
 * figures of the stat cards.
 *
 * The query results arrive as plain inputs, `None` standing for a query
 * that reported an error. A month is a count of months (year * 12 + month
 * index, local clock). The chart keys months by their short locale name,
 * which identifies a month of the year only, so the key here is the month
 * index 0..11 and, as on the page, rows from months twelve apart land in
 * the same bucket.
 */
module Dashboard {
  import opened Wrappers
  import opened Rounding

  // ---------------------------------------------------------------- chart

  /** A row of the chart query: a sent follow-up's month and whether it was opened. */
  datatype SentRow = SentRow(sentMonth: int, isOpened: bool)

  /** A chart entry: the month key and its two counters. */
  datatype Bucket = Bucket(key: int, sent: nat, openedCount: nat)

  /** The key `toLocaleString("default", { month: "short" })` stands for. */
  function MonthKey(month: int): int {
    month % 12
  }

  /** The key of `new Date(year, month - i, 1)`, the month `i` months before `current`. */
  function TrackedKey(current: int, i: int): int {
    MonthKey(current - i)
  }

  /** Fewer than twelve months apart, two months have different keys. */
  lemma TrackedKeysDistinct(current: int, i: int, j: int)
    requires 0 <= i < j < 12
    ensures TrackedKey(current, i) != TrackedKey(current, j)
  {
    var a := current - j;
    var d := j - i;
    var q, r := a / 12, a % 12;
    assert a == 12 * q + r;
    if r + d < 12 {
      assert current - i == 12 * q + (r + d);
      assert (current - i) % 12 == r + d;
    } else {
      assert current - i == 12 * (q + 1) + (r + d - 12);
      assert (current - i) % 12 == r + d - 12;
    }
  }

  /** Where `Map.has` / `Map.get` find `key`. */
  function KeyIndex(entries: seq<Bucket>, key: int): (r: Option<nat>)
    ensures r.Some? ==> r.value < |entries| && entries[r.value].key == key
    ensures r.Some? ==> forall j | 0 <= j < r.value :: entries[j].key != key
    ensures r.None? ==> forall j | 0 <= j < |entries| :: entries[j].key != key
  {
    if entries == [] then None
    else if entries[0].key == key then Some(0)
    else
      var r := KeyIndex(entries[1..], key);
      assert forall j | 1 <= j < |entries| :: entries[j] == entries[1..][j - 1];
      if r.Some? then Some(r.value + 1) else None
  }

  /** `Map.set` on an insertion-ordered map: an existing key is updated where it is, a new key goes last. */
  function Put(entries: seq<Bucket>, b: Bucket): seq<Bucket> {
    match KeyIndex(entries, b.key)
    case Some(i) => entries[i := b]
    case None => entries + [b]
  }

  predicate DistinctKeys(entries: seq<Bucket>) {
    forall i, j | 0 <= i < j < |entries| :: entries[i].key != entries[j].key
  }

  /** Updating a key keeps every position; a new key is appended; keys stay distinct. */
  lemma PutPosition(entries: seq<Bucket>, b: Bucket)
    requires DistinctKeys(entries)
    ensures DistinctKeys(Put(entries, b))
    ensures (exists j | 0 <= j < |entries| :: entries[j].key == b.key) ==>
      |Put(entries, b)| == |entries|
      && forall j | 0 <= j < |entries| :: Put(entries, b)[j] == if entries[j].key == b.key then b else entries[j]
    ensures (forall j | 0 <= j < |entries| :: entries[j].key != b.key) ==> Put(entries, b) == entries + [b]
  {
  }

  /** The number of rows in the month keyed `key`. */
  function SentIn(rows: seq<SentRow>, key: int): nat {
    if rows == [] then 0
    else SentIn(rows[..|rows| - 1], key) + (if MonthKey(rows[|rows| - 1].sentMonth) == key then 1 else 0)
  }

  /** The number of opened rows in the month keyed `key`. */
  function OpenedIn(rows: seq<SentRow>, key: int): nat {
    if rows == [] then 0
    else
      var r := rows[|rows| - 1];
      OpenedIn(rows[..|rows| - 1], key) + (if MonthKey(r.sentMonth) == key && r.isOpened then 1 else 0)
  }

  /** The chart `getChartData` returns: the current month and the six before it, oldest first. */
  function Chart(current: int, rows: seq<SentRow>): seq<Bucket> {
    seq(7, j requires 0 <= j < 7 =>
      var k := TrackedKey(current, 6 - j);
      Bucket(k, SentIn(rows, k), OpenedIn(rows, k)))
  }

  /**
   * `getChartData` after its query: seven zero buckets, newest first, are
   * put in a map; each row in a tracked month bumps its bucket; the entries
   * are then reversed.
   */
  method ChartData(current: int, rows: seq<SentRow>) returns (chart: seq<Bucket>)
    ensures chart == Chart(current, rows)
  {
    var monthsData: seq<Bucket> := [];
    for i := 0 to 7
      invariant |monthsData| == i
      invariant forall j | 0 <= j < i :: monthsData[j] == Bucket(TrackedKey(current, j), 0, 0)
    {
      forall j | 0 <= j < i ensures monthsData[j].key != TrackedKey(current, i) {
        TrackedKeysDistinct(current, j, i);
      }
      monthsData := Put(monthsData, Bucket(TrackedKey(current, i), 0, 0));
    }
    for n := 0 to |rows|
      invariant |monthsData| == 7
      invariant forall j | 0 <= j < 7 ::
        var k := TrackedKey(current, j);
        monthsData[j] == Bucket(k, SentIn(rows[..n], k), OpenedIn(rows[..n], k))
    {
      assert rows[..n + 1][..n] == rows[..n];
      var row := rows[n];
      var key := MonthKey(row.sentMonth);
      var idx := KeyIndex(monthsData, key);
      if idx.Some? {
        var cur := monthsData[idx.value];
        forall j | 0 <= j < 7 && j != idx.value ensures monthsData[j].key != key {
          if j < idx.value { TrackedKeysDistinct(current, j, idx.value); }
          else { TrackedKeysDistinct(current, idx.value, j); }
        }
        monthsData := Put(monthsData, Bucket(key, cur.sent + 1, if row.isOpened then cur.openedCount + 1 else cur.openedCount));
      }
    }
    assert rows[..|rows|] == rows;
    chart := [];
    for j := 0 to 7
      invariant |chart| == j
      invariant forall t | 0 <= t < j :: chart[t] == monthsData[j - 1 - t]
    {
      chart := [monthsData[j]] + chart;
    }
  }

  /**
   * `getChartData`: a query that reports an error gives the empty chart;
   * otherwise the buckets are counted from the rows it returned.
   */
  method GetChartData(current: int, result: Option<seq<SentRow>>) returns (chart: seq<Bucket>)
    ensures result.None? ==> chart == []
    ensures result.Some? ==> chart == Chart(current, result.value) && |chart| == 7
  {
    if result.None? {
      return [];
    }
    chart := ChartData(current, result.value);
  }

  /**
   * Exactly seven buckets: the last is the current month, bucket `j` is the
   * month `6 - j` months back, and no two share a key.
   */
  lemma ChartBuckets(current: int, rows: seq<SentRow>)
    ensures |Chart(current, rows)| == 7
    ensures Chart(current, rows)[6].key == MonthKey(current)
    ensures forall j | 0 <= j < 7 :: Chart(current, rows)[j].key == MonthKey(current - (6 - j))
    ensures DistinctKeys(Chart(current, rows))
  {
    var c := Chart(current, rows);
    forall i, j | 0 <= i < j < 7 ensures c[i].key != c[j].key {
      TrackedKeysDistinct(current, 6 - j, 6 - i);
    }
  }

  /** With no rows every bucket is zero. */
  lemma ChartOfNoRows(current: int)
    ensures forall j | 0 <= j < 7 :: Chart(current, [])[j].sent == 0 && Chart(current, [])[j].openedCount == 0
  {
  }

  /**
   * One more row adds 1 to `sent` of the bucket of its month, and 1 to its
   * `opened` iff the row was opened; every other bucket, and every bucket
   * when its month is not tracked, stays as it was.
   */
  lemma {:induction false} ChartAddRow(current: int, rows: seq<SentRow>, r: SentRow)
    ensures forall j | 0 <= j < 7 ::
      var hit := Chart(current, rows)[j].key == MonthKey(r.sentMonth);
      && Chart(current, rows + [r])[j].key == Chart(current, rows)[j].key
      && Chart(current, rows + [r])[j].sent == Chart(current, rows)[j].sent + (if hit then 1 else 0)
      && Chart(current, rows + [r])[j].openedCount == Chart(current, rows)[j].openedCount + (if hit && r.isOpened then 1 else 0)
  {
    assert (rows + [r])[..|rows|] == rows;
  }

  lemma {:induction false} OpenedAtMostSent(rows: seq<SentRow>, key: int)
    ensures OpenedIn(rows, key) <= SentIn(rows, key)
  {
    if rows != [] {
      OpenedAtMostSent(rows[..|rows| - 1], key);
    }
  }

  /** In every bucket, `opened <= sent`. */
  lemma ChartOpenedAtMostSent(current: int, rows: seq<SentRow>)
    ensures forall j | 0 <= j < 7 :: Chart(current, rows)[j].openedCount <= Chart(current, rows)[j].sent
  {
    forall j | 0 <= j < 7 ensures Chart(current, rows)[j].openedCount <= Chart(current, rows)[j].sent {
      OpenedAtMostSent(rows, TrackedKey(current, 6 - j));
    }
  }

  function SumSent(buckets: seq<Bucket>): nat {
    if buckets == [] then 0 else buckets[0].sent + SumSent(buckets[1..])
  }

  predicate IsTracked(current: int, month: int) {
    exists i | 0 <= i < 7 :: TrackedKey(current, i) == MonthKey(month)
  }

  /** The number of rows whose month is one of the seven tracked ones. */
  function TrackedRows(current: int, rows: seq<SentRow>): (n: nat)
    ensures n <= |rows|
  {
    if rows == [] then 0
    else TrackedRows(current, rows[..|rows| - 1]) + (if IsTracked(current, rows[|rows| - 1].sentMonth) then 1 else 0)
  }

  /** Bumping the one bucket with key `k` (if any) raises the total by one, or by nothing. */
  lemma {:induction false} SumSentBump(b: seq<Bucket>, b': seq<Bucket>, k: int)
    requires |b'| == |b| && DistinctKeys(b)
    requires forall j | 0 <= j < |b| :: b'[j].key == b[j].key && b'[j].sent == b[j].sent + (if b[j].key == k then 1 else 0)
    ensures SumSent(b') == SumSent(b) + (if exists j | 0 <= j < |b| :: b[j].key == k then 1 else 0)
  {
    if b != [] {
      SumSentBump(b[1..], b'[1..], k);
      if b[0].key == k {
        assert forall j | 0 <= j < |b[1..]| :: b[1..][j].key != k by {
          forall j | 0 <= j < |b[1..]| ensures b[1..][j].key != k {
            assert b[1..][j] == b[j + 1];
          }
        }
      } else if exists j | 0 <= j < |b| :: b[j].key == k {
        var j :| 0 <= j < |b| && b[j].key == k;
        assert b[1..][j - 1].key == k;
      }
    }
  }

  /** The buckets count exactly the rows in tracked months, so they never count more rows than there are. */
  lemma {:induction false} ChartSentTotal(current: int, rows: seq<SentRow>)
    ensures SumSent(Chart(current, rows)) == TrackedRows(current, rows)
    ensures SumSent(Chart(current, rows)) <= |rows|
  {
    if rows == [] {
      assert SumSent(Chart(current, rows)) == 0 by {
        var c := Chart(current, rows);
        assert c[6..][1..] == [];
        assert SumSent(c[6..]) == 0;
        assert SumSent(c[5..]) == 0;
        assert SumSent(c[4..]) == 0;
        assert SumSent(c[3..]) == 0;
        assert SumSent(c[2..]) == 0;
        assert SumSent(c[1..]) == 0;
      }
    } else {
      var init, r := rows[..|rows| - 1], rows[|rows| - 1];
      assert rows == init + [r];
      ChartSentTotal(current, init);
      ChartAddRow(current, init, r);
      ChartBuckets(current, init);
      SumSentBump(Chart(current, init), Chart(current, rows), MonthKey(r.sentMonth));
      var c := Chart(current, init);
      if IsTracked(current, r.sentMonth) {
        var i :| 0 <= i < 7 && TrackedKey(current, i) == MonthKey(r.sentMonth);
        assert c[6 - i].key == MonthKey(r.sentMonth);
      } else {
        forall j | 0 <= j < 7 ensures c[j].key != MonthKey(r.sentMonth) {
          assert c[j].key == TrackedKey(current, 6 - j);
        }
      }
    }
  }

  // ---------------------------------------------------------------- stat cards

  /** `filter((f) => f.is_opened).length` over the `is_opened` column of a query. */
  function OpenedCount(flags: seq<bool>): nat {
    if flags == [] then 0 else OpenedCount(flags[..|flags| - 1]) + (if flags[|flags| - 1] then 1 else 0)
  }

  lemma {:induction false} OpenedCountBound(flags: seq<bool>)
    ensures OpenedCount(flags) <= |flags|
  {
    if flags != [] {
      OpenedCountBound(flags[..|flags| - 1]);
    }
  }

  lemma OpenedCountAppend(flags: seq<bool>, b: bool)
    ensures OpenedCount(flags + [b]) == OpenedCount(flags) + (if b then 1 else 0)
  {
    assert (flags + [b])[..|flags|] == flags;
  }

  /** `rows?.length || 0`: a failed query counts as no rows. */
  function RowCount(rows: Option<seq<bool>>): nat {
    if rows.Some? then |rows.value| else 0
  }

  /** The open rate of a period, unrounded: 0 without sent follow-ups, else the opened share times 100. */
  function OpenRate(rows: Option<seq<bool>>): real {
    if RowCount(rows) == 0 then 0.0
    else (OpenedCount(rows.value) as real / |rows.value| as real) * 100.0
  }

  /** The rate is a percentage, and zero exactly guards the empty period. */
  lemma OpenRateRange(rows: Option<seq<bool>>)
    ensures 0.0 <= OpenRate(rows) <= 100.0
    ensures RowCount(rows) == 0 ==> OpenRate(rows) == 0.0
    ensures RowCount(rows) > 0 ==> OpenRate(rows) * (|rows.value| as real) == (OpenedCount(rows.value) as real) * 100.0
  {
    if RowCount(rows) > 0 {
      var o, n := OpenedCount(rows.value) as real, |rows.value| as real;
      OpenedCountBound(rows.value);
      assert o / n <= 1.0 by {
        assert o <= n;
      }
    }
  }

  datatype Stats = Stats(
    clientsTotal: int,
    clientsChange: int,
    followupsTotal: int,
    followupsChange: int,
    openRateCurrent: int,
    openRateChange: int)

  /**
   * `getStats` after its five queries: the client counts (null when the
   * query failed), and the `is_opened` columns of this and last month's sent
   * follow-ups (null when the query failed).
   */
  function GetStats(
    totalClients: Option<nat>, newClientsThisMonth: Option<nat>, newClientsLastMonth: Option<nat>,
    followupsThisMonth: Option<seq<bool>>, followupsLastMonth: Option<seq<bool>>): Stats
  {
    var rateThis := OpenRate(followupsThisMonth);
    var rateLast := OpenRate(followupsLastMonth);
    Stats(
      totalClients.GetOr(0),
      newClientsThisMonth.GetOr(0) - newClientsLastMonth.GetOr(0),
      RowCount(followupsThisMonth),
      RowCount(followupsThisMonth) - RowCount(followupsLastMonth),
      Round(rateThis),
      Round(rateThis - rateLast))
  }

  /**
   * The displayed rate is a whole percentage; the rate change is the rounded
   * difference of the exact rates and lies within -100..100; the deltas
   * count a failed query as zero.
   */
  lemma StatsRanges(
    totalClients: Option<nat>, newClientsThisMonth: Option<nat>, newClientsLastMonth: Option<nat>,
    followupsThisMonth: Option<seq<bool>>, followupsLastMonth: Option<seq<bool>>)
    ensures var s := GetStats(totalClients, newClientsThisMonth, newClientsLastMonth, followupsThisMonth, followupsLastMonth);
      && 0 <= s.openRateCurrent <= 100
      && -100 <= s.openRateChange <= 100
      && (RowCount(followupsThisMonth) == 0 ==> s.openRateCurrent == 0)
      && (RowCount(followupsThisMonth) == 0 && RowCount(followupsLastMonth) == 0 ==> s.openRateChange == 0)
      && s.followupsTotal >= 0
      && s.clientsTotal == totalClients.GetOr(0)
      && s.clientsChange == newClientsThisMonth.GetOr(0) - newClientsLastMonth.GetOr(0)
      && s.followupsChange == s.followupsTotal - RowCount(followupsLastMonth)
      && s.openRateChange == Round(OpenRate(followupsThisMonth) - OpenRate(followupsLastMonth))
  {
    var a, b := OpenRate(followupsThisMonth), OpenRate(followupsLastMonth);
    OpenRateRange(followupsThisMonth);
    OpenRateRange(followupsLastMonth);
    RoundPercent(a);
    RoundMonotone(-100.0, a - b);
    RoundMonotone(a - b, 100.0);
    RoundUnique(-100.0, -100);
    RoundUnique(100.0, 100);
    RoundUnique(0.0, 0);
  }

  /**
   * The rate change is not the difference of the rounded rates: one opened
   * of three this month (33.3%, shown 33) against one of six last month
   * (16.7%, shown 17) is a change of 17, not 16.
   */
  lemma RateChangeIsNotDifferenceOfRounded()
    ensures var s := GetStats(None, None, None, Some([true, false, false]), Some([true, false, false, false, false, false]));
      && s.openRateCurrent == 33
      && Round(OpenRate(Some([true, false, false, false, false, false]))) == 17
      && s.openRateChange == 17
  {
    var t, l := [true, false, false], [true, false, false, false, false, false];
    var p1, p2, p3, p4, p5 := [true], [true, false], [true, false, false], [true, false, false, false], [true, false, false, false, false];
    OpenedCountAppend([], true);
    assert [] + [true] == p1;
    OpenedCountAppend(p1, false);
    assert p1 + [false] == p2;
    OpenedCountAppend(p2, false);
    assert p2 + [false] == p3 == t;
    OpenedCountAppend(p3, false);
    assert p3 + [false] == p4;
    OpenedCountAppend(p4, false);
    assert p4 + [false] == p5;
    OpenedCountAppend(p5, false);
    assert p5 + [false] == l;
    assert OpenedCount(t) == 1 && OpenedCount(l) == 1;
    assert OpenRate(Some(t)) == 100.0 / 3.0;
    assert (1.0 / 6.0) * 100.0 == 100.0 / 6.0;
    assert OpenRate(Some(l)) == 100.0 / 6.0;
    RoundUnique(100.0 / 3.0, 33);
    RoundUnique(100.0 / 6.0, 17);
    RoundUnique(100.0 / 3.0 - 100.0 / 6.0, 17);
  }
}
