/** The gold layer: all silver tables concatenated, sorted by (symbol,
    date), and extended per symbol with the daily return, the price change
    and the 3-row rolling mean of volume. */
module Gold {
  import opened Wrappers
  import opened Paths
  import opened Ordering
  import opened Series

  /** One row of a silver file as the gold layer reads it back; `date` is
      the parsed date as an ordered key. */
  datatype Row = Row(date: int, close: real, high: real, low: real, open: real, volume: real,
                     symbol: string, source: string, ingestionTimestamp: string)

  /** A row with the three metrics appended; the row itself is untouched. */
  datatype MetricRow = MetricRow(row: Row, dailyReturn: Option<real>, priceChange: Option<real>,
                                 volumeMa3d: real)

  /** The window of the rolling volume mean. */
  const VolumeWindow: nat := 3

  /** The base name `save_gold_data` uses when none is given. */
  const DefaultGoldFileName: string := "portfolio_metrics"

  datatype LoadError = NoObjectsToConcatenate

  // ---------------------------------------------------------------------
  // Loading: `pd.concat` of every silver table, in file order

  /** `pd.concat(tables, ignore_index=True)` on the rows. */
  function Concat(tables: seq<seq<Row>>): seq<Row> {
    if tables == [] then [] else Concat(tables[..|tables| - 1]) + tables[|tables| - 1]
  }

  function TotalRows(tables: seq<seq<Row>>): nat {
    if tables == [] then 0 else TotalRows(tables[..|tables| - 1]) + |tables[|tables| - 1]|
  }

  /** No row is lost or added: the combined table has as many rows as all
      files together. */
  lemma {:induction false} ConcatLength(tables: seq<seq<Row>>)
    ensures |Concat(tables)| == TotalRows(tables)
  {
    if tables != [] {
      ConcatLength(tables[..|tables| - 1]);
    }
  }

  /** The rows of file `k` appear unchanged, in their own order and with
      their duplicates, right after the rows of the files before it. */
  lemma {:induction false} ConcatBlock(tables: seq<seq<Row>>, k: nat)
    requires k < |tables|
    ensures TotalRows(tables[..k]) + |tables[k]| <= |Concat(tables)|
    ensures Concat(tables)[TotalRows(tables[..k]) .. TotalRows(tables[..k]) + |tables[k]|] == tables[k]
  {
    var init := tables[..|tables| - 1];
    ConcatLength(init);
    ConcatLength(tables[..k]);
    if k < |tables| - 1 {
      ConcatBlock(init, k);
      assert init[..k] == tables[..k];
    } else {
      assert init == tables[..k];
    }
  }

  /** `fnmatch(s, "*_silver_*")`: `s` holds "_silver_" somewhere. */
  predicate HasSilverMarker(s: string)
    decreases |s|
  {
    |s| >= 8 && (s[..8] == "_silver_" || HasSilverMarker(s[1..]))
  }

  /** The names `glob("*_silver_*.csv")` yields: the pattern matches, and a
      leading '*' never matches a hidden name. */
  predicate MatchesSilverPattern(name: string) {
    (name == [] || name[0] != '.') && EndsWith(name, ".csv") && HasSilverMarker(name[..|name| - 4])
  }

  lemma {:induction false} MarkerFound(a: string, b: string)
    ensures HasSilverMarker(a + "_silver_" + b)
    decreases |a|
  {
    var s := a + "_silver_" + b;
    if a == [] {
      assert s[..8] == "_silver_";
    } else {
      MarkerFound(a[1..], b);
      assert s[1..] == a[1..] + "_silver_" + b;
    }
  }

  /** Every name `head_silver_tail.csv` with a visible `head` matches the
      glob pattern. */
  lemma {:induction false} SilverNamesMatch(head: string, tail: string)
    requires head == [] || head[0] != '.'
    ensures MatchesSilverPattern(head + "_silver_" + tail + ".csv")
  {
    var name := head + "_silver_" + tail + ".csv";
    assert name[..|name| - 4] == head + "_silver_" + tail;
    MarkerFound(head, tail);
  }

  function ReadAll(files: seq<string>, read: string -> seq<Row>): seq<seq<Row>> {
    seq(|files|, j requires 0 <= j < |files| => read(files[j]))
  }

  // ---------------------------------------------------------------------
  // Sorting by (symbol, date)

  predicate KeyLe(a: Row, b: Row) {
    StrLt(a.symbol, b.symbol) || (a.symbol == b.symbol && a.date <= b.date)
  }

  lemma {:induction false} KeyLeTotal(a: Row, b: Row)
    ensures KeyLe(a, b) || KeyLe(b, a)
  {
    StrLtTotal(a.symbol, b.symbol);
  }

  lemma {:induction false} KeyLeTransitive(a: Row, b: Row, c: Row)
    requires KeyLe(a, b) && KeyLe(b, c)
    ensures KeyLe(a, c)
  {
    if StrLt(a.symbol, b.symbol) && StrLt(b.symbol, c.symbol) {
      StrLtTransitive(a.symbol, b.symbol, c.symbol);
    }
  }

  predicate SortedByKey(s: seq<Row>) {
    forall i, j :: 0 <= i < j < |s| ==> KeyLe(s[i], s[j])
  }

  /** Places `x` before the first row whose key is not below it. */
  function Insert(x: Row, s: seq<Row>): (r: seq<Row>)
    ensures |r| == |s| + 1
    ensures multiset(r) == multiset(s) + multiset{x}
  {
    if s == [] then [x]
    else if KeyLe(x, s[0]) then [x] + s
    else
      assert s == [s[0]] + s[1..];
      [s[0]] + Insert(x, s[1..])
  }

  lemma {:induction false} InsertSorted(x: Row, s: seq<Row>)
    requires SortedByKey(s)
    ensures SortedByKey(Insert(x, s))
  {
    if s == [] {
    } else if KeyLe(x, s[0]) {
      forall j | 0 < j < |s| + 1 ensures KeyLe(x, ([x] + s)[j]) {
        KeyLeTransitive(x, s[0], s[j - 1]);
      }
    } else {
      KeyLeTotal(x, s[0]);
      InsertSorted(x, s[1..]);
      InsertAboveHead(x, s);
      ConsSorted(s[0], Insert(x, s[1..]));
    }
  }

  /** Every row of `Insert(x, s[1..])` is a row of `s[1..]` or `x`, so none
      is below the head of a sorted `s` that `x` is not below. */
  lemma {:induction false} InsertAboveHead(x: Row, s: seq<Row>)
    requires SortedByKey(s) && s != [] && KeyLe(s[0], x)
    ensures forall j :: 0 <= j < |Insert(x, s[1..])| ==> KeyLe(s[0], Insert(x, s[1..])[j])
  {
    var t := Insert(x, s[1..]);
    forall j | 0 <= j < |t| ensures KeyLe(s[0], t[j]) {
      assert t[j] in multiset(t);
      if t[j] != x {
        assert t[j] in multiset(s[1..]);
        var m :| 0 <= m < |s[1..]| && s[1..][m] == t[j];
      }
    }
  }

  lemma {:induction false} ConsSorted(a: Row, t: seq<Row>)
    requires SortedByKey(t) && forall j :: 0 <= j < |t| ==> KeyLe(a, t[j])
    ensures SortedByKey([a] + t)
  {
    forall i, j | 0 <= i < j < |[a] + t| ensures KeyLe(([a] + t)[i], ([a] + t)[j]) {
      if i == 0 {
        assert ([a] + t)[j] == t[j - 1];
      } else {
        assert ([a] + t)[i] == t[i - 1] && ([a] + t)[j] == t[j - 1];
      }
    }
  }

  /** `df.sort_values(['symbol', 'date'])`: sorted by (symbol, date) and a
      permutation of the input rows. */
  function SortRows(s: seq<Row>): (r: seq<Row>)
    ensures |r| == |s|
    ensures SortedByKey(r)
    ensures multiset(r) == multiset(s)
  {
    if s == [] then []
    else
      assert s == [s[0]] + s[1..];
      InsertSorted(s[0], SortRows(s[1..]));
      Insert(s[0], SortRows(s[1..]))
  }

  // ---------------------------------------------------------------------
  // Per-symbol metrics

  function Closes(g: seq<Row>): seq<real> {
    seq(|g|, i requires 0 <= i < |g| => g[i].close)
  }

  function Volumes(g: seq<Row>): seq<real> {
    seq(|g|, i requires 0 <= i < |g| => g[i].volume)
  }

  function Rows(m: seq<MetricRow>): seq<Row> {
    seq(|m|, i requires 0 <= i < |m| => m[i].row)
  }

  /** The metrics of one symbol's rows, in their order: `pct_change` and
      `diff` of the closes and the rolling mean of the volumes. */
  function GroupMetrics(g: seq<Row>): (m: seq<MetricRow>)
    ensures |m| == |g|
    ensures forall i :: 0 <= i < |g| ==> m[i].row == g[i]
  {
    var dr := PctChange(Closes(g));
    var pc := Diff(Closes(g));
    var ma := RollingMean(Volumes(g), VolumeWindow);
    seq(|g|, i requires 0 <= i < |g| => MetricRow(g[i], dr[i], pc[i], ma[i]))
  }

  /** The length of the maximal run of rows at the front of `s` that share
      the first row's symbol. */
  function LeadingRun(s: seq<Row>): (k: nat)
    requires s != []
    ensures 1 <= k <= |s|
    ensures forall i :: 0 <= i < k ==> s[i].symbol == s[0].symbol
    ensures k < |s| ==> s[k].symbol != s[0].symbol
  {
    RunEnd(s, 0)
  }

  /** The end of the run of rows sharing row `j`'s symbol that starts at `j`. */
  function RunEnd(s: seq<Row>, j: nat): (e: nat)
    requires j < |s|
    ensures j < e <= |s|
    ensures forall i :: j <= i < e ==> s[i].symbol == s[j].symbol
    ensures e < |s| ==> s[e].symbol != s[j].symbol
    decreases |s| - j
  {
    if j + 1 == |s| || s[j + 1].symbol != s[j].symbol then j + 1 else RunEnd(s, j + 1)
  }

  /** `groupby('symbol')` on a table whose symbols are contiguous: each run
      of one symbol gets its metrics, and the rows stay where they are. */
  function AddMetrics(s: seq<Row>): (m: seq<MetricRow>)
    ensures |m| == |s|
    ensures forall i :: 0 <= i < |s| ==> m[i].row == s[i]
    decreases |s|
  {
    if s == [] then []
    else
      var k := LeadingRun(s);
      var head, rest := GroupMetrics(s[..k]), AddMetrics(s[k..]);
      RowsOfConcat(s, k, head, rest);
      head + rest
  }

  lemma {:induction false} RowsOfConcat(s: seq<Row>, k: nat, head: seq<MetricRow>, rest: seq<MetricRow>)
    requires k <= |s| && |head| == k && |rest| == |s| - k
    requires forall i :: 0 <= i < k ==> head[i].row == s[..k][i]
    requires forall i :: 0 <= i < |s| - k ==> rest[i].row == s[k..][i]
    ensures forall i :: 0 <= i < |s| ==> (head + rest)[i].row == s[i]
  {
    forall i | 0 <= i < |s|
      ensures (head + rest)[i].row == s[i]
    {
      if i < k {
        assert (head + rest)[i] == head[i] && s[..k][i] == s[i];
      } else {
        assert (head + rest)[i] == rest[i - k] && s[k..][i - k] == s[i];
      }
    }
  }

  /** `calculate_daily_returns`: the table sorted by (symbol, date), every
      row kept unchanged, with the three metrics added. */
  function CalculateDailyReturns(df: seq<Row>): (r: seq<MetricRow>)
    ensures |r| == |df|
    ensures SortedByKey(Rows(r))
    ensures multiset(Rows(r)) == multiset(df)
  {
    var m := AddMetrics(SortRows(df));
    assert Rows(m) == SortRows(df);
    m
  }

  // ---------------------------------------------------------------------
  // What the metrics are, position by position

  /** The row before `i` exists and has the same symbol. */
  predicate SamePrev(s: seq<Row>, i: nat) {
    0 < i < |s| && s[i - 1].symbol == s[i].symbol
  }

  /** The 1-based position of row `i` in the run of its symbol ending at `i`. */
  function RunLength(s: seq<Row>, i: nat): (n: nat)
    requires i < |s|
    ensures 1 <= n <= i + 1
  {
    if SamePrev(s, i) then RunLength(s, i - 1) + 1 else 1
  }

  lemma {:induction false} RunLengthInLeadingRun(s: seq<Row>, i: nat)
    requires s != [] && i < LeadingRun(s)
    ensures RunLength(s, i) == i + 1
  {
    if i > 0 {
      RunLengthInLeadingRun(s, i - 1);
    }
  }

  lemma {:induction false} RunLengthAfterBoundary(s: seq<Row>, k: nat, i: nat)
    requires 0 < k <= i < |s| && s[k - 1].symbol != s[k].symbol
    ensures RunLength(s, i) == RunLength(s[k..], i - k)
  {
    if i > k {
      RunLengthAfterBoundary(s, k, i - 1);
      assert SamePrev(s, i) == SamePrev(s[k..], i - k);
    }
  }

  /** What the metrics of row `i` are, by position: the price change and
      the daily return are undefined unless the previous row has the same
      symbol, and are then the absolute and the relative change of the
      close; the volume mean averages the last min(3, k) rows, k being the
      row's position in the run of its symbol. */
  predicate MetricsOfRow(s: seq<Row>, i: nat, m: MetricRow)
    requires i < |s|
  {
    && m.row == s[i]
    && m.priceChange == (if SamePrev(s, i) then Some(s[i].close - s[i - 1].close) else None)
    && m.dailyReturn == (if SamePrev(s, i) then RelativeChange(s[i - 1].close, s[i].close) else None)
    && m.volumeMa3d == Mean(Volumes(s)[i + 1 - Min(VolumeWindow, RunLength(s, i)) .. i + 1])
  }

  /** Row `i` of one symbol's metrics, by position. */
  lemma {:induction false} GroupMetricsAt(g: seq<Row>, i: nat)
    requires i < |g|
    ensures GroupMetrics(g)[i] == MetricRow(g[i],
      if i > 0 then RelativeChange(g[i - 1].close, g[i].close) else None,
      if i > 0 then Some(g[i].close - g[i - 1].close) else None,
      Mean(Volumes(g)[i + 1 - Min(VolumeWindow, i + 1) .. i + 1]))
  {
    GroupMetricsReturnAt(g, i);
    GroupMetricsChangeAt(g, i);
    GroupMetricsVolumeAt(g, i);
  }

  lemma {:induction false} GroupMetricsReturnAt(g: seq<Row>, i: nat)
    requires i < |g|
    ensures GroupMetrics(g)[i].dailyReturn == if i > 0 then RelativeChange(g[i - 1].close, g[i].close) else None
  {
    var xs := Closes(g);
    assert GroupMetrics(g)[i].dailyReturn == PctChange(xs)[i];
    assert xs[i] == g[i].close;
    assert i > 0 ==> xs[i - 1] == g[i - 1].close;
  }

  lemma {:induction false} GroupMetricsChangeAt(g: seq<Row>, i: nat)
    requires i < |g|
    ensures GroupMetrics(g)[i].priceChange == if i > 0 then Some(g[i].close - g[i - 1].close) else None
  {
    var xs := Closes(g);
    assert GroupMetrics(g)[i].priceChange == Diff(xs)[i];
    DiffAt(xs, i);
    assert xs[i] == g[i].close;
    assert i > 0 ==> xs[i - 1] == g[i - 1].close;
  }

  lemma {:induction false} GroupMetricsVolumeAt(g: seq<Row>, i: nat)
    requires i < |g|
    ensures GroupMetrics(g)[i].volumeMa3d == Mean(Volumes(g)[i + 1 - Min(VolumeWindow, i + 1) .. i + 1])
  {
    assert Window(Volumes(g), VolumeWindow, i) == Volumes(g)[i + 1 - Min(VolumeWindow, i + 1) .. i + 1];
  }

  lemma {:induction false} VolumesOfPrefix(s: seq<Row>, k: nat)
    requires k <= |s|
    ensures Volumes(s[..k]) == Volumes(s)[..k]
  {
  }

  lemma {:induction false} PrefixVolumeMean(s: seq<Row>, g: seq<Row>, i: nat)
    requires i < |g| <= |s| && g == s[..|g|]
    ensures GroupMetrics(g)[i].volumeMa3d == Mean(Volumes(s)[i + 1 - Min(VolumeWindow, i + 1) .. i + 1])
  {
    GroupMetricsVolumeAt(g, i);
    VolumesOfPrefix(s, |g|);
    SliceOfPrefix(Volumes(s), Volumes(g), i + 1 - Min(VolumeWindow, i + 1), i + 1);
  }

  lemma {:induction false} SliceOfPrefix(a: seq<real>, b: seq<real>, lo: nat, hi: nat)
    requires |b| <= |a| && b == a[..|b|] && lo <= hi <= |b|
    ensures b[lo..hi] == a[lo..hi]
  {
  }

  lemma {:induction false} PrefixChanges(s: seq<Row>, g: seq<Row>, i: nat)
    requires i < |g| <= |s| && g == s[..|g|]
    ensures GroupMetrics(g)[i].row == s[i]
    ensures GroupMetrics(g)[i].priceChange == if i > 0 then Some(s[i].close - s[i - 1].close) else None
    ensures GroupMetrics(g)[i].dailyReturn == if i > 0 then RelativeChange(s[i - 1].close, s[i].close) else None
  {
    assert g[i] == s[i] && (i > 0 ==> g[i - 1] == s[i - 1]);
    GroupMetricsReturnAt(g, i);
    GroupMetricsChangeAt(g, i);
  }

  /** The metrics of a prefix `g` of `s` are those of `s` at every position
      whose run starts at 0. */
  lemma {:induction false} PrefixMetrics(s: seq<Row>, g: seq<Row>, i: nat)
    requires i < |g| <= |s| && g == s[..|g|]
    requires RunLength(s, i) == i + 1 && (SamePrev(s, i) <==> i > 0)
    ensures MetricsOfRow(s, i, GroupMetrics(g)[i])
  {
    PrefixVolumeMean(s, g, i);
    PrefixChanges(s, g, i);
  }

  lemma {:induction false} MetricsInLeadingRun(s: seq<Row>, i: nat)
    requires s != [] && i < LeadingRun(s)
    ensures MetricsOfRow(s, i, AddMetrics(s)[i])
  {
    var k := LeadingRun(s);
    assert AddMetrics(s) == GroupMetrics(s[..k]) + AddMetrics(s[k..]);
    RunLengthInLeadingRun(s, i);
    PrefixMetrics(s, s[..k], i);
  }

  lemma {:induction false} MetricsAfterBoundary(s: seq<Row>, k: nat, i: nat, m: MetricRow)
    requires 0 < k <= i < |s| && s[k - 1].symbol != s[k].symbol
    requires MetricsOfRow(s[k..], i - k, m)
    ensures MetricsOfRow(s, i, m)
  {
    var rest := s[k..];
    RunLengthAfterBoundary(s, k, i);
    assert SamePrev(s, i) == SamePrev(rest, i - k);
    var n := Min(VolumeWindow, RunLength(s, i));
    assert Volumes(rest)[i - k + 1 - n .. i - k + 1] == Volumes(s)[i + 1 - n .. i + 1];
  }

  lemma {:induction false} AddMetricsUnfold(s: seq<Row>)
    requires s != []
    ensures AddMetrics(s) == GroupMetrics(s[..LeadingRun(s)]) + AddMetrics(s[LeadingRun(s)..])
  {
  }

  lemma {:induction false} AddMetricsAfterLeadingRun(s: seq<Row>, i: nat)
    requires s != [] && LeadingRun(s) <= i < |s|
    ensures AddMetrics(s)[i] == AddMetrics(s[LeadingRun(s)..])[i - LeadingRun(s)]
  {
    var k := LeadingRun(s);
    var whole, rest := AddMetrics(s), AddMetrics(s[k..]);
    assert whole[k..] == rest by {
      AddMetricsUnfold(s);
      ConcatSuffix(whole, GroupMetrics(s[..k]), rest);
    }
    assert whole[i] == whole[k..][i - k];
  }

  lemma {:induction false} ConcatSuffix<T>(whole: seq<T>, a: seq<T>, b: seq<T>)
    requires whole == a + b
    ensures whole[|a|..] == b
  {
  }

  /** Metrics never cross a symbol boundary: every row's metrics are those
      `MetricsOfRow` states. */
  lemma {:induction false} MetricsAt(s: seq<Row>, i: nat)
    requires i < |s|
    ensures MetricsOfRow(s, i, AddMetrics(s)[i])
    decreases |s|
  {
    var k := LeadingRun(s);
    if i < k {
      MetricsInLeadingRun(s, i);
    } else {
      MetricsAt(s[k..], i - k);
      MetricsPastLeadingRun(s, i);
    }
  }

  lemma {:induction false} MetricsPastLeadingRun(s: seq<Row>, i: nat)
    requires s != [] && LeadingRun(s) <= i < |s|
    requires MetricsOfRow(s[LeadingRun(s)..], i - LeadingRun(s), AddMetrics(s[LeadingRun(s)..])[i - LeadingRun(s)])
    ensures MetricsOfRow(s, i, AddMetrics(s)[i])
  {
    var k := LeadingRun(s);
    assert s[k - 1].symbol == s[0].symbol != s[k].symbol;
    var m := AddMetrics(s[k..])[i - k];
    MetricsAfterBoundary(s, k, i, m);
    AddMetricsAfterLeadingRun(s, i);
    assert AddMetrics(s)[i] == m;
  }

  // ---------------------------------------------------------------------
  // The same metrics as `groupby` defines them: per symbol, over all rows

  /** `df[df['symbol'] == sym]`, in table order. */
  function RowsOf(s: seq<Row>, sym: string): seq<Row> {
    if s == [] then []
    else RowsOf(s[..|s| - 1], sym) + (if s[|s| - 1].symbol == sym then [s[|s| - 1]] else [])
  }

  function MetricRowsOf(m: seq<MetricRow>, sym: string): seq<MetricRow> {
    if m == [] then []
    else MetricRowsOf(m[..|m| - 1], sym) + (if m[|m| - 1].row.symbol == sym then [m[|m| - 1]] else [])
  }

  lemma {:induction false} RowsOfAppend(a: seq<Row>, b: seq<Row>, sym: string)
    ensures RowsOf(a + b, sym) == RowsOf(a, sym) + RowsOf(b, sym)
    decreases |b|
  {
    if b != [] {
      RowsOfAppend(a, b[..|b| - 1], sym);
      assert (a + b)[..|a + b| - 1] == a + b[..|b| - 1];
    } else {
      assert a + b == a;
    }
  }

  lemma {:induction false} MetricRowsOfAppend(a: seq<MetricRow>, b: seq<MetricRow>, sym: string)
    ensures MetricRowsOf(a + b, sym) == MetricRowsOf(a, sym) + MetricRowsOf(b, sym)
    decreases |b|
  {
    if b != [] {
      MetricRowsOfAppend(a, b[..|b| - 1], sym);
      assert (a + b)[..|a + b| - 1] == a + b[..|b| - 1];
    } else {
      assert a + b == a;
    }
  }

  lemma {:induction false} RowsOfUniform(s: seq<Row>, sym: string)
    requires forall i :: 0 <= i < |s| ==> s[i].symbol == s[0].symbol
    ensures RowsOf(s, sym) == if s != [] && s[0].symbol == sym then s else []
  {
    if |s| > 1 {
      var init, last := s[..|s| - 1], s[|s| - 1];
      assert forall i :: 0 <= i < |init| ==> init[i].symbol == init[0].symbol by {
        assert forall i :: 0 <= i < |init| ==> init[i] == s[i];
      }
      RowsOfUniform(init, sym);
      SnocSplit(s);
    }
  }

  lemma {:induction false} SnocSplit<T>(s: seq<T>)
    requires s != []
    ensures s[..|s| - 1] + [s[|s| - 1]] == s
  {
  }

  lemma {:induction false} RowsOfAbsent(s: seq<Row>, sym: string)
    requires forall i :: 0 <= i < |s| ==> s[i].symbol != sym
    ensures RowsOf(s, sym) == []
  {
    if s != [] {
      RowsOfAbsent(s[..|s| - 1], sym);
    }
  }

  lemma {:induction false} MetricRowsOfUniform(m: seq<MetricRow>, sym: string)
    requires forall i :: 0 <= i < |m| ==> m[i].row.symbol == m[0].row.symbol
    ensures MetricRowsOf(m, sym) == if m != [] && m[0].row.symbol == sym then m else []
  {
    if |m| > 1 {
      var init, last := m[..|m| - 1], m[|m| - 1];
      assert forall i :: 0 <= i < |init| ==> init[i].row.symbol == init[0].row.symbol by {
        assert forall i :: 0 <= i < |init| ==> init[i] == m[i];
      }
      MetricRowsOfUniform(init, sym);
      SnocSplit(m);
    }
  }

  lemma {:induction false} MetricRowsOfAbsent(m: seq<MetricRow>, sym: string)
    requires forall i :: 0 <= i < |m| ==> m[i].row.symbol != sym
    ensures MetricRowsOf(m, sym) == []
  {
    if m != [] {
      MetricRowsOfAbsent(m[..|m| - 1], sym);
    }
  }

  /** In a sorted table the rows of one symbol are contiguous. */
  lemma {:induction false} SortedSymbolsContiguous(s: seq<Row>, j: nat, m: nat, i: nat)
    requires SortedByKey(s) && j <= m <= i < |s| && s[j].symbol == s[i].symbol
    ensures s[m].symbol == s[i].symbol
  {
    if s[m].symbol != s[i].symbol {
      assert KeyLe(s[j], s[m]) && KeyLe(s[m], s[i]);
      StrLtAsymmetric(s[m].symbol, s[i].symbol);
    }
  }

  /** In a sorted table the previous row has the same symbol exactly when
      some earlier row does: "previous row" means "previous row of the same
      symbol". */
  lemma {:induction false} SamePrevIffEarlierRowOfSymbol(s: seq<Row>, i: nat)
    requires SortedByKey(s) && i < |s|
    ensures SamePrev(s, i) <==> exists j :: 0 <= j < i && s[j].symbol == s[i].symbol
  {
    if exists j :: 0 <= j < i && s[j].symbol == s[i].symbol {
      var j :| 0 <= j < i && s[j].symbol == s[i].symbol;
      SortedSymbolsContiguous(s, j, i - 1, i);
    }
  }

  /** In a sorted table the run length of row `i` is its 1-based position
      among all rows of its symbol. */
  lemma {:induction false} RunLengthIsGroupPosition(s: seq<Row>, i: nat)
    requires SortedByKey(s) && i < |s|
    ensures RunLength(s, i) == |RowsOf(s[..i + 1], s[i].symbol)|
  {
    var sym, pre := s[i].symbol, s[..i];
    assert |RowsOf(s[..i + 1], sym)| == |RowsOf(pre, sym)| + 1 by {
      assert s[..i + 1] == pre + [s[i]];
      RowsOfAppend(pre, [s[i]], sym);
      assert RowsOf([s[i]], sym) == [s[i]] by {
        assert [s[i]][..0] == [];
      }
    }
    if SamePrev(s, i) {
      RunLengthIsGroupPosition(s, i - 1);
    } else {
      SamePrevIffEarlierRowOfSymbol(s, i);
      RowsOfAbsent(pre, sym);
    }
  }

  lemma {:induction false} LaterRunsDiffer(s: seq<Row>)
    requires SortedByKey(s) && s != []
    ensures forall j :: LeadingRun(s) <= j < |s| ==> s[j].symbol != s[0].symbol
  {
    var k := LeadingRun(s);
    forall j | k <= j < |s| ensures s[j].symbol != s[0].symbol {
      if s[j].symbol == s[0].symbol {
        SortedSymbolsContiguous(s, 0, k, j);
      }
    }
  }

  /** Filtering by symbol takes the leading run whole or not at all. */
  lemma {:induction false} RowsOfLeadingRun(s: seq<Row>, sym: string)
    requires s != []
    ensures RowsOf(s, sym) == (if sym == s[0].symbol then s[..LeadingRun(s)] else []) + RowsOf(s[LeadingRun(s)..], sym)
  {
    var k := LeadingRun(s);
    assert s == s[..k] + s[k..];
    RowsOfAppend(s[..k], s[k..], sym);
    RowsOfUniform(s[..k], sym);
  }

  lemma {:induction false} MetricRowsOfLeadingRun(s: seq<Row>, sym: string)
    requires s != []
    ensures MetricRowsOf(AddMetrics(s), sym) ==
      (if sym == s[0].symbol then GroupMetrics(s[..LeadingRun(s)]) else []) + MetricRowsOf(AddMetrics(s[LeadingRun(s)..]), sym)
  {
    var k := LeadingRun(s);
    var gm := GroupMetrics(s[..k]);
    assert AddMetrics(s) == gm + AddMetrics(s[k..]);
    MetricRowsOfAppend(gm, AddMetrics(s[k..]), sym);
    MetricRowsOfUniform(gm, sym);
  }

  /** In a sorted table no row after the leading run has its symbol. */
  lemma {:induction false} AfterLeadingRunAbsent(s: seq<Row>)
    requires SortedByKey(s) && s != []
    ensures RowsOf(s[LeadingRun(s)..], s[0].symbol) == []
    ensures MetricRowsOf(AddMetrics(s[LeadingRun(s)..]), s[0].symbol) == []
  {
    var rest := s[LeadingRun(s)..];
    LaterRunsDiffer(s);
    RowsOfAbsent(rest, s[0].symbol);
    MetricRowsOfAbsent(AddMetrics(rest), s[0].symbol);
  }

  /** For a sorted table, the metric rows of any one symbol are exactly the
      metrics of that symbol's rows taken alone: what `groupby('symbol')`
      computes. */
  lemma {:induction false} GroupByEquivalence(s: seq<Row>, sym: string)
    requires SortedByKey(s)
    ensures MetricRowsOf(AddMetrics(s), sym) == GroupMetrics(RowsOf(s, sym))
    decreases |s|
  {
    if s == [] {
      assert GroupMetrics([]) == [];
    } else if sym == s[0].symbol {
      GroupByLeadingSymbol(s);
    } else {
      var k := LeadingRun(s);
      SortedSuffix(s, k);
      GroupByEquivalence(s[k..], sym);
      RowsOfOtherSymbol(s, sym);
      MetricRowsOfOtherSymbol(s, sym);
    }
  }

  /** The rows and the metric rows of the leading symbol of a sorted table
      are its leading run and that run's metrics. */
  lemma {:induction false} GroupByLeadingSymbol(s: seq<Row>)
    requires SortedByKey(s) && s != []
    ensures MetricRowsOf(AddMetrics(s), s[0].symbol) == GroupMetrics(RowsOf(s, s[0].symbol))
  {
    var k := LeadingRun(s);
    assert RowsOf(s, s[0].symbol) == s[..k] by {
      RowsOfLeadingRun(s, s[0].symbol);
      AfterLeadingRunAbsent(s);
    }
    assert MetricRowsOf(AddMetrics(s), s[0].symbol) == GroupMetrics(s[..k]) by {
      MetricRowsOfLeadingRun(s, s[0].symbol);
      AfterLeadingRunAbsent(s);
    }
  }

  lemma {:induction false} RowsOfOtherSymbol(s: seq<Row>, sym: string)
    requires s != [] && sym != s[0].symbol
    ensures RowsOf(s, sym) == RowsOf(s[LeadingRun(s)..], sym)
  {
    RowsOfLeadingRun(s, sym);
  }

  lemma {:induction false} MetricRowsOfOtherSymbol(s: seq<Row>, sym: string)
    requires s != [] && sym != s[0].symbol
    ensures MetricRowsOf(AddMetrics(s), sym) == MetricRowsOf(AddMetrics(s[LeadingRun(s)..]), sym)
  {
    MetricRowsOfLeadingRun(s, sym);
  }

  lemma {:induction false} SortedSuffix(s: seq<Row>, k: nat)
    requires SortedByKey(s) && k <= |s|
    ensures SortedByKey(s[k..])
  {
  }

  /** `calculate_daily_returns` computes, for every symbol, the metrics of
      that symbol's rows in date order, and nothing across symbols. */
  lemma {:induction false} CalculateDailyReturnsPerSymbol(df: seq<Row>, sym: string)
    ensures MetricRowsOf(CalculateDailyReturns(df), sym) == GroupMetrics(RowsOf(SortRows(df), sym))
  {
    GroupByEquivalence(SortRows(df), sym);
  }

  // ---------------------------------------------------------------------
  // The gold processor

  class GoldDataProcessor {
    const silverPath: string
    const goldPath: string

    constructor (silverPath: string := "data/silver", goldPath: string := "data/gold")
      ensures this.silverPath == silverPath && this.goldPath == goldPath
    {
      this.silverPath := silverPath;
      this.goldPath := goldPath;
    }

    /** `glob(join(silver_path, "*_silver_*.csv"))` over the directory's
        listing, in listing order. */
    function SilverFiles(listing: seq<string>): (files: seq<string>)
      ensures |files| <= |listing|
      ensures forall f :: f in files <==> exists n :: n in listing && MatchesSilverPattern(n) && f == Join(silverPath, n)
    {
      if listing == [] then []
      else
        var init := listing[..|listing| - 1];
        var n := listing[|listing| - 1];
        assert forall m :: m in listing <==> m in init || m == n;
        SilverFiles(init) + (if MatchesSilverPattern(n) then [Join(silverPath, n)] else [])
    }

    /** `load_all_silver_data`: every silver table read and concatenated in
        file order; `pd.concat` of no table raises. */
    method LoadAllSilverData(listing: seq<string>, read: string -> seq<Row>)
      returns (r: Result<seq<Row>, LoadError>)
      ensures r.Failure? <==> SilverFiles(listing) == []
      ensures r.Failure? ==> r.error == NoObjectsToConcatenate
      ensures r.Success? ==> r.value == Concat(ReadAll(SilverFiles(listing), read))
    {
      var silverFiles := SilverFiles(listing);
      var allData: seq<seq<Row>> := [];
      for i := 0 to |silverFiles|
        invariant allData == ReadAll(silverFiles[..i], read)
      {
        allData := allData + [read(silverFiles[i])];
        assert silverFiles[..i + 1] == silverFiles[..i] + [silverFiles[i]];
      }
      assert silverFiles[..|silverFiles|] == silverFiles;
      if allData == [] {
        return Failure(NoObjectsToConcatenate);
      }
      return Success(Concat(allData));
    }

    /** The path `save_gold_data` writes the table to. */
    function GoldFilePath(timestamp: string, filename: string := DefaultGoldFileName): string {
      Join(goldPath, filename + "_" + timestamp + ".csv")
    }
  }

  /** The gold file's name is `{filename}_{timestamp}.csv` under the gold
      directory. */
  lemma {:induction false} GoldFileName(p: GoldDataProcessor, timestamp: string, filename: string)
    requires '/' !in filename && '/' !in timestamp
    ensures Basename(p.GoldFilePath(timestamp, filename)) == filename + "_" + timestamp + ".csv"
  {
    var name := filename + "_" + timestamp + ".csv";
    assert '/' !in name;
    BasenameOfJoin(p.goldPath, name);
  }

  /** Without a file name the gold file is `portfolio_metrics_{timestamp}.csv`
      under the gold directory. */
  lemma {:induction false} GoldFileNameDefault(p: GoldDataProcessor, timestamp: string)
    requires '/' !in timestamp
    ensures Basename(p.GoldFilePath(timestamp)) == "portfolio_metrics_" + timestamp + ".csv"
  {
    var default := "portfolio_metrics_" + timestamp + ".csv";
    assert DefaultGoldFileName + "_" + timestamp + ".csv" == default;
    assert '/' !in default;
    BasenameOfJoin(p.goldPath, default);
  }
}
