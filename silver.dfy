/** The silver layer: each bronze Yahoo Finance file read back, its six
    data columns renamed positionally, and the symbol, the source and the
    ingestion time appended as constant columns; one silver file per
    bronze file. */
module Silver {
  import opened Wrappers
  import opened Paths

  /** A table as pandas holds it once read: column labels and rows of cell
      texts. CSV tokenisation is not modelled: a file is its lines, each
      already split into fields. */
  datatype Table = Table(columns: seq<string>, rows: seq<seq<string>>)

  /** The exceptions the silver step can raise, by pandas' messages:
      "No columns to parse from file", "Expected n fields in line l, saw m",
      and "Length mismatch: Expected axis has n elements, new values have m
      elements". */
  datatype ReadError =
    | NoColumnsToParse
    | TooManyFields(line: nat, expected: nat, saw: nat)
    | LengthMismatch(expected: nat, got: nat)

  /** The six names assigned positionally to the bronze columns. */
  const YahooColumns: seq<string> := ["date", "close", "high", "low", "open", "volume"]

  /** The columns of every silver table, in order. */
  const SilverColumns: seq<string> := YahooColumns + ["symbol", "source", "ingestion_timestamp"]

  const YahooSource: string := "yahoo_finance"

  /** The number of leading lines `process_yahoo_finance_file` skips. */
  const SkippedLines: nat := 2

  /** Every row has one cell per column. */
  predicate WellShaped(t: Table) {
    forall i :: 0 <= i < |t.rows| ==> |t.rows[i]| == |t.columns|
  }

  /** A short row is filled with empty (missing) cells up to `n`. */
  function Pad(fields: seq<string>, n: nat): (r: seq<string>)
    requires |fields| <= n
    ensures |r| == n && r[..|fields|] == fields
    ensures forall j :: |fields| <= j < n ==> r[j] == ""
  {
    fields + seq(n - |fields|, _ => "")
  }

  // ---------------------------------------------------------------------
  // `pd.read_csv(path, skiprows=k)`

  /** The data lines, from file line `lineNo` (1-based) on, under a header of
      `n` fields: shorter lines are padded, a longer one raises. */
  function ParseRows(data: seq<seq<string>>, n: nat, lineNo: nat): (r: Result<seq<seq<string>>, ReadError>)
    ensures r.Success? <==> forall j :: 0 <= j < |data| ==> |data[j]| <= n
    ensures r.Success? ==> |r.value| == |data|
    ensures r.Success? ==> forall j :: 0 <= j < |data| ==> |data[j]| <= n && r.value[j] == Pad(data[j], n)
    ensures r.Failure? ==>
      exists j :: && 0 <= j < |data| && |data[j]| > n
                  && (forall l :: 0 <= l < j ==> |data[l]| <= n)
                  && r.error == TooManyFields(lineNo + j, n, |data[j]|)
    decreases |data|
  {
    if data == [] then Success([])
    else if |data[0]| > n then Failure(TooManyFields(lineNo, n, |data[0]|))
    else
      var rest := ParseRows(data[1..], n, lineNo + 1);
      if rest.Failure? then
        assert forall j :: 1 <= j < |data| ==> data[j] == data[1..][j - 1];
        Failure(rest.error)
      else
        assert forall j :: 1 <= j < |data| ==> data[j] == data[1..][j - 1];
        Success([Pad(data[0], n)] + rest.value)
  }

  /** `pd.read_csv(path, skiprows=skip)`: the first `skip` lines are dropped,
      the next one is the header, and every later line is a data row. */
  function ReadCsv(lines: seq<seq<string>>, skip: nat): (r: Result<Table, ReadError>)
    ensures r.Success? ==> WellShaped(r.value)
    ensures r.Success? ==> |lines| > skip && r.value.columns == lines[skip] && |r.value.rows| == |lines| - skip - 1
  {
    if |lines| <= skip then Failure(NoColumnsToParse)
    else
      var header := lines[skip];
      var rows :- ParseRows(lines[skip + 1..], |header|, skip + 2);
      Success(Table(header, rows))
  }

  // ---------------------------------------------------------------------
  // Column operations on a table value

  /** `df.columns = names`: a relabelling that keeps every value in place,
      refused when the number of names differs. */
  function Relabel(t: Table, names: seq<string>): (r: Result<Table, ReadError>)
    ensures r.Success? <==> |names| == |t.columns|
    ensures r.Success? ==> r.value.columns == names && r.value.rows == t.rows
    ensures r.Failure? ==> r.error == LengthMismatch(|t.columns|, |names|)
  {
    if |names| != |t.columns| then Failure(LengthMismatch(|t.columns|, |names|))
    else Success(Table(names, t.rows))
  }

  /** The position of the first column labelled `name`. */
  function IndexOf(columns: seq<string>, name: string): (k: nat)
    requires name in columns
    ensures k < |columns| && columns[k] == name
    ensures forall j :: 0 <= j < k ==> columns[j] != name
  {
    if columns[0] == name then 0 else 1 + IndexOf(columns[1..], name)
  }

  /** `df[name] = value` with a scalar: an existing column is overwritten in
      every row, otherwise the column is appended with `value` in every
      row. */
  function WithColumn(t: Table, name: string, value: string): (r: Table)
    requires WellShaped(t)
    ensures WellShaped(r) && |r.rows| == |t.rows|
    ensures name in r.columns
    ensures name !in t.columns ==>
      && r.columns == t.columns + [name]
      && forall i :: 0 <= i < |t.rows| ==> r.rows[i] == t.rows[i] + [value]
    ensures name in t.columns ==>
      && r.columns == t.columns
      && forall i :: 0 <= i < |t.rows| ==> r.rows[i] == t.rows[i][IndexOf(t.columns, name) := value]
  {
    if name in t.columns then
      var k := IndexOf(t.columns, name);
      Table(t.columns, seq(|t.rows|, i requires 0 <= i < |t.rows| => t.rows[i][k := value]))
    else
      Table(t.columns + [name], seq(|t.rows|, i requires 0 <= i < |t.rows| => t.rows[i] + [value]))
  }

  /** The cell of row `i` under the first column labelled `name`. */
  function Cell(t: Table, i: nat, name: string): string
    requires WellShaped(t) && i < |t.rows| && name in t.columns
  {
    t.rows[i][IndexOf(t.columns, name)]
  }

  /** After `df[name] = value` every row holds `value` under `name`, and
      every other column keeps its values. */
  lemma {:induction false} WithColumnCells(t: Table, name: string, value: string, i: nat, other: string)
    requires WellShaped(t) && i < |t.rows| && other in t.columns && other != name
    ensures Cell(WithColumn(t, name, value), i, name) == value
    ensures other in WithColumn(t, name, value).columns
    ensures Cell(WithColumn(t, name, value), i, other) == Cell(t, i, other)
  {
    var r := WithColumn(t, name, value);
    if name !in t.columns {
      IndexOfPrefix(t.columns, [name], other);
      IndexOfAfter(t.columns, name);
    } else {
      assert r.columns == t.columns;
    }
  }

  lemma {:induction false} IndexOfPrefix(a: seq<string>, b: seq<string>, name: string)
    requires name in a
    ensures name in a + b && IndexOf(a + b, name) == IndexOf(a, name)
  {
    if a[0] != name {
      assert (a + b)[1..] == a[1..] + b;
      IndexOfPrefix(a[1..], b, name);
    }
  }

  lemma {:induction false} IndexOfAfter(a: seq<string>, name: string)
    requires name !in a
    ensures IndexOf(a + [name], name) == |a|
  {
    if a != [] {
      assert (a + [name])[1..] == a[1..] + [name];
      IndexOfAfter(a[1..], name);
    }
  }

  // ---------------------------------------------------------------------
  // One bronze file to one silver table

  /** The table `process_yahoo_finance_file` returns for the file at `path`
      with the given lines, stamped with `now`. */
  function YahooToSilver(path: string, lines: seq<seq<string>>, now: string): Result<Table, ReadError> {
    var raw :- ReadCsv(lines, SkippedLines);
    var named :- Relabel(raw, YahooColumns);
    var symbol := FirstToken(Basename(path));
    Success(WithColumn(WithColumn(WithColumn(named, "symbol", symbol), "source", YahooSource),
                       "ingestion_timestamp", now))
  }

  /** Whether the bronze file can be turned into a silver table: there is a
      header line after the two skipped ones, it has six fields, and no data
      line has more. */
  predicate Processable(lines: seq<seq<string>>) {
    && |lines| > SkippedLines
    && |lines[SkippedLines]| == |YahooColumns|
    && forall j :: SkippedLines < j < |lines| ==> |lines[j]| <= |YahooColumns|
  }

  lemma {:induction false} ParseRowsIndexed(lines: seq<seq<string>>, data: seq<seq<string>>, n: nat)
    requires |lines| > SkippedLines && data == lines[SkippedLines + 1..]
    ensures (forall j :: 0 <= j < |data| ==> |data[j]| <= n)
        <==> (forall j :: SkippedLines < j < |lines| ==> |lines[j]| <= n)
  {
    if forall j :: 0 <= j < |data| ==> |data[j]| <= n {
      forall j | SkippedLines < j < |lines| ensures |lines[j]| <= n {
        assert lines[j] == data[j - SkippedLines - 1];
      }
    }
  }

  /** The read of a processable file: its header and its padded data lines. */
  lemma {:induction false} ReadProcessable(lines: seq<seq<string>>)
    requires Processable(lines)
    ensures ReadCsv(lines, SkippedLines).Success?
    ensures var t := ReadCsv(lines, SkippedLines).value;
      && t.columns == lines[SkippedLines]
      && |t.rows| == |lines| - 3
      && forall j :: 0 <= j < |t.rows| ==> t.rows[j] == Pad(lines[j + 3], 6)
  {
    var data := lines[SkippedLines + 1..];
    ParseRowsIndexed(lines, data, 6);
    var parsed := ParseRows(data, 6, SkippedLines + 2);
    assert ReadCsv(lines, SkippedLines) == Success(Table(lines[SkippedLines], parsed.value));
    forall j | 0 <= j < |data| ensures parsed.value[j] == Pad(lines[j + 3], 6) {
      assert data[j] == lines[j + 3];
    }
  }

  /** The three metadata columns land after the six data columns, the same
      three values in every row. */
  lemma {:induction false} StampColumns(named: Table, symbol: string, now: string)
    requires WellShaped(named) && named.columns == YahooColumns
    ensures var t := WithColumn(WithColumn(WithColumn(named, "symbol", symbol), "source", YahooSource),
                                "ingestion_timestamp", now);
      && t.columns == SilverColumns
      && |t.rows| == |named.rows|
      && forall j :: 0 <= j < |t.rows| ==> t.rows[j] == named.rows[j] + [symbol, YahooSource, now]
  {
    assert "symbol" !in YahooColumns && "source" !in YahooColumns + ["symbol"];
    assert "ingestion_timestamp" !in YahooColumns + ["symbol", "source"];
    var t1 := WithColumn(named, "symbol", symbol);
    assert t1.columns == YahooColumns + ["symbol"];
    var t2 := WithColumn(t1, "source", YahooSource);
    assert t2.columns == YahooColumns + ["symbol", "source"];
    var t3 := WithColumn(t2, "ingestion_timestamp", now);
    forall j | 0 <= j < |t3.rows| ensures t3.rows[j] == named.rows[j] + [symbol, YahooSource, now] {
      assert t1.rows[j] == named.rows[j] + [symbol];
      assert t2.rows[j] == named.rows[j] + [symbol, YahooSource];
    }
  }

  /** The silver table exists exactly for processable files. */
  lemma {:induction false} YahooToSilverSucceeds(path: string, lines: seq<seq<string>>, now: string)
    ensures YahooToSilver(path, lines, now).Success? <==> Processable(lines)
  {
    if Processable(lines) {
      ReadProcessable(lines);
    } else if |lines| > SkippedLines {
      var n := |lines[SkippedLines]|;
      ParseRowsIndexed(lines, lines[SkippedLines + 1..], n);
    }
  }

  /** A silver table has the nine silver columns and one row per line after
      the header, each being that line's six values in their order (missing
      ones empty) followed by the symbol taken from the file name, the
      source and the time stamp. */
  lemma {:induction false} YahooToSilverShape(path: string, lines: seq<seq<string>>, now: string)
    requires Processable(lines)
    ensures YahooToSilver(path, lines, now).Success?
    ensures var t := YahooToSilver(path, lines, now).value;
      && t.columns == SilverColumns
      && |t.rows| == |lines| - 3
      && forall j :: 0 <= j < |t.rows| ==>
           t.rows[j] == Pad(lines[j + 3], 6) + [FirstToken(Basename(path)), YahooSource, now]
  {
    ReadProcessable(lines);
    var raw := ReadCsv(lines, SkippedLines).value;
    var named := Relabel(raw, YahooColumns).value;
    StampColumns(named, FirstToken(Basename(path)), now);
  }

  /** Why a bronze file is refused: no header line, then the first data
      line with more fields than the header, then a header that is not six
      fields wide. */
  lemma {:induction false} YahooToSilverErrors(path: string, lines: seq<seq<string>>, now: string)
    ensures |lines| <= SkippedLines ==> YahooToSilver(path, lines, now) == Failure(NoColumnsToParse)
    ensures |lines| > SkippedLines && (forall j :: SkippedLines < j < |lines| ==> |lines[j]| <= |lines[SkippedLines]|)
              && |lines[SkippedLines]| != 6
            ==> YahooToSilver(path, lines, now) == Failure(LengthMismatch(|lines[SkippedLines]|, 6))
    ensures |lines| > SkippedLines && (exists j :: SkippedLines < j < |lines| && |lines[j]| > |lines[SkippedLines]|)
            ==> YahooToSilver(path, lines, now).Failure? && YahooToSilver(path, lines, now).error.TooManyFields?
    ensures YahooToSilver(path, lines, now).Failure? && YahooToSilver(path, lines, now).error.TooManyFields? ==>
              var e := YahooToSilver(path, lines, now).error;
              && SkippedLines + 2 <= e.line <= |lines|
              && e.saw == |lines[e.line - 1]| > e.expected == |lines[SkippedLines]|
              && forall l :: SkippedLines < l < e.line - 1 ==> |lines[l]| <= e.expected
  {
    if |lines| > SkippedLines {
      var n := |lines[SkippedLines]|;
      ParseRowsIndexed(lines, lines[SkippedLines + 1..], n);
      var parsed := ParseRows(lines[SkippedLines + 1..], n, SkippedLines + 2);
      if parsed.Failure? {
        assert ReadCsv(lines, SkippedLines) == Failure(parsed.error);
        FirstWideLine(lines, parsed.error);
      }
    }
  }

  /** The line a failed parse of the data lines names is the first one wider
      than the header. */
  lemma {:induction false} FirstWideLine(lines: seq<seq<string>>, e: ReadError)
    requires |lines| > SkippedLines
    requires var r := ParseRows(lines[SkippedLines + 1..], |lines[SkippedLines]|, SkippedLines + 2);
      r.Failure? && r.error == e
    ensures e.TooManyFields?
    ensures SkippedLines + 2 <= e.line <= |lines|
    ensures e.saw == |lines[e.line - 1]| > e.expected == |lines[SkippedLines]|
    ensures forall l :: SkippedLines < l < e.line - 1 ==> |lines[l]| <= e.expected
  {
    var data, n := lines[SkippedLines + 1..], |lines[SkippedLines]|;
    var j :| 0 <= j < |data| && |data[j]| > n
      && (forall l :: 0 <= l < j ==> |data[l]| <= n)
      && e == TooManyFields(SkippedLines + 2 + j, n, |data[j]|);
    assert data[j] == lines[SkippedLines + 1 + j];
    forall l | SkippedLines < l < e.line - 1 ensures |lines[l]| <= e.expected {
      assert lines[l] == data[l - SkippedLines - 1];
    }
  }

  /** The `j`-th row of a silver table, field by field. */
  lemma {:induction false} SilverRow(path: string, lines: seq<seq<string>>, now: string, j: nat)
    requires Processable(lines) && j + 3 < |lines|
    ensures YahooToSilver(path, lines, now).Success?
    ensures var t := YahooToSilver(path, lines, now).value;
      && j < |t.rows| && |t.rows[j]| == 9
      && t.rows[j][..8] == Pad(lines[j + 3], 6) + [FirstToken(Basename(path)), YahooSource]
      && t.rows[j][6] == FirstToken(Basename(path)) && t.rows[j][7] == YahooSource && t.rows[j][8] == now
  {
    YahooToSilverShape(path, lines, now);
    Stamped(Pad(lines[j + 3], 6), FirstToken(Basename(path)), YahooSource, now);
  }

  lemma {:induction false} Stamped(data: seq<string>, symbol: string, source: string, now: string)
    requires |data| == 6
    ensures var r := data + [symbol, source, now];
      |r| == 9 && r[..8] == data + [symbol, source] && r[6] == symbol && r[7] == source && r[8] == now
  {
    assert (data + [symbol, source, now])[..8] == data + [symbol, source];
  }

  /** Reprocessing the same file at another time gives the same table but
      for the time stamp column. */
  lemma {:induction false} ReprocessingChangesOnlyTimestamp(path: string, lines: seq<seq<string>>, now1: string, now2: string)
    requires Processable(lines)
    ensures var t1, t2 := YahooToSilver(path, lines, now1).value, YahooToSilver(path, lines, now2).value;
      && t1.columns == t2.columns
      && |t1.rows| == |t2.rows|
      && forall j :: 0 <= j < |t1.rows| ==>
           && |t1.rows[j]| == |t2.rows[j]| == 9
           && t1.rows[j][..8] == t2.rows[j][..8] && t1.rows[j][8] == now1 && t2.rows[j][8] == now2
  {
    YahooToSilverShape(path, lines, now1);
    YahooToSilverShape(path, lines, now2);
    var t1, t2 := YahooToSilver(path, lines, now1).value, YahooToSilver(path, lines, now2).value;
    forall j | 0 <= j < |t1.rows|
      ensures |t1.rows[j]| == |t2.rows[j]| == 9
      ensures t1.rows[j][..8] == t2.rows[j][..8] && t1.rows[j][8] == now1 && t2.rows[j][8] == now2
    {
      SilverRow(path, lines, now1, j);
      SilverRow(path, lines, now2, j);
    }
  }

  // ---------------------------------------------------------------------
  // File names

  /** `[f for f in os.listdir(dir) if f.endswith('.csv')]`, in listing order. */
  function CsvNames(listing: seq<string>): (r: seq<string>)
    ensures |r| <= |listing|
    ensures forall f :: f in r <==> f in listing && EndsWith(f, ".csv")
  {
    if listing == [] then []
    else
      var init := listing[..|listing| - 1];
      var f := listing[|listing| - 1];
      assert forall g :: g in listing <==> g in init || g == f;
      CsvNames(init) + (if EndsWith(f, ".csv") then [f] else [])
  }

  /** Filtering a listing that grows keeps the earlier selection in front:
      files are taken in listing order. */
  lemma {:induction false} CsvNamesAppend(a: seq<string>, b: seq<string>)
    ensures CsvNames(a + b) == CsvNames(a) + CsvNames(b)
    decreases |b|
  {
    if b == [] {
      assert a + b == a;
    } else {
      var ab := a + b;
      assert ab[..|ab| - 1] == a + b[..|b| - 1] && ab[|ab| - 1] == b[|b| - 1];
      CsvNamesSnoc(ab);
      CsvNamesSnoc(b);
      CsvNamesAppend(a, b[..|b| - 1]);
    }
  }

  lemma {:induction false} CsvNamesSnoc(listing: seq<string>)
    requires listing != []
    ensures var f := listing[|listing| - 1];
      CsvNames(listing) == CsvNames(listing[..|listing| - 1]) + (if EndsWith(f, ".csv") then [f] else [])
  {
  }

  /** `f"{symbol}_silver_{timestamp}.csv"` */
  function SilverFileName(symbol: string, timestamp: string): string {
    symbol + "_silver_" + timestamp + ".csv"
  }

  /** Taking the text before the first '_' of a silver file name gives the
      symbol back, provided the symbol holds no '_'. */
  lemma {:induction false} SilverFileNameRoundTrip(symbol: string, timestamp: string)
    requires '_' !in symbol
    ensures FirstToken(SilverFileName(symbol, timestamp)) == symbol
  {
    assert SilverFileName(symbol, timestamp) == symbol + "_" + ("silver_" + timestamp + ".csv");
    FirstTokenOfJoined(symbol, "silver_" + timestamp + ".csv");
  }

  /** A silver file written to disk: where, and what. */
  datatype SilverFile = SilverFile(path: string, table: Table)

  function PathsOf(files: seq<SilverFile>): seq<string> {
    seq(|files|, i requires 0 <= i < |files| => files[i].path)
  }

  lemma {:induction false} PathsOfSnoc(files: seq<SilverFile>, f: SilverFile)
    ensures PathsOf(files + [f]) == PathsOf(files) + [f.path]
  {
    assert forall k :: 0 <= k < |files| ==> (files + [f])[k] == files[k];
  }

  // ---------------------------------------------------------------------
  // A pandas frame mutated in place

  /** The frame `process_yahoo_finance_file` reads and then changes in
      place. */
  class DataFrame {
    var columns: seq<string>
    var rows: seq<seq<string>>

    function Value(): Table
      reads this
    {
      Table(columns, rows)
    }

    predicate Valid()
      reads this
    {
      WellShaped(Value())
    }

    constructor (t: Table)
      requires WellShaped(t)
      ensures Valid() && Value() == t
    {
      columns := t.columns;
      rows := t.rows;
    }

    /** `df.columns = names`: raises, leaving the frame as it was, when the
        number of names differs from the number of columns. */
    method SetColumns(names: seq<string>) returns (err: Option<ReadError>)
      requires Valid()
      modifies this
      ensures Valid()
      ensures err.None? <==> |names| == |old(columns)|
      ensures err.None? ==> Success(Value()) == Relabel(old(Value()), names)
      ensures err.Some? ==> Failure(err.value) == Relabel(old(Value()), names) && unchanged(this)
    {
      if |names| != |columns| {
        return Some(LengthMismatch(|columns|, |names|));
      }
      columns := names;
      return None;
    }

    /** `df[name] = value` with a scalar value. */
    method AddColumn(name: string, value: string)
      requires Valid()
      modifies this
      ensures Valid()
      ensures Value() == WithColumn(old(Value()), name, value)
    {
      var t := WithColumn(Value(), name, value);
      columns := t.columns;
      rows := t.rows;
    }
  }

  // ---------------------------------------------------------------------
  // The silver processor

  class SilverDataProcessor {
    const bronzePath: string
    const silverPath: string

    constructor (bronzePath: string := "data/bronze", silverPath: string := "data/silver")
      ensures this.bronzePath == bronzePath && this.silverPath == silverPath
    {
      this.bronzePath := bronzePath;
      this.silverPath := silverPath;
    }

    /** The directory the Yahoo Finance bronze files are listed from. */
    function YahooBronzePath(): string {
      Join(bronzePath, "yahoo_finance")
    }

    /** `process_yahoo_finance_file`: the frame is read, renamed and
        extended in place; the result is its final value. */
    method ProcessYahooFinanceFile(bronzeFilePath: string, lines: seq<seq<string>>, now: string)
      returns (r: Result<Table, ReadError>)
      ensures r == YahooToSilver(bronzeFilePath, lines, now)
      ensures r.Success? <==> Processable(lines)
      ensures r.Success? ==> r.value.columns == SilverColumns && |r.value.rows| == |lines| - 3
    {
      YahooToSilverSucceeds(bronzeFilePath, lines, now);
      if Processable(lines) {
        YahooToSilverShape(bronzeFilePath, lines, now);
      }
      var read := ReadCsv(lines, SkippedLines);
      if read.Failure? {
        return Failure(read.error);
      }
      var rawData := new DataFrame(read.value);
      var err := rawData.SetColumns(YahooColumns);
      if err.Some? {
        return Failure(err.value);
      }
      var filename := Basename(bronzeFilePath);
      var symbol := FirstToken(filename);
      rawData.AddColumn("symbol", symbol);
      rawData.AddColumn("source", YahooSource);
      rawData.AddColumn("ingestion_timestamp", now);
      return Success(rawData.Value());
    }

    /** `save_to_silver`: the path the table is written to. */
    function SilverFilePath(symbol: string, timestamp: string): string {
      Join(silverPath, SilverFileName(symbol, timestamp))
    }

    /** The silver table for the `i`-th selected bronze file name. */
    function Converted(name: string, contents: string -> seq<seq<string>>, now: string): Result<Table, ReadError> {
      YahooToSilver(Join(YahooBronzePath(), name), contents(Join(YahooBronzePath(), name)), now)
    }

    /** The silver file saved for the bronze file `name`: its table is the
        conversion stamped `now`, its path is built from the symbol the
        name starts with and the save time `savedTs`. */
    predicate SavedAs(f: SilverFile, name: string, contents: string -> seq<seq<string>>, now: string, savedTs: string) {
      var converted := Converted(name, contents, now);
      converted.Success? && f == SilverFile(SilverFilePath(FirstToken(name), savedTs), converted.value)
    }

    /** Saving one more file keeps every file saved so far as it was. */
    lemma {:induction false} SavedAsSnoc(written: seq<SilverFile>, saved: SilverFile, files: seq<string>,
                                         contents: string -> seq<seq<string>>, ingestedAt: nat -> string,
                                         savedAt: nat -> string)
      requires |written| < |files|
      requires forall k :: 0 <= k < |written| ==> SavedAs(written[k], files[k], contents, ingestedAt(k), savedAt(k))
      requires SavedAs(saved, files[|written|], contents, ingestedAt(|written|), savedAt(|written|))
      ensures forall k :: 0 <= k < |written| + 1 ==>
        SavedAs((written + [saved])[k], files[k], contents, ingestedAt(k), savedAt(k))
    {
      forall k | 0 <= k < |written| + 1
        ensures SavedAs((written + [saved])[k], files[k], contents, ingestedAt(k), savedAt(k))
      {
        if k < |written| {
          assert (written + [saved])[k] == written[k];
        }
      }
    }

    /** `process_all_bronze_files`: every '.csv' name of the listing, in
        order, is converted and saved; the first file that raises ends the
        run, with the files saved before it left in place. `contents` gives
        the lines of a file, `ingestedAt(i)` and `savedAt(i)` the two clock
        readings taken for the `i`-th file. */
    method ProcessAllBronzeFiles(listing: seq<string>, contents: string -> seq<seq<string>>,
                                 ingestedAt: nat -> string, savedAt: nat -> string)
      returns (outcome: Result<seq<string>, ReadError>, written: seq<SilverFile>)
      ensures var files := CsvNames(listing);
        && |written| <= |files|
        && (forall i :: 0 <= i < |written| ==> SavedAs(written[i], files[i], contents, ingestedAt(i), savedAt(i)))
        && (outcome.Success? ==> |written| == |files| && outcome.value == PathsOf(written))
        && (outcome.Failure? ==>
              && |written| < |files|
              && Converted(files[|written|], contents, ingestedAt(|written|)) == Failure(outcome.error))
    {
      var yahooBronzePath := YahooBronzePath();
      var silverFiles: seq<string> := [];
      written := [];
      var bronzeFiles := CsvNames(listing);
      for i := 0 to |bronzeFiles|
        invariant |written| == i && silverFiles == PathsOf(written)
        invariant forall k :: 0 <= k < i ==> SavedAs(written[k], bronzeFiles[k], contents, ingestedAt(k), savedAt(k))
      {
        var bronzeFile := bronzeFiles[i];
        var bronzeFilePath := Join(yahooBronzePath, bronzeFile);
        var cleanData := ProcessYahooFinanceFile(bronzeFilePath, contents(bronzeFilePath), ingestedAt(i));
        assert cleanData == Converted(bronzeFile, contents, ingestedAt(i));
        if cleanData.Failure? {
          return Failure(cleanData.error), written;
        }
        var symbol := FirstToken(bronzeFile);
        var silverFile := SilverFilePath(symbol, savedAt(i));
        var saved := SilverFile(silverFile, cleanData.value);
        assert SavedAs(saved, bronzeFile, contents, ingestedAt(i), savedAt(i));
        SavedAsSnoc(written, saved, bronzeFiles, contents, ingestedAt, savedAt);
        PathsOfSnoc(written, saved);
        written := written + [saved];
        silverFiles := silverFiles + [silverFile];
      }
      return Success(silverFiles), written;
    }
  }

  /** The symbol stamped into a silver table is the one its bronze file
      name starts with: taking the base name of the joined path gives the
      listed name back. */
  lemma {:induction false} SymbolColumnMatchesFileName(p: SilverDataProcessor, name: string, lines: seq<seq<string>>, now: string)
    requires '/' !in name && Processable(lines)
    ensures var t := YahooToSilver(Join(p.YahooBronzePath(), name), lines, now).value;
      forall j :: 0 <= j < |t.rows| ==>
        |t.rows[j]| == 9 && t.rows[j][6] == FirstToken(name) && t.rows[j][7] == YahooSource
  {
    var path := Join(p.YahooBronzePath(), name);
    BasenameOfJoin(p.YahooBronzePath(), name);
    YahooToSilverShape(path, lines, now);
    var t := YahooToSilver(path, lines, now).value;
    forall j | 0 <= j < |t.rows|
      ensures |t.rows[j]| == 9 && t.rows[j][6] == FirstToken(name) && t.rows[j][7] == YahooSource
    {
      SilverRow(path, lines, now, j);
    }
  }
}
