/** The bronze layer: raw daily prices downloaded symbol by symbol and
    written, unchanged, to one time-stamped file per symbol. The download
    and the write are an oracle that succeeds or raises; the clock is a
    parameter. */
module Bronze {
  import opened Wrappers
  import opened Paths

  /** `f"{symbol}_{start_date}_{end_date}_{timestamp}.csv"` */
  function BronzeFileName(symbol: string, startDate: string, endDate: string, timestamp: string): string {
    symbol + "_" + startDate + "_" + endDate + "_" + timestamp + ".csv"
  }

  /** Taking the text before the first '_' of a bronze file name gives the
      symbol back, provided the symbol holds no '_'. */
  lemma {:induction false} BronzeFileNameRoundTrip(symbol: string, startDate: string, endDate: string, timestamp: string)
    requires '_' !in symbol
    ensures FirstToken(BronzeFileName(symbol, startDate, endDate, timestamp)) == symbol
    ensures EndsWith(BronzeFileName(symbol, startDate, endDate, timestamp), ".csv")
  {
    var tail := startDate + "_" + endDate + "_" + timestamp + ".csv";
    assert BronzeFileName(symbol, startDate, endDate, timestamp) == symbol + "_" + tail;
    FirstTokenOfJoined(symbol, tail);
  }

  class BronzeDataIngestion {
    const dataPath: string
    /** The directories `create_directories` makes, in order. */
    const directories: seq<string>

    constructor (dataPath: string := "data/bronze")
      ensures this.dataPath == dataPath
      ensures directories == [dataPath, Join(dataPath, "yahoo_finance"), Join(dataPath, "alpha_vantage")]
    {
      this.dataPath := dataPath;
      directories := [dataPath, Join(dataPath, "yahoo_finance"), Join(dataPath, "alpha_vantage")];
    }

    /** `os.path.join(data_path, "yahoo_finance", filename)` */
    function BronzeFilePath(filename: string): string {
      Join(Join(dataPath, "yahoo_finance"), filename)
    }

    /** `ingest_yahoo_finance_data`: the symbols are handled strictly in
        order, one file each; `succeeds(i)` says whether downloading and
        writing the `i`-th symbol completes, and `clock(i)` is the time
        stamp taken for it. The first failure abandons the remaining
        symbols and gives `false`; the files written before it stay. The
        result lists the files written, in order. */
    method IngestYahooFinanceData(symbols: seq<string>, startDate: string, endDate: string,
                                  succeeds: nat -> bool, clock: nat -> string)
      returns (ok: bool, written: seq<string>)
      ensures |written| <= |symbols|
      ensures forall i :: 0 <= i < |written| ==>
        succeeds(i) && written[i] == BronzeFilePath(BronzeFileName(symbols[i], startDate, endDate, clock(i)))
      ensures ok <==> |written| == |symbols|
      ensures !ok ==> !succeeds(|written|)
    {
      written := [];
      for i := 0 to |symbols|
        invariant |written| == i
        invariant forall k :: 0 <= k < i ==>
          succeeds(k) && written[k] == BronzeFilePath(BronzeFileName(symbols[k], startDate, endDate, clock(k)))
      {
        if !succeeds(i) {
          return false, written;
        }
        var timestamp := clock(i);
        var filename := BronzeFileName(symbols[i], startDate, endDate, timestamp);
        var filepath := BronzeFilePath(filename);
        written := written + [filepath];
      }
      return true, written;
    }

    /** `ingest_alpha_vantage_data`: an unimplemented stub that returns
        `None`, neither success nor failure. */
    method IngestAlphaVantageData(symbol: string) returns (r: Option<bool>)
      ensures r == None
    {
      return None;
    }
  }

  /** The symbol is recovered from the path of its bronze file, by the same
      steps the silver layer takes: the base name, then the text before the
      first '_'. */
  lemma {:induction false} BronzePathRoundTrip(b: BronzeDataIngestion, symbol: string, startDate: string, endDate: string,
                            timestamp: string)
    requires '_' !in symbol && '/' !in symbol
    requires '/' !in startDate && '/' !in endDate && '/' !in timestamp
    ensures Basename(b.BronzeFilePath(BronzeFileName(symbol, startDate, endDate, timestamp)))
            == BronzeFileName(symbol, startDate, endDate, timestamp)
    ensures FirstToken(Basename(b.BronzeFilePath(BronzeFileName(symbol, startDate, endDate, timestamp)))) == symbol
  {
    var name := BronzeFileName(symbol, startDate, endDate, timestamp);
    assert '/' !in name;
    BasenameOfJoin(Join(b.dataPath, "yahoo_finance"), name);
    BronzeFileNameRoundTrip(symbol, startDate, endDate, timestamp);
  }
}
