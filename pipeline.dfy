/** How the file names of the three layers fit together: a bronze file is
    picked up by the silver layer under its own symbol, and every silver
    file is picked up by the gold layer. */
module Pipeline {
  import opened Paths
  import opened Bronze
  import opened Silver
  import opened Gold

  /** A bronze file name passes the silver layer's '.csv' filter, and the
      silver layer saves it under the symbol it was downloaded for. */
  lemma {:induction false} BronzeNameSelectedBySilver(symbol: string, startDate: string, endDate: string, timestamp: string,
                                   listing: seq<string>)
    requires '_' !in symbol
    requires BronzeFileName(symbol, startDate, endDate, timestamp) in listing
    ensures BronzeFileName(symbol, startDate, endDate, timestamp) in CsvNames(listing)
    ensures FirstToken(BronzeFileName(symbol, startDate, endDate, timestamp)) == symbol
  {
    BronzeFileNameRoundTrip(symbol, startDate, endDate, timestamp);
  }

  /** Every file the silver layer saves in the directory the gold layer
      reads is matched by the gold layer's `*_silver_*.csv` pattern, unless
      the symbol makes the name hidden. */
  lemma {:induction false} SilverOutputIsGoldInput(s: SilverDataProcessor, g: GoldDataProcessor, listing: seq<string>,
                                symbol: string, timestamp: string)
    requires g.silverPath == s.silverPath
    requires symbol == [] || symbol[0] != '.'
    requires SilverFileName(symbol, timestamp) in listing
    ensures s.SilverFilePath(symbol, timestamp) in g.SilverFiles(listing)
  {
    SilverNamesMatch(symbol, timestamp);
    assert SilverFileName(symbol, timestamp) == symbol + "_silver_" + timestamp + ".csv";
  }

  /** A symbol without '_' keeps its identity through both file names: the
      silver file made from a bronze file carries the downloaded symbol. */
  lemma {:induction false} SymbolSurvivesFileNames(symbol: string, startDate: string, endDate: string, bronzeTs: string,
                                silverTs: string)
    requires '_' !in symbol
    ensures FirstToken(SilverFileName(FirstToken(BronzeFileName(symbol, startDate, endDate, bronzeTs)), silverTs))
            == symbol
  {
    BronzeFileNameRoundTrip(symbol, startDate, endDate, bronzeTs);
    SilverFileNameRoundTrip(symbol, silverTs);
  }
}
