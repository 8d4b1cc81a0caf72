/** The static portfolio configuration: the symbols grouped by tier, their
    flattening into one list for the ingestion calls, and the fixed
    parameters of the quotes API. */
module Portfolio {

  /** One entry of the tier dictionary; Python dictionaries keep insertion
      order, so the dictionary is a sequence of entries. */
  datatype Tier = Tier(name: string, symbols: seq<string>)

  /** The configured portfolio, tiers in insertion order. */
  const AiPortfolio: seq<Tier> := [
    Tier("tier_1", ["NVDA", "MSFT", "GOOGL", "AMZN", "META", "AAPL"]),
    Tier("tier_2", ["AMD", "CRM", "ORCL"]),
    Tier("tier_3", ["PLTR", "AI", "SNOW", "MDB", "SMCI"]),
    Tier("benchmark", ["BOTZ"])
  ]

  /** The fixed parameters of the quotes API. */
  datatype ApiSettings = ApiSettings(baseUrl: string, functionName: string, timeout: nat)

  const ApiConfig: ApiSettings :=
    ApiSettings("https://www.alphavantage.co/query", "TIME_SERIES_DAILY", 10)

  /** The quotes API is queried at Alpha Vantage's endpoint for daily time
      series, with a ten-second timeout. */
  lemma {:induction false} ApiConfigValues()
    ensures ApiConfig.baseUrl == "https://www.alphavantage.co/query"
    ensures ApiConfig.functionName == "TIME_SERIES_DAILY"
    ensures ApiConfig.timeout == 10
  {
  }

  /** The number of symbols over all tiers. */
  function TotalSize(p: seq<Tier>): nat {
    if p == [] then 0 else TotalSize(p[..|p| - 1]) + |p[|p| - 1].symbols|
  }

  predicate NoDuplicates(s: seq<string>) {
    forall i, j :: 0 <= i < j < |s| ==> s[i] != s[j]
  }

  /** `[symbol for tier in portfolio.values() for symbol in tier]` */
  function AllSymbols(p: seq<Tier>): seq<string> {
    if p == [] then [] else AllSymbols(p[..|p| - 1]) + p[|p| - 1].symbols
  }

  /** The flattened list is as long as all tiers together. */
  lemma {:induction false} AllSymbolsLength(p: seq<Tier>)
    ensures |AllSymbols(p)| == TotalSize(p)
  {
    if p != [] {
      AllSymbolsLength(p[..|p| - 1]);
    }
  }

  /** Each tier appears in the flattened list as one contiguous block, in
      its own order, after the blocks of the tiers inserted before it. */
  lemma {:induction false} TierIsBlock(p: seq<Tier>, k: nat)
    requires k < |p|
    ensures TotalSize(p[..k]) + |p[k].symbols| <= |AllSymbols(p)|
    ensures AllSymbols(p)[TotalSize(p[..k]) .. TotalSize(p[..k]) + |p[k].symbols|] == p[k].symbols
  {
    var init := p[..|p| - 1];
    AllSymbolsLength(init);
    AllSymbolsLength(p[..k]);
    if k < |p| - 1 {
      TierIsBlock(init, k);
      assert init[..k] == p[..k];
    } else {
      assert init == p[..k];
    }
  }

  /** A symbol is in the flattened list exactly when some tier lists it. */
  lemma {:induction false} AllSymbolsMembership(p: seq<Tier>, s: string)
    ensures s in AllSymbols(p) <==> exists k :: 0 <= k < |p| && s in p[k].symbols
  {
    if p != [] {
      var init, last := p[..|p| - 1], p[|p| - 1].symbols;
      assert AllSymbols(p) == AllSymbols(init) + last;
      AllSymbolsMembership(init, s);
      if s in AllSymbols(p) {
        if s in last {
          assert s in p[|p| - 1].symbols;
        } else {
          var k :| 0 <= k < |init| && s in init[k].symbols;
          assert p[k] == init[k];
        }
      } else {
        forall k | 0 <= k < |p|
          ensures s !in p[k].symbols
        {
          if k < |init| {
            assert init[k] == p[k];
          }
        }
      }
    }
  }

  /** Tiers that have no repeated symbol and share no symbol flatten into a
      list without repetitions. */
  lemma {:induction false} AllSymbolsNoDuplicates(p: seq<Tier>)
    requires forall k :: 0 <= k < |p| ==> NoDuplicates(p[k].symbols)
    requires forall k, l, s :: 0 <= k < l < |p| && s in p[k].symbols ==> s !in p[l].symbols
    ensures NoDuplicates(AllSymbols(p))
  {
    if p != [] {
      var init := p[..|p| - 1];
      var last := p[|p| - 1].symbols;
      AllSymbolsNoDuplicates(init);
      var a := AllSymbols(init);
      assert AllSymbols(p) == a + last;
      forall i, j | 0 <= i < j < |a + last|
        ensures (a + last)[i] != (a + last)[j]
      {
        if i < |a| && j >= |a| {
          assert a[i] in a;
          AllSymbolsMembership(init, a[i]);
          var k :| 0 <= k < |init| && a[i] in init[k].symbols;
          assert a[i] in p[k].symbols;
          assert last[j - |a|] in last;
        } else if i >= |a| {
          assert (a + last)[i] == last[i - |a|];
        }
      }
    }
  }

  /** `ALL_SYMBOLS` for the configured portfolio: tier 1 first, then tier 2,
      tier 3 and the benchmark, each in its listed order. */
  lemma {:induction false} AiPortfolioSymbols()
    ensures AllSymbols(AiPortfolio) ==
      ["NVDA", "MSFT", "GOOGL", "AMZN", "META", "AAPL", "AMD", "CRM", "ORCL",
       "PLTR", "AI", "SNOW", "MDB", "SMCI", "BOTZ"]
  {
    var p := AiPortfolio;
    assert p[..3][..2] == p[..2] && p[..2][..1] == p[..1] && p[..1][..0] == [];
    assert AllSymbols(p[..1]) == p[0].symbols;
    assert AllSymbols(p[..2]) == p[0].symbols + p[1].symbols;
    assert AllSymbols(p[..3]) == p[0].symbols + p[1].symbols + p[2].symbols;
  }

  /** The configured portfolio flattens to fifteen symbols (6 + 3 + 5 + 1). */
  lemma {:induction false} AiPortfolioSize()
    ensures |AllSymbols(AiPortfolio)| == TotalSize(AiPortfolio) == 15
  {
    AiPortfolioSymbols();
    AllSymbolsLength(AiPortfolio);
  }

  /** The configured tiers share no symbol, so `ALL_SYMBOLS` lists every
      symbol once. */
  lemma {:induction false} AiPortfolioDistinct()
    ensures NoDuplicates(AllSymbols(AiPortfolio))
  {
    AiTiersDistinct();
    AiTiersDisjoint();
    AllSymbolsNoDuplicates(AiPortfolio);
  }

  lemma {:induction false} AiTiersDistinct()
    ensures forall k :: 0 <= k < |AiPortfolio| ==> NoDuplicates(AiPortfolio[k].symbols)
  {
    var p := AiPortfolio;
    forall k | 0 <= k < |p| ensures NoDuplicates(p[k].symbols) {
    }
  }

  lemma {:induction false} AiTiersDisjoint()
    ensures forall k, l, s :: 0 <= k < l < |AiPortfolio| && s in AiPortfolio[k].symbols ==> s !in AiPortfolio[l].symbols
  {
    var p := AiPortfolio;
    forall k, l, s | 0 <= k < l < |p| && s in p[k].symbols ensures s !in p[l].symbols {
    }
  }
}
