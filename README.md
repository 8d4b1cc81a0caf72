# Market risk analytics engine: the bronze/silver/gold pipeline in Dafny

This project models the data pipeline of the market risk analytics engine:

- **Portfolio configuration.** The portfolio is four tiers of stock symbols. `ALL_SYMBOLS` flattens them in insertion order. The quotes API settings are fixed constants.
- **Bronze layer.** `BronzeDataIngestion` downloads each symbol's daily prices in turn. It writes one file per symbol, named `{symbol}_{start}_{end}_{timestamp}.csv` under `yahoo_finance/`. The first failure ends the batch with `False`.
- **Silver layer.** `SilverDataProcessor` takes every `.csv` name of the bronze directory, in listing order. For each file it:
  - reads the file with the first two lines skipped;
  - renames the six columns positionally to `date, close, high, low, open, volume`;
  - appends `symbol` (the file name up to the first `_`), `source = "yahoo_finance"` and the ingestion time;
  - saves the result as `{symbol}_silver_{timestamp}.csv`.
- **Gold layer.** `GoldDataProcessor` concatenates every file matching `*_silver_*.csv`. It sorts the rows by (symbol, date). Then, per symbol, it adds:
  - `daily_return`, from pandas `pct_change`;
  - `price_change`, from `diff`;
  - `volume_ma_3d`, from `rolling(3, min_periods=1).mean()`.

  The result is saved as `{filename}_{timestamp}.csv`, where `filename` defaults to `portfolio_metrics`.

The modules are:

- `Wrappers`: `Option` and `Result`.
- `Paths`: POSIX `os.path.join` and `basename`, `str.split('_')[0]` and `endswith`.
- `Ordering`: Python's string order.
- `Series`: the three pandas column operations on exact reals.
- `Portfolio`, `Bronze`, `Silver` and `Gold`: one per source file.
- `Pipeline`: how the file names of the three layers connect.

The three processors are classes holding their directory paths as constant fields. Anything from outside the program becomes a parameter:

- directory listings, file contents and the download outcome;
- the clock, given per step (`clock(i)`, `savedAt(i)`);
- written files, which the methods return as results.

The silver step mutates a pandas frame in place. It is modelled as the `DataFrame` class, whose `SetColumns` and `AddColumn` methods change its `columns` and `rows` fields.

The gold grouping (`groupby('symbol')` on the sorted table) is computed over runs of consecutive rows with one symbol. `GroupByEquivalence` proves that on a sorted table this equals computing the metrics of each symbol's rows taken alone.

Two places where the code does something other than what its signature or its happy path suggests:

- `ingest_alpha_vantage_data` (`src/data/bronze_layer.py:69-80`) is annotated `-> bool` and its docstring promises a success status, but its body is `pass`, so it returns `None`. The model returns `None`.
- `load_all_silver_data` (`src/data/gold_layer.py:23-38`) with no matching file calls `pd.concat([])`, which raises "No objects to concatenate". The model returns `Failure(NoObjectsToConcatenate)`.

## Model

| member | source | states |
|---|---|---|
| Portfolio.AllSymbols | src/config/portfolio.py:14 | `ALL_SYMBOLS`: the tiers' symbol lists joined in tier order; its length, block layout, membership and freedom from repeats are the lemmas below |
| Portfolio.AllSymbolsLength | src/config/portfolio.py:14 | the flattened list is as long as all tiers together |
| Portfolio.TierIsBlock | src/config/portfolio.py:14 | each tier appears as one contiguous block, in its own order, after the tiers inserted before it |
| Portfolio.AllSymbolsMembership | src/config/portfolio.py:14 | a symbol is in `ALL_SYMBOLS` iff some tier lists it |
| Portfolio.AllSymbolsNoDuplicates | src/config/portfolio.py:14 | tiers without repeats and pairwise disjoint flatten to a list without repeats |
| Portfolio.AiPortfolioSymbols | src/config/portfolio.py:6-14 | the configured portfolio flattens to the 15 symbols tier_1, tier_2, tier_3, benchmark, in listed order |
| Portfolio.AiPortfolioSize | src/config/portfolio.py:7-14 | the configured portfolio has 6+3+5+1 = 15 symbols |
| Portfolio.AiPortfolioDistinct | src/config/portfolio.py:7-10 | the configured tiers share no symbol, so `ALL_SYMBOLS` has no duplicates |
| Portfolio.ApiConfigValues | src/config/portfolio.py:17-21 | the constant `ApiConfig`: base URL `https://www.alphavantage.co/query`, function `TIME_SERIES_DAILY`, timeout 10 |
| Paths.Join | src/data/silver_layer.py:69 | POSIX `os.path.join` of two parts: an absolute second part replaces the first, otherwise one '/' separates them; `BasenameOfJoin` states what the base name of the result is |
| Paths.EndsWith | src/data/silver_layer.py:58 | `str.endswith`; `CsvNames` selects with it and `BronzeFileNameRoundTrip` proves every bronze name ends in `.csv` |
| Paths.Basename | src/data/silver_layer.py:38 | the base name is the longest '/'-free suffix of the path |
| Paths.FirstToken | src/data/silver_layer.py:39 | `split('_')[0]` is the longest '_'-free prefix: the whole name when it has no '_' |
| Paths.BasenameOfJoin | src/data/silver_layer.py:69 | the base name of a name joined under a directory is that name, when the name holds no '/' |
| Paths.FirstTokenOfJoined | src/data/silver_layer.py:39 | splitting `head_tail` on '_' returns `head` when `head` has no '_' |
| Ordering.StrLt | src/data/gold_layer.py:52 | Python's string order: by code point from the left, a proper prefix first; the next four lemmas make it a strict total order |
| Ordering.StrLtIrreflexive | src/data/gold_layer.py:52 | no symbol sorts before itself |
| Ordering.StrLtTransitive | src/data/gold_layer.py:52 | the symbol order is transitive |
| Ordering.StrLtTotal | src/data/gold_layer.py:52 | any two distinct symbols are ordered one way or the other |
| Ordering.StrLtAsymmetric | src/data/gold_layer.py:52 | the symbol order is asymmetric |
| Series.PctChange | src/data/gold_layer.py:55 | same length; first element undefined; element i is the relative change (x[i]-x[i-1])/x[i-1], undefined after a zero |
| Series.RatioIsRelativeChange | src/data/gold_layer.py:55 | pandas' `cur/prev - 1` equals the relative change `(cur-prev)/prev` |
| Series.Diff | src/data/gold_layer.py:58 | same length; first element undefined; element i is x[i]-x[i-1] |
| Series.RollingMean | src/data/gold_layer.py:59 | same length; element i is the mean of the last min(window, i+1) values ending at i, never undefined |
| Series.Window | src/data/gold_layer.py:59 | a rolling window holds between 1 and `window` values |
| Series.ChangeIsReturnTimesPrevious | src/data/gold_layer.py:55-58 | a defined relative change times the previous value is the absolute change |
| Series.PriceChangeIsReturnTimesPrevious | src/data/gold_layer.py:55-58 | where the return is defined, `price_change[i] = daily_return[i] * close[i-1]` |
| Series.DefinedExactlyAfterNonzero | src/data/gold_layer.py:55-58 | the return is defined iff i > 0 and the previous close is nonzero; the change iff i > 0 |
| Series.SumBounds | src/data/gold_layer.py:59 | n * min <= sum <= n * max |
| Series.MeanBounds | src/data/gold_layer.py:59 | a mean lies between the minimum and the maximum of its values |
| Series.RollingMeanWithinWindow | src/data/gold_layer.py:59 | every rolling mean lies between the minimum and the maximum of its window |
| Series.RollingMeanExample | src/data/gold_layer.py:59 | volumes 10, 20, 30, 40 give means 10, 15, 20, 30 |
| Series.ReturnExample | src/data/gold_layer.py:55-58 | closes 100, 110, 99 give returns -, 0.1, -0.1 and changes -, 10, -11 |
| Gold.Concat | src/data/gold_layer.py:38 | `pd.concat(all_data, ignore_index=True)` on rows: the files' rows one after another in file order; `ConcatLength` and `ConcatBlock` state the result |
| Gold.ConcatLength | src/data/gold_layer.py:32-38 | the combined table has as many rows as all files together |
| Gold.ConcatBlock | src/data/gold_layer.py:32-38 | each file's rows appear unchanged, duplicates kept, in file order |
| Gold.MatchesSilverPattern | src/data/gold_layer.py:25 | the names `glob("*_silver_*.csv")` yields: not hidden, ending in `.csv`, holding `_silver_` before the extension; `SilverNamesMatch` shows every visible silver output matches |
| Gold.SilverNamesMatch | src/data/gold_layer.py:25 | every visible `head_silver_tail.csv` name matches the glob `*_silver_*.csv` |
| Gold.KeyLe | src/data/gold_layer.py:52 | the `sort_values(['symbol', 'date'])` key order: symbol first, date second; total and transitive by the next two lemmas |
| Gold.KeyLeTotal | src/data/gold_layer.py:52 | any two rows are ordered by (symbol, date) one way or the other |
| Gold.KeyLeTransitive | src/data/gold_layer.py:52 | the (symbol, date) order is transitive |
| Gold.Insert | src/data/gold_layer.py:52 | inserting a row adds exactly that row |
| Gold.InsertSorted | src/data/gold_layer.py:52 | inserting into a sorted table keeps it sorted |
| Gold.SortRows | src/data/gold_layer.py:52 | `sort_values(['symbol','date'])` is sorted by (symbol, date) and a permutation of its input |
| Gold.GroupMetrics | src/data/gold_layer.py:55-59 | one metric row per row of the group, each carrying its row unchanged |
| Gold.LeadingRun | src/data/gold_layer.py:55 | the maximal run of rows sharing the first row's symbol |
| Gold.AddMetrics | src/data/gold_layer.py:55-59 | one metric row per row, in place, the row itself untouched |
| Gold.CalculateDailyReturns | src/data/gold_layer.py:49-66 | row count unchanged; the rows are sorted by (symbol, date) and are a permutation of the input |
| Gold.RunLength | src/data/gold_layer.py:59 | a row's position in the run of its symbol is between 1 and i+1 |
| Gold.GroupMetricsAt | src/data/gold_layer.py:55-59 | within one symbol, row i's return, change and volume mean by position |
| Gold.MetricsAt | src/data/gold_layer.py:55-59 | metrics never cross symbols: return and change are undefined unless the previous row has the same symbol, and are then the relative and absolute change; the volume mean covers the last min(3, k) rows of the symbol |
| Gold.SamePrevIffEarlierRowOfSymbol | src/data/gold_layer.py:52-55 | in the sorted table the previous row has the same symbol iff any earlier row does |
| Gold.RunLengthIsGroupPosition | src/data/gold_layer.py:52-59 | in the sorted table the run position is the 1-based position among all rows of that symbol |
| Gold.GroupByEquivalence | src/data/gold_layer.py:55-59 | on a sorted table, one symbol's metric rows are exactly the metrics of that symbol's rows taken alone |
| Gold.CalculateDailyReturnsPerSymbol | src/data/gold_layer.py:52-59 | each symbol's output rows are the metrics of that symbol's rows in (symbol, date) order |
| Gold.GoldDataProcessor.constructor | src/data/gold_layer.py:12-14 | the processor keeps the silver and gold paths, defaulting to `data/silver` and `data/gold` |
| Gold.GoldDataProcessor.SilverFiles | src/data/gold_layer.py:25 | a path is selected iff it is the silver directory joined with a listed name that matches `*_silver_*.csv` |
| Gold.GoldDataProcessor.LoadAllSilverData | src/data/gold_layer.py:23-38 | fails iff no silver file exists; otherwise the concatenation of every file's rows in file order |
| Gold.GoldDataProcessor.GoldFilePath | src/data/gold_layer.py:68-71 | `os.path.join(gold_path, f"{filename}_{timestamp}.csv")` with `filename` defaulting to `portfolio_metrics`; its base name is stated by the next two lemmas |
| Gold.GoldFileName | src/data/gold_layer.py:68-71 | for a given file name the gold file is `{filename}_{timestamp}.csv` in the gold directory |
| Gold.GoldFileNameDefault | src/data/gold_layer.py:68-71 | without a file name the gold file is `portfolio_metrics_{timestamp}.csv` in the gold directory |
| Silver.Pad | src/data/silver_layer.py:32 | a short line keeps its fields and is filled with missing cells |
| Silver.ParseRows | src/data/silver_layer.py:32 | succeeds iff no data line is wider than the header; then one padded row per line; otherwise the error names the first wider line |
| Silver.ReadCsv | src/data/silver_layer.py:32 | the header is the line after the skipped ones; one row per later line; every row as wide as the header |
| Silver.Relabel | src/data/silver_layer.py:35 | assigning column names succeeds iff the count matches, keeps all values, else reports the length mismatch |
| Silver.WithColumn | src/data/silver_layer.py:42-44 | `df[name] = value` appends a column holding `value` in every row, or overwrites the existing one |
| Silver.WithColumnCells | src/data/silver_layer.py:42-44 | after `df[name] = value` each row reads `value` under `name` and every other column is unchanged |
| Silver.ReadProcessable | src/data/silver_layer.py:32 | a processable file reads to its header and its padded lines, `line count - 3` rows |
| Silver.StampColumns | src/data/silver_layer.py:42-44 | the three metadata columns follow the six data columns with the same values in every row |
| Silver.YahooToSilver | src/data/silver_layer.py:21-46 | the frame `process_yahoo_finance_file` returns: read with two lines skipped, relabelled positionally, symbol, source and time stamp appended; stated by the next three lemmas |
| Silver.YahooToSilverSucceeds | src/data/silver_layer.py:21-46 | a bronze file converts iff it has a six-field header after two skipped lines and no wider data line |
| Silver.YahooToSilverShape | src/data/silver_layer.py:32-46 | nine silver columns; `line count - 3` rows; each row is its line's values in order followed by symbol, source and timestamp |
| Silver.YahooToSilverErrors | src/data/silver_layer.py:32-35 | which error a refused file raises: no header line gives no columns; a data line wider than the header always gives `TooManyFields`, naming the first such line (every earlier data line fits); otherwise a header not six wide gives the length mismatch |
| Silver.ReprocessingChangesOnlyTimestamp | src/data/silver_layer.py:42-44 | converting one file at two times differs only in the timestamp column |
| Silver.CsvNames | src/data/silver_layer.py:58 | a name is selected iff it is listed and ends with `.csv` |
| Silver.CsvNamesAppend | src/data/silver_layer.py:58 | selection keeps listing order |
| Silver.SilverFileName | src/data/silver_layer.py:87 | the silver base name `{symbol}_silver_{timestamp}.csv`; `SilverFileNameRoundTrip` recovers the symbol |
| Silver.SilverFileNameRoundTrip | src/data/silver_layer.py:87 | the text before the first '_' of `{symbol}_silver_{ts}.csv` is the symbol when it has no '_' |
| Silver.DataFrame.constructor | src/data/silver_layer.py:32 | a frame starts out holding the table read |
| Silver.DataFrame.SetColumns | src/data/silver_layer.py:35 | renames in place iff the count matches; otherwise raises and leaves the frame unchanged |
| Silver.DataFrame.AddColumn | src/data/silver_layer.py:42-44 | the frame becomes the table with the column set |
| Silver.SilverDataProcessor.constructor | src/data/silver_layer.py:11-13 | the processor keeps the bronze and silver paths, defaulting to `data/bronze` and `data/silver` |
| Silver.SilverDataProcessor.ProcessYahooFinanceFile | src/data/silver_layer.py:21-46 | the in-place steps give the silver table; it exists iff the file is processable and then has nine columns and `line count - 3` rows |
| Silver.SilverDataProcessor.SilverFilePath | src/data/silver_layer.py:86-88 | the silver file path: the silver base name joined under the silver directory; `Pipeline.SilverOutputIsGoldInput` shows the gold layer selects it |
| Silver.SilverDataProcessor.ProcessAllBronzeFiles | src/data/silver_layer.py:48-92 | `.csv` files in listing order, one saved file each at `{symbol}_silver_{ts}.csv`; the first failing file ends the run with its error and the earlier files kept; on success the result lists exactly the saved paths |
| Silver.SymbolColumnMatchesFileName | src/data/silver_layer.py:38-39 | the symbol column equals the symbol the save step takes from the listed name |
| Bronze.BronzeFileName | src/data/bronze_layer.py:56 | the bronze base name `{symbol}_{start}_{end}_{timestamp}.csv`; `BronzeFileNameRoundTrip` recovers the symbol |
| Bronze.BronzeFileNameRoundTrip | src/data/bronze_layer.py:56 | the bronze name ends in `.csv` and gives back its symbol when split on '_' |
| Bronze.BronzeDataIngestion.constructor | src/data/bronze_layer.py:14-28 | the data path (default `data/bronze`) and its `yahoo_finance` and `alpha_vantage` subdirectories |
| Bronze.BronzeDataIngestion.BronzeFilePath | src/data/bronze_layer.py:57 | `os.path.join(data_path, "yahoo_finance", filename)`; `BronzePathRoundTrip` recovers the base name and the symbol |
| Bronze.BronzeDataIngestion.IngestYahooFinanceData | src/data/bronze_layer.py:35-67 | symbols in order, one file each at `yahoo_finance/{symbol}_{start}_{end}_{ts}.csv`; the written files are a prefix of the symbols; `True` iff all were processed; on `False` the next symbol failed |
| Bronze.BronzeDataIngestion.IngestAlphaVantageData | src/data/bronze_layer.py:69-80 | the stub returns `None` |
| Bronze.BronzePathRoundTrip | src/data/bronze_layer.py:55-57 | the base name of the written path is the bronze name, and the symbol is recovered from it |
| Pipeline.BronzeNameSelectedBySilver | src/data/silver_layer.py:58-75 | a listed bronze file passes the `.csv` filter and is saved under its downloaded symbol |
| Pipeline.SilverOutputIsGoldInput | src/data/gold_layer.py:25 | every visible silver file in the gold layer's silver directory is loaded by the gold layer |
| Pipeline.SymbolSurvivesFileNames | src/data/silver_layer.py:75-87 | a symbol without '_' survives the bronze name and then the silver name |

## Left out

- Network and file effects are not modelled: `yf.download`, `to_csv`, `os.makedirs`, `os.listdir`, `glob` and `print`. Downloads become the success oracle, listings and file contents become parameters, and written files are returned as results. A file half-written before an exception is not modelled.
- Clocks are parameters: `datetime.now()` and `strftime("%Y%m%d_%H%M%S")`. The ingestion timestamp is a string.
- The order of `glob` and `os.listdir` is unspecified in Python. Here it is the order of the listing passed in.
- Floating point is not modelled: closes and volumes are exact reals.
  - pandas gives `inf` or NaN after a zero close; the model gives "undefined".
  - NaN cells in the input are not modelled.
- CSV tokenisation is not modelled: a file is given as lines already split into fields.
  - Type inference and blank-line skipping of `read_csv` are not modelled.
  - pandas takes the number of index columns from the first data line alone: when that line has k > 0 more fields than the header, its first k fields become the row index and it does not raise, and later lines are checked against that wider count. The model instead refuses every file whose first data line (line 4) is wider than the header with `TooManyFields` at that line, whatever the later lines hold, and so refuses files pandas reads.
  - Silver cells stay text.
  - `Silver.ReadCsv` pads a short line with empty cells where pandas puts NaN.
- `pd.to_datetime` on the date column is not modelled. Gold rows carry the date as an ordered integer key.
- The gold layer reads the silver files back as typed rows (`read`); parsing that text is not modelled.
- `Silver.WithColumn` overwrites only the first of several columns with the same label. pandas would set them all. Silver tables never have duplicate labels.
- Gold.SortRows: proved sorted and a permutation only. The function itself is stable, as pandas' multi-column sort is: `Insert` places a row before the first row not below it, so rows with equal symbol and date keep their input order. That stability is not proved.
- The HTTP clients in `src/data_extradiction.py` and `src/data/market_data_extractor.py` are not part of this model. The same goes for the exploratory `src/data/test_yahoo_data.py`, the `__main__` blocks and the credential check.
