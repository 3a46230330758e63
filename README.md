# Portfolio analysis backend: a Dafny model

This project models the enrichment pipeline behind the `/api/analyze-portfolio`
endpoint (`analyze_portfolio_backend` in `backend/app.py`). A request carries a
list of portfolio line items (symbol, exchange, cost per unit `CI`, holdings,
category, sector). The pipeline:

1. rejects a portfolio that is missing, empty, has no item with a `symbol` entry, or is a
   non-list value with a length (a null, number or boolean gets the 500 reply; see Validation below);
2. fetches one market-data bag per distinct symbol into a table, recording `None` for a failed fetch;
3. enriches every line item in turn (base cost, price resolution, auxiliary market fields, valuation);
4. writes each record into `results` under the item's `item.get('symbol')`, which is `None` for an item
   without a symbol; the last item with a given key wins. The reply is then serialised with sorted keys.

Modules, one per stage:

- `Wrappers` (`wrappers.dfy`): `Option`.
- `Market` (`market.dfy`): the fetched bag `Snapshot`, the market-data source as a
  map, and `BuildFetchTable`, the fetch loop over the symbol set.
- `Enrichment` (`enrichment.dfy`): line items, output records and diagnostics.
  `Enriched` is the reference definition of one record, written stage by stage.
  `EnrichItem` is the source's step-by-step reassignment of locals and is proved
  to compute `Enriched`. Lemmas state the per-field rules.
- `Analysis` (`analysis.dfy`): validation, `SymbolsToFetch`, `ResultsOf` (the
  results map after the loop), `EnrichAll` (the loop), `AnalyzePortfolio` (the
  whole request), and lemmas about the keys and last-write-wins.

Modelling choices:

- The market-data client is the parameter `source: map<Key, Snapshot>`. A symbol in the map
  yields its bag; a symbol outside it makes the client raise, so the table gets `None`.
- A symbol is a dictionary key `Key = Option<string>` (Python `None` or a string). An item's
  `symbol` entry is `Absent`, `Null` or `Present`. This matters because `'symbol' in item`
  counts a null symbol in the fetch set, while `item.get('symbol')` reads both as `None`.
- A bag is falsy when it is an empty dictionary. `Snapshot.otherKeys` counts the keys that no
  present field accounts for, so `IsEmpty()` is exactly "the dictionary is `{}`".
- Python truthiness is written out. Both `trailingPE or forwardPE` and
  `averageVolume10Days or averageVolume` fall back on `None` and on zero. The test
  `symbol and raw_stock_info.get(symbol)` fails for `None`, for `""`, for a failed fetch
  and for an empty bag.
- Validation follows the code. `len(...)` is called on the `portfolio` value before it is
  type-checked, so null, a number or a boolean raise inside the `try`, and the reply is
  the 500 error (`Unsized`). A string or an object yields 400. A missing entry defaults
  to `[]` and yields 400.
- Serialisation follows the framework default of a JSON encoder with sorted keys. It fails exactly when the results have
  both the key `None` and a string key (`SortableKeys`). Record fields are all string-keyed.
- Prices and all other numbers are exact `real`s. Diagnostics are a datatype. `Text`
  renders each one as the source's message, with `None` rendered as `"None"`.
- Idempotence holds by construction: every stage is a function of the request and of `source`.

Behaviour of the code that a reader might not expect:

- Items without a `symbol` entry are not dropped from the results. They take the fetch-failure
  branch and are stored under the key `None` (`OutputKeysVersusFetched`, `ResultKeys`).
  The reply is serialised with sorted keys, and Python cannot order `None` against a string.
  So when the portfolio mixes such an item with an item that has a string symbol,
  serialisation raises inside the `try` and the reply is the 500 error
  (`SortableIffNotMixed`, `AnalyzePortfolio`). Only a portfolio whose keys are all `None`
  gets a 200 reply with a `None` key.
- A bag with a current price but no previous close establishes no price: the record gets
  the "crucial price data" diagnostic and no auxiliary fields (`PriceResolution`).
- The 400 for a non-list `portfolio` applies only to values that have a length (see above).

## Model

| member | source | states |
|---|---|---|
| `Market.BuildFetchTable` | backend/app.py:30-42 | the table has exactly one key per distinct symbol; a symbol's entry is `None` iff its fetch raised, and its bag otherwise, independently of the other symbols; the client is called once per symbol, with no repeats |
| `Enrichment.EnrichItem` | backend/app.py:45-175 | the step-by-step reassignment of the defaults by the base-cost, price, auxiliary and valuation steps yields exactly the record `Enriched` defines |
| `Enrichment.BaseCost` | backend/app.py:80-86 | with `CI` and `holdings` both present, invested = CI × holdings and avgCost = CI; otherwise both are 0 and a diagnostic is set |
| `Enrichment.PriceResolution` | backend/app.py:90-143 | no usable bag gives no prices and the no-data diagnostic; both prices present are used as fetched; previous close alone stands in for both, with the fallback diagnostic; in every other case there is no price and the crucial-price diagnostic |
| `Enrichment.PricesTogether` | backend/app.py:98-117 | a record has a current price iff it has a previous close |
| `Enrichment.AuxiliaryOnlyWithPrice` | backend/app.py:120-129 | without a price every auxiliary field keeps its default (None, dividend yield 0); with one they come from the fetched bag, dividend yield × 100 or 0, P/E and average volume using the second source when the first is absent or zero |
| `Enrichment.Valuation` | backend/app.py:131-139 | value, gain and return are computed iff there is a price, holdings are present and invested > 0, and are 0 otherwise; return × invested = gain × 100 always holds, so no division by zero occurs |
| `Enrichment.DayChangeAlwaysZero` | backend/app.py:74-75 | dayChange and dayChangePercent are 0 in every record |
| `Enrichment.DiagnosticLastWriteWins` | backend/app.py:77-143 | the error slot is empty iff cost basis and both live prices are present; the cost-basis message survives iff the cost basis is missing and both live prices are present; whenever the price stage fails or falls back, its diagnostic replaces the cost-basis one |
| `Enrichment.EchoesItem` | backend/app.py:148-167 | the record echoes the item's symbol, CI and holdings, and its bolsa, category and sector with `'N/A'` for a missing entry (not for a null one) |
| `Enrichment.ExampleLivePrice` | backend/app.py:80-135 | CI 10, holdings 5, prices 12 and 11 give invested 50, avgCost 10, value 60, gain 10, return 20, dividend yield 0 |
| `Enrichment.ExampleFetchFailed` | backend/app.py:141-143 | a failed fetch keeps invested 50 and avgCost 10 but no prices, zero valuation and the no-data diagnostic |
| `Enrichment.ExampleCloseFallback` | backend/app.py:104-111 | a missing current price with previous close 9.5 gives current price 9.5, day change 0 and the fallback diagnostic |
| `Analysis.NoSymbolsIff` | backend/app.py:23-28 | the fetch set is empty iff no item has a `symbol` entry |
| `Analysis.OutputKeysVersusFetched` | backend/app.py:23-148 | the output keys are the fetched symbols plus `None` exactly when some item lacks a `symbol` entry |
| `Analysis.ResultKeys` | backend/app.py:45-148 | after the loop, `results` has exactly one key per distinct `item.get('symbol')` |
| `Analysis.LastWriteWins` | backend/app.py:148-175 | the record under a key is the one built from the last item with that key |
| `Analysis.EntryFromLastItem` | backend/app.py:148-175 | every record in `results` was built from the last item carrying its key |
| `Analysis.EnrichedWellFormed` | backend/app.py:132-157 | an enriched record carries its item's key, zero day change, and a return consistent with its gain and invested amount |
| `Analysis.OutputRecords` | backend/app.py:148-175 | every output record sits under its own symbol, has zero day change and a return consistent with its gain and invested amount |
| `Analysis.EnrichAll` | backend/app.py:45-176 | the loop over the items leaves `results` equal to `ResultsOf`, the in-order last-write-wins fold of `Enriched` |
| `Analysis.SortableIffNotMixed` | backend/app.py:148-179 | the result keys can be sorted for serialisation iff no item with key `None` sits beside an item with a string key |
| `Analysis.AnalyzePortfolio` | backend/app.py:15-183 | 500 iff the `portfolio` value has no length, or validation passes and the item keys mix `None` with strings; 400 iff it is missing, not a list, or no item has a `symbol` entry, with the matching message; nothing is fetched unless validation passes, and then each distinct symbol is fetched exactly once; on success `stockData` is the enrichment of every item, keyed by every item's symbol |
| `Enrichment.TextTellsKind` | backend/app.py:85-143 | two diagnostics with the same message text are of the same kind, so the returned string identifies which rule fired |

## Left out

- The Flask app, routing, `request.json`, `jsonify`, HTTP status tuples and CORS: framework I/O. The reply is the `Response` datatype, with `Status()` giving the code.
- The market-data client `yf.Ticker(symbol).info`: a network call. It is the `source` parameter, and "raises" is a symbol outside the map.
- The top-level `except Exception` that returns 500: it is modelled for two exceptions the pipeline raises on well-formed JSON. One is `len` of a value with no length. The other is sorting a `None` key against a string key when the reply is serialised. The 500 message text, a missing or non-object request body, non-object line items, non-string or unhashable symbols, and non-numeric attribute values are not modelled.
- All `print` logging, including the f-strings that only feed it. On the inputs the model keeps in scope, its only effect is output. The exception is the `:.2f` formats, covered on the next line.
- Analysis.AnalyzePortfolio: does not model the overflow of numbers too large for a float. Python keeps JSON integers at full precision. A float times such an integer raises `OverflowError` in the products at backend/app.py:81 and 133. Formatting such a value with `:.2f` in the logging at lines 83 and 136 raises as well. In those cases the real reply is the 500 error, while the model, with unbounded reals, promises `Success`.
- Floating-point rounding, NaN and negative zero: prices are exact reals. The integer `0` versus the float `0.0` in the JSON output is not distinguished.
- The unused `pandas` and `time` imports and the `__main__` server start.
- Sequential fetch latency and the hash order of `list(set(...))`: the fetch loop picks symbols in an arbitrary order, and its contract holds for every order.
