/**
 * The request pipeline of `analyze_portfolio_backend` (backend/app.py,
 * lines 12-179): validation, the set of symbols to fetch, the fetch table,
 * and the enrichment loop that fills `results` keyed by symbol.
 */
module Analysis {
  import opened Wrappers
  import opened Market
  import opened Enrichment

  /** The `portfolio` entry of the request body, as far as the pipeline tells values apart. */
  datatype Portfolio =
    | Missing                 // no entry: `get` yields the default `[]`
    | Unsized                 // null, a number or a boolean: `len` raises
    | NotAList                // a string or an object: it has a length but is not a list
    | Items(items: seq<Item>)

  /** The reply: a client error, the generic server error, or the per-symbol records. */
  datatype Response =
    | BadRequest(error: string)
    | InternalError
    | Success(stockData: map<Key, Record>)
  {
    function Status(): int {
      match this
      case BadRequest(_) => 400
      case InternalError => 500
      case Success(_) => 200
    }
  }

  const InvalidPortfolio: string := "Invalid or empty portfolio data provided"
  const NoSymbols: string := "No valid symbols found in portfolio to fetch"

  /** The distinct symbols of the items that have a `symbol` entry. */
  function SymbolsToFetch(items: seq<Item>): set<Key> {
    set i | 0 <= i < |items| && HasSymbolEntry(items[i]) :: KeyOf(items[i])
  }

  /** The keys the enrichment loop writes: `item.get('symbol')` for every item. */
  function ItemKeys(items: seq<Item>): set<Key> {
    set i | 0 <= i < |items| :: KeyOf(items[i])
  }

  /** `results` after the enrichment loop has run over `items` in order. */
  function ResultsOf(items: seq<Item>, raw: FetchTable): map<Key, Record>
    decreases |items|
  {
    if items == [] then map[]
    else
      var last := items[|items| - 1];
      ResultsOf(items[..|items| - 1], raw)[KeyOf(last) := Enriched(last, raw)]
  }

  /** Item `i` is the last one with its key. */
  predicate LastWithKey(items: seq<Item>, i: int) {
    0 <= i < |items| && forall j :: i < j < |items| ==> KeyOf(items[j]) != KeyOf(items[i])
  }

  /** The no-symbols rejection fires exactly when no item has a `symbol` entry. */
  lemma NoSymbolsIff(items: seq<Item>)
    ensures SymbolsToFetch(items) == {} <==> forall i :: 0 <= i < |items| ==> !HasSymbolEntry(items[i])
  {
    if i :| 0 <= i < |items| && HasSymbolEntry(items[i]) {
      assert KeyOf(items[i]) in SymbolsToFetch(items);
    }
  }

  /**
   * The records are keyed by every item's symbol, not only by the fetched
   * ones: an item without a `symbol` entry adds the key `None`.
   */
  lemma OutputKeysVersusFetched(items: seq<Item>)
    ensures ItemKeys(items) ==
      SymbolsToFetch(items) + (if exists i :: 0 <= i < |items| && items[i].symbol.Absent? then {None} else {})
  {
    if i :| 0 <= i < |items| && items[i].symbol.Absent? {
      assert KeyOf(items[i]) == None;
    }
  }

  /** There is exactly one record per distinct key among the items. */
  lemma {:induction false} ResultKeys(items: seq<Item>, raw: FetchTable)
    ensures ResultsOf(items, raw).Keys == ItemKeys(items)
    decreases |items|
  {
    if items != [] {
      var prefix := items[..|items| - 1];
      ResultKeys(prefix, raw);
      assert ItemKeys(items) == ItemKeys(prefix) + {KeyOf(items[|items| - 1])} by {
        forall k | k in ItemKeys(items) ensures k in ItemKeys(prefix) + {KeyOf(items[|items| - 1])} {
          var i :| 0 <= i < |items| && KeyOf(items[i]) == k;
          if i < |items| - 1 {
            assert prefix[i] == items[i];
          }
        }
        forall k | k in ItemKeys(prefix) ensures k in ItemKeys(items) {
          var i :| 0 <= i < |prefix| && KeyOf(prefix[i]) == k;
          assert items[i] == prefix[i];
        }
      }
    }
  }

  /** Last write wins: a key's record is the one built from the last item with that key. */
  lemma {:induction false} LastWriteWins(items: seq<Item>, raw: FetchTable, i: int)
    requires LastWithKey(items, i)
    ensures KeyOf(items[i]) in ResultsOf(items, raw)
    ensures ResultsOf(items, raw)[KeyOf(items[i])] == Enriched(items[i], raw)
    decreases |items|
  {
    if i < |items| - 1 {
      var prefix := items[..|items| - 1];
      assert prefix[i] == items[i];
      assert LastWithKey(prefix, i) by {
        forall j | i < j < |prefix| ensures KeyOf(prefix[j]) != KeyOf(prefix[i]) {
          assert prefix[j] == items[j];
        }
      }
      LastWriteWins(prefix, raw, i);
      assert KeyOf(items[|items| - 1]) != KeyOf(items[i]);
    }
  }

  /** Every record in `results` was built from the last item with its key. */
  lemma {:induction false} EntryFromLastItem(items: seq<Item>, raw: FetchTable, k: Key)
    requires k in ResultsOf(items, raw)
    ensures exists i :: LastWithKey(items, i) && KeyOf(items[i]) == k && ResultsOf(items, raw)[k] == Enriched(items[i], raw)
    decreases |items|
  {
    var n := |items|;
    if KeyOf(items[n - 1]) == k {
      assert LastWithKey(items, n - 1);
    } else {
      var prefix := items[..n - 1];
      EntryFromLastItem(prefix, raw, k);
      var i :| LastWithKey(prefix, i) && KeyOf(prefix[i]) == k && ResultsOf(prefix, raw)[k] == Enriched(prefix[i], raw);
      assert items[i] == prefix[i];
      assert LastWithKey(items, i) by {
        forall j | i < j < n ensures KeyOf(items[j]) != KeyOf(items[i]) {
          if j < n - 1 {
            assert prefix[j] == items[j];
          }
        }
      }
    }
  }

  /**
   * What holds of every output record: it sits under its own symbol, its day
   * change is zero, and its return percentage is consistent with its gain
   * and invested amount (no division by zero anywhere).
   */
  predicate WellFormed(r: Record, k: Key) {
    && r.symbol == k
    && r.dayChange == 0.0 && r.dayChangePercent == 0.0
    && r.returnPercent * r.investedAmount == r.gainLoss * 100.0
  }

  lemma EnrichedWellFormed(item: Item, raw: FetchTable)
    ensures WellFormed(Enriched(item, raw), KeyOf(item))
  {
    Valuation(item, raw);
  }

  lemma OutputRecords(items: seq<Item>, raw: FetchTable)
    ensures forall k :: k in ResultsOf(items, raw) ==> WellFormed(ResultsOf(items, raw)[k], k)
  {
    var results := ResultsOf(items, raw);
    forall k | k in results
      ensures WellFormed(results[k], k)
    {
      EntryFromLastItem(items, raw, k);
      var i :| LastWithKey(items, i) && KeyOf(items[i]) == k && results[k] == Enriched(items[i], raw);
      EnrichedWellFormed(items[i], raw);
    }
  }

  /** The enrichment loop: one record per item, written into `results` under the item's symbol. */
  method EnrichAll(items: seq<Item>, raw: FetchTable) returns (results: map<Key, Record>)
    ensures results == ResultsOf(items, raw)
  {
    results := map[];
    for i := 0 to |items|
      invariant results == ResultsOf(items[..i], raw)
    {
      var rec := EnrichItem(items[i], raw);
      assert items[..i + 1][..i] == items[..i];
      results := results[KeyOf(items[i]) := rec];
    }
    assert items[..|items|] == items;
  }

  /**
   * The reply is serialised with sorted keys, and Python cannot order `None`
   * against a string: the keys of `stockData` serialise only when they are
   * all strings or all `None`.
   */
  predicate SortableKeys(keys: set<Key>) {
    forall a, b :: a in keys && b in keys ==> a.None? == b.None?
  }

  /** Some item's key is `None` and another's is a string. */
  predicate MixedKeys(items: seq<Item>) {
    exists i, j :: 0 <= i < |items| && 0 <= j < |items| && KeyOf(items[i]).None? && KeyOf(items[j]).Some?
  }

  /** The keys of the records serialise exactly when the items' keys are not mixed. */
  lemma SortableIffNotMixed(items: seq<Item>)
    ensures SortableKeys(ItemKeys(items)) <==> !MixedKeys(items)
  {
    if MixedKeys(items) {
      var i, j :| 0 <= i < |items| && 0 <= j < |items| && KeyOf(items[i]).None? && KeyOf(items[j]).Some?;
      assert KeyOf(items[i]) in ItemKeys(items) && KeyOf(items[j]) in ItemKeys(items);
    } else {
      forall a, b | a in ItemKeys(items) && b in ItemKeys(items) ensures a.None? == b.None? {
        var i :| 0 <= i < |items| && KeyOf(items[i]) == a;
        var j :| 0 <= j < |items| && KeyOf(items[j]) == b;
        assert !(KeyOf(items[i]).None? && KeyOf(items[j]).Some?);
        assert !(KeyOf(items[j]).None? && KeyOf(items[i]).Some?);
      }
    }
  }

  /** Some item has a `symbol` entry, so validation lets the request through. */
  predicate HasSymbols(portfolio: Portfolio) {
    portfolio.Items? && exists i :: 0 <= i < |portfolio.items| && HasSymbolEntry(portfolio.items[i])
  }

  /**
   * The whole request: validation, the symbol set, the fetch table, the
   * enrichment loop and the serialisation of the reply. `fetched` lists the
   * symbols in the order the market-data client was asked for them.
   */
  method AnalyzePortfolio(portfolio: Portfolio, source: Source) returns (resp: Response, fetched: seq<Key>)
    ensures resp.InternalError? <==> portfolio.Unsized? || (HasSymbols(portfolio) && MixedKeys(portfolio.items))
    ensures resp.BadRequest? <==>
      || portfolio.Missing? || portfolio.NotAList?
      || (portfolio.Items? && forall i :: 0 <= i < |portfolio.items| ==> !HasSymbolEntry(portfolio.items[i]))
    ensures resp.BadRequest? ==>
      resp.error == (if portfolio.Items? && |portfolio.items| > 0 then NoSymbols else InvalidPortfolio)
    ensures !HasSymbols(portfolio) ==> fetched == []
    ensures HasSymbols(portfolio) ==>
      && Distinct(fetched)
      && (forall k :: k in fetched <==> k in SymbolsToFetch(portfolio.items))
    ensures resp.Success? ==> portfolio.Items?
    ensures resp.Success? ==>
      && resp.stockData == ResultsOf(portfolio.items, TableFor(SymbolsToFetch(portfolio.items), source))
      && resp.stockData.Keys == ItemKeys(portfolio.items)
  {
    fetched := [];
    if portfolio.Unsized? {
      return InternalError, fetched;
    }
    if !portfolio.Items? || |portfolio.items| == 0 {
      return BadRequest(InvalidPortfolio), fetched;
    }
    var items := portfolio.items;
    var symbols := SymbolsToFetch(items);
    NoSymbolsIff(items);
    if symbols == {} {
      return BadRequest(NoSymbols), fetched;
    }
    var raw;
    raw, fetched := BuildFetchTable(symbols, source);
    var results := EnrichAll(items, raw);
    ResultKeys(items, raw);
    SortableIffNotMixed(items);
    if !SortableKeys(results.Keys) {
      return InternalError, fetched;
    }
    return Success(results), fetched;
  }
}
