/**
 * The market-data side of the portfolio analysis: the attribute bag the
 * external market-data client returns for one ticker, and the loop that
 * fetches one bag per distinct symbol into the request's `raw_stock_info`
 * table (backend/app.py, lines 30-42).
 */
module Market {
  import opened Wrappers

  /** A symbol as a Python dictionary key: `None` or a string. */
  type Key = Option<string>

  /**
   * The `info` bag of one ticker. Each listed attribute is `None` when the
   * bag lacks it or holds null for it (the two read alike through `get`);
   * `otherKeys` counts the keys of the bag that no `Some` field accounts
   * for, so the bag is an empty dictionary exactly when `IsEmpty()`.
   */
  datatype Snapshot = Snapshot(
    currentPrice: Option<real>,
    previousClose: Option<real>,
    marketCap: Option<real>,
    trailingPE: Option<real>,
    forwardPE: Option<real>,
    dividendYield: Option<real>,
    fiftyTwoWeekHigh: Option<real>,
    fiftyTwoWeekLow: Option<real>,
    volume: Option<real>,
    averageVolume10Days: Option<real>,
    averageVolume: Option<real>,
    industry: Option<string>,
    otherKeys: nat)
  {
    /** The bag is `{}`, which Python treats as false. */
    predicate IsEmpty() {
      && currentPrice.None? && previousClose.None? && marketCap.None?
      && trailingPE.None? && forwardPE.None? && dividendYield.None?
      && fiftyTwoWeekHigh.None? && fiftyTwoWeekLow.None? && volume.None?
      && averageVolume10Days.None? && averageVolume.None? && industry.None?
      && otherKeys == 0
    }
  }

  /**
   * The external market-data source, as what it answers for each symbol:
   * a symbol in the map yields that bag, a symbol outside it makes the
   * client raise.
   */
  type Source = map<Key, Snapshot>

  /** The `raw_stock_info` table: symbol to bag, or `None` for a failed fetch. */
  type FetchTable = map<Key, Option<Snapshot>>

  /** One guarded fetch: the bag on success, `None` when the client raises. */
  function Fetch(source: Source, symbol: Key): Option<Snapshot> {
    if symbol in source then Some(source[symbol]) else None
  }

  /** The table the fetch loop leaves behind for a set of symbols. */
  function TableFor(symbols: set<Key>, source: Source): FetchTable {
    map symbol | symbol in symbols :: Fetch(source, symbol)
  }

  predicate Distinct(s: seq<Key>) {
    forall i, j :: 0 <= i < j < |s| ==> s[i] != s[j]
  }

  /**
   * The fetch loop. The symbols are visited in an arbitrary order (Python
   * iterates `list(set(...))` in hash order); `log` records the order in
   * which the client was called. Every symbol is fetched exactly once, and
   * a failure is recorded as `None` without affecting the other symbols.
   */
  method BuildFetchTable(symbols: set<Key>, source: Source) returns (raw: FetchTable, log: seq<Key>)
    ensures raw.Keys == symbols
    ensures forall symbol :: symbol in raw ==> (raw[symbol].None? <==> symbol !in source)
    ensures forall symbol :: symbol in raw && symbol in source ==> raw[symbol] == Some(source[symbol])
    ensures raw == TableFor(symbols, source)
    ensures Distinct(log)
    ensures forall symbol :: symbol in log <==> symbol in symbols
  {
    raw, log := map[], [];
    var pending := symbols;
    while pending != {}
      invariant pending <= symbols
      invariant raw.Keys == symbols - pending
      invariant forall symbol :: symbol in raw ==> raw[symbol] == Fetch(source, symbol)
      invariant Distinct(log)
      invariant forall symbol :: symbol in log <==> symbol in raw
      decreases pending
    {
      var symbol :| symbol in pending;
      if symbol in source {
        raw := raw[symbol := Some(source[symbol])];
      } else {
        raw := raw[symbol := None];
      }
      log := log + [symbol];
      pending := pending - {symbol};
    }
  }
}
