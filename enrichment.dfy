/**
 * Per-item enrichment (backend/app.py, lines 45-175): one portfolio line
 * item plus the fetch table gives one output record. `Enriched` defines the
 * record stage by stage; `EnrichItem` is the source's step-by-step
 * reassignment of locals and is proved to compute it.
 */
module Enrichment {
  import opened Wrappers
  import opened Market

  /** An entry of a JSON object: missing, present with null, or present with a value. */
  datatype Field<T> = Absent | Null | Present(value: T)

  /**
   * A portfolio line item. `ci` and `holdings` are only ever read through
   * `get`, where a missing entry and a null one are alike, so they are options.
   */
  datatype Item = Item(
    symbol: Field<string>,
    bolsa: Field<string>,
    ci: Option<real>,
    holdings: Option<real>,
    category: Field<string>,
    sector: Field<string>)

  /** `item.get('symbol')`. */
  function KeyOf(item: Item): Key {
    if item.symbol.Present? then Some(item.symbol.value) else None
  }

  /** `'symbol' in item`. */
  predicate HasSymbolEntry(item: Item) {
    !item.symbol.Absent?
  }

  const NotAvailable: string := "N/A"

  /** `item.get(name, 'N/A')`: the default only for a missing entry, not for null. */
  function WithDefault(f: Field<string>): Option<string> {
    match f
    case Absent => Some(NotAvailable)
    case Null => None
    case Present(s) => Some(s)
  }

  /** The diagnostic left in a record's `error` slot. */
  datatype Diag =
    | MissingCostBasis(symbol: Key)
    | PriceFallback(symbol: Key)
    | NoPriceData(symbol: Key)
    | NoData(symbol: Key)

  /** How an f-string renders a symbol. */
  function Render(symbol: Key): string {
    if symbol.Some? then symbol.value else "None"
  }

  /**
   * The message text of a diagnostic, as the record carries it. The two
   * "Could not retrieve" messages are written in two pieces, the first of
   * which is the part that tells them apart.
   */
  function Text(d: Diag): string {
    match d
    case MissingCostBasis(s) => "Missing CI or Holdings for " + Render(s) + ". Cannot calculate base values."
    case PriceFallback(s) => "Current price missing for " + Render(s) + ". Using previousClose as currentPrice for calculations."
    case NoPriceData(s) =>
      "Could not retrieve any crucial " + "live price data (currentPrice/previousClose) for " + Render(s) + "."
    case NoData(s) =>
      "Could not retrieve any data " + "from yfinance for " + Render(s) + " (symbol not found or API issue)."
  }

  /** Helpers for `TextTellsKind`: the 2nd character of a message, and its 24th, tell its kind apart. */
  lemma MissingCostBasisMarks(s: Key)
    ensures |Text(MissingCostBasis(s))| > 23 && Text(MissingCostBasis(s))[1] == 'i'
  {
    var lead := "Missing CI or Holdings for ";
    assert Text(MissingCostBasis(s)) == lead + (Render(s) + ". Cannot calculate base values.");
    assert lead[1] == 'i';
  }

  lemma PriceFallbackMarks(s: Key)
    ensures |Text(PriceFallback(s))| > 23 && Text(PriceFallback(s))[1] == 'u'
  {
    var lead := "Current price missing for ";
    assert Text(PriceFallback(s)) == lead + (Render(s) + ". Using previousClose as currentPrice for calculations.");
    assert lead[1] == 'u';
  }

  lemma NoPriceDataMarks(s: Key)
    ensures |Text(NoPriceData(s))| > 23 && Text(NoPriceData(s))[1] == 'o' && Text(NoPriceData(s))[23] == 'c'
  {
    var lead := "Could not retrieve any crucial ";
    assert Text(NoPriceData(s)) == lead + ("live price data (currentPrice/previousClose) for " + Render(s) + ".");
    assert lead[1] == 'o' && lead[23] == 'c';
  }

  lemma NoDataMarks(s: Key)
    ensures |Text(NoData(s))| > 23 && Text(NoData(s))[1] == 'o' && Text(NoData(s))[23] == 'd'
  {
    var lead := "Could not retrieve any data ";
    assert Text(NoData(s)) == lead + ("from yfinance for " + Render(s) + " (symbol not found or API issue).");
    assert lead[1] == 'o' && lead[23] == 'd';
  }

  /** Helper for `TextTellsKind`: the marks of one message, whatever its kind. */
  lemma TextMarks(d: Diag)
    ensures |Text(d)| > 23
    ensures Text(d)[1] == (if d.MissingCostBasis? then 'i' else if d.PriceFallback? then 'u' else 'o')
    ensures d.NoPriceData? ==> Text(d)[23] == 'c'
    ensures d.NoData? ==> Text(d)[23] == 'd'
  {
    match d
    case MissingCostBasis(s) => MissingCostBasisMarks(s);
    case PriceFallback(s) => PriceFallbackMarks(s);
    case NoPriceData(s) => NoPriceDataMarks(s);
    case NoData(s) => NoDataMarks(s);
  }

  /** Two diagnostics with the same message text are of the same kind. */
  lemma TextTellsKind(d1: Diag, d2: Diag)
    requires Text(d1) == Text(d2)
    ensures d1.MissingCostBasis? <==> d2.MissingCostBasis?
    ensures d1.PriceFallback? <==> d2.PriceFallback?
    ensures d1.NoPriceData? <==> d2.NoPriceData?
    ensures d1.NoData? <==> d2.NoData?
  {
    TextMarks(d1);
    TextMarks(d2);
  }

  /** One entry of `stockData`. */
  datatype Record = Record(
    symbol: Key,
    bolsa: Option<string>,
    ci: Option<real>,
    holdings: Option<real>,
    investedAmount: real,
    currentPrice: Option<real>,
    previousClose: Option<real>,
    dayChange: real,
    dayChangePercent: real,
    marketCap: Option<real>,
    peRatio: Option<real>,
    dividendYield: real,
    fiftyTwoWeekHigh: Option<real>,
    fiftyTwoWeekLow: Option<real>,
    volume: Option<real>,
    averageVolume: Option<real>,
    sector: Option<string>,
    category: Option<string>,
    industry: Option<string>,
    currentValue: real,
    gainLoss: real,
    returnPercent: real,
    avgCost: real,
    error: Option<Diag>)

  /** Python truthiness of a symbol: neither `None` nor the empty string. */
  predicate Truthy(symbol: Key) {
    symbol.Some? && symbol.value != ""
  }

  /**
   * `symbol and raw_stock_info.get(symbol)`: the symbol is truthy and its
   * fetch left a bag that is neither `None` nor empty.
   */
  predicate Fetched(symbol: Key, raw: FetchTable) {
    Truthy(symbol) && symbol in raw && raw[symbol].Some? && !raw[symbol].value.IsEmpty()
  }

  function UsableBag(symbol: Key, raw: FetchTable): Option<Snapshot> {
    if Fetched(symbol, raw) then raw[symbol] else None
  }

  /** Python's `a or b` on optional numbers: `b` when `a` is `None` or zero. */
  function Or(a: Option<real>, b: Option<real>): Option<real> {
    if a.Some? && a.value != 0.0 then a else b
  }

  /** What the price stage makes of an item's symbol. */
  datatype PriceOutcome =
    | Unfetched
    | Unpriced
    | Priced(bag: Snapshot, current: real, previous: real, fromClose: bool)

  function ResolvePrice(symbol: Key, raw: FetchTable): PriceOutcome {
    match UsableBag(symbol, raw)
    case None => Unfetched
    case Some(bag) =>
      if bag.currentPrice.Some? && bag.previousClose.Some? then
        Priced(bag, bag.currentPrice.value, bag.previousClose.value, false)
      else if bag.currentPrice.None? && bag.previousClose.Some? then
        Priced(bag, bag.previousClose.value, bag.previousClose.value, true)
      else
        Unpriced
  }

  /** The fields copied from the bag once a price is established. */
  datatype Auxiliary = Auxiliary(
    marketCap: Option<real>,
    peRatio: Option<real>,
    dividendYield: real,
    fiftyTwoWeekHigh: Option<real>,
    fiftyTwoWeekLow: Option<real>,
    volume: Option<real>,
    averageVolume: Option<real>,
    industry: Option<string>)

  const Defaults: Auxiliary := Auxiliary(None, None, 0.0, None, None, None, None, None)

  function AuxiliaryOf(bag: Snapshot): Auxiliary {
    Auxiliary(
      bag.marketCap,
      Or(bag.trailingPE, bag.forwardPE),
      if bag.dividendYield.Some? then bag.dividendYield.value * 100.0 else 0.0,
      bag.fiftyTwoWeekHigh,
      bag.fiftyTwoWeekLow,
      bag.volume,
      Or(bag.averageVolume10Days, bag.averageVolume),
      bag.industry)
  }

  /**
   * The diagnostic that survives: the price stage's, when it has one,
   * supersedes the base-cost one.
   */
  function DiagnosticOf(symbol: Key, costed: bool, outcome: PriceOutcome): Option<Diag> {
    match outcome
    case Unfetched => Some(NoData(symbol))
    case Unpriced => Some(NoPriceData(symbol))
    case Priced(_, _, _, fromClose) =>
      if fromClose then Some(PriceFallback(symbol))
      else if costed then None
      else Some(MissingCostBasis(symbol))
  }

  /** The output record of one line item, stage by stage. */
  function Enriched(item: Item, raw: FetchTable): Record {
    var symbol := KeyOf(item);
    var costed := item.ci.Some? && item.holdings.Some?;
    var invested := if costed then item.ci.value * item.holdings.value else 0.0;
    var outcome := ResolvePrice(symbol, raw);
    var aux := if outcome.Priced? then AuxiliaryOf(outcome.bag) else Defaults;
    var valued := outcome.Priced? && item.holdings.Some? && invested > 0.0;
    var value := if valued then outcome.current * item.holdings.value else 0.0;
    Record(
      symbol := symbol,
      bolsa := WithDefault(item.bolsa),
      ci := item.ci,
      holdings := item.holdings,
      investedAmount := invested,
      currentPrice := if outcome.Priced? then Some(outcome.current) else None,
      previousClose := if outcome.Priced? then Some(outcome.previous) else None,
      dayChange := 0.0,
      dayChangePercent := 0.0,
      marketCap := aux.marketCap,
      peRatio := aux.peRatio,
      dividendYield := aux.dividendYield,
      fiftyTwoWeekHigh := aux.fiftyTwoWeekHigh,
      fiftyTwoWeekLow := aux.fiftyTwoWeekLow,
      volume := aux.volume,
      averageVolume := aux.averageVolume,
      sector := WithDefault(item.sector),
      category := WithDefault(item.category),
      industry := aux.industry,
      currentValue := value,
      gainLoss := if valued then value - invested else 0.0,
      returnPercent := if valued then (value - invested) / invested * 100.0 else 0.0,
      avgCost := if costed then item.ci.value else 0.0,
      error := DiagnosticOf(symbol, costed, outcome))
  }

  /**
   * The body of the enrichment loop for one item: every local starts at its
   * default and is reassigned by the base-cost, price, auxiliary and
   * valuation steps in turn, the diagnostic slot being overwritten on the way.
   */
  method EnrichItem(item: Item, raw: FetchTable) returns (rec: Record)
    ensures rec == Enriched(item, raw)
  {
    var symbol := KeyOf(item);
    var category := WithDefault(item.category);
    var sector := WithDefault(item.sector);
    var ci := item.ci;
    var holdings := item.holdings;

    var currentPrice: Option<real> := None;
    var previousClose: Option<real> := None;
    var marketCap: Option<real> := None;
    var peRatio: Option<real> := None;
    var dividendYield: real := 0.0;
    var fiftyTwoWeekHigh: Option<real> := None;
    var fiftyTwoWeekLow: Option<real> := None;
    var volume: Option<real> := None;
    var averageVolume: Option<real> := None;
    var industry: Option<string> := None;

    var invested: real := 0.0;
    var currentValue: real := 0.0;
    var gainLoss: real := 0.0;
    var returnPercent: real := 0.0;
    var avgCost: real := 0.0;

    var dayChange: real := 0.0;
    var dayChangePercent: real := 0.0;

    var error: Option<Diag> := None;

    if ci.Some? && holdings.Some? {
      invested := ci.value * holdings.value;
      avgCost := ci.value;
    } else {
      error := Some(MissingCostBasis(symbol));
    }

    if Fetched(symbol, raw) {
      var info := raw[symbol].value;
      var tempCurrentPrice := info.currentPrice;
      var tempPreviousClose := info.previousClose;

      if tempCurrentPrice.Some? && tempPreviousClose.Some? {
        currentPrice := tempCurrentPrice;
        previousClose := tempPreviousClose;
      } else if tempCurrentPrice.None? && tempPreviousClose.Some? {
        currentPrice := tempPreviousClose;
        previousClose := tempPreviousClose;
        error := Some(PriceFallback(symbol));
        dayChange := 0.0;
        dayChangePercent := 0.0;
      } else {
        error := Some(NoPriceData(symbol));
      }

      if currentPrice.Some? {
        marketCap := info.marketCap;
        peRatio := Or(info.trailingPE, info.forwardPE);
        dividendYield := if info.dividendYield.Some? then info.dividendYield.value * 100.0 else 0.0;
        fiftyTwoWeekHigh := info.fiftyTwoWeekHigh;
        fiftyTwoWeekLow := info.fiftyTwoWeekLow;
        volume := info.volume;
        averageVolume := Or(info.averageVolume10Days, info.averageVolume);
        industry := info.industry;
      }

      if currentPrice.Some? && holdings.Some? && invested > 0.0 {
        currentValue := currentPrice.value * holdings.value;
        gainLoss := currentValue - invested;
        returnPercent := if invested != 0.0 then (gainLoss / invested) * 100.0 else 0.0;
      }
    } else {
      error := Some(NoData(symbol));
    }

    rec := Record(
      symbol, WithDefault(item.bolsa), ci, holdings, invested,
      currentPrice, previousClose, dayChange, dayChangePercent,
      marketCap, peRatio, dividendYield, fiftyTwoWeekHigh, fiftyTwoWeekLow,
      volume, averageVolume, sector, category, industry,
      currentValue, gainLoss, returnPercent, avgCost, error);
  }

  /** Base cost: computed from `CI` and `holdings` when both are present, zero otherwise. */
  lemma BaseCost(item: Item, raw: FetchTable)
    ensures var r := Enriched(item, raw);
      if item.ci.Some? && item.holdings.Some? then
        r.investedAmount == item.ci.value * item.holdings.value && r.avgCost == item.ci.value
      else
        r.investedAmount == 0.0 && r.avgCost == 0.0 && r.error.Some?
  {
  }

  /**
   * Price resolution: both prices as fetched; the previous close standing in
   * for a missing current price; otherwise no price at all, with the
   * diagnostic that says why.
   */
  lemma PriceResolution(item: Item, raw: FetchTable)
    ensures var r, symbol := Enriched(item, raw), KeyOf(item);
      if !Fetched(symbol, raw) then
        r.currentPrice.None? && r.previousClose.None? && r.error == Some(NoData(symbol))
      else
        var bag := raw[symbol].value;
        if bag.currentPrice.Some? && bag.previousClose.Some? then
          r.currentPrice == bag.currentPrice && r.previousClose == bag.previousClose
        else if bag.previousClose.Some? then
          r.currentPrice == bag.previousClose && r.previousClose == bag.previousClose
          && r.error == Some(PriceFallback(symbol))
        else
          r.currentPrice.None? && r.previousClose.None? && r.error == Some(NoPriceData(symbol))
  {
  }

  /** A record has a current price exactly when it has a previous close. */
  lemma PricesTogether(item: Item, raw: FetchTable)
    ensures var r := Enriched(item, raw);
      r.currentPrice.Some? <==> r.previousClose.Some?
  {
  }

  /**
   * Auxiliary fields come from the bag only once a price is established;
   * without one they keep their defaults. The P/E ratio and the average
   * volume fall back on their second source when the first is absent or zero.
   */
  lemma AuxiliaryOnlyWithPrice(item: Item, raw: FetchTable)
    ensures var r, symbol := Enriched(item, raw), KeyOf(item);
      if r.currentPrice.None? then
        && r.marketCap.None? && r.peRatio.None? && r.dividendYield == 0.0
        && r.fiftyTwoWeekHigh.None? && r.fiftyTwoWeekLow.None? && r.volume.None?
        && r.averageVolume.None? && r.industry.None?
      else
        && Fetched(symbol, raw)
        && var bag := raw[symbol].value;
        && r.marketCap == bag.marketCap
        && r.peRatio == (if bag.trailingPE.Some? && bag.trailingPE.value != 0.0 then bag.trailingPE else bag.forwardPE)
        && r.dividendYield == (if bag.dividendYield.Some? then bag.dividendYield.value * 100.0 else 0.0)
        && r.fiftyTwoWeekHigh == bag.fiftyTwoWeekHigh
        && r.fiftyTwoWeekLow == bag.fiftyTwoWeekLow
        && r.volume == bag.volume
        && r.averageVolume == (if bag.averageVolume10Days.Some? && bag.averageVolume10Days.value != 0.0
                               then bag.averageVolume10Days else bag.averageVolume)
        && r.industry == bag.industry
  {
  }

  /**
   * Valuation happens exactly when a price exists, `holdings` is present and
   * the invested amount is positive; otherwise the three figures are zero.
   * The return percentage always satisfies `returnPercent * invested ==
   * gainLoss * 100`, so it never comes from a division by zero.
   */
  lemma Valuation(item: Item, raw: FetchTable)
    ensures var r := Enriched(item, raw);
      if r.currentPrice.Some? && item.holdings.Some? && r.investedAmount > 0.0 then
        && r.currentValue == r.currentPrice.value * item.holdings.value
        && r.gainLoss == r.currentValue - r.investedAmount
        && r.returnPercent == r.gainLoss / r.investedAmount * 100.0
      else
        r.currentValue == 0.0 && r.gainLoss == 0.0 && r.returnPercent == 0.0
    ensures var r := Enriched(item, raw);
      r.returnPercent * r.investedAmount == r.gainLoss * 100.0
  {
  }

  /** No branch computes a day change: both day-change fields are always zero. */
  lemma DayChangeAlwaysZero(item: Item, raw: FetchTable)
    ensures var r := Enriched(item, raw);
      r.dayChange == 0.0 && r.dayChangePercent == 0.0
  {
  }

  /**
   * The diagnostic slot is last-write-wins: the base-cost diagnostic
   * survives only when the price stage found both prices; a price-stage
   * diagnostic, when one is raised, is what the record keeps.
   */
  lemma DiagnosticLastWriteWins(item: Item, raw: FetchTable)
    ensures var r, symbol := Enriched(item, raw), KeyOf(item);
      var costed := item.ci.Some? && item.holdings.Some?;
      var live := Fetched(symbol, raw) && raw[symbol].value.currentPrice.Some? && raw[symbol].value.previousClose.Some?;
      && (r.error.None? <==> costed && live)
      && (r.error == Some(MissingCostBasis(symbol)) <==> !costed && live)
      && (!live ==> r.error.Some? && r.error.value.symbol == symbol && !r.error.value.MissingCostBasis?)
  {
  }

  /** The record echoes the item's own entries, `'N/A'` standing in for missing text entries. */
  lemma EchoesItem(item: Item, raw: FetchTable)
    ensures var r := Enriched(item, raw);
      && r.symbol == (if item.symbol.Present? then Some(item.symbol.value) else None)
      && r.ci == item.ci && r.holdings == item.holdings
      && r.bolsa == (if item.bolsa.Absent? then Some("N/A") else if item.bolsa.Null? then None else Some(item.bolsa.value))
      && r.category == (if item.category.Absent? then Some("N/A") else if item.category.Null? then None else Some(item.category.value))
      && r.sector == (if item.sector.Absent? then Some("N/A") else if item.sector.Null? then None else Some(item.sector.value))
  {
  }

  /** A bag carrying only the two prices. */
  function PriceBag(current: Option<real>, previous: Option<real>): Snapshot {
    Snapshot(current, previous, None, None, None, None, None, None, None, None, None, None, 0)
  }

  /** Live prices: cost 10 a unit, 5 units, price 12 (previous close 11). */
  lemma ExampleLivePrice()
    ensures var item := Item(Present("ACME"), Absent, Some(10.0), Some(5.0), Absent, Absent);
      var r := Enriched(item, map[Some("ACME") := Some(PriceBag(Some(12.0), Some(11.0)))]);
      && r.investedAmount == 50.0 && r.avgCost == 10.0
      && r.currentValue == 60.0 && r.gainLoss == 10.0 && r.returnPercent == 20.0
      && r.dividendYield == 0.0 && r.error.None?
  {
  }

  /** A failed fetch still computes the base cost but values nothing. */
  lemma ExampleFetchFailed()
    ensures var item := Item(Present("ACME"), Absent, Some(10.0), Some(5.0), Absent, Absent);
      var r := Enriched(item, map[Some("ACME") := None]);
      && r.investedAmount == 50.0 && r.avgCost == 10.0
      && r.currentPrice.None? && r.previousClose.None?
      && r.currentValue == 0.0 && r.gainLoss == 0.0 && r.returnPercent == 0.0
      && r.error == Some(NoData(Some("ACME")))
  {
  }

  /** A missing current price is replaced by the previous close of 9.5. */
  lemma ExampleCloseFallback()
    ensures var item := Item(Present("ACME"), Absent, Some(10.0), Some(5.0), Absent, Absent);
      var r := Enriched(item, map[Some("ACME") := Some(PriceBag(None, Some(9.5)))]);
      && r.currentPrice == Some(9.5) && r.dayChange == 0.0 && r.dayChangePercent == 0.0
      && r.error == Some(PriceFallback(Some("ACME")))
  {
  }
}
