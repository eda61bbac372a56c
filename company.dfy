/**
 * Company endpoints: profile, the symbol searches, the stock list, the
 * screener and stock news. The screener and stock news send an optional
 * argument whenever it `is not None`, so 0, 0.0, "" and False are sent.
 */
module Company {
  import opened Wrappers
  import opened Values
  import opened Query
  import opened Client

  function ProfileCall(symbol: string): (call: ApiCall)
    ensures call.endpoint == "profile" && call.params.Some?
    ensures call.params.value.Keys == {"symbol"} && Holds(call.params.value, "symbol", PyStr(symbol))
  {
    ApiCall("profile", Some(map["symbol" := PyStr(symbol)]))
  }

  function SearchSymbolCall(query: string): (call: ApiCall)
    ensures call.endpoint == "search-name" && call.params.Some?
    ensures call.params.value.Keys == {"query"} && Holds(call.params.value, "query", PyStr(query))
  {
    ApiCall("search-name", Some(map["query" := PyStr(query)]))
  }

  function SearchByNameCall(query: string): (call: ApiCall)
    ensures call.endpoint == "search-name" && call.params.Some?
    ensures call.params.value.Keys == {"query"} && Holds(call.params.value, "query", PyStr(query))
  {
    ApiCall("search-name", Some(map["query" := PyStr(query)]))
  }

  function SearchByCikCall(cik: string): (call: ApiCall)
    ensures call.endpoint == "cik_search/" + cik && call.endpoint[|"cik_search/"|..] == cik
    ensures call.params.None?
  {
    ApiCall("cik_search/" + cik, None)
  }

  function SearchByCusipCall(cusip: string): (call: ApiCall)
    ensures call.endpoint == "cusip" && call.params.Some?
    ensures call.params.value.Keys == {"cusip"} && Holds(call.params.value, "cusip", PyStr(cusip))
  {
    ApiCall("cusip", Some(map["cusip" := PyStr(cusip)]))
  }

  function SearchByIsinCall(isin: string): (call: ApiCall)
    ensures call.endpoint == "search-isin" && call.params.Some?
    ensures call.params.value.Keys == {"isin"} && Holds(call.params.value, "isin", PyStr(isin))
  {
    ApiCall("search-isin", Some(map["isin" := PyStr(isin)]))
  }

  function StockListCall(): (call: ApiCall)
    ensures call.endpoint == "stock/list" && call.params.None?
  {
    ApiCall("stock/list", None)
  }

  /** search_symbol and search_by_name send the very same request. */
  lemma SearchSymbolIsSearchByName(query: string)
    ensures SearchSymbolCall(query) == SearchByNameCall(query)
  {
  }

  /**
   * On the wire, each single-argument lookup sends its argument under its
   * own key plus the api key and nothing else; the CIK search and the stock
   * list send the api key alone, the CIK travelling in the path.
   */
  lemma LookupQueries(symbol: string, query: string, cik: string, cusip: string, isin: string, apiKey: string)
    ensures WithApiKey(ProfileCall(symbol).params, apiKey) == map["symbol" := PyStr(symbol), ApiKeyParam := PyStr(apiKey)]
    ensures WithApiKey(SearchSymbolCall(query).params, apiKey) == map["query" := PyStr(query), ApiKeyParam := PyStr(apiKey)]
    ensures WithApiKey(SearchByCusipCall(cusip).params, apiKey) == map["cusip" := PyStr(cusip), ApiKeyParam := PyStr(apiKey)]
    ensures WithApiKey(SearchByIsinCall(isin).params, apiKey) == map["isin" := PyStr(isin), ApiKeyParam := PyStr(apiKey)]
    ensures WithApiKey(SearchByCikCall(cik).params, apiKey) == map[ApiKeyParam := PyStr(apiKey)]
    ensures WithApiKey(StockListCall().params, apiKey) == map[ApiKeyParam := PyStr(apiKey)]
    ensures SearchByCikCall(cik).endpoint == "cik_search/" + cik && StockListCall().endpoint == "stock/list"
  {
  }


  /** The keyword arguments of `screen_stocks`. */
  datatype ScreenerFilters = ScreenerFilters(
    marketCapMoreThan: Option<int>,
    marketCapLowerThan: Option<int>,
    priceMoreThan: Option<Float>,
    priceLowerThan: Option<Float>,
    betaMoreThan: Option<Float>,
    betaLowerThan: Option<Float>,
    volumeMoreThan: Option<int>,
    volumeLowerThan: Option<int>,
    dividendMoreThan: Option<Float>,
    dividendLowerThan: Option<Float>,
    sector: Option<string>,
    industry: Option<string>,
    country: Option<string>,
    exchange: Option<string>,
    isEtf: Option<bool>,
    isFund: Option<bool>,
    isActivelyTrading: Option<bool>,
    limit: Option<int>)

  /** The insertions for the market capitalisation and price bounds, in source order. */
  function CapAndPriceRun(f: ScreenerFilters): seq<Insertion> {
    [
      Insertion("marketCapMoreThan", IsNotNone, OfInt(f.marketCapMoreThan), OfInt(f.marketCapMoreThan)),
      Insertion("marketCapLowerThan", IsNotNone, OfInt(f.marketCapLowerThan), OfInt(f.marketCapLowerThan)),
      Insertion("priceMoreThan", IsNotNone, OfFloat(f.priceMoreThan), OfFloat(f.priceMoreThan)),
      Insertion("priceLowerThan", IsNotNone, OfFloat(f.priceLowerThan), OfFloat(f.priceLowerThan))
    ]
  }

  /** The insertions for the beta and volume bounds, in source order. */
  function BetaAndVolumeRun(f: ScreenerFilters): seq<Insertion> {
    [
      Insertion("betaMoreThan", IsNotNone, OfFloat(f.betaMoreThan), OfFloat(f.betaMoreThan)),
      Insertion("betaLowerThan", IsNotNone, OfFloat(f.betaLowerThan), OfFloat(f.betaLowerThan)),
      Insertion("volumeMoreThan", IsNotNone, OfInt(f.volumeMoreThan), OfInt(f.volumeMoreThan)),
      Insertion("volumeLowerThan", IsNotNone, OfInt(f.volumeLowerThan), OfInt(f.volumeLowerThan))
    ]
  }

  /** The insertions for the dividend bounds, in source order. */
  function DividendRun(f: ScreenerFilters): seq<Insertion> {
    [
      Insertion("dividendMoreThan", IsNotNone, OfFloat(f.dividendMoreThan), OfFloat(f.dividendMoreThan)),
      Insertion("dividendLowerThan", IsNotNone, OfFloat(f.dividendLowerThan), OfFloat(f.dividendLowerThan))
    ]
  }

  /** The insertions for sector, industry, country and exchange, in source order. */
  function ClassificationRun(f: ScreenerFilters): seq<Insertion> {
    [
      Insertion("sector", IsNotNone, OfStr(f.sector), OfStr(f.sector)),
      Insertion("industry", IsNotNone, OfStr(f.industry), OfStr(f.industry)),
      Insertion("country", IsNotNone, OfStr(f.country), OfStr(f.country)),
      Insertion("exchange", IsNotNone, OfStr(f.exchange), OfStr(f.exchange))
    ]
  }

  /** The insertions for the three boolean flags and the result limit, in source order. */
  function FlagsAndLimitRun(f: ScreenerFilters): seq<Insertion> {
    [
      Insertion("isEtf", IsNotNone, OfBool(f.isEtf), BoolWire(f.isEtf)),
      Insertion("isFund", IsNotNone, OfBool(f.isFund), BoolWire(f.isFund)),
      Insertion("isActivelyTrading", IsNotNone, OfBool(f.isActivelyTrading), BoolWire(f.isActivelyTrading)),
      Insertion("limit", IsNotNone, OfInt(f.limit), OfInt(f.limit))
    ]
  }

  /** The eighteen `if <argument> is not None: params[key] = ...` statements of `screen_stocks`, in order. */
  function ScreenerRun(f: ScreenerFilters): seq<Insertion> {
    CapAndPriceRun(f) + BetaAndVolumeRun(f) + DividendRun(f) + ClassificationRun(f) + FlagsAndLimitRun(f)
  }

  /** The screener's statements for the market capitalisation and price bounds; `rest` is what is left of the run. */
  method SendCapAndPrice(params: Dict, f: ScreenerFilters) returns (r: Dict)
    ensures r == SetAll(params, CapAndPriceRun(f))
  {
    r := params;
    ghost var rest := CapAndPriceRun(f);
    if f.marketCapMoreThan.Some? { r := r["marketCapMoreThan" := PyInt(f.marketCapMoreThan.value)]; }
    rest := rest[1..];
    assert SetAll(r, rest) == SetAll(params, CapAndPriceRun(f));
    if f.marketCapLowerThan.Some? { r := r["marketCapLowerThan" := PyInt(f.marketCapLowerThan.value)]; }
    rest := rest[1..];
    assert SetAll(r, rest) == SetAll(params, CapAndPriceRun(f));
    if f.priceMoreThan.Some? { r := r["priceMoreThan" := PyFloat(f.priceMoreThan.value)]; }
    rest := rest[1..];
    assert SetAll(r, rest) == SetAll(params, CapAndPriceRun(f));
    if f.priceLowerThan.Some? { r := r["priceLowerThan" := PyFloat(f.priceLowerThan.value)]; }
    rest := rest[1..];
    assert SetAll(r, rest) == SetAll(params, CapAndPriceRun(f));
  }

  /** The screener's statements for the beta and volume bounds; `rest` is what is left of the run. */
  method SendBetaAndVolume(params: Dict, f: ScreenerFilters) returns (r: Dict)
    ensures r == SetAll(params, BetaAndVolumeRun(f))
  {
    r := params;
    ghost var rest := BetaAndVolumeRun(f);
    if f.betaMoreThan.Some? { r := r["betaMoreThan" := PyFloat(f.betaMoreThan.value)]; }
    rest := rest[1..];
    assert SetAll(r, rest) == SetAll(params, BetaAndVolumeRun(f));
    if f.betaLowerThan.Some? { r := r["betaLowerThan" := PyFloat(f.betaLowerThan.value)]; }
    rest := rest[1..];
    assert SetAll(r, rest) == SetAll(params, BetaAndVolumeRun(f));
    if f.volumeMoreThan.Some? { r := r["volumeMoreThan" := PyInt(f.volumeMoreThan.value)]; }
    rest := rest[1..];
    assert SetAll(r, rest) == SetAll(params, BetaAndVolumeRun(f));
    if f.volumeLowerThan.Some? { r := r["volumeLowerThan" := PyInt(f.volumeLowerThan.value)]; }
    rest := rest[1..];
    assert SetAll(r, rest) == SetAll(params, BetaAndVolumeRun(f));
  }

  /** The screener's statements for the dividend bounds; `rest` is what is left of the run. */
  method SendDividend(params: Dict, f: ScreenerFilters) returns (r: Dict)
    ensures r == SetAll(params, DividendRun(f))
  {
    r := params;
    ghost var rest := DividendRun(f);
    if f.dividendMoreThan.Some? { r := r["dividendMoreThan" := PyFloat(f.dividendMoreThan.value)]; }
    rest := rest[1..];
    assert SetAll(r, rest) == SetAll(params, DividendRun(f));
    if f.dividendLowerThan.Some? { r := r["dividendLowerThan" := PyFloat(f.dividendLowerThan.value)]; }
    rest := rest[1..];
    assert SetAll(r, rest) == SetAll(params, DividendRun(f));
  }

  /** The screener's statements for sector, industry, country and exchange; `rest` is what is left of the run. */
  method SendClassification(params: Dict, f: ScreenerFilters) returns (r: Dict)
    ensures r == SetAll(params, ClassificationRun(f))
  {
    r := params;
    ghost var rest := ClassificationRun(f);
    if f.sector.Some? { r := r["sector" := PyStr(f.sector.value)]; }
    rest := rest[1..];
    assert SetAll(r, rest) == SetAll(params, ClassificationRun(f));
    if f.industry.Some? { r := r["industry" := PyStr(f.industry.value)]; }
    rest := rest[1..];
    assert SetAll(r, rest) == SetAll(params, ClassificationRun(f));
    if f.country.Some? { r := r["country" := PyStr(f.country.value)]; }
    rest := rest[1..];
    assert SetAll(r, rest) == SetAll(params, ClassificationRun(f));
    if f.exchange.Some? { r := r["exchange" := PyStr(f.exchange.value)]; }
    rest := rest[1..];
    assert SetAll(r, rest) == SetAll(params, ClassificationRun(f));
  }

  /** The screener's statements for the three boolean flags and the result limit; `rest` is what is left of the run. */
  method SendFlagsAndLimit(params: Dict, f: ScreenerFilters) returns (r: Dict)
    ensures r == SetAll(params, FlagsAndLimitRun(f))
  {
    r := params;
    ghost var rest := FlagsAndLimitRun(f);
    if f.isEtf.Some? { r := r["isEtf" := PyStr(BoolParam(f.isEtf.value))]; }
    rest := rest[1..];
    assert SetAll(r, rest) == SetAll(params, FlagsAndLimitRun(f));
    if f.isFund.Some? { r := r["isFund" := PyStr(BoolParam(f.isFund.value))]; }
    rest := rest[1..];
    assert SetAll(r, rest) == SetAll(params, FlagsAndLimitRun(f));
    if f.isActivelyTrading.Some? { r := r["isActivelyTrading" := PyStr(BoolParam(f.isActivelyTrading.value))]; }
    rest := rest[1..];
    assert SetAll(r, rest) == SetAll(params, FlagsAndLimitRun(f));
    if f.limit.Some? { r := r["limit" := PyInt(f.limit.value)]; }
    rest := rest[1..];
    assert SetAll(r, rest) == SetAll(params, FlagsAndLimitRun(f));
  }

  /**
   * `screen_stocks`: starting from an empty dict, performs the screener's
   * conditional insertions in source order.
   */
  method ScreenStocksCall(
    marketCapMoreThan: Option<int> := None,
    marketCapLowerThan: Option<int> := None,
    priceMoreThan: Option<Float> := None,
    priceLowerThan: Option<Float> := None,
    betaMoreThan: Option<Float> := None,
    betaLowerThan: Option<Float> := None,
    volumeMoreThan: Option<int> := None,
    volumeLowerThan: Option<int> := None,
    dividendMoreThan: Option<Float> := None,
    dividendLowerThan: Option<Float> := None,
    sector: Option<string> := None,
    industry: Option<string> := None,
    country: Option<string> := None,
    exchange: Option<string> := None,
    isEtf: Option<bool> := None,
    isFund: Option<bool> := None,
    isActivelyTrading: Option<bool> := None,
    limit: Option<int> := None)
    returns (call: ApiCall)
    ensures call == ApiCall("company-screener", Some(SetAll(map[], ScreenerRun(ScreenerFilters(marketCapMoreThan, marketCapLowerThan, priceMoreThan, priceLowerThan, betaMoreThan, betaLowerThan, volumeMoreThan, volumeLowerThan, dividendMoreThan, dividendLowerThan, sector, industry, country, exchange, isEtf, isFund, isActivelyTrading, limit)))))
  {
    var f := ScreenerFilters(marketCapMoreThan, marketCapLowerThan, priceMoreThan, priceLowerThan, betaMoreThan, betaLowerThan, volumeMoreThan, volumeLowerThan, dividendMoreThan, dividendLowerThan, sector, industry, country, exchange, isEtf, isFund, isActivelyTrading, limit);
    var params: Dict := map[];
    params := SendCapAndPrice(params, f);
    params := SendBetaAndVolume(params, f);
    params := SendDividend(params, f);
    params := SendClassification(params, f);
    params := SendFlagsAndLimit(params, f);
    SetAllAppend(map[], CapAndPriceRun(f) + BetaAndVolumeRun(f) + DividendRun(f) + ClassificationRun(f), FlagsAndLimitRun(f));
    SetAllAppend(map[], CapAndPriceRun(f) + BetaAndVolumeRun(f) + DividendRun(f), ClassificationRun(f));
    SetAllAppend(map[], CapAndPriceRun(f) + BetaAndVolumeRun(f), DividendRun(f));
    SetAllAppend(map[], CapAndPriceRun(f), BetaAndVolumeRun(f));
    call := ApiCall("company-screener", Some(params));
  }

  /*
   * No two of the screener's statements write the same key; the proof is
   * split by the position of the first statement of each pair.
   */
  lemma ScreenerDistinctFrom0(f: ScreenerFilters)
    ensures forall i, j :: 0 <= i < 6 && i < j < 18 ==> ScreenerRun(f)[i].key != ScreenerRun(f)[j].key
  {
  }

  lemma ScreenerDistinctFrom6(f: ScreenerFilters)
    ensures forall i, j :: 6 <= i < 12 && i < j < 18 ==> ScreenerRun(f)[i].key != ScreenerRun(f)[j].key
  {
  }

  lemma ScreenerDistinctFrom12(f: ScreenerFilters)
    ensures forall i, j :: 12 <= i < j < 18 ==> ScreenerRun(f)[i].key != ScreenerRun(f)[j].key
  {
  }

  lemma ScreenerKeysDistinct(f: ScreenerFilters)
    ensures DistinctKeys(ScreenerRun(f))
  {
    ScreenerDistinctFrom0(f);
    ScreenerDistinctFrom6(f);
    ScreenerDistinctFrom12(f);
  }

  /**
   * The screener sends each filter that is not None under its camelCase
   * key (0, 0.0, "" and False included), numbers and strings as they are
   * and booleans as "true" or "false", and drops each filter that is None.
   */
  lemma ScreenerSendsEachFilter(f: ScreenerFilters)
    ensures Passes(SetAll(map[], ScreenerRun(f)), "marketCapMoreThan", IsNotNone, OfInt(f.marketCapMoreThan))
    ensures Passes(SetAll(map[], ScreenerRun(f)), "marketCapLowerThan", IsNotNone, OfInt(f.marketCapLowerThan))
    ensures Passes(SetAll(map[], ScreenerRun(f)), "priceMoreThan", IsNotNone, OfFloat(f.priceMoreThan))
    ensures Passes(SetAll(map[], ScreenerRun(f)), "priceLowerThan", IsNotNone, OfFloat(f.priceLowerThan))
    ensures Passes(SetAll(map[], ScreenerRun(f)), "betaMoreThan", IsNotNone, OfFloat(f.betaMoreThan))
    ensures Passes(SetAll(map[], ScreenerRun(f)), "betaLowerThan", IsNotNone, OfFloat(f.betaLowerThan))
    ensures Passes(SetAll(map[], ScreenerRun(f)), "volumeMoreThan", IsNotNone, OfInt(f.volumeMoreThan))
    ensures Passes(SetAll(map[], ScreenerRun(f)), "volumeLowerThan", IsNotNone, OfInt(f.volumeLowerThan))
    ensures Passes(SetAll(map[], ScreenerRun(f)), "dividendMoreThan", IsNotNone, OfFloat(f.dividendMoreThan))
    ensures Passes(SetAll(map[], ScreenerRun(f)), "dividendLowerThan", IsNotNone, OfFloat(f.dividendLowerThan))
    ensures Passes(SetAll(map[], ScreenerRun(f)), "sector", IsNotNone, OfStr(f.sector))
    ensures Passes(SetAll(map[], ScreenerRun(f)), "industry", IsNotNone, OfStr(f.industry))
    ensures Passes(SetAll(map[], ScreenerRun(f)), "country", IsNotNone, OfStr(f.country))
    ensures Passes(SetAll(map[], ScreenerRun(f)), "exchange", IsNotNone, OfStr(f.exchange))
    ensures Carries(SetAll(map[], ScreenerRun(f)), "isEtf", IsNotNone, OfBool(f.isEtf), BoolWire(f.isEtf))
    ensures Carries(SetAll(map[], ScreenerRun(f)), "isFund", IsNotNone, OfBool(f.isFund), BoolWire(f.isFund))
    ensures Carries(SetAll(map[], ScreenerRun(f)), "isActivelyTrading", IsNotNone, OfBool(f.isActivelyTrading), BoolWire(f.isActivelyTrading))
    ensures Passes(SetAll(map[], ScreenerRun(f)), "limit", IsNotNone, OfInt(f.limit))
  {
    var run := ScreenerRun(f);
    ScreenerKeysDistinct(f);
    SetAllCarries(map[], run, 0);
    SetAllCarries(map[], run, 1);
    SetAllCarries(map[], run, 2);
    SetAllCarries(map[], run, 3);
    SetAllCarries(map[], run, 4);
    SetAllCarries(map[], run, 5);
    SetAllCarries(map[], run, 6);
    SetAllCarries(map[], run, 7);
    SetAllCarries(map[], run, 8);
    SetAllCarries(map[], run, 9);
    SetAllCarries(map[], run, 10);
    SetAllCarries(map[], run, 11);
    SetAllCarries(map[], run, 12);
    SetAllCarries(map[], run, 13);
    SetAllCarries(map[], run, 14);
    SetAllCarries(map[], run, 15);
    SetAllCarries(map[], run, 16);
    SetAllCarries(map[], run, 17);
  }

  /**
   * The screener sends no key but the eighteen its statements name, and
   * with every filter None its query is empty.
   */
  lemma ScreenerSendsNothingElse(f: ScreenerFilters)
    ensures SetAll(map[], ScreenerRun(f)).Keys <= KeysOf(ScreenerRun(f))
    ensures f.marketCapMoreThan.None? && f.marketCapLowerThan.None? && f.priceMoreThan.None? && f.priceLowerThan.None? && f.betaMoreThan.None? && f.betaLowerThan.None? && f.volumeMoreThan.None? && f.volumeLowerThan.None? && f.dividendMoreThan.None? && f.dividendLowerThan.None? && f.sector.None? && f.industry.None? && f.country.None? && f.exchange.None? && f.isEtf.None? && f.isFund.None? && f.isActivelyTrading.None? && f.limit.None?
         ==> SetAll(map[], ScreenerRun(f)) == map[]
  {
    SetAllKeys(map[], ScreenerRun(f));
    if f.marketCapMoreThan.None? && f.marketCapLowerThan.None? && f.priceMoreThan.None? && f.priceLowerThan.None? && f.betaMoreThan.None? && f.betaLowerThan.None? && f.volumeMoreThan.None? && f.volumeLowerThan.None? && f.dividendMoreThan.None? && f.dividendLowerThan.None? && f.sector.None? && f.industry.None? && f.country.None? && f.exchange.None? && f.isEtf.None? && f.isFund.None? && f.isActivelyTrading.None? && f.limit.None? {
      SetAllNothingKept(map[], ScreenerRun(f));
    }
  }

  /** `search_stock_news`: "symbols" always, "page" and "limit" whenever they are not None (0 included). */
  method SearchStockNewsCall(symbols: string, page: Option<int> := None, limit: Option<int> := None)
    returns (call: ApiCall)
    ensures call.endpoint == "news/stock" && call.params.Some?
    ensures call.params.value.Keys <= {"symbols", "page", "limit"}
    ensures Holds(call.params.value, "symbols", PyStr(symbols))
    ensures Passes(call.params.value, "page", IsNotNone, OfInt(page))
    ensures Passes(call.params.value, "limit", IsNotNone, OfInt(limit))
  {
    var params: Dict := map["symbols" := PyStr(symbols)];
    if page.Some? { params := params["page" := PyInt(page.value)]; }
    if limit.Some? { params := params["limit" := PyInt(limit.value)]; }
    call := ApiCall("news/stock", Some(params));
  }
}
