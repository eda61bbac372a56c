/**
 * Market endpoints: the quote, historical charts and prices, and the
 * industry and sector P/E and performance lookups. Every optional argument
 * here is sent only when it is truthy (`if x:`), so None, "" and 0 are all
 * left off the query.
 */
module Market {
  import opened Wrappers
  import opened Values
  import opened Query

  /** `get_quote`: the symbol under "symbol", on the "quote" route. */
  function QuoteCall(symbol: string): (call: ApiCall)
    ensures call.endpoint == "quote" && call.params.Some?
    ensures call.params.value.Keys == {"symbol"} && Holds(call.params.value, "symbol", PyStr(symbol))
  {
    ApiCall("quote", Some(map["symbol" := PyStr(symbol)]))
  }

  /** `get_historical_chart`: the interval is part of the route; "from" and "to" only when truthy. */
  method HistoricalChartCall(symbol: string, interval: string := "1day", fromDate: Option<string> := None, toDate: Option<string> := None)
    returns (call: ApiCall)
    ensures call.endpoint == "historical-chart/" + interval && call.params.Some?
    ensures call.params.value.Keys <= {"symbol", "from", "to"}
    ensures Holds(call.params.value, "symbol", PyStr(symbol))
    ensures Passes(call.params.value, "from", IsTruthy, OfStr(fromDate))
    ensures Passes(call.params.value, "to", IsTruthy, OfStr(toDate))
  {
    var params: Dict := map["symbol" := PyStr(symbol)];
    if fromDate.Some? && fromDate.value != "" { params := params["from" := PyStr(fromDate.value)]; }
    if toDate.Some? && toDate.value != "" { params := params["to" := PyStr(toDate.value)]; }
    call := ApiCall("historical-chart/" + interval, Some(params));
  }

  /** `get_historical_price`: "from", "to" and "timeseries" only when truthy, so a timeseries of 0 is dropped. */
  method HistoricalPriceCall(symbol: string, fromDate: Option<string> := None, toDate: Option<string> := None, timeseries: Option<int> := None)
    returns (call: ApiCall)
    ensures call.endpoint == "historical-price-eod/light" && call.params.Some?
    ensures call.params.value.Keys <= {"symbol", "from", "to", "timeseries"}
    ensures Holds(call.params.value, "symbol", PyStr(symbol))
    ensures Passes(call.params.value, "from", IsTruthy, OfStr(fromDate))
    ensures Passes(call.params.value, "to", IsTruthy, OfStr(toDate))
    ensures Passes(call.params.value, "timeseries", IsTruthy, OfInt(timeseries))
  {
    var params: Dict := map["symbol" := PyStr(symbol)];
    if fromDate.Some? && fromDate.value != "" { params := params["from" := PyStr(fromDate.value)]; }
    if toDate.Some? && toDate.value != "" { params := params["to" := PyStr(toDate.value)]; }
    if timeseries.Some? && timeseries.value != 0 { params := params["timeseries" := PyInt(timeseries.value)]; }
    call := ApiCall("historical-price-eod/light", Some(params));
  }

  /** `get_industry_pe`: "date" always, "exchange" and "industry" only when truthy. */
  method IndustryPeCall(date: string, exchange: Option<string> := None, industry: Option<string> := None)
    returns (call: ApiCall)
    ensures call.endpoint == "industry_pe" && call.params.Some?
    ensures call.params.value.Keys <= {"date", "exchange", "industry"}
    ensures Holds(call.params.value, "date", PyStr(date))
    ensures Passes(call.params.value, "exchange", IsTruthy, OfStr(exchange))
    ensures Passes(call.params.value, "industry", IsTruthy, OfStr(industry))
  {
    var params: Dict := map["date" := PyStr(date)];
    if exchange.Some? && exchange.value != "" { params := params["exchange" := PyStr(exchange.value)]; }
    if industry.Some? && industry.value != "" { params := params["industry" := PyStr(industry.value)]; }
    call := ApiCall("industry_pe", Some(params));
  }

  /** `get_sector_pe`: "date" always, "exchange" and "sector" only when truthy. */
  method SectorPeCall(date: string, exchange: Option<string> := None, sector: Option<string> := None)
    returns (call: ApiCall)
    ensures call.endpoint == "sector_pe" && call.params.Some?
    ensures call.params.value.Keys <= {"date", "exchange", "sector"}
    ensures Holds(call.params.value, "date", PyStr(date))
    ensures Passes(call.params.value, "exchange", IsTruthy, OfStr(exchange))
    ensures Passes(call.params.value, "sector", IsTruthy, OfStr(sector))
  {
    var params: Dict := map["date" := PyStr(date)];
    if exchange.Some? && exchange.value != "" { params := params["exchange" := PyStr(exchange.value)]; }
    if sector.Some? && sector.value != "" { params := params["sector" := PyStr(sector.value)]; }
    call := ApiCall("sector_pe", Some(params));
  }

  /**
   * `get_industry_performance`: the same query as `get_industry_pe`, sent to
   * the "sector-performance" route.
   */
  method IndustryPerformanceCall(date: string, exchange: Option<string> := None, industry: Option<string> := None)
    returns (call: ApiCall)
    ensures call.endpoint == "sector-performance" && call.params.Some?
    ensures call.params.value.Keys <= {"date", "exchange", "industry"}
    ensures Holds(call.params.value, "date", PyStr(date))
    ensures Passes(call.params.value, "exchange", IsTruthy, OfStr(exchange))
    ensures Passes(call.params.value, "industry", IsTruthy, OfStr(industry))
  {
    var params: Dict := map["date" := PyStr(date)];
    if exchange.Some? && exchange.value != "" { params := params["exchange" := PyStr(exchange.value)]; }
    if industry.Some? && industry.value != "" { params := params["industry" := PyStr(industry.value)]; }
    call := ApiCall("sector-performance", Some(params));
  }

  /** `get_historical_sector_pe`: "sector" always, "exchange", "from" and "to" only when truthy. */
  method HistoricalSectorPeCall(sector: string, exchange: Option<string> := None, fromDate: Option<string> := None, toDate: Option<string> := None)
    returns (call: ApiCall)
    ensures call.endpoint == "historical-sector-performance" && call.params.Some?
    ensures call.params.value.Keys <= {"sector", "exchange", "from", "to"}
    ensures Holds(call.params.value, "sector", PyStr(sector))
    ensures Passes(call.params.value, "exchange", IsTruthy, OfStr(exchange))
    ensures Passes(call.params.value, "from", IsTruthy, OfStr(fromDate))
    ensures Passes(call.params.value, "to", IsTruthy, OfStr(toDate))
  {
    var params: Dict := map["sector" := PyStr(sector)];
    if exchange.Some? && exchange.value != "" { params := params["exchange" := PyStr(exchange.value)]; }
    if fromDate.Some? && fromDate.value != "" { params := params["from" := PyStr(fromDate.value)]; }
    if toDate.Some? && toDate.value != "" { params := params["to" := PyStr(toDate.value)]; }
    call := ApiCall("historical-sector-performance", Some(params));
  }
}
