/**
 * Cryptocurrency endpoints: quotes, the coin list, end-of-day and intraday
 * prices and news. Optional dates are sent only when truthy; the news
 * pagination arguments are always sent. `get_crypto_intraday` is the one
 * endpoint that builds its records itself, by a loop over the chart bars.
 */
module Crypto {
  import opened Wrappers
  import opened Values
  import opened Query
  import opened Records
  import opened Client
  import opened Endpoints
  import Market

  /** `get_crypto_quote`: the symbol under "symbol", on the "quote" route. */
  function CryptoQuoteCall(symbol: string): (call: ApiCall)
    ensures call.endpoint == "quote" && call.params.Some?
    ensures call.params.value.Keys == {"symbol"} && Holds(call.params.value, "symbol", PyStr(symbol))
  {
    ApiCall("quote", Some(map["symbol" := PyStr(symbol)]))
  }

  /** A crypto quote is the stock quote request, symbol for symbol. */
  lemma CryptoQuoteIsQuote(symbol: string)
    ensures CryptoQuoteCall(symbol) == Market.QuoteCall(symbol)
  {
  }

  /** `get_crypto_list`: no parameters at all. */
  function CryptoListCall(): (call: ApiCall)
    ensures call.endpoint == "symbol/available-cryptocurrencies" && call.params.None?
  {
    ApiCall("symbol/available-cryptocurrencies", None)
  }

  /** On the wire, the coin list sends the api key and nothing else. */
  lemma CryptoListQuery(apiKey: string)
    ensures WithApiKey(CryptoListCall().params, apiKey) == map[ApiKeyParam := PyStr(apiKey)]
  {
  }

  /** `get_crypto_historical_price`: "symbol" always, "from" and "to" only when truthy. */
  method CryptoHistoricalPriceCall(symbol: string, fromDate: Option<string> := None, toDate: Option<string> := None)
    returns (call: ApiCall)
    ensures call.endpoint == "historical-price-eod/light" && call.params.Some?
    ensures call.params.value.Keys <= {"symbol", "from", "to"}
    ensures Holds(call.params.value, "symbol", PyStr(symbol))
    ensures Passes(call.params.value, "from", IsTruthy, OfStr(fromDate))
    ensures Passes(call.params.value, "to", IsTruthy, OfStr(toDate))
  {
    var params: Dict := map["symbol" := PyStr(symbol)];
    if fromDate.Some? && fromDate.value != "" { params := params["from" := PyStr(fromDate.value)]; }
    if toDate.Some? && toDate.value != "" { params := params["to" := PyStr(toDate.value)]; }
    call := ApiCall("historical-price-eod/light", Some(params));
  }

  /** The request half of `get_crypto_intraday`: the interval is part of the route; "from" and "to" only when truthy. */
  method CryptoIntradayCall(symbol: string, interval: string := "1min", fromDate: Option<string> := None, toDate: Option<string> := None)
    returns (call: ApiCall)
    ensures call.endpoint == "historical-chart/" + interval && call.params.Some?
    ensures call.params.value.Keys <= {"symbol", "from", "to"}
    ensures Holds(call.params.value, "symbol", PyStr(symbol))
    ensures Passes(call.params.value, "from", IsTruthy, OfStr(fromDate))
    ensures Passes(call.params.value, "to", IsTruthy, OfStr(toDate))
  {
    var params: Dict := map["symbol" := PyStr(symbol)];
    if fromDate.Some? && fromDate.value != "" { params := params["from" := PyStr(fromDate.value)]; }
    if toDate.Some? && toDate.value != "" { params := params["to" := PyStr(toDate.value)]; }
    call := ApiCall("historical-chart/" + interval, Some(params));
  }

  /** `get_crypto_news_latest`: "page" and "limit" always, whatever their value. */
  function CryptoNewsLatestCall(page: int := 0, limit: int := 20): (call: ApiCall)
    ensures call.endpoint == "news/crypto-latest" && call.params.Some?
    ensures call.params.value.Keys == {"page", "limit"}
    ensures Holds(call.params.value, "page", PyInt(page)) && Holds(call.params.value, "limit", PyInt(limit))
  {
    ApiCall("news/crypto-latest", Some(map["page" := PyInt(page), "limit" := PyInt(limit)]))
  }

  /** Called with no arguments, the latest news asks for page 0 of 20 articles. */
  lemma CryptoNewsLatestDefaults()
    ensures CryptoNewsLatestCall().params == Some(map["page" := PyInt(0), "limit" := PyInt(20)])
  {
  }

  /** `search_crypto_news`: "symbols", "page" and "limit" always (0 included), "from" and "to" only when truthy. */
  method SearchCryptoNewsCall(symbols: string, fromDate: Option<string> := None, toDate: Option<string> := None, page: int := 0, limit: int := 20)
    returns (call: ApiCall)
    ensures call.endpoint == "news/crypto" && call.params.Some?
    ensures call.params.value.Keys <= {"symbols", "page", "limit", "from", "to"}
    ensures Holds(call.params.value, "symbols", PyStr(symbols))
    ensures Holds(call.params.value, "page", PyInt(page)) && Holds(call.params.value, "limit", PyInt(limit))
    ensures Passes(call.params.value, "from", IsTruthy, OfStr(fromDate))
    ensures Passes(call.params.value, "to", IsTruthy, OfStr(toDate))
  {
    var params: Dict := map["symbols" := PyStr(symbols), "page" := PyInt(page), "limit" := PyInt(limit)];
    if fromDate.Some? && fromDate.value != "" { params := params["from" := PyStr(fromDate.value)]; }
    if toDate.Some? && toDate.value != "" { params := params["to" := PyStr(toDate.value)]; }
    call := ApiCall("news/crypto", Some(params));
  }

  /**
   * The keyword arguments `get_crypto_intraday` passes to
   * `CryptoHistoricalPrice` for one chart bar: the caller's symbol, the bar's
   * "date", its "close" as the price and its "volume" or None. `bar["date"]`
   * is evaluated before `bar["close"]`, so a bar lacking both fails on "date".
   */
  function BarFields(symbol: string, bar: Value): (r: Result<Dict, PyError>)
    ensures r.Success? <==> bar.PyDict? && "date" in bar.entries && "close" in bar.entries
    ensures r.Success? ==> && r.value.Keys == {"symbol", "date", "price", "volume"}
                           && r.value["symbol"] == PyStr(symbol)
                           && r.value["date"] == bar.entries["date"]
                           && r.value["price"] == bar.entries["close"]
                           && r.value["volume"] == (if "volume" in bar.entries then bar.entries["volume"] else PyNone)
    ensures r.Failure? ==> r.error == (if !bar.PyDict? then TypeError else if "date" !in bar.entries then KeyError("date") else KeyError("close"))
  {
    var date :- Subscript(bar, "date");
    var close :- Subscript(bar, "close");
    Success(map["symbol" := PyStr(symbol), "date" := date, "price" := close, "volume" := DictGet(bar.entries, "volume")])
  }

  /**
   * One bar turned into a record: its keyword arguments, then the record
   * model `build` (the model's own validation is not modelled).
   */
  function PriceOfBar<R>(symbol: string, build: Dict -> Result<R, PyError>, bar: Value): (r: Result<R, PyError>)
    ensures BarFields(symbol, bar).Failure? ==> r == Failure(BarFields(symbol, bar).error)
    ensures BarFields(symbol, bar).Success? ==> r == build(BarFields(symbol, bar).value)
  {
    var fields :- BarFields(symbol, bar);
    build(fields)
  }

  /** PriceOfBar as a function of the bar alone. */
  function BarConverter<R>(symbol: string, build: Dict -> Result<R, PyError>): Value -> Result<R, PyError> {
    bar => PriceOfBar(symbol, build, bar)
  }

  /**
   * The loop of `get_crypto_intraday`: for each item of the response, append
   * its record; the first item that cannot be converted ends the call with
   * its error and no partial list.
   */
  method IntradayPrices<R>(symbol: string, data: Value, build: Dict -> Result<R, PyError>)
    returns (r: Result<seq<R>, PyError>)
    ensures r == MapRows(data, BarConverter(symbol, build))
  {
    var conv := BarConverter(symbol, build);
    var rows := Rows(data);
    if rows.Failure? {
      return Failure(rows.error);
    }
    var items := rows.value;
    var result: seq<R> := [];
    var i := 0;
    while i < |items|
      invariant 0 <= i <= |items|
      invariant MapItems(items[..i], conv) == Success(result)
    {
      var record := PriceOfBar(symbol, build, items[i]);
      assert conv(items[i]) == record;
      MapItemsStep(items, i, conv);
      if record.Failure? {
        MapItemsStopsAtFailure(items, i + 1, conv);
        return Failure(record.error);
      }
      result := result + [record.value];
      i := i + 1;
    }
    assert items[..i] == items;
    r := Success(result);
  }

  /**
   * `get_crypto_intraday`: the request it sends (route, symbol, truthy dates,
   * api key and nothing else) and what it returns for the transport's answer.
   */
  method GetCryptoIntraday<R>(client: FMPClient, transport: HttpRequest -> Outcome, build: Dict -> Result<R, PyError>,
                              symbol: string, interval: string := "1min", fromDate: Option<string> := None, toDate: Option<string> := None)
    returns (sent: HttpRequest, r: Result<seq<R>, CallError>)
    ensures sent.verb == "GET" && sent.url == JoinUrl(client.baseUrl, "historical-chart/" + interval)
    ensures sent.query.Keys <= {"symbol", "from", "to", ApiKeyParam}
    ensures Holds(sent.query, "symbol", PyStr(symbol)) && Holds(sent.query, ApiKeyParam, PyStr(client.apiKey))
    ensures Passes(sent.query, "from", IsTruthy, OfStr(fromDate))
    ensures Passes(sent.query, "to", IsTruthy, OfStr(toDate))
    ensures r == TypedResult(transport(sent), BarConverter(symbol, build))
  {
    var call := CryptoIntradayCall(symbol, interval, fromDate, toDate);
    var data;
    sent, data := FetchRaw(client, transport, call);
    if data.Failure? {
      return sent, Failure(Api(data.error));
    }
    var records := IntradayPrices(symbol, data.value, build);
    if records.Failure? {
      return sent, Failure(Runtime(records.error));
    }
    r := Success(records.value);
  }

  /**
   * On a list response, `get_crypto_intraday` returns one record per bar in
   * the bars' order, each built from the caller's symbol and the bar's date,
   * close and volume; a bar that is not a dict or lacks "date" or "close"
   * makes the whole call fail.
   */
  lemma IntradayRecords<R>(bars: seq<Value>, symbol: string, build: Dict -> Result<R, PyError>)
    ensures var r := MapRows(PyList(bars), BarConverter(symbol, build));
      && (r.Success? <==> forall i :: 0 <= i < |bars| ==>
            BarFields(symbol, bars[i]).Success? && build(BarFields(symbol, bars[i]).value).Success?)
      && (r.Success? ==> |r.value| == |bars| && forall i :: 0 <= i < |bars| ==>
            r.value[i] == build(BarFields(symbol, bars[i]).value).value)
      && ((exists i :: 0 <= i < |bars| && !(bars[i].PyDict? && "date" in bars[i].entries && "close" in bars[i].entries)) ==> r.Failure?)
  {
    var conv := BarConverter(symbol, build);
    assert forall i :: 0 <= i < |bars| ==> conv(bars[i]) == PriceOfBar(symbol, build, bars[i]);
  }
}
