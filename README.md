# fmp-python, modelled in Dafny

A model of the core of `fmp-python`, a client library for the Financial
Modeling Prep REST API. The model covers:

- how `FMPClient` normalises its base URL, joins endpoint paths and adds the
  api key to every query;
- how `_request` turns what httpx returns into parsed JSON, an `FMPAPIError`
  or an `FMPAuthError`;
- the client's exception hierarchy;
- for every endpoint method in `company.py`, `market.py`, `crypto.py` and
  `financials.py`: the route it calls and the query it builds. The screener
  and stock-news methods send an optional argument whenever it `is not None`.
  All the other endpoint files send it only when it is truthy;
- how responses become records: one record per item, in order, with the
  first failing item failing the whole call. This includes the hand-written
  bar-to-price loop of `get_crypto_intraday`.

Modules, one per concern:

| file | module | what it holds |
|---|---|---|
| `wrappers.dfy` | `Wrappers` | `Option`, `Result` |
| `values.dfy` | `Values` | Python values: `None`, bool, int, float (as IEEE-754 bits), str, list, dict; truthiness, `d[k]`, `d.get(k)`, `str(b).lower()` |
| `exceptions.dfy` | `Exceptions` | `FMPError` / `FMPAPIError` / `FMPAuthError` and `isinstance` |
| `client.dfy` | `Client` | the `FMPClient` class, `rstrip`/`lstrip`, URL join, api-key merge, the `try`/`except` decision table |
| `query.dfy` | `Query` | the `(endpoint, params)` pair handed to `_get`; the two omission rules (`is not None`, truthiness); a run of conditional insertions (`SetAll`) and its laws |
| `records.dfy` | `Records` | `for item in data` and `[Model(**item) for item in data]` |
| `endpoints.dfy` | `Endpoints` | the shared shape of an endpoint method: build, `_get`, return the JSON or the records |
| `company.dfy`, `market.dfy`, `crypto.dfy`, `financials.dfy` | `Company`, `Market`, `Crypto`, `Financials` | one module per endpoint file |

The HTTP transport is a parameter: a function from the request sent
(`HttpRequest`: verb, URL, query) to what came back (`Outcome`: a response
with status, text and parsed JSON, or a transport failure). Record models
are pydantic classes. Their validation is also a parameter,
`build: Dict -> Result<R, PyError>`, and the properties are stated for every
`build`.

In the `Company`, `Market`, `Crypto` and `Financials` modules, each endpoint
method is modelled as the builder of its call (`...Call`). The builder is a
function when the source writes a dict literal. It is a method when the source
inserts keys into `params` one conditional statement at a time. The
`Endpoints` module then gives the request and result of any such call:

- `FetchRaw` covers the methods that return the JSON as it is;
- `FetchRecords` covers the methods that build records;
- `Crypto.GetCryptoIntraday` is written out in full.

## Model

| member | source | states |
|---|---|---|
| Values.Subscript | fmp/endpoints/crypto.py:89 | `v[key]` succeeds exactly on a dict holding the key, returning its entry; it is KeyError on a dict without it and TypeError on anything else |
| Values.BoolParam | fmp/endpoints/company.py:179-184 | `str(b).lower()` is "true" or "false", and "true" exactly when b is True |
| Exceptions.Hierarchy | fmp/exceptions.py:4-19 | FMPAuthError derives from FMPAPIError, which derives from FMPError, and not the other way round |
| Exceptions.SubclassTransitive | fmp/exceptions.py:9-17 | subclassing is transitive along the chain |
| Exceptions.InstanceUpward | fmp/exceptions.py:17 | an instance of a class is an instance of every class above it, so `except FMPAPIError` catches FMPAuthError |
| Exceptions.RootAndStatus | fmp/exceptions.py:4-14 | every client exception is an FMPError; it is an FMPAPIError exactly when it carries a status-code field |
| Client.RStrip | fmp/client.py:29 | the result is a prefix of the input, does not end in the character, and only that character was removed |
| Client.RStripIdempotent | fmp/client.py:29 | stripping a stripped base URL changes nothing |
| Client.LStrip | fmp/client.py:68 | the result is a suffix of the input, does not start with the character, and only that character was removed |
| Client.JoinUrl | fmp/client.py:68 | the URL is the base, one '/', then the endpoint without its leading '/'s |
| Client.SingleSlashAtJoin | fmp/client.py:29-68 | after normalising the base, exactly one '/' separates base and endpoint |
| Client.WithApiKey | fmp/client.py:64-67 | the sent query has the caller's keys (none for None) plus "apikey"; "apikey" is the client's key and overrides the caller's; every other value is unchanged |
| Client.Classify | fmp/client.py:70-91 | transport failure gives FMPAPIError "Request failed: ..." with no status; 401 and 403 give FMPAuthError with fixed messages; any other non-2xx gives FMPAPIError "API request failed: <text>" with the status; a 2xx dict holding "Error Message" gives FMPAPIError with that entry and the status, which passes through the except clauses; it succeeds exactly otherwise, with the JSON |
| Client.FailuresAreAPIErrors | fmp/client.py:76-91 | every failure of a request is an FMPAPIError, and an FMPAuthError exactly for 401 and 403 |
| Client.FailureStatus | fmp/client.py:76-91 | a failure carries the response status, or no status when no response arrived |
| Client.DefaultAndCustomBase | fmp/client.py:25-29 | on the default root and two sample custom roots: the default and "https://custom.api.com/v1" are kept as they are, and "https://custom.api.com/v1//" loses its trailing '/'s (the general fact is Client.RStrip's contract) |
| Client.FMPClient.constructor | fmp/client.py:22-30 | the client keeps the key and timeout, and the base URL without trailing '/' |
| Client.FMPClient.Request | fmp/client.py:43-91 | the request sent is (method, joined URL, query with api key), and the result is Classify of the transport's answer |
| Client.FMPClient.Get | fmp/client.py:93-95 | `_get` is `_request` with "GET" |
| Query.SetAllAppend | fmp/endpoints/company.py:149-186 | performing two runs of conditional insertions one after the other is performing their concatenation |
| Query.Written | fmp/endpoints/company.py:151-186 | the keys a run writes are among the keys it names |
| Query.SetAllLeaves | fmp/endpoints/company.py:151-186 | a key no insertion names keeps its presence and value |
| Query.SetAllCarries | fmp/endpoints/company.py:151-186 | with distinct keys, each insertion's key ends up present exactly when its rule keeps the argument, with the value it writes |
| Query.SetAllNothingKept | fmp/endpoints/company.py:149-186 | when no rule keeps its argument, the dict is unchanged |
| Query.SetAllKeys | fmp/endpoints/company.py:149-186 | a run adds exactly the keys it writes |
| Query.ArgumentTests | fmp/endpoints/market.py:43-46 | Python's truthiness (`Values.Truthy`) on each annotated argument type: a str is kept by `if x:` unless None or "", an int unless None or 0, a float unless None or ±0.0, a bool only when True; `is not None` keeps every argument given |
| Query.RulesCompared | fmp/endpoints/company.py:151-152 | `is not None` and truthiness differ exactly on falsy non-None values (0, "", False): the first sends them, the second drops them; both drop None |
| Records.Rows | fmp/endpoints/company.py:29 | `for item in data` yields the items of a list, nothing for an empty dict or an empty string, and fails with TypeError otherwise (a non-empty dict or str yields strings that neither `Model(**item)` nor `item["date"]` accepts; other values are not iterable) |
| Records.Construct | fmp/endpoints/company.py:29 | `Model(**item)` is the model's validation of a dict item and TypeError for any other item |
| Records.MapItems | fmp/endpoints/company.py:29 | converting a list succeeds exactly when every item converts; it gives one result per item, in order; otherwise it fails with the error of the first failing item |
| Records.MapItemsStopsAtFailure | fmp/endpoints/crypto.py:87-91 | once a prefix has failed, the whole list fails with that error |
| Records.MapItemsStep | fmp/endpoints/crypto.py:87-91 | converting one more item appends its record or fails with its error |
| Records.FromListResponse | fmp/endpoints/financials.py:37 | `[Model(**item) for item in data]` (`Records.FromResponse`) on a list gives one record per item in order; it succeeds exactly when every item is a dict its model accepts |
| Records.NonListRows | fmp/endpoints/crypto.py:87 | a response that is not a list gives no records when it is `{}` or `""` and fails with TypeError otherwise, whatever the conversion |
| Endpoints.FetchRaw | fmp/endpoints/company.py:67 | a raw endpoint sends the call's GET request and returns Classify of the answer unchanged |
| Endpoints.FetchRecords | fmp/endpoints/company.py:28-29 | a typed endpoint sends the call's GET request; it succeeds only on a 2xx response, and gives the records of that response or the gateway's exception |
| Endpoints.TypedResultCases | fmp/endpoints/financials.py:36-37 | for any item conversion (`Endpoints.TypedResult`, shared by the comprehensions and the intraday loop): a gateway failure is returned untouched; a 2xx list gives one record per item in order, succeeding exactly when every item converts and failing with the first failing item's error; any other 2xx body without "Error Message" gives no records for `{}` or `""` and TypeError otherwise |
| Company.ProfileCall | fmp/endpoints/company.py:28 | "profile" with exactly the symbol |
| Company.SearchSymbolCall | fmp/endpoints/company.py:41 | "search-name" with exactly the query |
| Company.SearchByNameCall | fmp/endpoints/company.py:54 | "search-name" with exactly the query |
| Company.SearchByCikCall | fmp/endpoints/company.py:67 | route "cik_search/" + cik and no parameters |
| Company.SearchByCusipCall | fmp/endpoints/company.py:79 | "cusip" with exactly the CUSIP |
| Company.SearchByIsinCall | fmp/endpoints/company.py:91 | "search-isin" with exactly the ISIN |
| Company.StockListCall | fmp/endpoints/company.py:100 | "stock/list" with no parameters |
| Company.SearchSymbolIsSearchByName | fmp/endpoints/company.py:41-54 | search_symbol and search_by_name send the same request |
| Company.LookupQueries | fmp/endpoints/company.py:28-100 | each single-argument lookup sends its argument under its key plus the api key; the CIK search and stock list send only the api key, with the CIK in the route |
| Company.SendCapAndPrice | fmp/endpoints/company.py:151-158 | the four statements equal their run of insertions |
| Company.SendBetaAndVolume | fmp/endpoints/company.py:159-166 | the four statements equal their run of insertions |
| Company.SendDividend | fmp/endpoints/company.py:167-170 | the two statements equal their run of insertions |
| Company.SendClassification | fmp/endpoints/company.py:171-178 | the four statements equal their run of insertions |
| Company.SendFlagsAndLimit | fmp/endpoints/company.py:179-186 | the four statements equal their run of insertions |
| Company.ScreenStocksCall | fmp/endpoints/company.py:102-188 | `screen_stocks` calls "company-screener" with the dict built by its eighteen insertions in order |
| Company.ScreenerKeysDistinct | fmp/endpoints/company.py:151-186 | no two screener statements write the same key |
| Company.ScreenerSendsEachFilter | fmp/endpoints/company.py:151-186 | each filter is sent under its camelCase key exactly when it is not None (0, 0.0, "" and False included); booleans go as "true"/"false" and the rest unchanged |
| Company.ScreenerSendsNothingElse | fmp/endpoints/company.py:149-186 | no other key is sent, and with every filter None the query is empty |
| Company.SearchStockNewsCall | fmp/endpoints/company.py:211-218 | "news/stock" with "symbols" always and "page"/"limit" exactly when not None (0 included); nothing else |
| Market.QuoteCall | fmp/endpoints/market.py:20 | "quote" with exactly the symbol |
| Market.HistoricalChartCall | fmp/endpoints/market.py:23-48 | route "historical-chart/" + interval (default "1day"); "symbol" always; "from"/"to" exactly when truthy; nothing else |
| Market.HistoricalPriceCall | fmp/endpoints/market.py:51-78 | "historical-price-eod/light"; "symbol" always; "from", "to" and "timeseries" exactly when truthy (a timeseries of 0 is dropped); nothing else |
| Market.IndustryPeCall | fmp/endpoints/market.py:97-103 | "industry_pe"; "date" always; "exchange"/"industry" exactly when truthy; nothing else |
| Market.SectorPeCall | fmp/endpoints/market.py:122-128 | "sector_pe"; "date" always; "exchange"/"sector" exactly when truthy; nothing else |
| Market.IndustryPerformanceCall | fmp/endpoints/market.py:147-153 | "sector-performance"; "date" always; "exchange"/"industry" exactly when truthy; nothing else |
| Market.HistoricalSectorPeCall | fmp/endpoints/market.py:174-182 | "historical-sector-performance"; "sector" always; "exchange"/"from"/"to" exactly when truthy; nothing else |
| Crypto.CryptoQuoteCall | fmp/endpoints/crypto.py:20 | "quote" with exactly the symbol |
| Crypto.CryptoListCall | fmp/endpoints/crypto.py:30 | "symbol/available-cryptocurrencies" with no parameters |
| Crypto.CryptoQuoteIsQuote | fmp/endpoints/crypto.py:20 | a crypto quote is the stock quote request |
| Crypto.CryptoListQuery | fmp/endpoints/crypto.py:30 | the coin list sends only the api key |
| Crypto.CryptoHistoricalPriceCall | fmp/endpoints/crypto.py:50-56 | "historical-price-eod/light"; "symbol" always; "from"/"to" exactly when truthy; nothing else |
| Crypto.CryptoIntradayCall | fmp/endpoints/crypto.py:62-84 | route "historical-chart/" + interval (default "1min"); "symbol" always; "from"/"to" exactly when truthy; nothing else |
| Crypto.CryptoNewsLatestCall | fmp/endpoints/crypto.py:95-109 | "news/crypto-latest" with exactly "page" and "limit", whatever their values |
| Crypto.CryptoNewsLatestDefaults | fmp/endpoints/crypto.py:95-108 | by default, page 0 and limit 20 |
| Crypto.SearchCryptoNewsCall | fmp/endpoints/crypto.py:133-143 | "news/crypto"; "symbols", "page", "limit" always; "from"/"to" exactly when truthy; nothing else |
| Crypto.BarFields | fmp/endpoints/crypto.py:89 | one bar's record arguments: the caller's symbol, the bar's "date", its "close" as price, and its "volume" or None. It fails with TypeError on a non-dict, else KeyError("date"), else KeyError("close") |
| Crypto.PriceOfBar | fmp/endpoints/crypto.py:89 | one bar's record: the bar's error when its keyword arguments cannot be read, otherwise the record model applied to them |
| Crypto.IntradayPrices | fmp/endpoints/crypto.py:86-91 | the append loop yields exactly the item-by-item conversion of the response: all records in order, or the first item's error and no partial list |
| Crypto.GetCryptoIntraday | fmp/endpoints/crypto.py:59-91 | the GET request sent (route, symbol, truthy dates, api key, nothing else), and the result: `Endpoints.TypedResult` of the transport's answer with the bar conversion, so `Endpoints.TypedResultCases` applies to it |
| Crypto.IntradayRecords | fmp/endpoints/crypto.py:86-91 | on a list response: success exactly when every bar converts; then one record per bar in order, built from that bar; a bar that is not a dict or lacks "date" or "close" fails the whole call |
| Financials.StatementQueryExact | fmp/endpoints/financials.py:32-34 | the key-by-key description of a statement query ("period" always, "limit" exactly when truthy, nothing else) holds exactly for one dict |
| Financials.StatementDefaults | fmp/endpoints/financials.py:32-34 | the query built from the default period "annual" with no limit is exactly {"period": "annual"}; a limit of 0 gives the same query as no limit (the default itself is the methods' parameter default) |
| Financials.IncomeStatementCall | fmp/endpoints/financials.py:15-36 | route "income-statement/" + symbol, with the statement query |
| Financials.BalanceSheetCall | fmp/endpoints/financials.py:39-60 | route "balance-sheet-statement/" + symbol, with the statement query |
| Financials.CashFlowStatementCall | fmp/endpoints/financials.py:63-84 | route "cash-flow-statement/" + symbol, with the statement query |
| Financials.FinancialGrowthCall | fmp/endpoints/financials.py:87-108 | route "financial-growth/" + symbol, with the statement query |

## Left out

- httpx itself: connection handling, the timeout, URL encoding of the query and `response.json()`. The transport is a parameter. A body that is not JSON is not modelled; it would raise a decoding error that neither `except` clause catches.
- `raise_for_status` is taken to raise for every status outside 200-299, as current httpx does. An informational or redirect status that an older httpx let through is not distinguished.
- `close`, `__enter__` and `__exit__`: resource management of the httpx client, with no effect on requests.
- `_request` writes "apikey" into the dict the caller passed. The model works on values, so a caller that keeps its own dict and reuses it would see that key; the model does not capture this aliasing. No endpoint method reuses its dict.
- Record models (`fmp/models/*.py`): pydantic validation, coercion and aliases are the `build` parameter and are not modelled.
- Company.ScreenStocksCall: the keyword arguments are bundled into a `ScreenerFilters` value. The eighteen statements are performed by five helper methods in source order. Each helper is proved equal to its run of insertions, and the runs are composed with `SetAllAppend`.
- Values.Lower: `str.lower` is modelled for ASCII letters only, which covers "True" and "False", the only strings it is applied to.
- Dicts are Dafny maps, which have no order. Python keeps insertion order, and httpx encodes the query in that order (the screener's keys in statement order, then "apikey"); the model says which keys are sent with which values, not in what order.
- Endpoint arguments take their annotated types only. An `Optional[float]` filter of the screener given an int (`price_more_than=10`), which the source passes on unchanged, cannot be expressed; neither can any other argument of a type its annotation does not name.
- Floats are stored as IEEE-754 bit patterns and never computed with. Only their truthiness (not ±0.0) is used.
- Python integers are unbounded, like Dafny's `int`; no width is modelled because none applies.
- The package re-exports (`fmp/__init__.py`, `fmp/models/__init__.py`) and the test suite, which calls the live API.
