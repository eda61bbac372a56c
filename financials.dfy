/**
 * Financial statement endpoints: income statement, balance sheet, cash flow
 * statement and financial growth. The symbol travels in the route; the query
 * is "period" (always sent) and "limit" (sent only when truthy, so 0 and
 * None are both dropped).
 */
module Financials {
  import opened Wrappers
  import opened Values
  import opened Query

  /** The query every statement method builds, as a plain value. */
  function StatementParams(period: string, limit: Option<int>): Dict {
    if limit.Some? && limit.value != 0 then map["period" := PyStr(period), "limit" := PyInt(limit.value)]
    else map["period" := PyStr(period)]
  }

  /** A statement query, key by key: "period" always, "limit" exactly when truthy, nothing else. */
  predicate IsStatementQuery(params: Dict, period: string, limit: Option<int>) {
    && params.Keys <= {"period", "limit"}
    && Holds(params, "period", PyStr(period))
    && Passes(params, "limit", IsTruthy, OfInt(limit))
  }

  /**
   * The key-by-key description pins the query down: a dict meets it exactly
   * when it is StatementParams.
   */
  lemma {:induction false} StatementQueryExact(params: Dict, period: string, limit: Option<int>)
    ensures IsStatementQuery(params, period, limit) <==> params == StatementParams(period, limit)
  {
    var expected := StatementParams(period, limit);
    if IsStatementQuery(params, period, limit) {
      assert params.Keys == expected.Keys;
      forall k | k in params ensures params[k] == expected[k] {
        assert k == "period" || k == "limit";
      }
    }
  }

  /** The default period is "annual", and a limit of 0 is the same as no limit. */
  lemma StatementDefaults(period: string)
    ensures StatementParams("annual", None) == map["period" := PyStr("annual")]
    ensures StatementParams(period, Some(0)) == StatementParams(period, None)
  {
  }

  /** `get_income_statement`. */
  method IncomeStatementCall(symbol: string, period: string := "annual", limit: Option<int> := None)
    returns (call: ApiCall)
    ensures call.endpoint == "income-statement/" + symbol && call.params.Some?
    ensures IsStatementQuery(call.params.value, period, limit)
  {
    var params: Dict := map["period" := PyStr(period)];
    if limit.Some? && limit.value != 0 { params := params["limit" := PyInt(limit.value)]; }
    call := ApiCall("income-statement/" + symbol, Some(params));
  }

  /** `get_balance_sheet`. */
  method BalanceSheetCall(symbol: string, period: string := "annual", limit: Option<int> := None)
    returns (call: ApiCall)
    ensures call.endpoint == "balance-sheet-statement/" + symbol && call.params.Some?
    ensures IsStatementQuery(call.params.value, period, limit)
  {
    var params: Dict := map["period" := PyStr(period)];
    if limit.Some? && limit.value != 0 { params := params["limit" := PyInt(limit.value)]; }
    call := ApiCall("balance-sheet-statement/" + symbol, Some(params));
  }

  /** `get_cash_flow_statement`. */
  method CashFlowStatementCall(symbol: string, period: string := "annual", limit: Option<int> := None)
    returns (call: ApiCall)
    ensures call.endpoint == "cash-flow-statement/" + symbol && call.params.Some?
    ensures IsStatementQuery(call.params.value, period, limit)
  {
    var params: Dict := map["period" := PyStr(period)];
    if limit.Some? && limit.value != 0 { params := params["limit" := PyInt(limit.value)]; }
    call := ApiCall("cash-flow-statement/" + symbol, Some(params));
  }

  /** `get_financial_growth`. */
  method FinancialGrowthCall(symbol: string, period: string := "annual", limit: Option<int> := None)
    returns (call: ApiCall)
    ensures call.endpoint == "financial-growth/" + symbol && call.params.Some?
    ensures IsStatementQuery(call.params.value, period, limit)
  {
    var params: Dict := map["period" := PyStr(period)];
    if limit.Some? && limit.value != 0 { params := params["limit" := PyInt(limit.value)]; }
    call := ApiCall("financial-growth/" + symbol, Some(params));
  }
}
