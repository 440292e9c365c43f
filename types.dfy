/** The record shapes shared by the stores, the request pipeline and the
    admin dashboard. Costs are integer minor units (hundredths of a rupee). */
module Types {

  /** A JSON value, enough to carry an upstream body through a log entry
      and back out in a response. Numbers are integers in this model. */
  datatype Json =
    | JNull
    | JBool(b: bool)
    | JNumber(n: int)
    | JString(s: string)
    | JArray(items: seq<Json>)
    | JObject(members: seq<(string, Json)>)

  /** The normalised query parameters; a parameter the caller left out is
      the empty string. */
  datatype TaxQuery = TaxQuery(street: string, city: string, zip: string, country: string)

  /** One logged request. `apiKey` holds the tier name, "test" or "prod". */
  datatype QueryLog = QueryLog(timestamp: string, apiKey: string, query: TaxQuery, response: Json, statusCode: int)

  /** All logged requests of one month, keyed "YYYY-MM", in arrival order. */
  datatype MonthlyQueryLog = MonthlyQueryLog(month: string, queries: seq<QueryLog>)

  /** One billed call and what it cost. */
  datatype CostLog = CostLog(timestamp: string, cost: int)

  /** The month's cost ledger with its running totals. */
  datatype MonthlyCostLog = MonthlyCostLog(month: string, totalInvocations: int, totalCost: int, invocations: seq<CostLog>)

  /** What a month file holds: a record that parses, or text that does not. */
  datatype Stored<T> = Parsed(value: T) | Corrupt

  /** How a write of a month file ends; a failure carries the error message. */
  datatype SaveOutcome = Saved | SaveFailed(message: string)

  function QueryMonth(r: MonthlyQueryLog): string { r.month }

  function CostMonth(r: MonthlyCostLog): string { r.month }
}
