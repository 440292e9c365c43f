/** `handleTaxRequest`: validate the key, forward the query upstream, log
    it for either tier, and for the prod tier track the cost and notify
    with the updated totals; then echo the upstream answer. Any error on
    the way becomes a JSON error response. */
module TaxRoute {
  import opened Wrappers
  import opened Strings
  import opened Types
  import opened MonthKeys
  import opened ApiKey
  import opened Cors
  import opened Http
  import opened QueryLogger
  import opened CostTracker
  import opened Slack

  /** The incoming request as the handler reads it: the `x-api-key`
      header and the four query parameters, each possibly absent. */
  datatype TaxRequest = TaxRequest(
    apiKey: Option<string>,
    street: Option<string>, city: Option<string>, zip: Option<string>, country: Option<string>)

  /** The environment settings the pipeline reads. */
  datatype Config = Config(secrets: Secrets, costPerCall: int, slackWebhookUrl: Option<string>)

  /** The upstream body: parsed JSON, or the parser's error message. */
  datatype UpstreamBody = Parsed(value: Json) | NotJson(message: string)

  /** How the upstream call ends: `fetch` fails with a message, or an
      answer with a status code arrives. */
  datatype Upstream = Unreachable(message: string) | Answered(status: int, body: UpstreamBody)

  /** The side effects of one request, in the order they happen. */
  datatype Step =
    | Forwarded(params: seq<(string, string)>)
    | QueryLogged(entry: QueryLog)
    | CostTracked(stats: Result<CostStats, string>)
    | Notified(post: Option<SlackPost>)

  /** `url.searchParams.get(name) || ""`. */
  function Param(p: Option<string>): (s: string)
    ensures s == "" <==> !Present(p)
    ensures Present(p) ==> s == p.value
  {
    if Present(p) then p.value else ""
  }

  function NormaliseQuery(req: TaxRequest): TaxQuery
  {
    TaxQuery(Param(req.street), Param(req.city), Param(req.zip), Param(req.country))
  }

  /** The query string sent upstream, in the order the parameters are set. */
  function ForwardParams(q: TaxQuery): seq<(string, string)>
  {
    [("street", q.street), ("city", q.city), ("zip", q.zip), ("country", q.country)]
  }

  /** The message of the error thrown when the upstream call or the
      parsing of its body fails. */
  function FailureMessage(u: Upstream): string
  {
    match u
    case Unreachable(message) => message
    case Answered(_, NotJson(message)) => message
    case Answered(_, Parsed(_)) => ""
  }

  /** The status of an error response: 401 when the message mentions
      "Unauthorized", 500 otherwise. */
  function ErrorStatus(message: string): int
  {
    if Contains(message, "Unauthorized") then 401 else 500
  }

  /** The catch block: the message as a JSON error, with its status. */
  method ErrorResponse(message: string) returns (resp: Response)
    ensures Contains(message, "Unauthorized") ==> resp.status == 401
    ensures !Contains(message, "Unauthorized") ==> resp.status == 500
    ensures resp.body == JsonValue(ErrorBody(message))
    ensures resp.headers == JsonHeaders()
  {
    var statusCode := ErrorStatus(message);
    var headers := AddCorsHeaders(map["content-type" := "application/json"]);
    resp := Response(statusCode, headers, JsonValue(ErrorBody(message)));
  }

  /** Whether the trace holds a cost-tracking step. */
  predicate Charges(trace: seq<Step>)
  {
    exists i :: 0 <= i < |trace| && trace[i].CostTracked?
  }

  /** Forwarding is not a cost-tracking step. */
  lemma ChargesAfterForward(first: Step, rest: seq<Step>)
    requires first.Forwarded?
    ensures Charges([first] + rest) <==> Charges(rest)
  {
    if Charges(rest) {
      var i :| 0 <= i < |rest| && rest[i].CostTracked?;
      assert ([first] + rest)[i + 1] == rest[i];
    }
    if Charges([first] + rest) {
      var i :| 0 <= i < |[first] + rest| && ([first] + rest)[i].CostTracked?;
      assert rest[i - 1] == ([first] + rest)[i];
    }
  }

  /** The prod-only tail of the pipeline: the cost is tracked, and when
      the write succeeds the notification carries the totals the tracker
      returns; when it fails, the directory is as it was and nothing is
      sent. `loadedCost` is the current month's record as it loads before. */
  ghost predicate Billed(
    config: Config, query: TaxQuery, costAt: Instant, costSave: SaveOutcome, slackTime: string,
    costsBefore: map<string, Stored<MonthlyCostLog>>, costsAfter: map<string, Stored<MonthlyCostLog>>,
    loadedCost: MonthlyCostLog, steps: seq<Step>)
  {
    var updated := Charged(loadedCost, CostLog(costAt.iso, config.costPerCall));
    match costSave
    case Saved =>
      && costsAfter == costsBefore[CurrentMonth(costAt) := Stored.Parsed(updated)]
      && steps == [
           CostTracked(Ok(CostStats(updated.totalInvocations, updated.totalCost, config.costPerCall))),
           Notified(SendSlackNotification(config.slackWebhookUrl, query,
                                          updated.totalInvocations, updated.totalCost, slackTime))]
    case SaveFailed(message) =>
      && costsAfter == costsBefore
      && steps == [CostTracked(Err(message))]
  }

  /** Track the cost and notify; `failure` carries the message of a
      failed cost write. */
  method BillProd(config: Config, query: TaxQuery, costAt: Instant, costSave: SaveOutcome,
                  slackTime: string, costs: CostStore)
    returns (failure: Option<string>, steps: seq<Step>)
    requires costs.Valid()
    modifies costs
    ensures costs.Valid()
    ensures Billed(config, query, costAt, costSave, slackTime,
                   old(costs.files), costs.files, old(costs.LoadMonthlyCost(CurrentMonth(costAt))), steps)
    ensures costSave.Saved? ==> failure == None
    ensures costSave.SaveFailed? ==> failure == Some(costSave.message)
  {
    var costStats := costs.TrackCost(costAt, config.costPerCall, costSave);
    steps := [CostTracked(costStats)];
    if costStats.Err? {
      failure := Some(costStats.error);
      return;
    }
    failure := None;
    var post := SendSlackNotification(config.slackWebhookUrl, query,
                                      costStats.value.totalInvocations, costStats.value.totalCost, slackTime);
    steps := steps + [Notified(post)];
  }

  /** What the pipeline does once the upstream body has parsed into
      `data` with status `statusCode`, for a key of tier `kind`:
      `logsBefore`/`logsAfter` and `costsBefore`/`costsAfter` are the two
      directories before and after, `loadedLog` and `loadedCost` the
      current months' records as they load before.
      - Exactly one log entry is written, for either tier; a failed write
        leaves the log directory as it was.
      - A test call is not billed and echoes the upstream answer.
      - A prod call is billed whatever the upstream status; the
        notification carries the updated totals and the answer is echoed,
        or, when the cost write fails, an error response is returned.
      - A cost-tracking step happens exactly for prod keys. */
  ghost predicate Answered(
    config: Config, kind: ApiKeyType, query: TaxQuery, statusCode: int, data: Json,
    logAt: Instant, logSave: SaveOutcome, costAt: Instant, costSave: SaveOutcome, slackTime: string,
    logsBefore: map<string, Stored<MonthlyQueryLog>>, logsAfter: map<string, Stored<MonthlyQueryLog>>,
    loadedLog: MonthlyQueryLog,
    costsBefore: map<string, Stored<MonthlyCostLog>>, costsAfter: map<string, Stored<MonthlyCostLog>>,
    loadedCost: MonthlyCostLog,
    resp: Response, steps: seq<Step>)
  {
    var entry := QueryLog(logAt.iso, TierName(kind), query, data, statusCode);
    && |steps| >= 1 && steps[0] == QueryLogged(entry)
    && (logSave.Saved? ==> logsAfter == logsBefore[CurrentMonth(logAt) := Stored.Parsed(Logged(loadedLog, entry))])
    && (logSave.SaveFailed? ==> logsAfter == logsBefore)
    && (kind == Test ==>
          && |steps| == 1
          && costsAfter == costsBefore
          && resp == Response(statusCode, JsonHeaders(), JsonValue(data)))
    && (kind == Prod ==>
          && Billed(config, query, costAt, costSave, slackTime, costsBefore, costsAfter, loadedCost, steps[1..])
          && (costSave.Saved? ==> resp == Response(statusCode, JsonHeaders(), JsonValue(data)))
          && (costSave.SaveFailed? ==>
                resp == Response(ErrorStatus(costSave.message), JsonHeaders(), JsonValue(ErrorBody(costSave.message)))))
    && (Charges(steps) <==> kind == Prod)
  }

  /** The pipeline once the upstream body has parsed. */
  method AnswerParsed(
    config: Config, kind: ApiKeyType, query: TaxQuery, statusCode: int, data: Json,
    logAt: Instant, logSave: SaveOutcome,
    costAt: Instant, costSave: SaveOutcome,
    slackTime: string,
    logs: QueryLogStore, costs: CostStore)
    returns (resp: Response, steps: seq<Step>)
    requires kind != Invalid
    requires logs.Valid() && costs.Valid()
    modifies logs, costs
    ensures logs.Valid() && costs.Valid()
    ensures Answered(config, kind, query, statusCode, data, logAt, logSave, costAt, costSave, slackTime,
                     old(logs.files), logs.files, old(logs.LoadMonthlyLog(CurrentMonth(logAt))),
                     old(costs.files), costs.files, old(costs.LoadMonthlyCost(CurrentMonth(costAt))),
                     resp, steps)
  {
    logs.LogQuery(logAt, TierName(kind), query, data, statusCode, logSave);
    steps := [QueryLogged(QueryLog(logAt.iso, TierName(kind), query, data, statusCode))];
    if kind == Prod {
      var failure, billing := BillProd(config, query, costAt, costSave, slackTime, costs);
      steps := steps + billing;
      assert steps[1..] == billing && steps[1].CostTracked?;
      if failure.Some? {
        resp := ErrorResponse(failure.value);
        return;
      }
    }
    var headers := AddCorsHeaders(map["content-type" := "application/json"]);
    resp := Response(statusCode, headers, JsonValue(data));
    assert kind == Test ==> steps == [steps[0]];
  }

  /** What the pipeline does once the key has been classified as `kind`
      and the query normalised (the arguments read as in `Answered`):
      the query is forwarded first; when the upstream call fails or its
      body does not parse, the result is an error response carrying the
      message and nothing is logged or billed; otherwise the rest of the
      trace is as `Answered` describes. */
  ghost predicate Served(
    config: Config, kind: ApiKeyType, query: TaxQuery, upstream: Upstream,
    logAt: Instant, logSave: SaveOutcome, costAt: Instant, costSave: SaveOutcome, slackTime: string,
    logsBefore: map<string, Stored<MonthlyQueryLog>>, logsAfter: map<string, Stored<MonthlyQueryLog>>,
    loadedLog: MonthlyQueryLog,
    costsBefore: map<string, Stored<MonthlyCostLog>>, costsAfter: map<string, Stored<MonthlyCostLog>>,
    loadedCost: MonthlyCostLog,
    resp: Response, trace: seq<Step>)
  {
    && |trace| >= 1 && trace[0] == Forwarded(ForwardParams(query))
    && (!(upstream.Answered? && upstream.body.Parsed?) ==>
          && resp == Response(ErrorStatus(FailureMessage(upstream)), JsonHeaders(),
                              JsonValue(ErrorBody(FailureMessage(upstream))))
          && |trace| == 1
          && logsAfter == logsBefore && costsAfter == costsBefore)
    && (upstream.Answered? && upstream.body.Parsed? ==>
          Answered(config, kind, query, upstream.status, upstream.body.value,
                   logAt, logSave, costAt, costSave, slackTime,
                   logsBefore, logsAfter, loadedLog, costsBefore, costsAfter, loadedCost,
                   resp, trace[1..]))
    && (Charges(trace) <==> kind == Prod && upstream.Answered? && upstream.body.Parsed?)
  }

  /** The pipeline after a successful key check. */
  method ServeValid(
    config: Config, kind: ApiKeyType, query: TaxQuery, upstream: Upstream,
    logAt: Instant, logSave: SaveOutcome,
    costAt: Instant, costSave: SaveOutcome,
    slackTime: string,
    logs: QueryLogStore, costs: CostStore)
    returns (resp: Response, trace: seq<Step>)
    requires kind != Invalid
    requires logs.Valid() && costs.Valid()
    modifies logs, costs
    ensures logs.Valid() && costs.Valid()
    ensures Served(config, kind, query, upstream, logAt, logSave, costAt, costSave, slackTime,
                   old(logs.files), logs.files, old(logs.LoadMonthlyLog(CurrentMonth(logAt))),
                   old(costs.files), costs.files, old(costs.LoadMonthlyCost(CurrentMonth(costAt))),
                   resp, trace)
  {
    trace := [Forwarded(ForwardParams(query))];
    if upstream.Unreachable? || upstream.body.NotJson? {
      resp := ErrorResponse(FailureMessage(upstream));
      return;
    }
    var steps;
    resp, steps := AnswerParsed(config, kind, query, upstream.status, upstream.body.value,
                                logAt, logSave, costAt, costSave, slackTime, logs, costs);
    trace := trace + steps;
    assert trace[1..] == steps;
    ChargesAfterForward(trace[0], steps);
  }

  /** `handleTaxRequest(req)`. The clock readings, the outcome of each
      write and of the upstream call, and the Slack timestamp are given.
      An invalid or missing key gives 401 and nothing else happens;
      otherwise the request is served as `Served` describes, for the tier
      the key belongs to and the query with absent parameters read as "". */
  method HandleTaxRequest(
    config: Config, req: TaxRequest, upstream: Upstream,
    logAt: Instant, logSave: SaveOutcome,
    costAt: Instant, costSave: SaveOutcome,
    slackTime: string,
    logs: QueryLogStore, costs: CostStore)
    returns (resp: Response, trace: seq<Step>)
    requires logs.Valid() && costs.Valid()
    modifies logs, costs
    ensures logs.Valid() && costs.Valid()
    ensures !ValidateApiKey(config.secrets, req.apiKey).isValid ==>
      && resp == Response(401, JsonHeaders(), JsonValue(ErrorBody(UnauthorizedMessage)))
      && trace == []
      && logs.files == old(logs.files) && costs.files == old(costs.files)
    ensures ValidateApiKey(config.secrets, req.apiKey).isValid ==>
      Served(config, ValidateApiKey(config.secrets, req.apiKey).kind, NormaliseQuery(req), upstream,
             logAt, logSave, costAt, costSave, slackTime,
             old(logs.files), logs.files, old(logs.LoadMonthlyLog(CurrentMonth(logAt))),
             old(costs.files), costs.files, old(costs.LoadMonthlyCost(CurrentMonth(costAt))),
             resp, trace)
  {
    var validation := RequireApiKey(config.secrets, req.apiKey);
    if validation.Err? {
      trace := [];
      resp := ErrorResponse(validation.error);
      return;
    }
    resp, trace := ServeValid(config, validation.value.kind, NormaliseQuery(req), upstream,
                              logAt, logSave, costAt, costSave, slackTime, logs, costs);
  }
}
