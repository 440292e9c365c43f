/** `handleRequest`: the routing of every incoming request, checked in a
    fixed order. Requests for the admin page, the documentation and tax
    calculation are handed to their handlers; the rest are answered here. */
module Server {
  import opened Wrappers
  import opened Strings
  import opened Types
  import opened Cors
  import opened Http

  /** Where a request goes. */
  datatype Route =
    | Preflight
    | Health
    | AdminPage
    | SwaggerUi
    | OpenApiSpec
    | UsageDocs
    | TaxCalculation
    | NotFound

  /** The plain-text usage guide served at the root without a key. Only
      its title line is kept: the rest is static text. */
  const ApiDocs := "Tax Calculator API - Usage Guide"

  lemma ApiDocsNamesTheApi()
    ensures Contains(ApiDocs, "Tax Calculator API")
  {
    assert ApiDocs == "" + "Tax Calculator API" + " - Usage Guide";
    ContainsMiddle("", "Tax Calculator API", " - Usage Guide");
  }

  /** The route chosen for a request with method `verb`, URL path
      `path` and `x-api-key` header `apiKey`. */
  function SelectRoute(verb: string, path: string, apiKey: Option<string>): (r: Route)
    // A preflight request is answered whatever its path.
    ensures verb == "OPTIONS" <==> r == Preflight
    ensures verb != "OPTIONS" ==>
      && (path == "/health" <==> r == Health)
      && (path == "/admin" || path == "/admin/" <==> r == AdminPage)
      && (path == "/docs" <==> r == SwaggerUi)
      && (path == "/docs/openapi.json" <==> r == OpenApiSpec)
    // The root serves the usage guide exactly when the key is missing or
    // empty, and calculates tax otherwise.
    ensures r == UsageDocs <==> verb != "OPTIONS" && (path == "/" || path == "") && !Present(apiKey)
    ensures r == TaxCalculation <==> verb != "OPTIONS" && (path == "/" || path == "") && Present(apiKey)
    ensures r == NotFound <==>
      verb != "OPTIONS" && path !in {"/health", "/admin", "/admin/", "/docs", "/docs/openapi.json", "/", ""}
  {
    if verb == "OPTIONS" then Preflight
    else if path == "/health" then Health
    else if path == "/admin" || path == "/admin/" then AdminPage
    else if path == "/docs" then SwaggerUi
    else if path == "/docs/openapi.json" then OpenApiSpec
    else if path == "/" || path == "" then (if !Present(apiKey) then UsageDocs else TaxCalculation)
    else NotFound
  }

  /** Apart from `OPTIONS`, the method plays no part in routing. */
  lemma RouteIgnoresMethod(m1: string, m2: string, path: string, apiKey: Option<string>)
    requires m1 != "OPTIONS" && m2 != "OPTIONS"
    ensures SelectRoute(m1, path, apiKey) == SelectRoute(m2, path, apiKey)
  {
  }

  /** What `handleRequest` does: answer itself, or hand the request on. */
  datatype Dispatch =
    | Respond(response: Response)
    | ToAdmin
    | ToSwaggerUi
    | ToOpenApiJson
    | ToTax

  /** `handleRequest(req)`; `now` is the ISO time the health check reports. */
  function HandleRequest(verb: string, path: string, apiKey: Option<string>, now: string): (d: Dispatch)
    ensures SelectRoute(verb, path, apiKey) == Preflight ==>
      d == Respond(Response(200, WithCors(map[]), Text("ok")))
    ensures SelectRoute(verb, path, apiKey) == Health ==>
      && d.Respond? && d.response.status == 200
      && d.response.headers == JsonHeaders()
      && d.response.body.JsonValue?
      && d.response.body.value.JObject?
      && ("status", JString("ok")) in d.response.body.value.members
    ensures SelectRoute(verb, path, apiKey) == UsageDocs ==>
      && d.Respond? && d.response.status == 200
      && d.response.headers == WithCors(map["content-type" := "text/plain; charset=utf-8"])
      && d.response.body.Text?
      && Contains(d.response.body.text, "Tax Calculator API")
    ensures SelectRoute(verb, path, apiKey) == NotFound ==>
      d == Respond(Response(404, JsonHeaders(), JsonValue(JObject([("error", JString("Not found"))]))))
    // Only the tax route ever reaches the tax handler.
    ensures d == ToTax <==> SelectRoute(verb, path, apiKey) == TaxCalculation
    ensures d == ToAdmin <==> SelectRoute(verb, path, apiKey) == AdminPage
    ensures d == ToSwaggerUi <==> SelectRoute(verb, path, apiKey) == SwaggerUi
    ensures d == ToOpenApiJson <==> SelectRoute(verb, path, apiKey) == OpenApiSpec
  {
    match SelectRoute(verb, path, apiKey)
    case Preflight => Respond(Response(200, WithCors(map[]), Text("ok")))
    case Health =>
      var body := JObject([("status", JString("ok")), ("timestamp", JString(now))]);
      assert ("status", JString("ok")) == body.members[0];
      Respond(Response(200, JsonHeaders(), JsonValue(body)))
    case AdminPage => ToAdmin
    case SwaggerUi => ToSwaggerUi
    case OpenApiSpec => ToOpenApiJson
    case UsageDocs =>
      ApiDocsNamesTheApi();
      Respond(Response(200, WithCors(map["content-type" := "text/plain; charset=utf-8"]), Text(ApiDocs)))
    case TaxCalculation => ToTax
    case NotFound => Respond(Response(404, JsonHeaders(), JsonValue(JObject([("error", JString("Not found"))]))))
  }
}
