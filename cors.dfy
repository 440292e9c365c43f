/** `addCorsHeaders`: a copy of the given headers with the three CORS
    headers set. Header names are kept lower-cased, as the Headers API
    stores them. */
module Cors {

  type Headers = map<string, string>

  const CorsHeaders: seq<(string, string)> := [
    ("access-control-allow-origin", "*"),
    ("access-control-allow-headers", "authorization, x-client-info, apikey, content-type, x-api-key"),
    ("access-control-allow-methods", "GET, POST, OPTIONS")
  ]

  const CorsNames: set<string> := {"access-control-allow-origin", "access-control-allow-headers", "access-control-allow-methods"}

  /** The headers that setting `entries` one after the other produces. */
  function EntriesMap(entries: seq<(string, string)>): Headers
  {
    if entries == [] then map[]
    else EntriesMap(entries[..|entries| - 1])[entries[|entries| - 1].0 := entries[|entries| - 1].1]
  }

  /** Setting the CORS entries one after the other gives each CORS name
      its fixed value. */
  lemma CorsEntriesMap()
    ensures EntriesMap(CorsHeaders) == map[
      "access-control-allow-origin" := "*",
      "access-control-allow-headers" := "authorization, x-client-info, apikey, content-type, x-api-key",
      "access-control-allow-methods" := "GET, POST, OPTIONS"]
  {
    var c := CorsHeaders;
    assert c[..1][..0] == [];
    assert EntriesMap(c[..1]) == map[c[0].0 := c[0].1];
    assert c[..2][..1] == c[..1];
    assert EntriesMap(c[..2]) == map[c[0].0 := c[0].1, c[1].0 := c[1].1];
    assert c[..|c| - 1] == c[..2];
  }

  /** The headers with the CORS entries merged in: every CORS name holds
      its fixed value, every other given header is kept as it was, and no
      other header appears. */
  function WithCors(h: Headers): (r: Headers)
    ensures forall i :: 0 <= i < |CorsHeaders| ==> CorsHeaders[i].0 in r && r[CorsHeaders[i].0] == CorsHeaders[i].1
    ensures forall n :: n in h && n !in CorsNames ==> n in r && r[n] == h[n]
    ensures r.Keys == h.Keys + CorsNames
  {
    CorsEntriesMap();
    h + EntriesMap(CorsHeaders)
  }

  /** Merging twice is merging once. */
  lemma WithCorsIdempotent(h: Headers)
    ensures WithCors(WithCors(h)) == WithCors(h)
  {
  }

  /** `addCorsHeaders(headers)`: copies the headers, then sets each CORS
      entry in turn. The argument is a value, so it is left as it was. */
  method AddCorsHeaders(headers: Headers) returns (responseHeaders: Headers)
    ensures responseHeaders == WithCors(headers)
  {
    responseHeaders := headers;
    for i := 0 to |CorsHeaders|
      invariant responseHeaders == headers + EntriesMap(CorsHeaders[..i])
    {
      var (key, value) := CorsHeaders[i];
      assert CorsHeaders[..i + 1][..i] == CorsHeaders[..i];
      responseHeaders := responseHeaders[key := value];
    }
    assert CorsHeaders[..|CorsHeaders|] == CorsHeaders;
  }

  /** The headers of a JSON response. */
  function JsonHeaders(): Headers
  {
    WithCors(map["content-type" := "application/json"])
  }
}
