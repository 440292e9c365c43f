/** `handleAdminUI`: the password-protected admin page. A POST submits the
    login form; any other request shows the login page unless it carries
    an `admin_session` cookie, in which case the dashboard is built from
    every month of the query log and the cost ledger. */
module Admin {
  import opened Wrappers
  import opened Strings
  import opened Types
  import opened Sorting
  import opened Cors
  import opened QueryLogger
  import opened CostTracker

  // ---------------------------------------------------------------------
  // Login
  // ---------------------------------------------------------------------

  /** `checkPassword(password)`: the password is the test API key, which
      must be configured. An absent password never matches. */
  function CheckPassword(testApiKey: Option<string>, password: Option<string>): (ok: bool)
    ensures ok <==> testApiKey.Some? && password.Some? && password.value == testApiKey.value
    ensures password.None? ==> !ok
  {
    testApiKey.Some? && password == Some(testApiKey.value)
  }

  /** `formData.get("password")?.toString() || null`: a missing or empty
      field reads as no password. */
  function FormPassword(field: Option<string>): (password: Option<string>)
    ensures password.Some? <==> Present(field)
    ensures password.Some? ==> password == field
  {
    if Present(field) then field else None
  }

  /** An empty password field never logs in, even when the test key is
      configured as the empty string. */
  lemma EmptyPasswordRejected(testApiKey: Option<string>)
    ensures !CheckPassword(testApiKey, FormPassword(Some("")))
    ensures !CheckPassword(testApiKey, FormPassword(None))
  {
  }

  /** The cookie set after a successful login, for session token `token`. */
  function SessionCookie(token: string): (cookie: string)
    ensures Contains(cookie, "admin_session=")
  {
    ContainsMiddle("", "admin_session=", token + "; HttpOnly; Path=/admin; Max-Age=3600; SameSite=Lax");
    "admin_session=" + token + "; HttpOnly; Path=/admin; Max-Age=3600; SameSite=Lax"
  }

  /** `cookies?.includes("admin_session=")`: the only session check made;
      the token's value is never inspected. */
  predicate HasSession(cookie: Option<string>)
  {
    cookie.Some? && Contains(cookie.value, "admin_session=")
  }

  /** A cookie header that echoes the login cookie passes the gate. */
  lemma SessionCookieOpensGate(token: string)
    ensures HasSession(Some(SessionCookie(token)))
  {
  }

  // ---------------------------------------------------------------------
  // Dashboard aggregates
  // ---------------------------------------------------------------------

  /** How many entries were made with the key tier named `tier`. */
  function TierCount(queries: seq<QueryLog>, tier: string): (n: nat)
    ensures n <= |queries|
  {
    if queries == [] then 0
    else (if queries[0].apiKey == tier then 1 else 0) + TierCount(queries[1..], tier)
  }

  predicate KnownTier(q: QueryLog)
  {
    q.apiKey == "test" || q.apiKey == "prod"
  }

  /** Prod and test entries never outnumber all entries, and they make up
      all of them exactly when every entry is of one of the two tiers. */
  lemma {:induction false} TierCountSplit(queries: seq<QueryLog>)
    ensures TierCount(queries, "prod") + TierCount(queries, "test") <= |queries|
    ensures TierCount(queries, "prod") + TierCount(queries, "test") == |queries| <==>
      forall i :: 0 <= i < |queries| ==> KnownTier(queries[i])
  {
    if queries != [] {
      TierCountSplit(queries[1..]);
      if !KnownTier(queries[0]) {
        assert TierCount(queries, "prod") + TierCount(queries, "test") < |queries|;
      } else if forall i :: 0 <= i < |queries[1..]| ==> KnownTier(queries[1..][i]) {
        forall i | 0 <= i < |queries| ensures KnownTier(queries[i]) {
          if i > 0 {
            assert queries[i] == queries[1..][i - 1];
          }
        }
      } else {
        var i :| 0 <= i < |queries[1..]| && !KnownTier(queries[1..][i]);
        assert queries[i + 1] == queries[1..][i];
      }
    }
  }

  /** One more logged entry adds one to its own tier's count and nothing
      to any other tier's. */
  lemma {:induction false} TierCountLogged(r: MonthlyQueryLog, entry: QueryLog, tier: string)
    ensures TierCount(Logged(r, entry).queries, tier)
         == TierCount(r.queries, tier) + (if entry.apiKey == tier then 1 else 0)
  {
    TierCountAppend(r.queries, entry, tier);
  }

  lemma {:induction false} TierCountAppend(queries: seq<QueryLog>, entry: QueryLog, tier: string)
    ensures TierCount(queries + [entry], tier) == TierCount(queries, tier) + (if entry.apiKey == tier then 1 else 0)
  {
    if queries != [] {
      assert (queries + [entry])[1..] == queries[1..] + [entry];
      TierCountAppend(queries[1..], entry, tier);
    }
  }

  /** `totalQueries`: the number of entries over all months. */
  function TotalQueries(logs: seq<MonthlyQueryLog>): nat
  {
    if logs == [] then 0 else |logs[0].queries| + TotalQueries(logs[1..])
  }

  /** `prodQueries` and `testQueries`: the entries of one tier over all months. */
  function TierQueries(logs: seq<MonthlyQueryLog>, tier: string): nat
  {
    if logs == [] then 0 else TierCount(logs[0].queries, tier) + TierQueries(logs[1..], tier)
  }

  /** Over all months, prod and test entries never outnumber all entries,
      and they make up all of them exactly when every entry is of one of
      the two tiers. */
  lemma {:induction false} TierQueriesSplit(logs: seq<MonthlyQueryLog>)
    ensures TierQueries(logs, "prod") + TierQueries(logs, "test") <= TotalQueries(logs)
    ensures TierQueries(logs, "prod") + TierQueries(logs, "test") == TotalQueries(logs) <==>
      forall i, j :: 0 <= i < |logs| && 0 <= j < |logs[i].queries| ==> KnownTier(logs[i].queries[j])
  {
    if logs != [] {
      TierCountSplit(logs[0].queries);
      TierQueriesSplit(logs[1..]);
      var rest := logs[1..];
      if forall i, j :: 0 <= i < |logs| && 0 <= j < |logs[i].queries| ==> KnownTier(logs[i].queries[j]) {
        assert forall j :: 0 <= j < |logs[0].queries| ==> KnownTier(logs[0].queries[j]);
        forall i, j | 0 <= i < |rest| && 0 <= j < |rest[i].queries|
          ensures KnownTier(rest[i].queries[j])
        {
          assert rest[i] == logs[i + 1];
        }
      } else {
        var i, j :| 0 <= i < |logs| && 0 <= j < |logs[i].queries| && !KnownTier(logs[i].queries[j]);
        if i > 0 {
          assert logs[i] == rest[i - 1];
        }
      }
    }
  }

  /** `totalCost`: the ledger totals summed over all months. */
  function TotalCost(costs: seq<MonthlyCostLog>): int
  {
    if costs == [] then 0 else costs[0].totalCost + TotalCost(costs[1..])
  }

  /** Every billed call of every month, month by month. */
  function AllInvocations(costs: seq<MonthlyCostLog>): seq<CostLog>
  {
    if costs == [] then [] else costs[0].invocations + AllInvocations(costs[1..])
  }

  /** When each month's counters agree with its entries, as the cost
      tracker keeps them, the dashboard's total cost is the cost of every
      billed call recorded. */
  lemma {:induction false} TotalCostOfCalls(costs: seq<MonthlyCostLog>)
    requires forall i :: 0 <= i < |costs| ==> Consistent(costs[i])
    ensures TotalCost(costs) == SumCosts(AllInvocations(costs))
  {
    if costs != [] {
      TotalCostOfCalls(costs[1..]);
      SumCostsConcat(costs[0].invocations, AllInvocations(costs[1..]));
    }
  }

  /** A row of `monthlyQueryData`. */
  datatype QueryMonthRow = QueryMonthRow(month: string, total: nat, prod: nat, test: nat)

  /** A row of `monthlyCostData`. */
  datatype CostMonthRow = CostMonthRow(month: string, cost: int, invocations: int)

  /** `monthlyQueryData`: one row per month, in the order of `logs`, with
      the month's entry count split by tier. */
  function MonthlyQueryData(logs: seq<MonthlyQueryLog>): (rows: seq<QueryMonthRow>)
    ensures |rows| == |logs|
    ensures forall i :: 0 <= i < |logs| ==>
      && rows[i].month == logs[i].month
      && rows[i].total == |logs[i].queries|
      && rows[i].prod == TierCount(logs[i].queries, "prod")
      && rows[i].test == TierCount(logs[i].queries, "test")
      && rows[i].prod + rows[i].test <= rows[i].total
  {
    assert forall i :: 0 <= i < |logs| ==>
      TierCount(logs[i].queries, "prod") + TierCount(logs[i].queries, "test") <= |logs[i].queries| by {
      forall i | 0 <= i < |logs| {
        TierCountSplit(logs[i].queries);
      }
    }
    seq(|logs|, i requires 0 <= i < |logs| =>
      QueryMonthRow(logs[i].month, |logs[i].queries|,
                    TierCount(logs[i].queries, "prod"), TierCount(logs[i].queries, "test")))
  }

  /** `monthlyCostData`: one row per month, in the order of `costs`. */
  function MonthlyCostData(costs: seq<MonthlyCostLog>): (rows: seq<CostMonthRow>)
    ensures |rows| == |costs|
    ensures forall i :: 0 <= i < |costs| ==>
      rows[i].month == costs[i].month && rows[i].cost == costs[i].totalCost &&
      rows[i].invocations == costs[i].totalInvocations
    ensures forall i :: 0 <= i < |costs| && Consistent(costs[i]) ==>
      rows[i].invocations == |costs[i].invocations| && rows[i].cost == SumCosts(costs[i].invocations)
  {
    seq(|costs|, i requires 0 <= i < |costs| =>
      CostMonthRow(costs[i].month, costs[i].totalCost, costs[i].totalInvocations))
  }

  /** An entry of `allQueries`: a log entry tagged with its month. */
  datatype TaggedQuery = TaggedQuery(entry: QueryLog, month: string)

  function EntryTime(x: TaggedQuery): string
  {
    x.entry.timestamp
  }

  function Tagged(log: MonthlyQueryLog): seq<TaggedQuery>
  {
    seq(|log.queries|, j requires 0 <= j < |log.queries| => TaggedQuery(log.queries[j], log.month))
  }

  /** `allQueries` before sorting: every month's entries, month by month. */
  function AllQueries(logs: seq<MonthlyQueryLog>): seq<TaggedQuery>
  {
    if logs == [] then [] else Tagged(logs[0]) + AllQueries(logs[1..])
  }

  /** `allQueries` holds every entry once: as many as `totalQueries`. */
  lemma {:induction false} AllQueriesCount(logs: seq<MonthlyQueryLog>)
    ensures |AllQueries(logs)| == TotalQueries(logs)
  {
    if logs != [] {
      AllQueriesCount(logs[1..]);
    }
  }

  /** Every tagged entry comes from a month's log and carries that month. */
  lemma {:induction false} AllQueriesSound(logs: seq<MonthlyQueryLog>, x: TaggedQuery)
    requires x in AllQueries(logs)
    ensures exists i :: 0 <= i < |logs| && x.month == logs[i].month && x.entry in logs[i].queries
  {
    if x in Tagged(logs[0]) {
      assert 0 < |logs| && x.month == logs[0].month && x.entry in logs[0].queries;
    } else {
      AllQueriesSound(logs[1..], x);
      var i :| 0 <= i < |logs[1..]| && x.month == logs[1..][i].month && x.entry in logs[1..][i].queries;
      assert logs[i + 1] == logs[1..][i];
    }
  }

  /** Every entry of every month appears in `allQueries`, tagged with its month. */
  lemma {:induction false} AllQueriesComplete(logs: seq<MonthlyQueryLog>, i: nat, j: nat)
    requires i < |logs| && j < |logs[i].queries|
    ensures TaggedQuery(logs[i].queries[j], logs[i].month) in AllQueries(logs)
  {
    if i == 0 {
      assert Tagged(logs[0])[j] == TaggedQuery(logs[i].queries[j], logs[i].month);
    } else {
      assert logs[1..][i - 1] == logs[i];
      AllQueriesComplete(logs[1..], i - 1, j);
    }
  }

  /** How many entries the dashboard lists. */
  const RecentLimit := 50

  /** A prefix of a newest-first sequence holds its newest entries: each
      one left out is no newer than any one kept. */
  lemma SortedPrefixNewest(s: seq<TaggedQuery>, n: nat)
    requires SortedDescending(s, EntryTime) && n <= |s|
    ensures SortedDescending(s[..n], EntryTime)
    ensures multiset(s[..n]) <= multiset(s)
    ensures forall x, y :: x in multiset(s) - multiset(s[..n]) && y in s[..n] ==>
      LexLe(EntryTime(x), EntryTime(y))
  {
    assert s == s[..n] + s[n..];
    assert multiset(s) == multiset(s[..n]) + multiset(s[n..]);
    forall x, y | x in multiset(s) - multiset(s[..n]) && y in s[..n]
      ensures LexLe(EntryTime(x), EntryTime(y))
    {
      assert x in multiset(s[n..]);
      var k :| 0 <= k < |s[n..]| && s[n..][k] == x;
      var l :| 0 <= l < n && s[l] == y;
      assert s[n + k] == x;
    }
  }

  /** `recentQueries`: `all` sorted by timestamp, newest first, cut to the
      first 50. The result is the 50 newest entries (all of them when there
      are fewer), newest first: nothing left out is newer than anything
      kept. The sort is stable, so `from`, the position in `all` of each
      entry kept, settles ties: entries with the same timestamp stay in
      their order in `all`, and at the cut the earlier ones are kept. */
  method RecentQueries(all: seq<TaggedQuery>) returns (recent: seq<TaggedQuery>, ghost from: seq<int>)
    ensures |recent| == if |all| < RecentLimit then |all| else RecentLimit
    ensures SortedDescending(recent, EntryTime)
    ensures multiset(recent) <= multiset(all)
    ensures forall x, y :: x in multiset(all) - multiset(recent) && y in recent ==>
      LexLe(EntryTime(x), EntryTime(y))
    ensures |from| == |recent|
    ensures forall i :: 0 <= i < |recent| ==> 0 <= from[i] < |all| && recent[i] == all[from[i]]
    ensures forall i, j :: 0 <= i < j < |recent| ==> from[i] != from[j]
    ensures forall i, j :: 0 <= i < j < |recent| && EntryTime(recent[i]) == EntryTime(recent[j]) ==>
      from[i] < from[j]
    ensures forall k, i :: 0 <= k < |all| && k !in from && 0 <= i < |recent| ==>
      (EntryTime(all[k]) == EntryTime(recent[i]) ==> from[i] < k)
  {
    var s;
    ghost var perm;
    s, perm := SortedCopy(all, EntryTime);
    var n := if |s| < RecentLimit then |s| else RecentLimit;
    SortedPrefixNewest(s, n);
    StableCut(all, s, perm, EntryTime, n);
    recent := s[..n];
    from := perm[..n];
  }

  /** What the dashboard shows. */
  datatype DashboardData = DashboardData(
    totalQueries: nat, totalCost: int, prodQueries: nat, testQueries: nat,
    monthlyQueryData: seq<QueryMonthRow>, monthlyCostData: seq<CostMonthRow>,
    recentQueries: seq<TaggedQuery>)

  /** The facts the dashboard's numbers always satisfy. */
  ghost predicate Coherent(d: DashboardData)
  {
    && d.prodQueries + d.testQueries <= d.totalQueries
    && (forall i :: 0 <= i < |d.monthlyQueryData| ==>
          d.monthlyQueryData[i].prod + d.monthlyQueryData[i].test <= d.monthlyQueryData[i].total)
    && |d.recentQueries| <= RecentLimit
    && SortedDescending(d.recentQueries, EntryTime)
  }

  /** The dashboard's numbers for the months `logs` and `costs` as read. */
  method BuildDashboard(logs: seq<MonthlyQueryLog>, costs: seq<MonthlyCostLog>) returns (d: DashboardData, ghost from: seq<int>)
    ensures d.totalQueries == TotalQueries(logs)
    ensures d.totalCost == TotalCost(costs)
    ensures d.prodQueries == TierQueries(logs, "prod") && d.testQueries == TierQueries(logs, "test")
    ensures d.monthlyQueryData == MonthlyQueryData(logs)
    ensures d.monthlyCostData == MonthlyCostData(costs)
    ensures |d.recentQueries| == if TotalQueries(logs) < RecentLimit then TotalQueries(logs) else RecentLimit
    ensures multiset(d.recentQueries) <= multiset(AllQueries(logs))
    ensures forall x, y :: x in multiset(AllQueries(logs)) - multiset(d.recentQueries) && y in d.recentQueries ==>
      LexLe(EntryTime(x), EntryTime(y))
    ensures |from| == |d.recentQueries|
    ensures forall i :: 0 <= i < |from| ==> 0 <= from[i] < |AllQueries(logs)| && d.recentQueries[i] == AllQueries(logs)[from[i]]
    ensures forall i, j :: 0 <= i < j < |from| && EntryTime(d.recentQueries[i]) == EntryTime(d.recentQueries[j]) ==>
      from[i] < from[j]
    ensures forall k, i :: 0 <= k < |AllQueries(logs)| && k !in from && 0 <= i < |from| ==>
      (EntryTime(AllQueries(logs)[k]) == EntryTime(d.recentQueries[i]) ==> from[i] < k)
    ensures Coherent(d)
  {
    TierQueriesSplit(logs);
    AllQueriesCount(logs);
    var recent;
    recent, from := RecentQueries(AllQueries(logs));
    d := DashboardData(
      TotalQueries(logs), TotalCost(costs), TierQueries(logs, "prod"), TierQueries(logs, "test"),
      MonthlyQueryData(logs), MonthlyCostData(costs), recent);
  }

  // ---------------------------------------------------------------------
  // The handler
  // ---------------------------------------------------------------------

  /** The login form as parsed: the `password` field, or a body that does
      not parse as a form. */
  datatype Form = Unparseable | Fields(password: Option<string>)

  /** An admin request: its method, its form (read only for POST) and its
      `Cookie` header. */
  datatype AdminRequest = AdminRequest(verb: string, form: Form, cookie: Option<string>)

  datatype Page = LoginPage | InvalidPasswordPage | NoPage | Dashboard(data: DashboardData)

  datatype AdminReply = AdminReply(status: int, headers: Headers, page: Page)

  function HtmlHeaders(): Headers
  {
    WithCors(map["content-type" := "text/html"])
  }

  /** `handleAdminUI(req)`, with the configured test key and the session
      token the login would mint. */
  method HandleAdminUI(req: AdminRequest, testApiKey: Option<string>, sessionToken: string,
                       logs: QueryLogStore, costs: CostStore)
    returns (reply: AdminReply)
    requires logs.Valid() && costs.Valid()
    // Login: a body that is not a form shows the login page; a wrong
    // password gets 401; the right one a redirect that sets the session
    // cookie, without CORS headers.
    ensures req.verb == "POST" && req.form.Unparseable? ==>
      reply == AdminReply(200, HtmlHeaders(), LoginPage)
    ensures req.verb == "POST" && req.form.Fields? ==>
      if CheckPassword(testApiKey, FormPassword(req.form.password)) then
        reply == AdminReply(302, map["set-cookie" := SessionCookie(sessionToken), "location" := "/admin"], NoPage)
      else
        reply == AdminReply(401, HtmlHeaders(), InvalidPasswordPage)
    // Anything else: no session cookie, no data.
    ensures req.verb != "POST" && !HasSession(req.cookie) ==>
      reply == AdminReply(200, HtmlHeaders(), LoginPage)
    ensures req.verb != "POST" && HasSession(req.cookie) ==>
      && reply.status == 200 && reply.headers == HtmlHeaders()
      && reply.page.Dashboard? && Coherent(reply.page.data)
    // The dashboard is shown only behind the session cookie.
    ensures reply.page.Dashboard? ==> req.verb != "POST" && HasSession(req.cookie)
  {
    if req.verb == "POST" {
      match req.form {
        case Unparseable =>
          reply := AdminReply(200, HtmlHeaders(), LoginPage);
        case Fields(field) =>
          var password := FormPassword(field);
          if !CheckPassword(testApiKey, password) {
            var headers := AddCorsHeaders(map["content-type" := "text/html"]);
            reply := AdminReply(401, headers, InvalidPasswordPage);
          } else {
            var headers := map["set-cookie" := SessionCookie(sessionToken), "location" := "/admin"];
            reply := AdminReply(302, headers, NoPage);
          }
      }
      return;
    }
    if !HasSession(req.cookie) {
      reply := AdminReply(200, HtmlHeaders(), LoginPage);
      return;
    }
    var allLogs := logs.GetAllLogs();
    var allCosts := costs.GetAllCosts();
    var data, from := BuildDashboard(allLogs, allCosts);
    var headers := AddCorsHeaders(map["content-type" := "text/html"]);
    reply := AdminReply(200, headers, Dashboard(data));
  }
}
