/** The Slack notification sent after each billed call: the message built
    from the query and the month's running totals, and the early exit when
    no webhook is configured. Delivery is fire-and-forget: whatever the
    webhook answers, nothing comes back to the caller. */
module Slack {
  import opened Wrappers
  import opened Strings
  import opened Types

  /** The query fields the message lists, in the order it lists them. */
  datatype Field = Country | Zip | City | Street

  function Rank(f: Field): nat
  {
    match f
    case Country => 0
    case Zip => 1
    case City => 2
    case Street => 3
  }

  function FieldValue(q: TaxQuery, f: Field): string
  {
    match f
    case Country => q.country
    case Zip => q.zip
    case City => q.city
    case Street => q.street
  }

  /** One line of the query details. */
  datatype Detail = Detail(field: Field, value: string)

  function DetailText(d: Detail): string
  {
    match d.field
    case Country => "🌍 *Country:* " + d.value
    case Zip => "📮 *ZIP Code:* " + d.value
    case City => "🏙️ *City:* " + d.value
    case Street => "📍 *Street:* " + d.value
  }

  const NoQueryText: string := "No query parameters provided"

  function DetailIf(q: TaxQuery, f: Field): seq<Detail>
  {
    if FieldValue(q, f) != "" then [Detail(f, FieldValue(q, f))] else []
  }

  /** The fields in the order the message lists them. */
  const FieldOrder: seq<Field> := [Country, Zip, City, Street]

  /** The details pushed while walking `fields`: one per non-empty field. */
  function DetailsOf(q: TaxQuery, fields: seq<Field>): seq<Detail>
  {
    if fields == [] then [] else DetailIf(q, fields[0]) + DetailsOf(q, fields[1..])
  }

  /** Every detail is a non-empty field of the query, with its value. */
  lemma {:induction false} DetailsOfSound(q: TaxQuery, fields: seq<Field>)
    ensures forall d :: d in DetailsOf(q, fields) ==>
      d.value != "" && d.value == FieldValue(q, d.field) && d.field in fields
  {
    if fields != [] {
      DetailsOfSound(q, fields[1..]);
    }
  }

  /** Every non-empty field has its detail. */
  lemma {:induction false} DetailsOfComplete(q: TaxQuery, fields: seq<Field>)
    ensures forall f :: f in fields && FieldValue(q, f) != "" ==> Detail(f, FieldValue(q, f)) in DetailsOf(q, fields)
  {
    if fields != [] {
      DetailsOfComplete(q, fields[1..]);
      forall f | f in fields && FieldValue(q, f) != ""
        ensures Detail(f, FieldValue(q, f)) in DetailsOf(q, fields)
      {
        if f != fields[0] {
          assert f in fields[1..];
        }
      }
    }
  }

  predicate InFieldOrder(details: seq<Detail>)
  {
    forall i, j :: 0 <= i < j < |details| ==> Rank(details[i].field) < Rank(details[j].field)
  }

  /** Two runs in field order, the second ranked after the first, join
      into one. */
  lemma InFieldOrderConcat(head: seq<Detail>, rest: seq<Detail>)
    requires InFieldOrder(head) && InFieldOrder(rest)
    requires forall a, b :: a in head && b in rest ==> Rank(a.field) < Rank(b.field)
    ensures InFieldOrder(head + rest)
  {
    var details := head + rest;
    forall i, j | 0 <= i < j < |details|
      ensures Rank(details[i].field) < Rank(details[j].field)
    {
      if j < |head| {
        assert details[i] == head[i] && details[j] == head[j];
      } else if i < |head| {
        assert details[i] == head[i] && details[j] == rest[j - |head|];
      } else {
        assert details[i] == rest[i - |head|] && details[j] == rest[j - |head|];
      }
    }
  }

  /** Details come out in the order of the fields. */
  lemma {:induction false} DetailsOfOrdered(q: TaxQuery, fields: seq<Field>)
    requires forall i, j :: 0 <= i < j < |fields| ==> Rank(fields[i]) < Rank(fields[j])
    ensures InFieldOrder(DetailsOf(q, fields))
  {
    if fields != [] {
      var rest := DetailsOf(q, fields[1..]);
      DetailsOfOrdered(q, fields[1..]);
      DetailsOfSound(q, fields[1..]);
      forall d | d in rest
        ensures Rank(fields[0]) < Rank(d.field)
      {
        var k :| 0 <= k < |fields[1..]| && fields[1..][k] == d.field;
        assert fields[k + 1] == d.field;
      }
      InFieldOrderConcat(DetailIf(q, fields[0]), rest);
    }
  }

  /** `queryDetails`: one line for each non-empty field, and only for
      those, always in the order country, ZIP code, city, street. */
  function QueryDetails(q: TaxQuery): (details: seq<Detail>)
    ensures forall i :: 0 <= i < |details| ==>
      details[i].value != "" && details[i].value == FieldValue(q, details[i].field)
    ensures forall f :: FieldValue(q, f) != "" <==> Detail(f, FieldValue(q, f)) in details
    ensures InFieldOrder(details)
  {
    assert forall f :: f in FieldOrder by {
      forall f ensures f in FieldOrder {
        assert FieldOrder[Rank(f)] == f;
      }
    }
    DetailsOfSound(q, FieldOrder);
    DetailsOfComplete(q, FieldOrder);
    DetailsOfOrdered(q, FieldOrder);
    DetailsOf(q, FieldOrder)
  }

  function Lines(details: seq<Detail>): (lines: seq<string>)
    ensures |lines| == |details|
    ensures forall i :: 0 <= i < |details| ==> lines[i] == DetailText(details[i])
  {
    if details == [] then [] else [DetailText(details[0])] + Lines(details[1..])
  }

  /** `formattedQuery`: the detail lines joined by newlines, or a fixed
      sentence when every field is empty. */
  function FormattedQuery(q: TaxQuery): (text: string)
    ensures text == NoQueryText <==> q.country == "" && q.zip == "" && q.city == "" && q.street == ""
    ensures QueryDetails(q) != [] ==> text == Join(Lines(QueryDetails(q)), "\n")
  {
    var details := QueryDetails(q);
    if |details| > 0 then
      var lines := Lines(details);
      JoinStartsWithFirst(lines, "\n");
      assert DetailText(details[0])[0] != 'N';
      Join(lines, "\n")
    else
      assert FieldValue(q, Country) == "" && FieldValue(q, Zip) == "" && FieldValue(q, City) == "" && FieldValue(q, Street) == "";
      NoQueryText
  }

  datatype Block = TextSection(text: string) | FieldsSection(fields: seq<string>)

  datatype SlackMessage = SlackMessage(text: string, blocks: seq<Block>)

  /** A message posted to the webhook at `url`. */
  datatype SlackPost = SlackPost(url: string, message: SlackMessage)

  /** A fixed head, the invocation number, a fixed middle, then a tail:
      the shape of both the summary and the first block. The number sits
      between the head and the middle, so the middle anchors where it
      ends. */
  function Numbered(head: string, n: string, mid: string, tail: string): (text: string)
    ensures head + n + mid <= text
    ensures EndsWith(text, tail)
  {
    var text := head + (n + (mid + tail));
    assert text == head + n + mid + tail;
    text
  }

  /** The notification's plain-text summary: the invocation number, then
      the month's total after the rupee sign. */
  function SummaryText(n: string, cost: string): (text: string)
    ensures "Tax API Invocation #" + n + " - Total Cost: ₹" <= text
    ensures EndsWith(text, cost)
  {
    Numbered("Tax API Invocation #", n, " - Total Cost: ₹", cost)
  }

  /** The summary can be read back: the text fixes the invocation number
      and the total, since the printed number holds no space and the
      printed amount determines the amount. */
  lemma SummaryReadsBack(n1: int, cost1: int, n2: int, cost2: int)
    requires SummaryText(IntToString(n1), Fixed2(cost1)) == SummaryText(IntToString(n2), Fixed2(cost2))
    ensures n1 == n2 && cost1 == cost2
  {
    var head := "Tax API Invocation #";
    var mid := " - Total Cost: ₹";
    var s1, s2 := IntToString(n1), IntToString(n2);
    var c1, c2 := Fixed2(cost1), Fixed2(cost2);
    assert (head + (s1 + (mid + c1)))[|head|..] == s1 + (mid + c1);
    assert (head + (s2 + (mid + c2)))[|head|..] == s2 + (mid + c2);
    SplitAtSpace(s1, mid + c1, s2, mid + c2);
    assert (mid + c1)[|mid|..] == c1 && (mid + c2)[|mid|..] == c2;
    IntToStringInjective(n1, n2);
    Fixed2RoundTrip(cost1);
    Fixed2RoundTrip(cost2);
  }

  /** The first block: the invocation number in the bold heading, then the
      query details under their own heading. */
  function HeaderText(n: string, details: string): (text: string)
    ensures "💰 *Tax Calculator API - Invocation #" + n + "*\n\n*Query Details:*\n" <= text
    ensures EndsWith(text, details)
  {
    Numbered("💰 *Tax Calculator API - Invocation #", n, "*\n\n*Query Details:*\n", details)
  }

  const NumberTitle := "*📊 Invocation Number*"
  const CostTitle := "*💵 Total Cost This Month*"

  /** A field of the second block: the title on its own line, and after
      it exactly the value. */
  function FieldText(title: string, value: string): (text: string)
    ensures title + "\n" <= text
    ensures text[|title| + 1..] == value
  {
    title + "\n" + value
  }

  /** The message for invocation number `invocationNo` with the month's
      total so far (minor units); `timestamp` is the formatted local time. */
  function BuildMessage(q: TaxQuery, invocationNo: int, totalCostThisMonth: int, timestamp: string): (m: SlackMessage)
    ensures "Tax API Invocation #" + IntToString(invocationNo) + " - Total Cost: ₹" <= m.text
    ensures EndsWith(m.text, Fixed2(totalCostThisMonth))
    ensures |m.blocks| == 3
    ensures m.blocks[0].TextSection?
    ensures "💰 *Tax Calculator API - Invocation #" + IntToString(invocationNo) + "*\n\n*Query Details:*\n" <= m.blocks[0].text
    ensures EndsWith(m.blocks[0].text, FormattedQuery(q))
    ensures m.blocks[1].FieldsSection? && |m.blocks[1].fields| == 2
    ensures NumberTitle + "\n" <= m.blocks[1].fields[0]
    ensures m.blocks[1].fields[0][|NumberTitle| + 1..] == "#" + IntToString(invocationNo)
    ensures CostTitle + "\n" <= m.blocks[1].fields[1]
    ensures m.blocks[1].fields[1][|CostTitle| + 1..] == "₹" + Fixed2(totalCostThisMonth)
    ensures m.blocks[2].TextSection? && "🕐 " <= m.blocks[2].text && EndsWith(m.blocks[2].text, " IST")
    ensures Contains(m.blocks[2].text, timestamp)
  {
    ContainsMiddle("🕐 ", timestamp, " IST");
    var n := IntToString(invocationNo);
    var cost := Fixed2(totalCostThisMonth);
    SlackMessage(SummaryText(n, cost), [
      TextSection(HeaderText(n, FormattedQuery(q))),
      FieldsSection([FieldText(NumberTitle, "#" + n), FieldText(CostTitle, "₹" + cost)]),
      TextSection("🕐 " + timestamp + " IST")
    ])
  }

  /** Two notifications with the same summary text report the same
      invocation number and the same monthly total. */
  lemma MessageReadsBack(q1: TaxQuery, n1: int, cost1: int, t1: string, q2: TaxQuery, n2: int, cost2: int, t2: string)
    requires BuildMessage(q1, n1, cost1, t1).text == BuildMessage(q2, n2, cost2, t2).text
    ensures n1 == n2 && cost1 == cost2
  {
    SummaryReadsBack(n1, cost1, n2, cost2);
  }

  /** `sendSlackNotification(query, invocationNo, totalCostThisMonth)`:
      nothing is built or posted without a webhook URL; otherwise the one
      message posted to it. */
  function SendSlackNotification(webhookUrl: Option<string>, q: TaxQuery, invocationNo: int, totalCostThisMonth: int, timestamp: string): (post: Option<SlackPost>)
    ensures post.None? <==> !Present(webhookUrl)
    ensures post.Some? ==>
      post.value.url == webhookUrl.value && post.value.message == BuildMessage(q, invocationNo, totalCostThisMonth, timestamp)
  {
    if !Present(webhookUrl) then None
    else Some(SlackPost(webhookUrl.value, BuildMessage(q, invocationNo, totalCostThisMonth, timestamp)))
  }
}
