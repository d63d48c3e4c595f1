/** The error-monitoring relay of controllers/sentry.ts: an issue event
    posted by the monitoring service is rewritten as a two-section Slack
    message and forwarded to the SENTRY webhook. The request body is raw
    JSON; whether the send fails is a parameter. */
module Sentry {
  import opened Js
  import opened Response
  import opened Slack

  /** The keys of the issue record, in insertion order, which is the order
      `Object.entries` lists them. */
  const IssueKeys: seq<string> := ["message", "detail", "browser", "os", "device", "user"]

  const Unknown: string := "unknown"

  /** Two words joined by a space are never the single word "unknown". */
  lemma SpacedIsNotUnknown(a: string, b: string)
    ensures a + " " + b != Unknown
  {
    var s := a + " " + b;
    assert s[|a|] == ' ';
    if |s| == |Unknown| {
      assert Unknown[|a|] != ' ';
    }
  }

  /** `${browser.name} ${browser.type} ${browser.version}`: no fallback, so
      a missing browser throws, and the text is never "unknown". */
  function BrowserInfo(browser: Json): (r: Result<string>)
    ensures r.Throw? <==> Nullish(browser)
    ensures r.Ok? ==> r.value != Unknown
  {
    var name :- Get(browser, "name");
    var s := ToText(name) + " " + (ToText(OptGet(browser, "type")) + " " + ToText(OptGet(browser, "version")));
    SpacedIsNotUnknown(ToText(name), ToText(OptGet(browser, "type")) + " " + ToText(OptGet(browser, "version")));
    Ok(s)
  }

  /** `os === undefined ? "unknown" : ...`: only undefined falls back; null
      passes the test and throws. */
  function OsInfo(os: Json): (r: Result<string>)
    ensures r == Ok(Unknown) <==> os.Undefined?
    ensures r.Throw? <==> os.Null?
  {
    if os.Undefined? then Ok(Unknown)
    else
      var name :- Get(os, "name");
      var rest := ToText(OptGet(os, "type")) + " " + ToText(OptGet(os, "version"));
      SpacedIsNotUnknown(ToText(name), rest);
      Ok(ToText(name) + " " + rest)
  }

  /** `device === undefined ? "unknown" : `${device.family}``. A family
      named "unknown" reads the same as no device. */
  function DeviceInfo(device: Json): (r: Result<string>)
    ensures device.Undefined? ==> r == Ok(Unknown)
    ensures r.Throw? <==> device.Null?
    ensures !Nullish(device) ==> r == Ok(ToText(OptGet(device, "family")))
  {
    if device.Undefined? then Ok(Unknown)
    else
      var family :- Get(device, "family");
      Ok(ToText(family))
  }

  /** `IP:${user.ip_address} address: ${user.geo.region} ${user.geo.city}`,
      or "unknown" without a user; a user without `geo` throws. */
  function UserInfo(user: Json): (r: Result<string>)
    ensures r == Ok(Unknown) <==> user.Undefined?
    ensures r.Throw? <==> user.Null? || (!user.Undefined? && Nullish(OptGet(user, "geo")))
    ensures r.Ok? && !user.Undefined? ==> |r.value| >= 3 && r.value[..3] == "IP:"
  {
    if user.Undefined? then Ok(Unknown)
    else
      var ip :- Get(user, "ip_address");
      var geo := OptGet(user, "geo");
      var region :- Get(geo, "region");
      var s := "IP:" + ToText(ip) + " address: " + ToText(region) + " " + ToText(OptGet(geo, "city"));
      assert s[0] == 'I' && Unknown[0] == 'u';
      Ok(s)
  }

  /** `${key}: ${value}` for each issue entry, in order. */
  function IssueLines(values: seq<string>): (lines: seq<string>)
    requires |values| == |IssueKeys|
    ensures |lines| == |IssueKeys|
    ensures forall i :: 0 <= i < |lines| ==> lines[i] == IssueKeys[i] + ": " + values[i]
  {
    seq(|IssueKeys|, i requires 0 <= i < |IssueKeys| => IssueKeys[i] + ": " + values[i])
  }

  /** The header `*level: type* (*environment*) `, trailing space included. */
  function Header(level: Json, kind: Json, environment: Json): (h: string)
    ensures |h| >= 9 && h[0] == '*' && h[|h| - 1] == ' ' && h[|h| - 2] == ')'
  {
    "*" + ToText(level) + ": " + ToText(kind) + "* (*" + ToText(environment) + "*) "
  }

  /** The event fields the relay reads; each is undefined when absent. */
  datatype Event = Event(user: Json, metadata: Json, device: Json, browser: Json, os: Json,
                         level: Json, environment: Json, title: Json)

  /** `const {user, metadata, contexts: {device, browser, os}, level,
      environment, title} = event`: throws when `event` or `contexts` is null
      or undefined. */
  function Destructure(event: Json): (r: Result<Event>)
    ensures r.Ok? <==> !Nullish(event) && !Nullish(OptGet(event, "contexts"))
  {
    var user :- Get(event, "user");
    var contexts := OptGet(event, "contexts");
    var device :- Get(contexts, "device");
    Ok(Event(user, OptGet(event, "metadata"), device, OptGet(contexts, "browser"), OptGet(contexts, "os"),
             OptGet(event, "level"), OptGet(event, "environment"), OptGet(event, "title")))
  }

  /** The request body from which the relay can build its message: every
      read that has no fallback finds a value. */
  predicate Readable(body: Json) {
    && !Nullish(body)
    && Destructure(OptGet(body, "event")).Ok?
    && var e := Destructure(OptGet(body, "event")).value;
    && !Nullish(e.browser) && !e.os.Null? && !e.device.Null?
    && !e.user.Null? && (!e.user.Undefined? ==> !Nullish(OptGet(e.user, "geo")))
    && !Nullish(e.metadata)
  }

  /** The values of the issue entries of a readable body, in key order. */
  function IssueValues(body: Json): (values: seq<string>)
    requires Readable(body)
    ensures |values| == |IssueKeys|
  {
    var e := Destructure(OptGet(body, "event")).value;
    [ToText(e.title), ToText(OptGet(body, "url")),
     BrowserInfo(e.browser).value, OsInfo(e.os).value, DeviceInfo(e.device).value, UserInfo(e.user).value]
  }

  /** The issue lines of a readable body (controllers/sentry.ts:20-30). */
  function Issue(body: Json): (lines: seq<string>)
    requires Readable(body)
    ensures |lines| == 6
  {
    IssueLines(IssueValues(body))
  }

  /** A line of the issue reads "unknown" exactly when the part it
      describes was absent; the browser line never does. */
  lemma UnknownLinesMarkAbsentParts(body: Json)
    requires Readable(body)
    ensures var e := Destructure(OptGet(body, "event")).value;
      && (Issue(body)[3] == "os: unknown" <==> e.os.Undefined?)
      && (Issue(body)[5] == "user: unknown" <==> e.user.Undefined?)
      && (e.device.Undefined? ==> Issue(body)[4] == "device: unknown")
      && Issue(body)[2] != "browser: unknown"
  {
    var e := Destructure(OptGet(body, "event")).value;
    var values := IssueValues(body);
    assert values[2] == BrowserInfo(e.browser).value && values[3] == OsInfo(e.os).value;
    assert values[4] == DeviceInfo(e.device).value && values[5] == UserInfo(e.user).value;
    LinesMarkUnknown(values);
  }

  /** In the issue lines, the browser, os, device and user lines read
      "key: unknown" exactly when their value is "unknown". */
  lemma LinesMarkUnknown(values: seq<string>)
    requires |values| == |IssueKeys|
    ensures IssueLines(values)[2] == "browser: unknown" <==> values[2] == Unknown
    ensures IssueLines(values)[3] == "os: unknown" <==> values[3] == Unknown
    ensures IssueLines(values)[4] == "device: unknown" <==> values[4] == Unknown
    ensures IssueLines(values)[5] == "user: unknown" <==> values[5] == Unknown
  {
    var lines := IssueLines(values);
    LineIsUnknown(lines[2], "browser", values[2]);
    LineIsUnknown(lines[3], "os", values[3]);
    LineIsUnknown(lines[4], "device", values[4]);
    LineIsUnknown(lines[5], "user", values[5]);
  }

  /** A line "key: value" reads "key: unknown" exactly when value is "unknown". */
  lemma LineIsUnknown(line: string, key: string, value: string)
    requires line == key + ": " + value
    ensures line == key + ": unknown" <==> value == Unknown
  {
    assert key + ": unknown" == (key + ": ") + Unknown;
    PrefixCancels(key + ": ", value, Unknown);
  }

  lemma PrefixCancels(p: string, a: string, b: string)
    ensures p + a == p + b <==> a == b
  {
    if p + a == p + b {
      assert a == (p + a)[|p|..] && b == (p + b)[|p|..];
    }
  }

  /** The payload of controllers/sentry.ts:7-49: exactly two mrkdwn
      sections, the header and the issue lines joined by newlines, and no
      attachment. */
  function SentryPayload(body: Json): (r: Result<Payload>)
    ensures r.Ok? <==> Readable(body)
    ensures r.Ok? ==> var e := Destructure(OptGet(body, "event")).value;
      && r.value.attachments == []
      && |r.value.blocks| == 2
      && r.value.blocks[0] == SectionText(Mrkdwn(Header(e.level, OptGet(e.metadata, "type"), e.environment)))
      && r.value.blocks[1] == SectionText(Mrkdwn(JoinWith(Issue(body), "\n")))
  {
    var url :- Get(body, "url");
    var e :- Destructure(OptGet(body, "event"));
    var browserInfo :- BrowserInfo(e.browser);
    var osInfo :- OsInfo(e.os);
    var deviceInfo :- DeviceInfo(e.device);
    var userInfo :- UserInfo(e.user);
    var lines := IssueLines([ToText(e.title), ToText(url), browserInfo, osInfo, deviceInfo, userInfo]);
    var kind :- Get(e.metadata, "type");
    Ok(Payload([], [
      SectionText(Mrkdwn(Header(e.level, kind, e.environment))),
      SectionText(Mrkdwn(JoinWith(lines, "\n")))
    ]))
  }

  /** `postNotificationFromSentryToSlack` (controllers/sentry.ts:6-57). A
      body the relay cannot read throws before the `try`, so no reply is
      sent (`None`) and nothing is posted. Otherwise the payload goes to the
      SENTRY webhook: 200 "success" when it was delivered, 500 "error" when
      the send failed. */
  method PostNotificationFromSentryToSlack(body: Json, sendFails: bool, urls: WebhookUrls)
    returns (reply: Option<Reply>, sent: seq<Request>)
    ensures reply.None? <==> !Readable(body)
    ensures !Readable(body) ==> sent == []
    ensures Readable(body) ==>
      && sent == [Request(urls.sentry, SentryPayload(body).value)]
      && (sendFails ==> IsError(reply.value, 500, Str("error")))
      && (!sendFails ==> IsSuccess(reply.value, Str("success")))
  {
    var payload := SentryPayload(body);
    if payload.Throw? {
      return None, [];
    }
    var request := SendObjectToSlack("SENTRY", payload.value, urls);
    sent := [request];
    var r: Reply;
    if sendFails {
      r := Error500(Str("error"));
    } else {
      r := Success(Str("success"));
    }
    reply := Some(r);
  }
}
