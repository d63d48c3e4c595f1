/** Notifications of utils/sendToSlack.ts. Sending is an outbound HTTP call;
    the model returns the request that would be sent (the webhook URL and the
    payload). The three webhook URLs come from the runtime configuration and
    are parameters. */
module Slack {
  import opened Js

  datatype Text = Mrkdwn(text: string) | PlainText(text: string)

  /** The Block Kit blocks used here: a section with `fields`, a section with
      a single `text`, and a context block. */
  datatype Block =
    | SectionFields(fields: seq<Text>)
    | SectionText(text: Text)
    | Context(elements: seq<Text>)

  datatype Attachment = Attachment(color: string, blocks: seq<Block>)

  /** The part of the webhook's send arguments used here; an empty list
      stands for an absent key. */
  datatype Payload = Payload(attachments: seq<Attachment>, blocks: seq<Block>)

  /** `{name, message, function?}`; `origin` holds the `function` key, whatever the caller tagged
      the error with (absent: Undefined). */
  datatype Notification = Notification(name: string, message: string, origin: Json)

  datatype WebhookUrls = WebhookUrls(server: string, contentful: string, sentry: string)

  datatype Request = Request(url: string, payload: Payload)

  const ContentfulColor: string := "#6FCBFF"
  const AlertColor: string := "#FF6D6D"

  /** `getSlackWebhookUrl(type)` (utils/sendToSlack.ts:78-89) */
  function GetSlackWebhookUrl(kind: string, urls: WebhookUrls): (url: string)
    ensures kind == "CONTENTFUL" ==> url == urls.contentful
    ensures kind == "SERVER" ==> url == urls.server
    ensures kind == "SENTRY" ==> url == urls.sentry
    ensures kind !in {"CONTENTFUL", "SERVER", "SENTRY"} ==> url == ""
  {
    match kind
    case "CONTENTFUL" => urls.contentful
    case "SERVER" => urls.server
    case "SENTRY" => urls.sentry
    case _ => ""
  }

  /** The payload `sendMessageToSlack(type, obj)` posts
      (utils/sendToSlack.ts:19-56): two sections (the bold name, then the
      plain message), a context block naming the function only when
      `obj.origin` is truthy, all inside one attachment coloured by whether
      the type is CONTENTFUL. */
  function MessagePayload(kind: string, obj: Notification): (p: Payload)
    ensures p.blocks == [] && |p.attachments| == 1
    ensures var a := p.attachments[0];
      && (a.color == ContentfulColor <==> kind == "CONTENTFUL")
      && (a.color == AlertColor <==> kind != "CONTENTFUL")
      && |a.blocks| == (if Truthy(obj.origin) then 3 else 2)
      && a.blocks[0] == SectionFields([Mrkdwn("*" + obj.name + "*")])
      && a.blocks[1] == SectionFields([PlainText(obj.message)])
      && (Truthy(obj.origin) ==> a.blocks[2] == Context([Mrkdwn("Occurred in " + ToText(obj.origin))]))
  {
    var sections := [SectionFields([Mrkdwn("*" + obj.name + "*")]), SectionFields([PlainText(obj.message)])];
    var context := if Truthy(obj.origin) then [Context([Mrkdwn("Occurred in " + ToText(obj.origin))])] else [];
    Payload([Attachment(if kind == "CONTENTFUL" then ContentfulColor else AlertColor, sections + context)], [])
  }

  /** Two notifications post the same payload only when they carry the same
      name and message. */
  lemma MessagePayloadDistinguishes(kind: string, a: Notification, b: Notification)
    requires MessagePayload(kind, a) == MessagePayload(kind, b)
    ensures a.name == b.name && a.message == b.message
  {
    var blocksA := MessagePayload(kind, a).attachments[0].blocks;
    var blocksB := MessagePayload(kind, b).attachments[0].blocks;
    assert blocksA[0] == blocksB[0] && blocksA[1] == blocksB[1];
    PrefixSuffixCancel("*", a.name, b.name, "*");
  }

  /** `p + x + s == p + y + s` only when `x == y`. */
  lemma PrefixSuffixCancel(p: string, x: string, y: string, s: string)
    requires p + x + s == p + y + s
    ensures x == y
  {
    assert x == (p + x + s)[|p|..|p| + |x|];
    assert y == (p + y + s)[|p|..|p| + |y|];
  }

  /** `sendMessageToSlack(type, obj)` (utils/sendToSlack.ts:14-59): the
      message is assembled block by block and posted to the type's URL. */
  method SendMessageToSlack(kind: string, obj: Notification, urls: WebhookUrls) returns (req: Request)
    ensures req == Request(GetSlackWebhookUrl(kind, urls), MessagePayload(kind, obj))
  {
    var url := GetSlackWebhookUrl(kind, urls);
    var message := [
      SectionFields([Mrkdwn("*" + obj.name + "*")]),
      SectionFields([PlainText(obj.message)])
    ];
    if Truthy(obj.origin) {
      message := message + [Context([Mrkdwn("Occurred in " + ToText(obj.origin))])];
    } else {
      assert message == message + [];
    }
    var color := if kind == "CONTENTFUL" then ContentfulColor else AlertColor;
    req := Request(url, Payload([Attachment(color, message)], []));
  }

  /** `sendObjectToSlack(type, object)` (utils/sendToSlack.ts:66-70): the
      payload is forwarded unchanged. */
  method SendObjectToSlack(kind: string, payload: Payload, urls: WebhookUrls) returns (req: Request)
    ensures req.url == GetSlackWebhookUrl(kind, urls)
    ensures req.payload == payload
  {
    var url := GetSlackWebhookUrl(kind, urls);
    req := Request(url, payload);
  }
}
