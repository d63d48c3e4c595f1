/** The content-source webhooks of controllers/contentful.ts: the article
    creation hook initialises the article's vote record when none is found,
    the article update/delete hook recomputes the month and category archives
    from query totals. Query answers, store outcomes and the Slack webhook
    URLs are parameters; notifications are returned as the requests sent. */
module ContentfulController {
  import opened Js
  import opened Firestore
  import opened BlogStore
  import opened Response
  import opened ContentSource
  import opened Slack

  // ---------------------------------------------------------------- months

  /** A creation date as `DateTime.fromISO(createdAt)` has parsed it, down to
      the month. */
  datatype YearMonth = YearMonth(year: int, month: int)

  predicate ValidYearMonth(ym: YearMonth) {
    0 <= ym.year <= 9999 && 1 <= ym.month <= 12
  }

  function Digit(d: int): (c: char)
    requires 0 <= d < 10
    ensures '0' <= c <= '9'
  {
    (48 + d) as char
  }

  function DigitValue(c: char): int {
    c as int - 48
  }

  predicate IsDigit(c: char) {
    '0' <= c <= '9'
  }

  /** Two decimal digits, zero-padded. */
  function Pad2(n: int): (s: string)
    requires 0 <= n < 100
    ensures |s| == 2 && IsDigit(s[0]) && IsDigit(s[1])
  {
    [Digit(n / 10), Digit(n % 10)]
  }

  /** The number two digit characters spell. */
  function Two(a: char, b: char): int {
    10 * DigitValue(a) + DigitValue(b)
  }

  lemma Pad2RoundTrip(n: int)
    requires 0 <= n < 100
    ensures Two(Pad2(n)[0], Pad2(n)[1]) == n
  {
  }

  lemma TwoRoundTrip(a: char, b: char)
    requires IsDigit(a) && IsDigit(b)
    ensures 0 <= Two(a, b) < 100 && Pad2(Two(a, b)) == [a, b]
  {
    var n := Two(a, b);
    assert n / 10 == DigitValue(a) && n % 10 == DigitValue(b);
    assert Digit(DigitValue(a)) == a && Digit(DigitValue(b)) == b;
  }

  /** `toFormat("yyyy-MM")`: four-digit year, dash, two-digit month. */
  function MonthKey(ym: YearMonth): (key: string)
    requires ValidYearMonth(ym)
    ensures |key| == 7 && key[4] == '-'
    ensures IsDocId(Str(key))
  {
    Pad2(ym.year / 100) + Pad2(ym.year % 100) + "-" + Pad2(ym.month)
  }

  /** `DateTime.fromISO(key)` on a `yyyy-MM` key: the first instant of that
      month, or an invalid date for anything else. */
  function ParseMonthKey(key: string): Option<YearMonth> {
    if |key| == 7 && key[4] == '-' && IsDigit(key[0]) && IsDigit(key[1]) && IsDigit(key[2]) && IsDigit(key[3])
       && IsDigit(key[5]) && IsDigit(key[6])
    then
      var year := 100 * Two(key[0], key[1]) + Two(key[2], key[3]);
      var month := Two(key[5], key[6]);
      if 1 <= month <= 12 then Some(YearMonth(year, month)) else None
    else None
  }

  /** The month key that getBlogCountOfMonth re-parses is the month it was
      formatted from. */
  lemma MonthKeyRoundTrip(ym: YearMonth)
    requires ValidYearMonth(ym)
    ensures ParseMonthKey(MonthKey(ym)) == Some(ym)
  {
    var key := MonthKey(ym);
    var hi, lo := Pad2(ym.year / 100), Pad2(ym.year % 100);
    assert key[0] == hi[0] && key[1] == hi[1] && key[2] == lo[0] && key[3] == lo[1];
    assert key[5] == Pad2(ym.month)[0] && key[6] == Pad2(ym.month)[1];
    Pad2RoundTrip(ym.year / 100);
    Pad2RoundTrip(ym.year % 100);
    Pad2RoundTrip(ym.month);
  }

  /** And every key that parses is the formatting of what it parses to, so
      month keys and months correspond one to one. */
  lemma ParsedKeyIsFormatted(key: string)
    requires ParseMonthKey(key).Some?
    ensures ValidYearMonth(ParseMonthKey(key).value)
    ensures MonthKey(ParseMonthKey(key).value) == key
  {
    var ym := ParseMonthKey(key).value;
    var hi, lo := Two(key[0], key[1]), Two(key[2], key[3]);
    TwoRoundTrip(key[0], key[1]);
    TwoRoundTrip(key[2], key[3]);
    TwoRoundTrip(key[5], key[6]);
    assert ym.year == 100 * hi + lo;
    assert ym.year / 100 == hi && ym.year % 100 == lo;
    assert key == [key[0], key[1]] + [key[2], key[3]] + "-" + [key[5], key[6]];
  }

  /** `.plus({months: 1})` on the first of a month: December rolls over to
      January of the next year. */
  function NextMonth(ym: YearMonth): (n: YearMonth)
    requires 1 <= ym.month <= 12
    ensures 1 <= n.month <= 12
    ensures ym.month < 12 ==> n == YearMonth(ym.year, ym.month + 1)
    ensures ym.month == 12 ==> n == YearMonth(ym.year + 1, 1)
  {
    if ym.month == 12 then YearMonth(ym.year + 1, 1) else YearMonth(ym.year, ym.month + 1)
  }

  /** A creation timestamp, down to the millisecond of the day. */
  datatype Instant = Instant(year: int, month: int, day: int, millis: int)

  predicate ValidInstant(t: Instant) {
    1 <= t.month <= 12 && 1 <= t.day <= 31 && 0 <= t.millis < 86_400_000
  }

  /** Chronological order of instants. */
  predicate Before(a: Instant, b: Instant) {
    || a.year < b.year
    || (a.year == b.year && a.month < b.month)
    || (a.year == b.year && a.month == b.month && a.day < b.day)
    || (a.year == b.year && a.month == b.month && a.day == b.day && a.millis < b.millis)
  }

  function FirstOf(ym: YearMonth): Instant {
    Instant(ym.year, ym.month, 1, 0)
  }

  /** The filter `sys.createdAt[gte]: start, sys.createdAt[lt]: end`. */
  datatype Range = Range(start: Instant, end: Instant)

  predicate InRange(t: Instant, r: Range) {
    !Before(t, r.start) && Before(t, r.end)
  }

  /** `getBlogCountOfMonth(key)`'s range (controllers/contentful.ts:110-123):
      from the first of the month the key names, up to but excluding the
      first of the next month. */
  function MonthRange(key: string): (r: Option<Range>)
    ensures r.Some? <==> ParseMonthKey(key).Some?
  {
    match ParseMonthKey(key)
    case None => None
    case Some(ym) => Some(Range(FirstOf(ym), FirstOf(NextMonth(ym))))
  }

  /** The half-open range of a month key holds exactly the instants of that
      month. */
  lemma MonthRangeIsTheMonth(ym: YearMonth, t: Instant)
    requires ValidYearMonth(ym) && ValidInstant(t)
    ensures MonthRange(MonthKey(ym)).Some?
    ensures InRange(t, MonthRange(MonthKey(ym)).value) <==> t.year == ym.year && t.month == ym.month
  {
    MonthKeyRoundTrip(ym);
  }

  // ---------------------------------------------------------- percentages

  /** `getBlogPercentageOfCategory` (controllers/contentful.ts:78-89) on
      integers: floor(category / all * 100). */
  function Percent(category: nat, all: nat): (p: int)
    requires all > 0
    ensures p * all <= category * 100 < (p + 1) * all
    ensures 0 <= p
    ensures category <= all ==> p <= 100
  {
    var p := (category * 100) / all;
    FloorDivBounds(category * 100, all);
    MulLeCancel(p, 100, all);
    p
  }

  lemma MulLeCancel(a: int, b: int, d: int)
    requires d > 0
    ensures a * d <= b * d ==> a <= b
  {
    if a > b {
      var k := a - b;
      MulPositive(k, d);
      assert a * d == b * d + k * d;
    }
  }

  lemma MulPositive(k: int, d: int)
    requires k > 0 && d > 0
    ensures k * d > 0
  {
  }

  lemma FloorDivBounds(n: nat, d: nat)
    requires d > 0
    ensures (n / d) * d <= n < (n / d + 1) * d
  {
  }

  // ---------------------------------------------------- the creation hook

  const SuccessName: string := "200 Success"
  const CreatedMessage: string := "Webhookを正常に実行しました\n 関数：ctfWebhookCreateBlogEvent"
  const UpdatedMessage: string := "Webhookを正常に実行しました\n 関数：ctfWebhookUpdateBlogEvent"
  const NoCategoryName: string := "400 Error"
  const NoCategoryMessage: string := "カテゴリが取得できませんでした"

  /** The request `sendMessageToSlack("CONTENTFUL", {name, message})`
      posts: no `function` key, so no context block. */
  function ContentfulNotice(name: string, message: string, urls: WebhookUrls): Request {
    Request(urls.contentful, MessagePayload("CONTENTFUL", Notification(name, message, Undefined)))
  }

  /** `req.body.id["en-US"]` */
  function ArticleId(body: Json): Result<Json> {
    var id :- Get(body, "id");
    Get(id, "en-US")
  }

  /** `ctfWebhookCreateBlogEvent` (controllers/contentful.ts:18-31). The vote
      record is merge-created only when getBlogLgtm found none, so an existing
      record keeps its counts, unless its read failed: then it is reset too.
      A missing id or a failed creation is reported 500 "error". */
  method CtfWebhookCreateBlogEvent(store: Store, body: Json, readFails: bool, writeFails: bool, urls: WebhookUrls)
    returns (reply: Reply, sent: seq<Request>)
    modifies store`blogLgtm
    ensures ArticleId(body).Throw? ==>
      IsError(reply, 500, Str("error")) && sent == [] && store.blogLgtm == old(store.blogLgtm)
    ensures ArticleId(body).Ok? ==> var id := ArticleId(body).value;
      var found := IsDocId(id) && !readFails && id.s in old(store.blogLgtm);
      var created := !found && IsDocId(id) && !writeFails;
      && (found ==> IsSuccess(reply, Str("success")) && sent == [] && store.blogLgtm == old(store.blogLgtm))
      && (created ==> IsSuccess(reply, Str("success")) && sent == [ContentfulNotice(SuccessName, CreatedMessage, urls)]
                      && store.blogLgtm == MergeSet(old(store.blogLgtm), id.s, LgtmInitial))
      && (!found && !created ==>
            IsError(reply, 500, Str("error")) && sent == [] && store.blogLgtm == old(store.blogLgtm))
    ensures old(store.Valid()) ==> store.Valid()
  {
    sent := [];
    var id := ArticleId(body);
    if id.Throw? {
      reply := Error500(Str("error"));
      return;
    }
    var response := store.GetBlogLgtm(id.value, readFails);
    if response.None? {
      var created := store.PostBlogLgtm(id.value, writeFails);
      if created.Rejected? {
        reply := Error500(Str("error"));
        return;
      }
      var notice := SendMessageToSlack("CONTENTFUL", Notification(SuccessName, CreatedMessage, Undefined), urls);
      sent := [notice];
    }
    reply := Success(Str("success"));
  }

  /** The guard in one statement: an article whose record was read keeps
      its votes across any number of deliveries of the creation hook, while
      an unguarded merge-create would zero them. */
  lemma GuardProtectsCounts(c: Collection, id: string)
    requires id in c && "good" in c[id] && c[id]["good"] != 0
    ensures MergeSet(c, id, LgtmInitial)[id]["good"] == 0 != c[id]["good"]
  {
  }

  // ------------------------------------------------------ the archive hook

  /** The writes the archive hook decides on, before making them. */
  datatype ArchivePlan =
    | Abort                      // something threw: 500 "error"
    | NoCategory                 // the category query found nothing: notify, then 500 "error"
    | Write(monthKey: string, tagKey: Json, monthlyCount: nat, tagCount: nat, tagPercent: int)

  /** The query totals the hook needs after the category lookup: blogs of the
      month, of the category, and all blogs (the percentage repeats the
      category query; both answers are taken to agree). */
  datatype ArchiveCounts = ArchiveCounts(monthly: nat, category: nat, all: nat)

  /** `tagId["en-US"].sys.id` */
  function TagEntryId(tagId: Json): Result<Json> {
    var localized :- Get(tagId, "en-US");
    SysId(localized)
  }

  /** `(items.find(item => item.sys.id === tagEntryId)?.fields).categoryId`:
      the external category id of the item the link points at; no such item
      reads `categoryId` of undefined and throws. */
  function CategoryKey(items: seq<Json>, tagEntryId: Json): (r: Result<Json>)
    ensures r.Ok? ==> exists k :: 0 <= k < |items| && Matches(items[k], tagEntryId)
                        && (forall j :: 0 <= j < k ==> Passes(items[j], tagEntryId))
                        && r == Get(OptGet(items[k], "fields"), "categoryId")
    ensures (forall i :: 0 <= i < |items| ==> Passes(items[i], tagEntryId)) ==> r.Throw?
  {
    var item :- FindBySysId(items, tagEntryId);
    Get(OptGet(item, "fields"), "categoryId")
  }

  /** The category key is read from the first item carrying the link's id. */
  lemma CategoryOfFirstMatch(items: seq<Json>, tagEntryId: Json, k: nat)
    requires k < |items| && Matches(items[k], tagEntryId)
    requires forall j :: 0 <= j < k ==> Passes(items[j], tagEntryId)
    ensures CategoryKey(items, tagEntryId) == Get(OptGet(items[k], "fields"), "categoryId")
  {
    FirstMatchFound(items, tagEntryId, k);
  }

  /** What `ctfWebhookUpdateBlogEvent` (controllers/contentful.ts:39-71)
      decides from its inputs, in the source's order: the link id, the
      category query (at least one answer), the category key, the counts. */
  function PlanArchive(tagId: Json, createdAt: YearMonth, category: Fetch<EntryPage>, counts: Fetch<ArchiveCounts>): (p: ArchivePlan)
    requires ValidYearMonth(createdAt)
    requires counts.Fetched? ==> counts.value.all > 0
    ensures p.NoCategory? <==> TagEntryId(tagId).Ok? && category.Fetched? && category.value.total < 1
    ensures p.Write? <==>
      && TagEntryId(tagId).Ok? && category.Fetched? && category.value.total >= 1
      && CategoryKey(category.value.items, TagEntryId(tagId).value).Ok? && counts.Fetched?
    ensures p.Write? ==>
      && p.monthKey == MonthKey(createdAt)
      && p.tagKey == CategoryKey(category.value.items, TagEntryId(tagId).value).value
      && p.monthlyCount == counts.value.monthly
      && p.tagCount == counts.value.category
      && p.tagPercent == Percent(counts.value.category, counts.value.all)
  {
    match TagEntryId(tagId)
    case Throw(_) => Abort
    case Ok(entryId) =>
      match category
      case FetchFailed(_) => Abort
      case Fetched(page) =>
        if page.total < 1 then NoCategory
        else
          match CategoryKey(page.items, entryId)
          case Throw(_) => Abort
          case Ok(key) =>
            match counts
            case FetchFailed(_) => Abort
            case Fetched(n) => Write(MonthKey(createdAt), key, n.monthly, n.category, Percent(n.category, n.all))
  }

  /** The stored percentage stays within 0..100 whenever the category total
      does not exceed the total of all blogs. */
  lemma PlannedPercentInRange(tagId: Json, createdAt: YearMonth, category: Fetch<EntryPage>, counts: Fetch<ArchiveCounts>)
    requires ValidYearMonth(createdAt)
    requires counts.Fetched? && counts.value.all > 0 && counts.value.category <= counts.value.all
    requires PlanArchive(tagId, createdAt, category, counts).Write?
    ensures 0 <= PlanArchive(tagId, createdAt, category, counts).tagPercent <= 100
  {
  }

  /** `ctfWebhookUpdateBlogEvent` (controllers/contentful.ts:39-71). With a
      plan to write, putBlogArchive runs and its result is ignored: the reply
      is success even when a write failed. Otherwise nothing is written and
      the reply is 500 "error"; only the empty category query notifies. */
  method CtfWebhookUpdateBlogEvent(store: Store, tagId: Json, createdAt: YearMonth,
                                   category: Fetch<EntryPage>, counts: Fetch<ArchiveCounts>,
                                   monthlyFails: bool, tagFails: bool, urls: WebhookUrls)
    returns (reply: Reply, sent: seq<Request>)
    requires ValidYearMonth(createdAt)
    requires counts.Fetched? ==> counts.value.all > 0
    modifies store`monthly, store`tag
    ensures var p := PlanArchive(tagId, createdAt, category, counts);
      && (p.Write? <==> IsSuccess(reply, Str("success")))
      && (!p.Write? ==> IsError(reply, 500, Str("error")))
      && (p.Abort? ==> sent == [])
      && (p.NoCategory? ==> sent == [ContentfulNotice(NoCategoryName, NoCategoryMessage, urls)])
      && (p.Write? ==> sent == [ContentfulNotice(SuccessName, UpdatedMessage, urls)])
      && (!p.Write? ==> store.monthly == old(store.monthly) && store.tag == old(store.tag))
      && (p.Write? ==>
            && store.monthly == (if !monthlyFails then MergeSet(old(store.monthly), p.monthKey, MonthlyDoc(p.monthlyCount))
                                 else old(store.monthly))
            && store.tag == (if !monthlyFails && !tagFails && IsDocId(p.tagKey)
                             then MergeSet(old(store.tag), p.tagKey.s, TagDoc(p.tagCount, p.tagPercent))
                             else old(store.tag)))
    ensures old(store.Valid()) ==> store.Valid()
  {
    sent := [];
    var plan := PlanArchive(tagId, createdAt, category, counts);
    match plan
    case Abort =>
      reply := Error500(Str("error"));
    case NoCategory =>
      var notice := SendMessageToSlack("CONTENTFUL", Notification(NoCategoryName, NoCategoryMessage, Undefined), urls);
      sent := [notice];
      reply := Error500(Str("error"));
    case Write(monthKey, tagKey, monthlyCount, tagCount, tagPercent) =>
      var _ := store.PutBlogArchive(monthKey, tagKey, monthlyCount, tagCount, tagPercent, monthlyFails, tagFails);
      var notice := SendMessageToSlack("CONTENTFUL", Notification(SuccessName, UpdatedMessage, Undefined), urls);
      sent := [notice];
      reply := Success(Str("success"));
    SuccessIsNotError(reply, Str("success"), 500, Str("error"));
  }
}
