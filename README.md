# Blog back end: vote counters, archives, content relays

This project models the Cloud Functions back end of a personal blog and
portfolio site. The back end is an Express application with these parts:

- **Vote counters.** Each blog article has a "good" and a "bad" counter in the
  document store (the `blog_lgtm` collection). Readers fetch the counters and
  vote +1 or -1 on one of them.
- **Content-source webhooks.** They initialise an article's counters when it
  is created. When an article is created or deleted, they recompute the
  monthly and per-category archive documents.
- **Read-only relays of content-source entries.** Portfolio works, news and
  the roadmap. Each entry is reshaped into the JSON the front end expects.
- **Sentry relay.** It turns an error-monitoring event into a Slack message.
- **helpers:** the Open Graph reader of a web page's `<meta>` tags, the reply
  envelope builders and the Slack notifier.

JavaScript values are `Js.Json`. A property read (`Js.Get`) fails (a
`Js.Result.Throw` carrying the TypeError's message) exactly when the base is
null or undefined. The exceptions of a handler's `a.b.c` chains are therefore
part of the model, along with the replies they lead to.

Store content:

- The document store is four maps (the collections `blog_lgtm` and `blog`, and the `monthly` and `tag` subcollections of `blog/archive`) held by the class `BlogStore.Store`; the
  pure write primitives on those maps are in the module `Firestore`.
- Read and write failures of the store are boolean parameters of the methods.

Outside inputs and outputs:

- Content-source answers, Slack webhook URLs, the configuration lists (vote
  types, vote actions, roadmap states) and send failures are parameters.
- Slack messages are returned as the requests that would be posted.
- Handlers are methods (or, where the source is pure, functions) that return
  the reply: an HTTP status and a JSON body.

Module layout, one per source file:

| model file | source file |
|---|---|
| `js.dfy` | the JavaScript semantics the handlers rely on |
| `firestore.dfy` | the document-store writes |
| `blog_store.dfy` | `models/blog.ts` |
| `contentful_store.dfy` | `models/contentful.ts` |
| `response.dfy` | `utils/response.ts` |
| `slack.dfy` | `utils/sendToSlack.ts` |
| `content_source.dfy` | the query answers, `find` by `sys.id` |
| `blog_controller.dfy` | `controllers/blog.ts` |
| `contentful_controller.dfy` | `controllers/contentful.ts` |
| `portfolio.dfy` | `controllers/portfolio.ts` |
| `news.dfy` | `controllers/news.ts` |
| `roadmap.dfy` | `controllers/roadmap.ts` |
| `ogp.dfy` | `utils/getOgp.ts` |
| `sentry.dfy` | `controllers/sentry.ts` |

## Model

| member | source | states |
|---|---|---|
| Js.Get | functions/src/controllers/portfolio.ts:37 | Reading a property throws exactly when the base is null or undefined. On an object it yields the property, or undefined when the property is absent. |
| Js.OptGet | functions/src/controllers/portfolio.ts:40 | `?.` never throws. It is undefined on a null or undefined base and a plain read otherwise. |
| Js.Coalesce | functions/src/controllers/portfolio.ts:43-44 | `??` replaces exactly null and undefined. Every other value, including "", is kept. |
| Js.MapJs | functions/src/controllers/news.ts:35-47 | `map` with a throwing callback succeeds exactly when every callback does. It then gives one result per element, in order. Otherwise it throws the error of the first element that throws. |
| Firestore.MergeSet | functions/src/models/blog.ts:11-15 | A merge write creates the document if absent, overwrites exactly the listed fields, keeps that document's other fields and touches no other document. |
| Firestore.Increment | functions/src/models/blog.ts:122-129 | An update with an increment is rejected on a missing document. Otherwise only that field changes, by exactly the delta, starting from 0 when absent. |
| Firestore.MergeSetIdempotent | functions/src/models/blog.ts:12-15 | Repeating a merge write with the same fields changes nothing. |
| Firestore.MergeSetKeepsShape | functions/src/models/blog.ts:12-15 | A merge write of the fields every document already has keeps every document with exactly those fields. |
| Firestore.MergeSetOverShaped | functions/src/models/blog.ts:33-41 | On such a collection, the written document is exactly the merged fields. |
| Firestore.IncrementKeepsShape | functions/src/models/blog.ts:122-129 | An increment of an existing field keeps every document's field set. |
| Firestore.IncrementAllCounts | functions/src/models/blog.ts:116-138 | From any start, N votes of +1 and M of -1 on an existing document leave the counter at start + N - M, whatever their order, with no lower bound. Nothing else changes. |
| Firestore.IncrementAllMissing | functions/src/models/blog.ts:122-129 | Votes on a missing document are all rejected. |
| BlogStore.LgtmField | functions/src/models/blog.ts:120-133 | The switch selects a counter exactly for the types "good" and "bad", and the counter has the type's name. |
| BlogStore.Store.constructor | functions/src/models/blog.ts:11 | An empty store satisfies the store invariant. |
| BlogStore.Store.PostBlogLgtm | functions/src/models/blog.ts:10-17 | On a valid id with a successful write, merges good = bad = 0 into `blog_lgtm/<id>`. Otherwise it rejects without change, with an invalid-path error for a bad id and an unavailable error for a failed write. The `{good, bad}` shape is preserved. |
| BlogStore.Store.PutBlogArchive | functions/src/models/blog.ts:28-46 | Writes the monthly `{count}` first. Only when that succeeds does it write the category's `{count, percent}`. It resolves `true` exactly when both succeed, and otherwise to the caught error; a failed second write leaves the first in place. |
| BlogStore.Store.GetMonthlyArchive | functions/src/models/blog.ts:53-67 | Gives the monthly document exactly when the id is valid, the read succeeds and the document exists. Otherwise null. |
| BlogStore.Store.GetTagArchive | functions/src/models/blog.ts:74-88 | The same for the category document. |
| BlogStore.Store.GetBlogLgtm | functions/src/models/blog.ts:95-107 | The same for the vote record. On a valid store the record has exactly the keys good and bad. |
| BlogStore.Store.PutBlogLgtm | functions/src/models/blog.ts:116-138 | An invalid id resolves null and a type other than good/bad resolves undefined; neither writes. A missing document or a failed write rejects. Otherwise the chosen counter moves by `value`, and nothing else changes. |
| ContentfulStore.PostBlogLgtm | functions/src/models/contentful.ts:4-11 | The older initialiser merges good = bad = 0 into the `blog` collection. The vote records and the archives are untouched. |
| ContentfulStore.LegacyInitialiser | functions/src/models/contentful.ts:4-11 | Its write zeroes both counters, keeps other fields, creates the document if absent, leaves other documents alone and is idempotent. |
| Response.FailureBody | functions/src/controllers/blog.ts:16 | A literal `{success: false, message}` body has exactly those two keys. |
| Response.Success | functions/src/utils/response.ts:3-9 | Status 200 and `success: true`. `data` is present exactly when it is truthy, and there is no other key. |
| Response.Error400 | functions/src/utils/response.ts:11-17 | Status 400 and `success: false`. `message` is present exactly when it is truthy, and there is no other key. |
| Response.Error500 | functions/src/utils/response.ts:19-25 | The same with status 500. |
| Response.EnvelopeDetermined | functions/src/utils/response.ts:3-25 | The envelope properties leave no freedom: two replies built from the same arguments are equal. |
| Response.FalsyPayloadsAgree | functions/src/utils/response.ts:5 | Every falsy payload (none, 0, "", false, null) yields the same reply `{success}`. |
| Response.SuccessIsNotError | functions/src/utils/response.ts:3-25 | A success reply is never an error reply. |
| Slack.GetSlackWebhookUrl | functions/src/utils/sendToSlack.ts:78-89 | CONTENTFUL, SERVER and SENTRY map to their URLs; any other type maps to "". |
| Slack.MessagePayload | functions/src/utils/sendToSlack.ts:19-58 | One attachment and no top-level blocks. The attachment holds a bold-name section, then a plain-text message section, then an "Occurred in" context block exactly when `function` is truthy. The colour is #6FCBFF exactly for CONTENTFUL and #FF6D6D otherwise. |
| Slack.MessagePayloadDistinguishes | functions/src/utils/sendToSlack.ts:19-58 | Two notifications of one type that give the same payload have the same name and message, so the payload names which notice it is. |
| Slack.SendMessageToSlack | functions/src/utils/sendToSlack.ts:14-59 | Building the blocks step by step and posting gives exactly one request: the `MessagePayload` of the notification, to the type's URL. |
| Slack.SendObjectToSlack | functions/src/utils/sendToSlack.ts:66-70 | The payload is forwarded unchanged to the type's URL. |
| ContentSource.FindBySysId | functions/src/controllers/contentful.ts:57 | `find` by `sys.id` returns the first match. It returns undefined exactly when every element has a readable, different id. It throws only on an element without `sys`. |
| ContentSource.FirstMatchFound | functions/src/controllers/portfolio.ts:38 | `find` stops at the first element whose id matches. |
| BlogController.Delta | functions/src/controllers/blog.ts:55 | The vote is +1 exactly for "increment" and -1 for every other accepted action. |
| BlogController.DocJson | functions/src/controllers/blog.ts:26 | The reply's `data` has exactly the record's fields and values. |
| BlogController.GetBlogContentsLgtm | functions/src/controllers/blog.ts:12-31 | A non-string id gets "missing parameters". A record that cannot be read gets "could not get the data". Otherwise the reply is `{success: true, data}`. All use the default status. |
| BlogController.PostBlogContentsLgtm | functions/src/controllers/blog.ts:39-66 | A body failing any of the three checks gets 400 "missing parameters" and no write. Otherwise putBlogLgtm's null gets "could not update" and any other value gets `{success: true}`. Its rejection gets 400 with the error's message. Only a successful update changes the counters. |
| BlogController.VoteMovesOneCounter | functions/src/controllers/blog.ts:55-56 | A vote moves the chosen counter by one in the action's direction and nothing else. |
| ContentfulController.Pad2 | functions/src/controllers/contentful.ts:45 | Two-digit zero padding yields two digit characters. |
| ContentfulController.Pad2RoundTrip | functions/src/controllers/contentful.ts:45 | The padded two digits read back as the number. |
| ContentfulController.TwoRoundTrip | functions/src/controllers/contentful.ts:112 | Two digit characters, read as a number and re-padded, are the same characters. |
| ContentfulController.MonthKey | functions/src/controllers/contentful.ts:45 | `yyyy-MM` is seven characters with a dash at index 4, and is a valid document id. |
| ContentfulController.MonthKeyRoundTrip | functions/src/controllers/contentful.ts:112-113 | Re-parsing the month key formatted at line 45 gives back the month. |
| ContentfulController.ParsedKeyIsFormatted | functions/src/controllers/contentful.ts:112-113 | Every key that parses is the formatting of what it parses to, so keys and months correspond one to one. |
| ContentfulController.NextMonth | functions/src/controllers/contentful.ts:113 | `plus({months: 1})` moves to the next month; December rolls over to January of the next year. |
| ContentfulController.MonthRange | functions/src/controllers/contentful.ts:110-123 | The count query has a range exactly when the key parses. |
| ContentfulController.MonthRangeIsTheMonth | functions/src/controllers/contentful.ts:112-121 | The half-open range `[first of month, first of next month)` holds exactly the instants of that month. |
| ContentfulController.Percent | functions/src/controllers/contentful.ts:88 | The result is the floor of category/all*100 (`p*all <= 100*category < (p+1)*all`). It is non-negative, and at most 100 when category <= all. |
| ContentfulController.FloorDivBounds | functions/src/controllers/contentful.ts:88 | The floor of a quotient lies within one divisor below the dividend. |
| ContentfulController.CtfWebhookCreateBlogEvent | functions/src/controllers/contentful.ts:18-31 | A record that was read is left as is: reply success, no notice. A record not found is merge-created with zero counts. Exactly one request is then sent: the CONTENTFUL notice "200 Success" naming ctfWebhookCreateBlogEvent in its message, with no origin. A missing body id or a failed creation gets 500 "error", no write and no notice. |
| ContentfulController.GuardProtectsCounts | functions/src/controllers/contentful.ts:22-23 | Without the null check, the merge-create would zero an article's existing votes. |
| ContentfulController.CategoryKey | functions/src/controllers/contentful.ts:57 | A key that reads was read from some item matching the link's id with every earlier item passed over, from `fields?.categoryId`. When every item is passed over, it throws. |
| ContentfulController.CategoryOfFirstMatch | functions/src/controllers/contentful.ts:57 | Conversely, when item k is the first match, the key is the one read from item k. |
| ContentfulController.PlanArchive | functions/src/controllers/contentful.ts:39-64 | The hook writes exactly when the link id reads, the category query answers at least one entry, the category key reads and the counts are fetched. The written values are then the month key and the category key, the monthly and category totals, and the category's floor percentage. An empty category query, and only that, takes the "no category" path. |
| ContentfulController.PlannedPercentInRange | functions/src/controllers/contentful.ts:88 | The stored percentage lies in 0..100 when the category total does not exceed all blogs. |
| ContentfulController.CtfWebhookUpdateBlogEvent | functions/src/controllers/contentful.ts:39-71 | The reply is success exactly when there is something to write, even when putBlogArchive's write failed, because its result is ignored. Otherwise it is 500 "error" and nothing is written. The notice is pinned by the path taken: none when something threw, the CONTENTFUL notice "400 Error" with the no-category message on the empty category query, and "200 Success" naming ctfWebhookUpdateBlogEvent when there is something to write. The archive collections change exactly as putBlogArchive writes them. |
| Portfolio.FindAsset | functions/src/controllers/portfolio.ts:38 | A missing `includes` throws. An `Asset` array is searched by `sys.id`. |
| Portfolio.WorkItem | functions/src/controllers/portfolio.ts:35-47 | A work item is built exactly when `fields.image.sys.id` reads and the asset search succeeds. It has exactly six keys. title, description and year are copied. link and github become null only when null or undefined. image is the matched asset's file url, or null. |
| Portfolio.WorkItems | functions/src/controllers/portfolio.ts:34-47 | It succeeds exactly when every entry's work item does, with one item per entry in entry order. Otherwise it throws the error of entry i, where every entry before i succeeds. |
| Portfolio.GetPortfolioWorks | functions/src/controllers/portfolio.ts:14-56 | A non-string offset or limit gets "missing parameters" without a query. A failure gets its message. Otherwise `{data, success: true}`. All use the default status. |
| Portfolio.MissingAssetGivesNullImage | functions/src/controllers/portfolio.ts:38-40 | An image link whose id no asset has yields image null, not an error. |
| Portfolio.MatchingAssetGivesItsUrl | functions/src/controllers/portfolio.ts:38-40 | The image is the file url of the first asset with the link's id. |
| News.NewsImage | functions/src/controllers/news.ts:39-44 | A falsy image gives null. A truthy image gives `{url, alt}` from its fields, and throws when `fields` or `fields.file` is missing. |
| News.NewsItem | functions/src/controllers/news.ts:36-47 | A news item has exactly the keys id, text, image and date. id is `sys.id`, and text and date are copied. image is null exactly when `fields.image` is falsy. It throws where the source's reads throw. |
| News.NewsContents | functions/src/controllers/news.ts:33-48 | `[]` unless both the answer and its items are truthy. Then one item per entry, in order. |
| News.GetNews | functions/src/controllers/news.ts:14-56 | A bad query gets 400 "missing parameters". Otherwise it is a success whose `data` is always present as `{contents}`, even when empty, or 500 with the error's message. |
| Roadmap.Classify | functions/src/controllers/roadmap.ts:28-29 | The test throws exactly when `fields` or `fields.state` is null or undefined, since `.length` is a plain read. An entry is accepted only for a state name in ROADMAP_TYPE. |
| Roadmap.UnreadableStateThrows | functions/src/controllers/roadmap.ts:29 | An entry whose `state` is unset or null throws "Cannot read properties of undefined (or null) (reading 'length')". |
| Roadmap.ListedFirstStateAccepted | functions/src/controllers/roadmap.ts:28-29 | Conversely, an entry whose first state is a string listed in ROADMAP_TYPE is accepted under that name. |
| Roadmap.UnlistedFirstStateDropped | functions/src/controllers/roadmap.ts:28-29 | An entry whose first state is not listed, by `includes`, is dropped without error. |
| Roadmap.Push | functions/src/controllers/roadmap.ts:30 | The push succeeds exactly for schedule, develop and merge. For any other name it throws. |
| Roadmap.DataJson | functions/src/controllers/roadmap.ts:24 | `data` has exactly the keys schedule, develop and merge, and is always truthy. |
| Roadmap.GetRoadmap | functions/src/controllers/roadmap.ts:15-42 | The loop produces the reference partition. The reply is a success carrying the three lists even when all are empty, or 500 with the message of whatever threw. |
| Roadmap.ErrorEndsPartition | functions/src/controllers/roadmap.ts:26-35 | An error in any entry ends the run with that error. |
| Roadmap.PartitionSucceeds | functions/src/controllers/roadmap.ts:26-35 | The run completes exactly when every entry's `fields.state.length` reads and every accepted name is a list. |
| Roadmap.FirstThrowEndsPartition | functions/src/controllers/roadmap.ts:26-41 | When entry i is the first whose test throws, the run throws that entry's error, which becomes the 500 message. |
| Roadmap.PartitionSelects | functions/src/controllers/roadmap.ts:26-35 | Each list holds the labels `{label, completed}` of exactly the entries bound for it, in entry order. |
| Roadmap.PartitionCounts | functions/src/controllers/roadmap.ts:26-35 | The list sizes add up to the number of accepted entries, so each accepted entry appears exactly once. |
| Roadmap.OnlyFirstStateMatters | functions/src/controllers/roadmap.ts:29-30 | Two entries whose non-empty states share the first element are sorted alike. |
| Roadmap.EmptyStateDropped | functions/src/controllers/roadmap.ts:29 | An entry with an empty state is dropped. |
| Ogp.TrimStartIsSuffix | functions/src/utils/getOgp.ts:31 | Trimming the start leaves a suffix of the string. |
| Ogp.TrimStartCutsBlank | functions/src/utils/getOgp.ts:31 | Every character removed from the start is white space, and the kept part does not start with white space, so the longest white-space prefix is removed. |
| Ogp.TrimEndIsPrefix | functions/src/utils/getOgp.ts:31 | Trimming the end leaves a prefix of the string. |
| Ogp.TrimEndCutsBlank | functions/src/utils/getOgp.ts:31 | Every character removed from the end is white space, and the kept part does not end with white space. |
| Ogp.TrimCutsBlankEnds | functions/src/utils/getOgp.ts:31 | `trim()` yields the slice `s[i..j]` with only white space (the ECMAScript WhiteSpace and LineTerminator characters) before i and after j, and the slice neither starts nor ends with white space. |
| Ogp.TrimEmptyIffBlank | functions/src/utils/getOgp.ts:31 | The trimmed property is empty exactly when it is all white space. |
| Ogp.WithProperty | functions/src/utils/getOgp.ts:28 | The filter keeps exactly the elements that have a `property` attribute, and no more elements than it was given. |
| Ogp.WithPropertyAppend | functions/src/utils/getOgp.ts:28 | Filtering a concatenation concatenates the filtered parts, so the kept elements stay in document order. |
| Ogp.WithPropertyKeepsAll | functions/src/utils/getOgp.ts:28 | When every element has a property, the filter returns the sequence unchanged. |
| Ogp.Step | functions/src/utils/getOgp.ts:29-38 | A blank property returns undefined. A valid property on the record sets exactly that key to the content, or null, and keeps the others. A valid property after the record is lost throws "Cannot set properties of undefined". |
| Ogp.Callback | functions/src/utils/getOgp.ts:29-38 | The callback run as statements (trim, blank check, lost-record check, property set) returns what `Step` specifies. |
| Ogp.ExtractOgp | functions/src/utils/getOgp.ts:24-41 | The loop, updating the record in place, computes the filter followed by the reduce. |
| Ogp.ErrorEndsReduce | functions/src/utils/getOgp.ts:29-39 | A throwing callback ends the reduce with its error. |
| Ogp.LastWins | functions/src/utils/getOgp.ts:34 | With no blank property, every key is present. Each value is the content of the last element with that key. |
| Ogp.BlankTailLosesRecord | functions/src/utils/getOgp.ts:30-38 | A blank property followed only by blank ones makes the result undefined. |
| Ogp.BlankThenValidThrows | functions/src/utils/getOgp.ts:30-38 | A blank property followed by a valid one throws the TypeError. |
| Ogp.NoPropertiesGivesEmptyRecord | functions/src/utils/getOgp.ts:27-39 | Without elements that have a property, the result is `{}`. |
| Ogp.GetOgp | functions/src/utils/getOgp.ts:4-21 | A non-string url gives null without fetching. Otherwise the result is the record, or undefined when the record was lost. Any error is rethrown with its message. |
| Sentry.BrowserInfo | functions/src/controllers/sentry.ts:12 | The browser line has no fallback: a missing browser throws, and it is never "unknown". |
| Sentry.OsInfo | functions/src/controllers/sentry.ts:14 | "unknown" exactly when os is undefined. A null os throws. |
| Sentry.DeviceInfo | functions/src/controllers/sentry.ts:16 | "unknown" when the device is undefined. A null device throws. Otherwise it is the family. |
| Sentry.UserInfo | functions/src/controllers/sentry.ts:18 | "unknown" exactly when the user is undefined; otherwise the line starts with "IP:". A null user or one without geo throws. |
| Sentry.IssueLines | functions/src/controllers/sentry.ts:20-30 | Six lines "key: value" in the order message, detail, browser, os, device, user. |
| Sentry.Header | functions/src/controllers/sentry.ts:38 | The header starts with "*" and ends with ") ", trailing space included. |
| Sentry.Destructure | functions/src/controllers/sentry.ts:10 | The destructuring throws exactly when event or contexts is null or undefined. |
| Sentry.UnknownLinesMarkAbsentParts | functions/src/controllers/sentry.ts:12-30 | The os and user lines read "unknown" exactly when those parts are absent. The device line does when the device is. The browser line never does. |
| Sentry.LinesMarkUnknown | functions/src/controllers/sentry.ts:20-30 | Each of the browser, os, device and user lines reads "key: unknown" exactly when its value is "unknown". |
| Sentry.SentryPayload | functions/src/controllers/sentry.ts:7-49 | The payload is built exactly when every read without a fallback finds a value. It has no attachment and exactly two sections: the header, then the issue lines joined by newlines. |
| Sentry.PostNotificationFromSentryToSlack | functions/src/controllers/sentry.ts:6-57 | An unreadable body sends no reply and posts nothing. Otherwise the payload goes to the SENTRY URL, and the reply is 200 "success" when delivered and 500 "error" when the send failed. |

## Left out

- Network and store I/O are not modelled; their outcomes are parameters. This covers Firestore, the content-source client, the Slack webhook library, axios and JSDOM. Increments are applied one at a time, since the atomicity of `FieldValue.increment` under concurrent writers is a guarantee of the store.
- `functions/src/index.ts` is not part of this model: it is routing, middleware, the error handler reached through `next(...)` and the Firebase export. The `next(Object.assign(err, {function}))` calls in every catch are not modelled.
- `functions/src/plugins/contentful.ts` and `functions/src/plugins/firestore.ts` (client factories) are not part of this model; `consts/config.ts` and `types/interface.ts` hold only constants and types. The configured vote types, vote actions and roadmap states and the Slack webhook URLs are parameters.
- The time zones and general ISO parsing of Luxon are not modelled. The creation date reaches the archive hook already parsed to a year and month in 0..9999 and 1..12, so an unparsable `createdAt` (for which Luxon yields "Invalid DateTime") is not modelled.
- ContentfulController.Percent: integer arithmetic, not the source's floating-point `Math.floor(c / t * 100)`. The float result can be one lower: 29/100*100 is 28.999999999999996, which floors to 28. A total of 0 gives NaN in the source; the model requires `all > 0` instead.
- ContentfulController.CtfWebhookUpdateBlogEvent: requires a parsed creation month and a non-zero total of blogs, for the two reasons above.
- The category and percentage queries of the archive hook are separate calls in the source; the model takes their answers to agree (one `category` total).
- Numbers are integers only; NaN, Infinity and fractions are not represented.
- Properties inherited from prototypes are not modelled: a `data["constructor"]` bucket name, or string methods read as properties.
- `===` on two arrays or objects is always false in the model. This assumes the handlers never compare an object with itself.
- An object `state` whose own `length` property is not a number is not modelled: a `length` such as `true` compares greater than 0 in JavaScript, but the model drops the entry.
- JSON serialisation of the reply is not modelled: properties whose value is `undefined`, which the serialiser drops, stay in the reply body.
- Firestore path validation is simplified to "a non-empty string without '/'". Nested paths with an even number of extra segments, which the store would accept as documents further down, count as invalid.
- The catch of `getBlogContentsLgtm` (functions/src/controllers/blog.ts:27-30) cannot be reached: getBlogLgtm catches every store error itself and the id check precedes it.
- `getPortfolioShops` (functions/src/controllers/portfolio.ts:64-79) is a hard-coded placeholder reply and is not modelled.
- `encodeURI`, the HTTP fetch and HTML parsing of getOgp are not modelled: the document head's `<meta>` elements, or the fetch error, are the input. An error that is not an `Error` instance, for which the source returns null, is not distinguished.
- Console logging is not modelled.
- Ogp.Callback: the record is a value that the callback returns updated, not a heap object mutated through `previous`. Aliasing of the record is not modelled; nothing else holds a reference to it in the source.
- The not-found error of an update: its message carries the collection-relative path `blog_lgtm/<id>`. The `projects/<project>/databases/(default)/documents/` prefix of the store's message is not modelled, as the project id is configuration.
- The messages of the TypeErrors that throw before the Sentry handler's `try` are not modelled: such a request gets no reply at all, whatever the message.
