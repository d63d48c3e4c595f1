/** `getNews` of controllers/news.ts: one page of news entries, each shaped
    into `{id, text, image, date}` with an optional image. The query answer
    is a parameter, as raw JSON, since the handler tests it for a value
    before reading `items`. */
module News {
  import opened Js
  import opened Response
  import opened ContentSource

  /** The keys of a news item. */
  const ItemKeys: set<string> := {"id", "text", "image", "date"}

  /** `image ? {url: image.fields.file.url, alt: image.fields.title} : null`:
      a falsy image gives null; a truthy one whose `fields` or `fields.file`
      is null or undefined throws. */
  function NewsImage(image: Json): (r: Result<Json>)
    ensures !Truthy(image) ==> r == Ok(Null)
    ensures Truthy(image) ==>
      (r.Ok? <==> !Nullish(OptGet(image, "fields")) && !Nullish(OptGet(OptGet(image, "fields"), "file")))
    ensures Truthy(image) && r.Ok? ==>
      r.value == Obj(map["url" := OptGet(OptGet(OptGet(image, "fields"), "file"), "url"),
                         "alt" := OptGet(OptGet(image, "fields"), "title")])
  {
    if !Truthy(image) then Ok(Null)
    else
      var fields := OptGet(image, "fields");
      var file :- Get(fields, "file");
      var url :- Get(file, "url");
      Ok(Obj(map["url" := url, "alt" := OptGet(fields, "title")]))
  }

  /** The callback of `entries.items.map(...)` (controllers/news.ts:36-47).
      `id` is `sys.id`, `text` and `date` are copied, and `image` is null
      exactly when `fields.image` is falsy. */
  function NewsItem(entry: Json): (r: Result<Json>)
    ensures r.Ok? <==>
      && SysId(entry).Ok?
      && !Nullish(OptGet(entry, "fields"))
      && NewsImage(OptGet(OptGet(entry, "fields"), "image")).Ok?
    ensures r.Ok? ==> r.value.Obj?
    ensures r.Ok? ==> var fields := OptGet(entry, "fields");
      var p := r.value.props;
      && p.Keys == ItemKeys
      && p["id"] == SysId(entry).value
      && p["text"] == OptGet(fields, "text")
      && p["date"] == OptGet(fields, "date")
      && p["image"] == NewsImage(OptGet(fields, "image")).value
      && (p["image"] == Null <==> !Truthy(OptGet(fields, "image")))
  {
    var sys :- Get(entry, "sys");
    var id :- Get(sys, "id");
    var fields := OptGet(entry, "fields");
    var text :- Get(fields, "text");
    var image :- NewsImage(OptGet(fields, "image"));
    Ok(Obj(map["id" := id, "text" := text, "image" := image, "date" := OptGet(fields, "date")]))
  }

  /** `contents` (controllers/news.ts:33-48): `[]` unless both the answer
      and its `items` are truthy; then one item per entry, in order. */
  function NewsContents(entries: Json): (r: Result<seq<Json>>)
    ensures !Truthy(entries) || !Truthy(OptGet(entries, "items")) ==> r == Ok([])
    ensures Truthy(entries) && OptGet(entries, "items").Arr? ==> var items := OptGet(entries, "items").elems;
      && (r.Ok? <==> forall i :: 0 <= i < |items| ==> NewsItem(items[i]).Ok?)
      && (r.Ok? ==> |r.value| == |items| && forall i :: 0 <= i < |items| ==> Ok(r.value[i]) == NewsItem(items[i]))
  {
    if !Truthy(entries) then Ok([])
    else
      var items := OptGet(entries, "items");
      if !Truthy(items) then Ok([])
      else if !items.Arr? then Throw("entries.items.map is not a function")
      else MapJs(NewsItem, items.elems)
  }

  /** `getNews` (controllers/news.ts:14-56). Bad query parameters are
      answered 400; otherwise the reply is a success carrying
      `data: {contents}`, which is present even when there are no contents,
      or 500 with the message of whatever threw. */
  method GetNews(offset: Json, limit: Json, entries: Fetch<Json>) returns (reply: Reply)
    ensures !offset.Str? || !limit.Str? ==> IsError(reply, 400, Str(MissingParameter))
    ensures offset.Str? && limit.Str? && entries.FetchFailed? ==> IsError(reply, 500, Str(entries.message))
    ensures offset.Str? && limit.Str? && entries.Fetched? ==>
      match NewsContents(entries.value)
      case Ok(contents) =>
        IsSuccess(reply, Obj(map["contents" := Arr(contents)]))
        && reply.body["data"] == Obj(map["contents" := Arr(contents)])
      case Throw(m) => IsError(reply, 500, Str(m))
  {
    if !offset.Str? || !limit.Str? {
      reply := Error400(Str(MissingParameter));
      return;
    }
    match entries
    case FetchFailed(m) =>
      reply := Error500(Str(m));
    case Fetched(answer) =>
      match NewsContents(answer)
      case Ok(contents) =>
        reply := Success(Obj(map["contents" := Arr(contents)]));
      case Throw(m) =>
        reply := Error500(Str(m));
  }
}
