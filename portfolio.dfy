/** `getPortfolioWorks` of controllers/portfolio.ts: one page of portfolio
    entries, each shaped into a work item whose image URL is looked up by
    asset id in the query's `includes.Asset` side table. The query answer is
    a parameter. */
module Portfolio {
  import opened Js
  import opened Response
  import opened ContentSource

  /** The keys of a work item. */
  const WorkKeys: set<string> := {"image", "title", "description", "link", "github", "year"}

  /** `includes.Asset.find(_asset => _asset.sys.id === imageSysId)`: reading
      `Asset` of null/undefined includes throws, and so does calling `find` on
      anything that is not an array. */
  function FindAsset(includes: Json, imageSysId: Json): (r: Result<Json>)
    ensures Nullish(includes) ==> r.Throw?
    ensures Get(includes, "Asset").Ok? && Get(includes, "Asset").value.Arr? ==>
      r == FindBySysId(Get(includes, "Asset").value.elems, imageSysId)
  {
    var assets :- Get(includes, "Asset");
    if Nullish(assets) then Throw(ReadError(assets, "find"))
    else if !assets.Arr? then Throw("entries.includes.Asset.find is not a function")
    else FindBySysId(assets.elems, imageSysId)
  }

  /** `imageObj?.fields?.file?.url ?? null` */
  function AssetUrl(asset: Json): Json {
    Coalesce(OptGet(OptGet(OptGet(asset, "fields"), "file"), "url"), Null)
  }

  /** `fields.image.sys.id` */
  function ImageSysId(fields: Json): Result<Json> {
    var image :- Get(fields, "image");
    SysId(image)
  }

  /** The callback of `items.map(...)` (controllers/portfolio.ts:35-47). It
      throws where the source's property reads throw; otherwise the item has
      exactly the six keys, `title`, `description` and `year` copied, and
      `link`/`github` replaced by null only when they are null or undefined. */
  function WorkItem(item: Json, includes: Json): (r: Result<Json>)
    ensures r.Ok? <==>
      && Get(item, "fields").Ok?
      && ImageSysId(Get(item, "fields").value).Ok?
      && FindAsset(includes, ImageSysId(Get(item, "fields").value).value).Ok?
    ensures r.Ok? ==> r.value.Obj?
    ensures r.Ok? ==> var fields := Get(item, "fields").value;
      var p := r.value.props;
      && p.Keys == WorkKeys
      && p["image"] == AssetUrl(FindAsset(includes, ImageSysId(fields).value).value)
      && p["title"] == OptGet(fields, "title")
      && p["description"] == OptGet(fields, "description")
      && p["year"] == OptGet(fields, "created_year")
      && (p["link"] == Null <==> Nullish(OptGet(fields, "link")))
      && (!Nullish(OptGet(fields, "link")) ==> p["link"] == OptGet(fields, "link"))
      && (p["github"] == Null <==> Nullish(OptGet(fields, "github")))
      && (!Nullish(OptGet(fields, "github")) ==> p["github"] == OptGet(fields, "github"))
  {
    var fields :- Get(item, "fields");
    var imageSysId :- ImageSysId(fields);
    var imageObj :- FindAsset(includes, imageSysId);
    Ok(Obj(map[
      "image" := AssetUrl(imageObj),
      "title" := OptGet(fields, "title"),
      "description" := OptGet(fields, "description"),
      "link" := Coalesce(OptGet(fields, "link"), Null),
      "github" := Coalesce(OptGet(fields, "github"), Null),
      "year" := OptGet(fields, "created_year")
    ]))
  }

  /** `items.map(...)`: one work item per entry, in entry order, or the
      error of the first entry that throws. */
  function WorkItems(page: EntryPage): (r: Result<seq<Json>>)
    ensures r.Ok? <==> forall i :: 0 <= i < |page.items| ==> WorkItem(page.items[i], page.includes).Ok?
    ensures r.Ok? ==> |r.value| == |page.items|
    ensures r.Ok? ==> forall i :: 0 <= i < |page.items| ==> Ok(r.value[i]) == WorkItem(page.items[i], page.includes)
    ensures r.Throw? ==> exists i :: 0 <= i < |page.items| && WorkItem(page.items[i], page.includes) == Throw(r.message)
                                     && forall j :: 0 <= j < i ==> WorkItem(page.items[j], page.includes).Ok?
  {
    MapJs(x => WorkItem(x, page.includes), page.items)
  }

  /** `getPortfolioWorks` (controllers/portfolio.ts:14-56). Bad query
      parameters and every failure are answered with the default status and
      `{success: false, message}`; the message of a failure is the error's. */
  function GetPortfolioWorks(offset: Json, limit: Json, entries: Fetch<EntryPage>): (reply: Reply)
    ensures !offset.Str? || !limit.Str? ==> reply == Reply(DefaultStatus, FailureBody(MissingParameter))
    ensures offset.Str? && limit.Str? && entries.FetchFailed? ==>
      reply == Reply(DefaultStatus, FailureBody(entries.message))
    ensures offset.Str? && limit.Str? && entries.Fetched? ==>
      match WorkItems(entries.value)
      case Ok(data) => reply == Reply(DefaultStatus, map["data" := Arr(data), "success" := Bool(true)])
      case Throw(m) => reply == Reply(DefaultStatus, FailureBody(m))
  {
    if !offset.Str? || !limit.Str? then Reply(DefaultStatus, FailureBody(MissingParameter))
    else
      match entries
      case FetchFailed(m) => Reply(DefaultStatus, FailureBody(m))
      case Fetched(page) =>
        match WorkItems(page)
        case Ok(data) => Reply(DefaultStatus, map["data" := Arr(data), "success" := Bool(true)])
        case Throw(m) => Reply(DefaultStatus, FailureBody(m))
  }

  /** A readable image link whose id no asset has gives a null image, not an
      error. */
  lemma MissingAssetGivesNullImage(item: Json, assets: seq<Json>, id: Json)
    requires Get(item, "fields").Ok? && ImageSysId(Get(item, "fields").value) == Ok(id)
    requires forall i :: 0 <= i < |assets| ==> Passes(assets[i], id)
    ensures WorkItem(item, Obj(map["Asset" := Arr(assets)])).Ok?
    ensures WorkItem(item, Obj(map["Asset" := Arr(assets)])).value.props["image"] == Null
  {
    assert FindBySysId(assets, id) == Ok(Undefined);
  }

  /** The image is the file URL of the first asset whose id is the link's,
      when that asset has one. */
  lemma MatchingAssetGivesItsUrl(item: Json, assets: seq<Json>, id: Json, k: nat, url: string)
    requires Get(item, "fields").Ok? && ImageSysId(Get(item, "fields").value) == Ok(id)
    requires k < |assets| && Matches(assets[k], id) && forall j :: 0 <= j < k ==> Passes(assets[j], id)
    requires OptGet(OptGet(OptGet(assets[k], "fields"), "file"), "url") == Str(url)
    ensures WorkItem(item, Obj(map["Asset" := Arr(assets)])).Ok?
    ensures WorkItem(item, Obj(map["Asset" := Arr(assets)])).value.props["image"] == Str(url)
  {
    FirstMatchFound(assets, id, k);
  }
}
