/** The vote and archive documents of models/blog.ts, held in memory.
    Each method performs the reads and writes of one exported function of that
    file; the I/O outcome of the store (a read or write that fails) is a
    parameter. */
module BlogStore {
  import opened Js
  import opened Firestore

  /** What `postBlogLgtm` merges into an article's document. */
  const LgtmInitial: Doc := map["good" := 0, "bad" := 0]
  const LgtmFields: set<string> := {"good", "bad"}

  /** An awaited store promise: it resolves with a value or rejects. */
  datatype Settled<+T> = Resolved(value: T) | Rejected(error: StoreError)

  /** What `await putBlogLgtm(...)` resolves to: `null` (the synchronous
      failure caught in putBlogLgtm), `undefined` (a type other than good/bad),
      or the update's write result. */
  datatype PutResult = NullResult | UndefinedResult | WriteResult

  /** What `putBlogArchive` resolves to: `true`, or the error it caught. */
  datatype ArchiveResult = Archived | ArchiveError(error: StoreError)

  /** The counter a vote type updates, as putBlogLgtm's switch selects it. */
  function LgtmField(kind: Json): (f: Option<string>)
    ensures f.Some? <==> kind == Str("good") || kind == Str("bad")
    ensures f.Some? ==> Str(f.value) == kind && f.value in LgtmFields
  {
    if kind == Str("good") then Some("good")
    else if kind == Str("bad") then Some("bad")
    else None
  }

  function MonthlyDoc(count: int): (d: Doc)
    ensures d.Keys == {"count"} && d["count"] == count
  {
    map["count" := count]
  }

  function TagDoc(count: int, percent: int): (d: Doc)
    ensures d.Keys == {"count", "percent"} && d["count"] == count && d["percent"] == percent
  {
    map["count" := count, "percent" := percent]
  }

  /** putBlogArchive's first write takes place: the month key is a valid
      document id and the write succeeds. */
  predicate MonthlyWritten(createdAt: string, monthlyFails: bool) {
    IsDocId(Str(createdAt)) && !monthlyFails
  }

  class Store {
    /** collection `blog_lgtm`: article id -> {good, bad} */
    var blogLgtm: Collection
    /** collection `blog`: written only by the older variant in models/contentful.ts */
    var blog: Collection
    /** collection `blog/archive/monthly`: yyyy-MM -> {count} */
    var monthly: Collection
    /** collection `blog/archive/tag`: category id -> {count, percent} */
    var tag: Collection

    /** The shapes the writers of this store produce: every vote document
        has exactly good and bad, every monthly archive exactly count, every
        tag archive exactly count and percent. */
    predicate Valid()
      reads this
    {
      && Shaped(blogLgtm, LgtmFields)
      && Shaped(blog, LgtmFields)
      && Shaped(monthly, {"count"})
      && Shaped(tag, {"count", "percent"})
    }

    constructor ()
      ensures Valid()
      ensures blogLgtm == map[] && blog == map[] && monthly == map[] && tag == map[]
    {
      blogLgtm, blog, monthly, tag := map[], map[], map[], map[];
    }

    /** `postBlogLgtm(id)` (models/blog.ts:10-17): merge-set good = bad = 0.
        Existing counts ARE reset to 0; the other fields survive; the promise
        rejects, writing nothing, on an invalid id or a failed write. */
    method PostBlogLgtm(id: Json, writeFails: bool) returns (r: Settled<()>)
      modifies this`blogLgtm
      ensures r.Resolved? <==> IsDocId(id) && !writeFails
      ensures r.Rejected? ==> blogLgtm == old(blogLgtm)
      ensures r.Rejected? ==> r.error == if IsDocId(id) then Unavailable else InvalidPath
      ensures r.Resolved? ==> blogLgtm == MergeSet(old(blogLgtm), id.s, LgtmInitial)
      ensures r.Resolved? ==> blogLgtm[id.s]["good"] == 0 && blogLgtm[id.s]["bad"] == 0
      ensures old(Valid()) ==> Valid()
    {
      if !IsDocId(id) {
        return Rejected(InvalidPath);
      }
      if writeFails {
        return Rejected(Unavailable);
      }
      if Valid() {
        MergeSetKeepsShape(blogLgtm, id.s, LgtmInitial);
      }
      blogLgtm := MergeSet(blogLgtm, id.s, LgtmInitial);
      r := Resolved(());
    }

    /** `putBlogArchive` (models/blog.ts:28-46): merge-set {count} at
        monthly/createdAt, then {count, percent} at tag/tagId. It never
        rejects: any failure is returned as the error. The monthly write comes
        first, so a failure at the tag step leaves the monthly write in place. */
    method PutBlogArchive(createdAt: string, tagId: Json, monthlyCount: int, tagCount: int, tagPercent: int,
                          monthlyFails: bool, tagFails: bool) returns (r: ArchiveResult)
      modifies this`monthly, this`tag
      ensures r.Archived? <==> MonthlyWritten(createdAt, monthlyFails) && IsDocId(tagId) && !tagFails
      ensures monthly == if MonthlyWritten(createdAt, monthlyFails)
                         then MergeSet(old(monthly), createdAt, MonthlyDoc(monthlyCount)) else old(monthly)
      ensures tag == if r.Archived? then MergeSet(old(tag), tagId.s, TagDoc(tagCount, tagPercent)) else old(tag)
      ensures r.ArchiveError? ==>
        r.error == if !IsDocId(Str(createdAt)) || (!monthlyFails && !IsDocId(tagId)) then InvalidPath else Unavailable
      ensures old(Valid()) ==> Valid()
      ensures old(Valid()) && MonthlyWritten(createdAt, monthlyFails) ==> monthly[createdAt] == MonthlyDoc(monthlyCount)
      ensures old(Valid()) && r.Archived? ==> tag[tagId.s] == TagDoc(tagCount, tagPercent)
    {
      if !IsDocId(Str(createdAt)) {
        return ArchiveError(InvalidPath);
      }
      if monthlyFails {
        return ArchiveError(Unavailable);
      }
      if Valid() {
        MergeSetKeepsShape(monthly, createdAt, MonthlyDoc(monthlyCount));
        MergeSetOverShaped(monthly, createdAt, MonthlyDoc(monthlyCount));
      }
      monthly := MergeSet(monthly, createdAt, MonthlyDoc(monthlyCount));
      if !IsDocId(tagId) {
        return ArchiveError(InvalidPath);
      }
      if tagFails {
        return ArchiveError(Unavailable);
      }
      if Valid() {
        MergeSetKeepsShape(tag, tagId.s, TagDoc(tagCount, tagPercent));
        MergeSetOverShaped(tag, tagId.s, TagDoc(tagCount, tagPercent));
      }
      tag := MergeSet(tag, tagId.s, TagDoc(tagCount, tagPercent));
      r := Archived;
    }

    /** `getMonthlyArchive(createdAt)` (models/blog.ts:53-67): the stored
        document, or null both when there is none and when the read fails. */
    method GetMonthlyArchive(createdAt: Json, readFails: bool) returns (r: Option<Doc>)
      ensures r.Some? <==> IsDocId(createdAt) && !readFails && createdAt.s in monthly
      ensures r.Some? ==> r.value == monthly[createdAt.s]
    {
      if !IsDocId(createdAt) || readFails || createdAt.s !in monthly {
        return None;
      }
      r := Some(monthly[createdAt.s]);
    }

    /** `getTagArchive(tag)` (models/blog.ts:74-88): as GetMonthlyArchive, on
        the tag archive. */
    method GetTagArchive(tagId: Json, readFails: bool) returns (r: Option<Doc>)
      ensures r.Some? <==> IsDocId(tagId) && !readFails && tagId.s in tag
      ensures r.Some? ==> r.value == tag[tagId.s]
    {
      if !IsDocId(tagId) || readFails || tagId.s !in tag {
        return None;
      }
      r := Some(tag[tagId.s]);
    }

    /** `getBlogLgtm(id)` (models/blog.ts:95-107): the stored record, or null
        when it is absent, when the id is rejected and when the read fails. */
    method GetBlogLgtm(id: Json, readFails: bool) returns (r: Option<Doc>)
      ensures r.Some? <==> IsDocId(id) && !readFails && id.s in blogLgtm
      ensures r.Some? ==> r.value == blogLgtm[id.s]
      ensures r.Some? && Valid() ==> r.value.Keys == LgtmFields
    {
      if !IsDocId(id) || readFails || id.s !in blogLgtm {
        return None;
      }
      r := Some(blogLgtm[id.s]);
    }

    /** `await putBlogLgtm(id, type, value)` (models/blog.ts:116-138).
        The id is checked first (a rejected id is caught: null). "good" and
        "bad" increment that counter only; the update's promise is returned
        un-awaited, so its rejection on a missing document, or on a failed
        write, escapes the function's catch and reaches the caller. Any other
        type writes nothing and yields undefined. */
    method PutBlogLgtm(id: Json, kind: Json, value: int, writeFails: bool) returns (r: Settled<PutResult>)
      modifies this`blogLgtm
      ensures !IsDocId(id) ==> r == Resolved(NullResult)
      ensures IsDocId(id) && LgtmField(kind).None? ==> r == Resolved(UndefinedResult)
      ensures IsDocId(id) && LgtmField(kind).Some? ==>
        r == (if id.s !in old(blogLgtm) then Rejected(NotFound("blog_lgtm/" + id.s))
              else if writeFails then Rejected(Unavailable)
              else Resolved(WriteResult))
      ensures r == Resolved(WriteResult) ==> blogLgtm == Increment(old(blogLgtm), id.s, LgtmField(kind).value, value).value
      ensures r != Resolved(WriteResult) ==> blogLgtm == old(blogLgtm)
      ensures old(Valid()) ==> Valid()
    {
      if !IsDocId(id) {
        return Resolved(NullResult);
      }
      var field := LgtmField(kind);
      if field.None? {
        return Resolved(UndefinedResult);
      }
      if id.s !in blogLgtm {
        return Rejected(NotFound("blog_lgtm/" + id.s));
      }
      if writeFails {
        return Rejected(Unavailable);
      }
      if Valid() {
        IncrementKeepsShape(blogLgtm, id.s, field.value, value, LgtmFields);
      }
      blogLgtm := Increment(blogLgtm, id.s, field.value, value).value;
      r := Resolved(WriteResult);
    }
  }
}
