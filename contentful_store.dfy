/** The older vote initialiser of models/contentful.ts. Nothing calls it; it
    differs from BlogStore.Store.PostBlogLgtm only in the collection it
    writes: `blog`, not `blog_lgtm`. */
module ContentfulStore {
  import opened Js
  import opened Firestore
  import opened BlogStore

  /** `postBlogLgtm(id)` (models/contentful.ts:4-11): merge-set good = bad = 0
      into `blog/<id>`, creating it when absent and keeping its other fields.
      The vote records that getBlogLgtm reads, and the archives, are untouched. */
  method PostBlogLgtm(store: Store, id: Json, writeFails: bool) returns (r: Settled<()>)
    modifies store`blog
    ensures r.Resolved? <==> IsDocId(id) && !writeFails
    ensures r.Rejected? ==> store.blog == old(store.blog)
    ensures r.Resolved? ==> store.blog == MergeSet(old(store.blog), id.s, LgtmInitial)
    ensures r.Resolved? ==> store.blog[id.s]["good"] == 0 && store.blog[id.s]["bad"] == 0
    ensures store.blogLgtm == old(store.blogLgtm) && store.monthly == old(store.monthly) && store.tag == old(store.tag)
    ensures old(store.Valid()) ==> store.Valid()
  {
    if !IsDocId(id) {
      return Rejected(InvalidPath);
    }
    if writeFails {
      return Rejected(Unavailable);
    }
    if store.Valid() {
      MergeSetKeepsShape(store.blog, id.s, LgtmInitial);
    }
    store.blog := MergeSet(store.blog, id.s, LgtmInitial);
    r := Resolved(());
  }

  /** The variant's effect on the `blog` collection: every listed property
      at once (zeroed counters, other fields kept, created if absent, one
      call equal to two, no other document touched). */
  lemma LegacyInitialiser(blog: Collection, id: string)
    ensures var after := MergeSet(blog, id, LgtmInitial);
      && id in after
      && after[id]["good"] == 0 && after[id]["bad"] == 0
      && (id in blog ==> forall f :: f in blog[id] && f !in LgtmFields ==> after[id][f] == blog[id][f])
      && (forall other :: other in blog && other != id ==> after[other] == blog[other])
      && MergeSet(after, id, LgtmInitial) == after
  {
    MergeSetIdempotent(blog, id, LgtmInitial);
  }
}
