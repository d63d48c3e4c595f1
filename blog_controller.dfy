/** The vote endpoints of controllers/blog.ts: GET reads an article's
    counters, POST applies one vote (+1 or -1) to one of them. The allowed
    vote types and actions (the vote-type and vote-action lists of the
    configuration) are parameters. */
module BlogController {
  import opened Js
  import opened Firestore
  import opened BlogStore
  import opened Response

  const ReadFailed: string := "データの取得に失敗しました"
  const UpdateFailed: string := "データの更新に失敗しました"

  /** The POST body passes the three checks, made in this order: id is a
      string, type is a configured vote type, action a configured vote action. */
  predicate Accepted(id: Json, kind: Json, action: Json, lgtm: seq<string>, lgtmActions: seq<string>) {
    id.Str? && Includes(lgtm, kind) && Includes(lgtmActions, action)
  }

  /** `action === "increment" ? 1 : -1` */
  function Delta(action: Json): (d: int)
    ensures d == 1 || d == -1
    ensures d == 1 <==> action == Str("increment")
  {
    if action == Str("increment") then 1 else -1
  }

  /** A vote document as the JSON object `data` of the reply. */
  function DocJson(d: Doc): (j: Json)
    ensures j.Obj? && j.props.Keys == d.Keys
    ensures forall f :: f in d ==> j.props[f] == Num(d[f])
  {
    Obj(map f | f in d :: Num(d[f]))
  }

  /** `getBlogContentsLgtm` (controllers/blog.ts:12-31). A non-string id is
      answered with the default status and reads nothing; a missing record,
      a rejected id and a failed read are all answered "could not get the
      data"; otherwise the record is the reply's data. */
  method GetBlogContentsLgtm(store: Store, id: Json, readFails: bool) returns (reply: Reply)
    ensures !id.Str? ==> reply == Reply(DefaultStatus, FailureBody(MissingParameter))
    ensures id.Str? && !(IsDocId(id) && !readFails && id.s in store.blogLgtm) ==>
      reply == Reply(DefaultStatus, FailureBody(ReadFailed))
    ensures IsDocId(id) && !readFails && id.s in store.blogLgtm ==>
      reply == Reply(DefaultStatus, map["success" := Bool(true), "data" := DocJson(store.blogLgtm[id.s])])
  {
    if !id.Str? {
      return Reply(DefaultStatus, FailureBody(MissingParameter));
    }
    var data := store.GetBlogLgtm(id, readFails);
    if data.None? {
      return Reply(DefaultStatus, FailureBody(ReadFailed));
    }
    reply := Reply(DefaultStatus, map["success" := Bool(true), "data" := DocJson(data.value)]);
  }

  /** `postBlogContentsLgtm` (controllers/blog.ts:39-66). A rejected body is
      answered 400 and changes nothing. Otherwise the vote goes to
      putBlogLgtm with delta +1 or -1; its null answers "could not update"
      with the default status, any other value `{success: true}` without data,
      and its rejection (a missing document, a failed write) reaches the catch
      and answers 400 with the error's message. */
  method PostBlogContentsLgtm(store: Store, kind: Json, id: Json, action: Json,
                              lgtm: seq<string>, lgtmActions: seq<string>, writeFails: bool) returns (reply: Reply)
    modifies store`blogLgtm
    ensures !Accepted(id, kind, action, lgtm, lgtmActions) ==>
      reply == Reply(400, FailureBody(MissingParameter)) && store.blogLgtm == old(store.blogLgtm)
    ensures Accepted(id, kind, action, lgtm, lgtmActions) ==> (reply ==
      if !IsDocId(id) then Reply(DefaultStatus, FailureBody(UpdateFailed))
      else if LgtmField(kind).None? then Reply(DefaultStatus, map["success" := Bool(true)])
      else if id.s !in old(store.blogLgtm) then Reply(400, FailureBody(ErrorMessage(NotFound("blog_lgtm/" + id.s))))
      else if writeFails then Reply(400, FailureBody(ErrorMessage(Unavailable)))
      else Reply(DefaultStatus, map["success" := Bool(true)]))
    ensures Accepted(id, kind, action, lgtm, lgtmActions) && IsDocId(id) && LgtmField(kind).Some?
            && id.s in old(store.blogLgtm) && !writeFails ==>
      store.blogLgtm == Increment(old(store.blogLgtm), id.s, LgtmField(kind).value, Delta(action)).value
    ensures !(Accepted(id, kind, action, lgtm, lgtmActions) && IsDocId(id) && LgtmField(kind).Some?
              && id.s in old(store.blogLgtm) && !writeFails) ==>
      store.blogLgtm == old(store.blogLgtm)
    ensures old(store.Valid()) ==> store.Valid()
  {
    if !id.Str? || !Includes(lgtm, kind) || !Includes(lgtmActions, action) {
      return Reply(400, FailureBody(MissingParameter));
    }
    var value := Delta(action);
    var response := store.PutBlogLgtm(id, kind, value, writeFails);
    match response
    case Rejected(e) =>
      reply := Reply(400, FailureBody(ErrorMessage(e)));
    case Resolved(NullResult) =>
      reply := Reply(DefaultStatus, FailureBody(UpdateFailed));
    case Resolved(_) =>
      reply := Reply(DefaultStatus, map["success" := Bool(true)]);
  }

  /** A decrement vote on "bad" for an existing article lowers `bad` by one
      and changes nothing else; `good` likewise for "good". */
  lemma VoteMovesOneCounter(c: Collection, id: string, kind: Json, action: Json)
    requires id in c && LgtmField(kind).Some?
    ensures var field := LgtmField(kind).value;
      var after := Increment(c, id, field, Delta(action)).value;
      && FieldOrZero(after[id], field) == FieldOrZero(c[id], field) + (if action == Str("increment") then 1 else -1)
      && (forall f :: f in c[id] && f != field ==> after[id][f] == c[id][f])
      && (forall other :: other in c && other != id ==> after[other] == c[other])
  {
    var field := LgtmField(kind).value;
    var after := Increment(c, id, field, Delta(action)).value;
    assert field in after[id];
  }
}
