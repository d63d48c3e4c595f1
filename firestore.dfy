/** The document-store primitives the models use, on values: a collection maps
    document ids to documents, a document maps field names to numbers.
    `set(fields, {merge: true})` and `update({f: FieldValue.increment(v)})`
    are the two writes; increments are applied one at a time. */
module Firestore {
  import opened Js

  type Doc = map<string, int>
  type Collection = map<string, Doc>

  datatype StoreError =
    | InvalidPath          // `collection(..).doc(id)` rejected the id before any I/O
    | NotFound(path: string) // `update` on a document that does not exist; path is collection/id
    | Unavailable          // the store could not be reached or refused the request

  /** The `message` of a store error as the handlers pass it on. */
  function ErrorMessage(e: StoreError): string {
    match e
    case InvalidPath => "Argument \"documentPath\" is not a valid resource path."
    case NotFound(path) => "5 NOT_FOUND: No document to update: " + path
    case Unavailable => "14 UNAVAILABLE: No connection established"
  }

  /** The ids `collection(name).doc(id)` accepts for a document directly in
      that collection: a non-empty string with no '/'. Anything else throws
      synchronously. */
  predicate IsDocId(id: Json) {
    id.Str? && id.s != "" && '/' !in id.s
  }

  /** A field read as `FieldValue.increment` reads it: absent counts as 0. */
  function FieldOrZero(d: Doc, field: string): int {
    if field in d then d[field] else 0
  }

  /** `set(fields, {merge: true})` on document id: creates the document when
      absent, overwrites exactly the listed fields, keeps every other field
      of that document, and touches no other document. */
  function MergeSet(c: Collection, id: string, fields: Doc): (r: Collection)
    ensures r.Keys == c.Keys + {id}
    ensures forall other :: other in c && other != id ==> r[other] == c[other]
    ensures r[id].Keys == fields.Keys + (if id in c then c[id].Keys else {})
    ensures forall f :: f in fields ==> r[id][f] == fields[f]
    ensures id in c ==> forall f :: f in c[id] && f !in fields ==> r[id][f] == c[id][f]
  {
    c[id := (if id in c then c[id] else map[]) + fields]
  }

  /** `update({field: FieldValue.increment(delta)})` on document id: `None`
      (the write is rejected) when the document does not exist; otherwise
      only that field of that document changes, by exactly delta. */
  function Increment(c: Collection, id: string, field: string, delta: int): (r: Option<Collection>)
    ensures r.None? <==> id !in c
    ensures r.Some? ==> r.value.Keys == c.Keys
    ensures r.Some? ==> forall other :: other in c && other != id ==> r.value[other] == c[other]
    ensures r.Some? ==> r.value[id].Keys == c[id].Keys + {field}
    ensures r.Some? ==> r.value[id][field] == FieldOrZero(c[id], field) + delta
    ensures r.Some? ==> forall f :: f in c[id] && f != field ==> r.value[id][f] == c[id][f]
  {
    if id in c then Some(c[id := c[id][field := FieldOrZero(c[id], field) + delta]]) else None
  }

  /** Writing the same fields twice with merge equals writing them once. */
  lemma MergeSetIdempotent(c: Collection, id: string, fields: Doc)
    ensures MergeSet(MergeSet(c, id, fields), id, fields) == MergeSet(c, id, fields)
  {
    var once := MergeSet(c, id, fields);
    var twice := MergeSet(once, id, fields);
    assert twice[id] == once[id];
    assert forall k :: k in twice ==> twice[k] == once[k];
  }

  /** Every document of c has exactly the given fields. */
  predicate Shaped(c: Collection, fields: set<string>) {
    forall id :: id in c ==> c[id].Keys == fields
  }

  lemma MergeSetKeepsShape(c: Collection, id: string, fields: Doc)
    requires Shaped(c, fields.Keys)
    ensures Shaped(MergeSet(c, id, fields), fields.Keys)
  {
    var r := MergeSet(c, id, fields);
    forall k | k in r ensures r[k].Keys == fields.Keys {
      if k != id { assert r[k] == c[k]; }
    }
  }

  /** On a collection whose documents hold only the listed fields, a merge
      write leaves exactly the written document behind. */
  lemma MergeSetOverShaped(c: Collection, id: string, fields: Doc)
    requires Shaped(c, fields.Keys)
    ensures MergeSet(c, id, fields)[id] == fields
  {
    var d := MergeSet(c, id, fields)[id];
    assert d.Keys == fields.Keys;
    assert forall f :: f in d ==> d[f] == fields[f];
  }

  lemma IncrementKeepsShape(c: Collection, id: string, field: string, delta: int, fields: set<string>)
    requires Shaped(c, fields) && field in fields && id in c
    ensures Shaped(Increment(c, id, field, delta).value, fields)
  {
    var r := Increment(c, id, field, delta).value;
    forall k | k in r ensures r[k].Keys == fields {
      if k != id { assert r[k] == c[k]; }
    }
  }

  /** A run of increments on one field of one document, in the given order;
      `None` as soon as one is rejected. */
  function IncrementAll(c: Collection, id: string, field: string, deltas: seq<int>): Option<Collection>
    decreases |deltas|
  {
    if |deltas| == 0 then Some(c)
    else match Increment(c, id, field, deltas[0])
      case None => None
      case Some(c') => IncrementAll(c', id, field, deltas[1..])
  }

  /** From any starting value, N increments by +1 and M by -1 on an existing
      document leave the field at start + N - M (no lower bound is enforced, so
      the count can go negative). The result depends only on the multiset of
      deltas, hence not on their order; nothing else changes. */
  lemma {:induction false} IncrementAllCounts(c: Collection, id: string, field: string, deltas: seq<int>)
    requires id in c
    requires forall i :: 0 <= i < |deltas| ==> deltas[i] == 1 || deltas[i] == -1
    ensures IncrementAll(c, id, field, deltas).Some?
    ensures var r := IncrementAll(c, id, field, deltas).value;
      && r.Keys == c.Keys
      && c[id].Keys <= r[id].Keys
      && FieldOrZero(r[id], field) == FieldOrZero(c[id], field) + multiset(deltas)[1] - multiset(deltas)[-1]
      && (forall f :: f in c[id] && f != field ==> r[id][f] == c[id][f])
      && (forall other :: other in c && other != id ==> r[other] == c[other])
    decreases |deltas|
  {
    if |deltas| > 0 {
      var c' := Increment(c, id, field, deltas[0]).value;
      IncrementAllCounts(c', id, field, deltas[1..]);
      assert deltas == [deltas[0]] + deltas[1..];
      assert multiset(deltas) == multiset{deltas[0]} + multiset(deltas[1..]);
    }
  }

  /** Increments on a missing document are all rejected and create nothing. */
  lemma {:induction false} IncrementAllMissing(c: Collection, id: string, field: string, deltas: seq<int>)
    requires id !in c && |deltas| > 0
    ensures IncrementAll(c, id, field, deltas).None?
  {
  }
}
