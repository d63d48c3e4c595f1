/** Results of content-source queries (`client.getEntries(...)`), which the
    handlers receive as plain values: the query either answers with a page of
    entries or rejects with an error message. Entries and the `includes` side
    table are left as raw JSON, because the handlers read them with plain
    property access and so can throw on a malformed one. */
module ContentSource {
  import opened Js

  datatype Fetch<+T> = Fetched(value: T) | FetchFailed(message: string)

  /** `{total, items, includes}` of one `getEntries` answer. */
  datatype EntryPage = EntryPage(total: nat, items: seq<Json>, includes: Json)

  /** `x.sys.id` */
  function SysId(x: Json): Result<Json> {
    var sys :- Get(x, "sys");
    Get(sys, "id")
  }

  /** The callback of `find(x => x.sys.id === id)` returns true for x. */
  predicate Matches(x: Json, id: Json) {
    SysId(x).Ok? && StrictEquals(SysId(x).value, id)
  }

  /** The callback ran on x without throwing and returned false. */
  predicate Passes(x: Json, id: Json) {
    SysId(x).Ok? && !StrictEquals(SysId(x).value, id)
  }

  /** `xs.find(x => x.sys.id === id)`: the first element whose `sys.id` is
      id, or undefined; the callback throws on an element without `sys`, and
      that ends the search. Lookup is by id only, whatever the order. */
  function FindBySysId(xs: seq<Json>, id: Json): (r: Result<Json>)
    ensures (forall i :: 0 <= i < |xs| ==> SysId(xs[i]).Ok?) ==> r.Ok?
    ensures r.Ok? && r.value != Undefined ==>
      exists i :: 0 <= i < |xs| && xs[i] == r.value && Matches(xs[i], id)
                  && forall j :: 0 <= j < i ==> Passes(xs[j], id)
    ensures r == Ok(Undefined) <==> forall i :: 0 <= i < |xs| ==> Passes(xs[i], id)
  {
    if |xs| == 0 then Ok(Undefined)
    else
      var found :- SysId(xs[0]);
      if StrictEquals(found, id) then Ok(xs[0])
      else
        var rest := FindBySysId(xs[1..], id);
        assert forall i :: 1 <= i < |xs| ==> xs[i] == xs[1..][i - 1];
        rest
  }

  /** `find` stops at the first match. */
  lemma {:induction false} FirstMatchFound(xs: seq<Json>, id: Json, k: nat)
    requires k < |xs| && Matches(xs[k], id) && forall j :: 0 <= j < k ==> Passes(xs[j], id)
    ensures FindBySysId(xs, id) == Ok(xs[k])
    decreases k
  {
    if k > 0 {
      assert Passes(xs[0], id);
      assert forall j :: 0 <= j < k - 1 ==> xs[1..][j] == xs[j + 1];
      FirstMatchFound(xs[1..], id, k - 1);
    }
  }
}
