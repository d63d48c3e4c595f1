/** `getRoadmap` of controllers/roadmap.ts: the roadmap entries are sorted
    into three lists, `schedule`, `develop` and `merge`, by the first element
    of their `state` field. The query answer and the allowed state names (the
    ROADMAP_TYPE list of the configuration) are parameters. */
module Roadmap {
  import opened Js
  import opened Response
  import opened ContentSource

  /** The three lists of `data`, in the order they are built. */
  datatype Buckets = Buckets(schedule: seq<Json>, develop: seq<Json>, merge: seq<Json>)

  const BucketNames: set<string> := {"schedule", "develop", "merge"}

  /** `data[name].push(...)` with a name that is not a key of `data`. */
  const PushError: string := ReadError(Undefined, "push")

  /** `state[0]`: the first element of an array, the first character of a
      string, the "0" property of an object. */
  function Index0(state: Json): Json {
    match state
    case Arr(elems) => if |elems| > 0 then elems[0] else Undefined
    case Str(s) => if |s| > 0 then Str([s[0]]) else Undefined
    case Obj(props) => if "0" in props then props["0"] else Undefined
    case _ => Undefined
  }

  /** The test of controllers/roadmap.ts:29: which list, if any, the entry
      is pushed to. Reading `fields.state.length` throws when the entry,
      its `fields` or its `state` is null or undefined; a `length` that is
      not a positive number drops the entry, and so does a first state name
      not in `roadmapType`. */
  function Classify(item: Json, roadmapType: seq<string>): (r: Result<Option<string>>)
    ensures r.Throw? <==> Nullish(OptGet(item, "fields")) || Nullish(OptGet(OptGet(item, "fields"), "state"))
    ensures r.Ok? && r.value.Some? ==> r.value.value in roadmapType
  {
    var fields :- Get(item, "fields");
    var state :- Get(fields, "state");
    var length :- Get(state, "length");
    if length.Num? && length.n > 0 && Includes(roadmapType, Index0(state)) then Ok(Some(Index0(state).s))
    else Ok(None)
  }

  /** `{label: fields.content, completed: fields.completed}` */
  function Label(item: Json): Json {
    var fields := OptGet(item, "fields");
    Obj(map["label" := OptGet(fields, "content"), "completed" := OptGet(fields, "completed")])
  }

  /** `data[name].push(v)` */
  function Push(b: Buckets, name: string, v: Json): (r: Result<Buckets>)
    ensures r.Ok? <==> name in BucketNames
  {
    match name
    case "schedule" => Ok(b.(schedule := b.schedule + [v]))
    case "develop" => Ok(b.(develop := b.develop + [v]))
    case "merge" => Ok(b.(merge := b.merge + [v]))
    case _ => Throw(PushError)
  }

  /** The lists after `forEach` has run over `items`, or the error that ended
      it, defined one entry at a time from the last. */
  function Partition(items: seq<Json>, roadmapType: seq<string>): Result<Buckets>
    decreases |items|
  {
    if |items| == 0 then Ok(Buckets([], [], []))
    else
      var b :- Partition(items[..|items| - 1], roadmapType);
      var last := items[|items| - 1];
      var bucket :- Classify(last, roadmapType);
      if bucket.None? then Ok(b) else Push(b, bucket.value, Label(last))
  }

  /** An independent reading of one list: the labels of the entries bound
      for `name`, in entry order. */
  function Select(items: seq<Json>, roadmapType: seq<string>, name: string): seq<Json>
    decreases |items|
  {
    if |items| == 0 then []
    else
      var rest := Select(items[..|items| - 1], roadmapType, name);
      var last := items[|items| - 1];
      if Classify(last, roadmapType) == Ok(Some(name)) then rest + [Label(last)] else rest
  }

  /** The number of entries that go to some list. */
  function Qualifying(items: seq<Json>, roadmapType: seq<string>): nat
    decreases |items|
  {
    if |items| == 0 then 0
    else
      var last := items[|items| - 1];
      Qualifying(items[..|items| - 1], roadmapType) + (if Classify(last, roadmapType).Ok? && Classify(last, roadmapType).value.Some? then 1 else 0)
  }

  /** The entry does not throw while being sorted. */
  predicate Sortable(item: Json, roadmapType: seq<string>) {
    Classify(item, roadmapType).Ok? && (Classify(item, roadmapType).value.Some? ==> Classify(item, roadmapType).value.value in BucketNames)
  }

  /** The `data` object of the reply. */
  function DataJson(b: Buckets): (j: Json)
    ensures j.Obj? && j.props.Keys == BucketNames && Truthy(j)
  {
    Obj(map["schedule" := Arr(b.schedule), "develop" := Arr(b.develop), "merge" := Arr(b.merge)])
  }

  /** What the handler computes from a query answer: no lists to fill unless
      the answer and its `items` are truthy, a TypeError when `items` has
      no `forEach`, and otherwise the partition. */
  function RoadmapData(answer: Json, roadmapType: seq<string>): Result<Buckets> {
    if !Truthy(answer) || !Truthy(OptGet(answer, "items")) then Ok(Buckets([], [], []))
    else if !OptGet(answer, "items").Arr? then Throw("entries.items.forEach is not a function")
    else Partition(OptGet(answer, "items").elems, roadmapType)
  }

  /** `getRoadmap` (controllers/roadmap.ts:15-42). The three lists start
      empty and the entries are pushed one at a time; the reply is a success
      with `data` even when every list is empty, or 500 with the message of
      whatever threw. */
  method GetRoadmap(entries: Fetch<Json>, roadmapType: seq<string>) returns (reply: Reply)
    ensures entries.FetchFailed? ==> IsError(reply, 500, Str(entries.message))
    ensures entries.Fetched? ==>
      match RoadmapData(entries.value, roadmapType)
      case Ok(b) => IsSuccess(reply, DataJson(b)) && reply.body["data"] == DataJson(b)
      case Throw(m) => IsError(reply, 500, Str(m))
  {
    if entries.FetchFailed? {
      reply := Error500(Str(entries.message));
      return;
    }
    var answer := entries.value;
    var schedule: seq<Json> := [];
    var develop: seq<Json> := [];
    var merge: seq<Json> := [];
    if Truthy(answer) && Truthy(OptGet(answer, "items")) {
      var list := OptGet(answer, "items");
      if !list.Arr? {
        reply := Error500(Str("entries.items.forEach is not a function"));
        return;
      }
      var items := list.elems;
      var i := 0;
      while i < |items|
        invariant 0 <= i <= |items|
        invariant Partition(items[..i], roadmapType) == Ok(Buckets(schedule, develop, merge))
      {
        var item := items[i];
        assert items[..i + 1][..i] == items[..i] && items[..i + 1][i] == item;
        PartitionLast(items[..i + 1], roadmapType);
        var bucket := Classify(item, roadmapType);
        if bucket.Throw? {
          ErrorEndsPartition(items, i + 1, roadmapType);
          reply := Error500(Str(bucket.message));
          return;
        }
        if bucket.value.Some? {
          var name := bucket.value.value;
          if name == "schedule" {
            schedule := schedule + [Label(item)];
          } else if name == "develop" {
            develop := develop + [Label(item)];
          } else if name == "merge" {
            merge := merge + [Label(item)];
          } else {
            ErrorEndsPartition(items, i + 1, roadmapType);
            reply := Error500(Str(PushError));
            return;
          }
        }
        i := i + 1;
      }
      assert items[..i] == items;
    }
    reply := Success(DataJson(Buckets(schedule, develop, merge)));
  }

  /** One more entry: the lists so far, then one push. */
  lemma PartitionLast(items: seq<Json>, roadmapType: seq<string>)
    requires |items| > 0
    ensures var before := Partition(items[..|items| - 1], roadmapType);
      var last := items[|items| - 1];
      Partition(items, roadmapType) ==
        if before.Throw? then Throw(before.message)
        else if Classify(last, roadmapType).Throw? then Throw(Classify(last, roadmapType).message)
        else if Classify(last, roadmapType).value.None? then before
        else Push(before.value, Classify(last, roadmapType).value.value, Label(last))
  {
  }

  /** An error stops `forEach`: once a prefix throws, the whole run throws
      the same error. */
  lemma {:induction false} ErrorEndsPartition(items: seq<Json>, i: nat, roadmapType: seq<string>)
    requires i <= |items| && Partition(items[..i], roadmapType).Throw?
    ensures Partition(items, roadmapType) == Partition(items[..i], roadmapType)
    decreases |items| - i
  {
    if i < |items| {
      var init := items[..|items| - 1];
      assert init[..i] == items[..i];
      ErrorEndsPartition(init, i, roadmapType);
    } else {
      assert items[..i] == items;
    }
  }

  /** The run completes exactly when no entry throws: every entry's
      `fields.state.length` can be read, and every accepted state name is a
      list. */
  lemma {:induction false} PartitionSucceeds(items: seq<Json>, roadmapType: seq<string>)
    ensures Partition(items, roadmapType).Ok? <==> forall i :: 0 <= i < |items| ==> Sortable(items[i], roadmapType)
    decreases |items|
  {
    if |items| > 0 {
      var init := items[..|items| - 1];
      PartitionSucceeds(init, roadmapType);
      assert forall i :: 0 <= i < |init| ==> init[i] == items[i];
    }
  }

  /** The first entry whose test throws decides the run: every entry before
      it is sorted, and the run throws that entry's error. */
  lemma FirstThrowEndsPartition(items: seq<Json>, i: nat, roadmapType: seq<string>)
    requires i < |items| && Classify(items[i], roadmapType).Throw?
    requires forall j :: 0 <= j < i ==> Sortable(items[j], roadmapType)
    ensures Partition(items, roadmapType) == Throw(Classify(items[i], roadmapType).message)
  {
    var prefix := items[..i + 1];
    assert prefix[..i] == items[..i] && prefix[i] == items[i];
    assert forall j :: 0 <= j < i ==> items[..i][j] == items[j];
    PartitionSucceeds(items[..i], roadmapType);
    PartitionLast(prefix, roadmapType);
    ErrorEndsPartition(items, i + 1, roadmapType);
  }

  /** Each list holds, in entry order, the labels of exactly the entries
      whose first state names it. */
  lemma {:induction false} PartitionSelects(items: seq<Json>, roadmapType: seq<string>)
    requires Partition(items, roadmapType).Ok?
    ensures var b := Partition(items, roadmapType).value;
      && b.schedule == Select(items, roadmapType, "schedule")
      && b.develop == Select(items, roadmapType, "develop")
      && b.merge == Select(items, roadmapType, "merge")
    decreases |items|
  {
    if |items| > 0 {
      PartitionSelects(items[..|items| - 1], roadmapType);
    }
  }

  /** Every accepted entry lands in exactly one list: the sizes add up to
      the number of accepted entries. */
  lemma {:induction false} PartitionCounts(items: seq<Json>, roadmapType: seq<string>)
    requires Partition(items, roadmapType).Ok?
    ensures var b := Partition(items, roadmapType).value;
      |b.schedule| + |b.develop| + |b.merge| == Qualifying(items, roadmapType)
    decreases |items|
  {
    if |items| > 0 {
      PartitionCounts(items[..|items| - 1], roadmapType);
    }
  }

  /** An entry as the query answers it: fields `state`, `content` and
      `completed`. */
  function Entry(state: seq<Json>, content: Json, completed: Json): Json {
    Obj(map["fields" := Obj(map["state" := Arr(state), "content" := content, "completed" := completed])])
  }

  /** Only `state[0]` decides: two entries that agree on it are sorted alike
      whatever the rest of their states. */
  lemma OnlyFirstStateMatters(s1: seq<Json>, s2: seq<Json>, content: Json, completed: Json, roadmapType: seq<string>)
    requires |s1| > 0 && |s2| > 0 && s1[0] == s2[0]
    ensures Classify(Entry(s1, content, completed), roadmapType) == Classify(Entry(s2, content, completed), roadmapType)
    ensures Label(Entry(s1, content, completed)) == Label(Entry(s2, content, completed))
  {
  }

  /** The test of controllers/roadmap.ts:29-34 read forwards: an entry whose
      first state is a listed name is accepted into the list of that name. */
  lemma ListedFirstStateAccepted(s: seq<Json>, n: string, content: Json, completed: Json, roadmapType: seq<string>)
    requires |s| > 0 && s[0] == Str(n) && n in roadmapType
    ensures Classify(Entry(s, content, completed), roadmapType) == Ok(Some(n))
  {
    var fields := Obj(map["state" := Arr(s), "content" := content, "completed" := completed]);
    assert Get(Entry(s, content, completed), "fields") == Ok(fields);
    assert Get(fields, "state") == Ok(Arr(s));
    assert Index0(Arr(s)) == Str(n);
  }

  /** A non-empty state whose first element is not a listed name drops the
      entry. */
  lemma UnlistedFirstStateDropped(s: seq<Json>, content: Json, completed: Json, roadmapType: seq<string>)
    requires |s| > 0 && !Includes(roadmapType, s[0])
    ensures Classify(Entry(s, content, completed), roadmapType) == Ok(None)
  {
    var fields := Obj(map["state" := Arr(s), "content" := content, "completed" := completed]);
    assert Get(Entry(s, content, completed), "fields") == Ok(fields);
    assert Get(fields, "state") == Ok(Arr(s));
    assert Index0(Arr(s)) == s[0];
  }

  /** An entry whose `state` is unset or null throws the TypeError of
      reading its `length`, which ends the run with a 500 reply. */
  lemma UnreadableStateThrows(fields: map<string, Json>, roadmapType: seq<string>)
    requires "state" !in fields || fields["state"].Null?
    ensures Classify(Obj(map["fields" := Obj(fields)]), roadmapType)
      == Throw(ReadError(if "state" in fields then Null else Undefined, "length"))
  {
  }

  /** An entry with an empty state is dropped, whatever its content. */
  lemma EmptyStateDropped(content: Json, completed: Json, roadmapType: seq<string>)
    ensures Classify(Entry([], content, completed), roadmapType) == Ok(None)
  {
  }
}
