/** The Open Graph reader of utils/getOgp.ts. Fetching the page and parsing
    its HTML are outside the model: `getOgp` receives the `<meta>` elements
    of the document head, in document order, or the error the fetch raised.
    `extractOgp` keeps the elements with a `property` attribute and folds
    them into a record from trimmed property to `content`. */
module Ogp {
  import opened Js
  import opened ContentSource

  /** A `<meta>` element's two attributes; `None` is an absent attribute
      (`getAttribute` answers null). */
  datatype MetaElement = MetaElement(property: Option<string>, content: Option<string>)

  /** The reducer's accumulator: the record built so far, or `undefined`
      once a callback has returned nothing. */
  datatype Acc = Lost | Record(fields: map<string, Json>)

  /** The characters `String.prototype.trim` removes: white space and line
      terminators. */
  const JsSpaces: set<char> := {
    '\U{9}', '\U{A}', '\U{B}', '\U{C}', '\U{D}', '\U{20}', '\U{A0}', '\U{1680}',
    '\U{2000}', '\U{2001}', '\U{2002}', '\U{2003}', '\U{2004}', '\U{2005}', '\U{2006}', '\U{2007}',
    '\U{2008}', '\U{2009}', '\U{200A}', '\U{2028}', '\U{2029}', '\U{202F}', '\U{205F}', '\U{3000}', '\U{FEFF}'
  }

  predicate IsJsSpace(c: char) {
    c in JsSpaces
  }

  /** s[lo..hi] consists of characters of ws only. */
  predicate BlankBetween(s: string, lo: nat, hi: nat, ws: set<char>)
    requires lo <= hi <= |s|
  {
    forall k :: lo <= k < hi ==> s[k] in ws
  }

  /** s is all white space. */
  predicate Blank(s: string) {
    BlankBetween(s, 0, |s|, JsSpaces)
  }

  /** Drops the leading characters of ws one at a time. */
  function TrimStart(s: string, ws: set<char>): (r: string)
    ensures |r| <= |s|
  {
    if |s| > 0 && s[0] in ws then TrimStart(s[1..], ws) else s
  }

  /** Drops the trailing characters of ws one at a time. */
  function TrimEnd(s: string, ws: set<char>): (r: string)
    ensures |r| <= |s|
  {
    if |s| > 0 && s[|s| - 1] in ws then TrimEnd(s[..|s| - 1], ws) else s
  }

  /** `s.trim()` */
  function Trim(s: string): string {
    TrimEnd(TrimStart(s, JsSpaces), JsSpaces)
  }

  /** TrimStart keeps a suffix of s. */
  lemma {:induction false} TrimStartIsSuffix(s: string, ws: set<char>)
    ensures TrimStart(s, ws) == s[|s| - |TrimStart(s, ws)|..]
    decreases |s|
  {
    if |s| > 0 && s[0] in ws {
      TrimStartIsSuffix(s[1..], ws);
      assert s[1..][|s| - 1 - |TrimStart(s, ws)|..] == s[|s| - |TrimStart(s, ws)|..];
    }
  }

  /** TrimEnd keeps a prefix of s. */
  lemma {:induction false} TrimEndIsPrefix(s: string, ws: set<char>)
    ensures TrimEnd(s, ws) == s[..|TrimEnd(s, ws)|]
    decreases |s|
  {
    if |s| > 0 && s[|s| - 1] in ws {
      TrimEndIsPrefix(s[..|s| - 1], ws);
      assert s[..|s| - 1][..|TrimEnd(s, ws)|] == s[..|TrimEnd(s, ws)|];
    }
  }

  /** TrimStart removes exactly the longest prefix drawn from ws. */
  lemma {:induction false} TrimStartCutsBlank(s: string, ws: set<char>)
    ensures BlankBetween(s, 0, |s| - |TrimStart(s, ws)|, ws)
    ensures TrimStart(s, ws) == "" || TrimStart(s, ws)[0] !in ws
    decreases |s|
  {
    if |s| > 0 && s[0] in ws {
      TrimStartCutsBlank(s[1..], ws);
      assert forall k :: 1 <= k < |s| ==> s[k] == s[1..][k - 1];
    }
  }

  /** TrimEnd removes exactly the longest suffix drawn from ws. */
  lemma {:induction false} TrimEndCutsBlank(s: string, ws: set<char>)
    ensures BlankBetween(s, |TrimEnd(s, ws)|, |s|, ws)
    ensures TrimEnd(s, ws) == "" || TrimEnd(s, ws)[|TrimEnd(s, ws)| - 1] !in ws
    decreases |s|
  {
    if |s| > 0 && s[|s| - 1] in ws {
      TrimEndCutsBlank(s[..|s| - 1], ws);
      assert forall k :: 0 <= k < |s| - 1 ==> s[k] == s[..|s| - 1][k];
    }
  }

  /** Blankness moves with a suffix: a blank stretch of s[i..] is a blank
      stretch of s. */
  lemma {:induction false} BlankInSuffix(s: string, i: nat, lo: nat, hi: nat, ws: set<char>)
    requires i <= |s| && lo <= hi <= |s| - i && BlankBetween(s[i..], lo, hi, ws)
    ensures BlankBetween(s, i + lo, i + hi, ws)
  {
    assert forall k :: i + lo <= k < i + hi ==> s[k] == s[i..][k - i];
  }

  /** Where TrimStart cuts s: the index of the first kept character. */
  function CutStart(s: string, ws: set<char>): (i: nat)
    ensures i <= |s|
  {
    |s| - |TrimStart(s, ws)|
  }

  /** Where trimming at both ends stops: one past the last kept character. */
  function CutEnd(s: string, ws: set<char>): (j: nat)
    ensures CutStart(s, ws) <= j <= |s|
  {
    CutStart(s, ws) + |TrimEnd(TrimStart(s, ws), ws)|
  }

  /** Trimming both ends keeps exactly s[CutStart..CutEnd]. */
  lemma {:induction false} TrimIsSlice(s: string, ws: set<char>)
    ensures TrimEnd(TrimStart(s, ws), ws) == s[CutStart(s, ws)..CutEnd(s, ws)]
  {
    var start := TrimStart(s, ws);
    var i := CutStart(s, ws);
    TrimStartIsSuffix(s, ws);
    TrimEndIsPrefix(start, ws);
    assert start == s[i..];
    assert TrimEnd(start, ws) == start[..CutEnd(s, ws) - i];
  }

  /** Everything cut off is drawn from ws. */
  lemma {:induction false} CutsAreBlank(s: string, ws: set<char>)
    ensures BlankBetween(s, 0, CutStart(s, ws), ws) && BlankBetween(s, CutEnd(s, ws), |s|, ws)
  {
    var start := TrimStart(s, ws);
    TrimStartIsSuffix(s, ws);
    TrimStartCutsBlank(s, ws);
    TrimEndCutsBlank(start, ws);
    BlankInSuffix(s, CutStart(s, ws), |TrimEnd(start, ws)|, |start|, ws);
  }

  /** The characters at both ends of what is kept are not in ws. */
  lemma {:induction false} KeptEndsNotBlank(s: string, ws: set<char>)
    ensures CutStart(s, ws) < |s| ==> s[CutStart(s, ws)] !in ws
    ensures CutStart(s, ws) < CutEnd(s, ws) ==> s[CutEnd(s, ws) - 1] !in ws
  {
    var start := TrimStart(s, ws);
    var r := TrimEnd(start, ws);
    var i, j := CutStart(s, ws), CutEnd(s, ws);
    TrimStartIsSuffix(s, ws);
    TrimEndIsPrefix(start, ws);
    TrimStartCutsBlank(s, ws);
    TrimEndCutsBlank(start, ws);
    assert i < |s| ==> s[i] == start[0];
    assert i < j ==> s[j - 1] == r[|r| - 1];
  }

  /** `trim()` yields the middle of s between a blank prefix and a blank
      suffix, neither starting nor ending with white space. */
  lemma {:induction false} TrimCutsBlankEnds(s: string)
    ensures Trim(s) != "" ==> !IsJsSpace(Trim(s)[0]) && !IsJsSpace(Trim(s)[|Trim(s)| - 1])
    ensures exists i, j :: 0 <= i <= j <= |s| && BlankBetween(s, 0, i, JsSpaces) && BlankBetween(s, j, |s|, JsSpaces)
                           && Trim(s) == s[i..j]
  {
    TrimIsSlice(s, JsSpaces);
    CutsAreBlank(s, JsSpaces);
    KeptEndsNotBlank(s, JsSpaces);
    var i, j := CutStart(s, JsSpaces), CutEnd(s, JsSpaces);
    assert Trim(s) != "" ==> Trim(s)[0] == s[i] && Trim(s)[|Trim(s)| - 1] == s[j - 1];
  }

  /** `trim()` is empty exactly when s is all white space. */
  lemma {:induction false} TrimEmptyIffBlank(s: string)
    ensures Trim(s) == "" <==> Blank(s)
  {
    TrimIsSlice(s, JsSpaces);
    CutsAreBlank(s, JsSpaces);
    KeptEndsNotBlank(s, JsSpaces);
    var i, j := CutStart(s, JsSpaces), CutEnd(s, JsSpaces);
    if Trim(s) == "" {
      assert i == j;
      assert forall k :: 0 <= k < |s| ==> (k < i && s[k] in JsSpaces) || (j <= k && s[k] in JsSpaces);
    } else {
      assert s[i] !in JsSpaces;
    }
  }

  /** `getAttribute("content")`: a string, or null when absent. */
  function ContentJson(content: Option<string>): Json {
    if content.Some? then Str(content.value) else Null
  }

  /** `.filter(element => element.hasAttribute("property"))` */
  function WithProperty(es: seq<MetaElement>): (r: seq<MetaElement>)
    ensures forall i :: 0 <= i < |r| ==> r[i].property.Some?
    ensures forall e :: e in r <==> e in es && e.property.Some?
    ensures |r| <= |es|
  {
    if |es| == 0 then []
    else
      var rest := WithProperty(es[1..]);
      assert forall e :: e in es <==> e == es[0] || e in es[1..];
      if es[0].property.Some? then [es[0]] + rest else rest
  }

  predicate HasProperties(es: seq<MetaElement>) {
    forall i :: 0 <= i < |es| ==> es[i].property.Some?
  }

  /** The filter keeps document order: filtering a concatenation is
      concatenating the filtered parts. */
  lemma {:induction false} WithPropertyAppend(a: seq<MetaElement>, b: seq<MetaElement>)
    ensures WithProperty(a + b) == WithProperty(a) + WithProperty(b)
    decreases |a|
  {
    if |a| > 0 {
      assert (a + b)[0] == a[0] && (a + b)[1..] == a[1..] + b;
      WithPropertyAppend(a[1..], b);
    } else {
      assert a + b == b;
    }
  }

  /** Elements that all have a property are kept as they are, in order and
      with their repetitions. */
  lemma {:induction false} WithPropertyKeepsAll(es: seq<MetaElement>)
    requires HasProperties(es)
    ensures WithProperty(es) == es
    decreases |es|
  {
    if |es| > 0 {
      WithPropertyKeepsAll(es[1..]);
      assert [es[0]] + es[1..] == es;
    }
  }

  /** The key an element contributes, once trimmed. */
  function Key(e: MetaElement): string
    requires e.property.Some?
  {
    Trim(e.property.value)
  }

  /** The reducer callback (utils/getOgp.ts:29-38): an empty or blank
      property returns undefined, losing the record; otherwise the trimmed
      property is set to the element's content, which throws once the record
      has been lost. */
  function Step(previous: Acc, current: MetaElement): (r: Result<Acc>)
    requires current.property.Some?
    ensures Key(current) == "" ==> r == Ok(Lost)
    ensures Key(current) != "" && previous.Lost? ==>
      r == Throw("Cannot set properties of undefined (setting '" + Key(current) + "')")
    ensures Key(current) != "" && previous.Record? ==>
      r.Ok? && r.value.Record? && r.value.fields.Keys == previous.fields.Keys + {Key(current)}
      && r.value.fields[Key(current)] == ContentJson(current.content)
      && forall k :: k in previous.fields && k != Key(current) ==> r.value.fields[k] == previous.fields[k]
  {
    var property := Trim(current.property.value);
    if property == "" then Ok(Lost)
    else
      match previous
      case Lost => Throw("Cannot set properties of undefined (setting '" + property + "')")
      case Record(m) => Ok(Record(m[property := ContentJson(current.content)]))
  }

  /** `.reduce(callback, {})` over elements that all have a property,
      defined from the last element. */
  function Reduce(es: seq<MetaElement>): Result<Acc>
    requires HasProperties(es)
    decreases |es|
  {
    if |es| == 0 then Ok(Record(map[]))
    else
      var previous :- Reduce(es[..|es| - 1]);
      Step(previous, es[|es| - 1])
  }

  /** One more element: the reduce so far, then one callback. */
  lemma ReduceLast(es: seq<MetaElement>)
    requires HasProperties(es) && |es| > 0
    ensures HasProperties(es[..|es| - 1])
    ensures Reduce(es) == if Reduce(es[..|es| - 1]).Throw? then Throw(Reduce(es[..|es| - 1]).message)
                          else Step(Reduce(es[..|es| - 1]).value, es[|es| - 1])
  {
  }

  /** The reduce over one more element of es. */
  lemma ReduceNext(es: seq<MetaElement>, i: nat, previous: Acc)
    requires HasProperties(es) && i < |es| && HasProperties(es[..i]) && Reduce(es[..i]) == Ok(previous)
    ensures HasProperties(es[..i + 1]) && es[i].property.Some?
    ensures Reduce(es[..i + 1]) == Step(previous, es[i])
  {
    var next := es[..i + 1];
    assert next[..i] == es[..i] && next[i] == es[i];
    ReduceLast(next);
  }

  /** The reducer callback as the source runs it: the record is updated in
      place and returned. */
  method Callback(previous: Acc, current: MetaElement) returns (r: Result<Acc>)
    requires current.property.Some?
    ensures r == Step(previous, current)
  {
    var property := Trim(current.property.value);
    if property == "" {
      return Ok(Lost);
    }
    if previous.Lost? {
      return Throw("Cannot set properties of undefined (setting '" + property + "')");
    }
    var record := previous.fields;
    record := record[property := ContentJson(current.content)];
    r := Ok(Record(record));
  }

  /** `extractOgp(metaElements)` (utils/getOgp.ts:24-41): the filter, then
      the reduce, one callback per kept element. */
  method ExtractOgp(metaElements: seq<MetaElement>) returns (r: Result<Acc>)
    ensures r == Reduce(WithProperty(metaElements))
  {
    var kept := WithProperty(metaElements);
    var previous: Acc := Record(map[]);
    var i := 0;
    while i < |kept|
      invariant 0 <= i <= |kept|
      invariant HasProperties(kept[..i]) && Reduce(kept[..i]) == Ok(previous)
    {
      ReduceNext(kept, i, previous);
      var next := Callback(previous, kept[i]);
      if next.Throw? {
        r := next;
        ErrorEndsReduce(kept, i + 1);
        return;
      }
      previous := next.value;
      i := i + 1;
    }
    assert kept[..i] == kept;
    r := Ok(previous);
  }

  /** A throwing callback ends the reduce. */
  lemma {:induction false} ErrorEndsReduce(es: seq<MetaElement>, i: nat)
    requires HasProperties(es) && i <= |es| && Reduce(es[..i]).Throw?
    ensures Reduce(es) == Reduce(es[..i])
    decreases |es| - i
  {
    if i < |es| {
      var init := es[..|es| - 1];
      assert init[..i] == es[..i];
      ErrorEndsReduce(init, i);
    } else {
      assert es[..i] == es;
    }
  }

  /** The elements' keys, in order. */
  function Keys(es: seq<MetaElement>): (ks: seq<string>)
    requires HasProperties(es)
    ensures |ks| == |es| && forall i :: 0 <= i < |es| ==> ks[i] == Key(es[i])
    decreases |es|
  {
    if |es| == 0 then []
    else
      var init := es[..|es| - 1];
      assert forall i :: 0 <= i < |init| ==> init[i] == es[i];
      Keys(init) + [Key(es[|es| - 1])]
  }

  /** The elements' contents, in order. */
  function Contents(es: seq<MetaElement>): (cs: seq<Json>)
    ensures |cs| == |es| && forall i :: 0 <= i < |es| ==> cs[i] == ContentJson(es[i].content)
    decreases |es|
  {
    if |es| == 0 then [] else Contents(es[..|es| - 1]) + [ContentJson(es[|es| - 1].content)]
  }

  /** Every key is in m. */
  predicate KeysKept(ks: seq<string>, m: map<string, Json>) {
    forall i :: 0 <= i < |ks| ==> ks[i] in m
  }

  /** Each value of m is the content paired with the last occurrence of its
      key. */
  predicate LastValues(ks: seq<string>, cs: seq<Json>, m: map<string, Json>)
    requires |ks| == |cs|
  {
    forall k :: k in m ==> exists i :: 0 <= i < |ks| && ks[i] == k && m[k] == cs[i]
                                      && forall j :: i < j < |ks| ==> ks[j] != k
  }

  /** Setting the last key keeps both properties. */
  lemma LastWinsStep(ks: seq<string>, cs: seq<Json>, m0: map<string, Json>)
    requires |ks| == |cs| && |ks| > 0
    requires KeysKept(ks[..|ks| - 1], m0) && LastValues(ks[..|ks| - 1], cs[..|cs| - 1], m0)
    ensures KeysKept(ks, m0[ks[|ks| - 1] := cs[|cs| - 1]])
    ensures LastValues(ks, cs, m0[ks[|ks| - 1] := cs[|cs| - 1]])
  {
    var n := |ks| - 1;
    var m := m0[ks[n] := cs[n]];
    assert forall i :: 0 <= i < n ==> ks[..n][i] == ks[i];
    forall k | k in m
      ensures exists i :: 0 <= i < |ks| && ks[i] == k && m[k] == cs[i] && forall j :: i < j < |ks| ==> ks[j] != k
    {
      if k == ks[n] {
        assert ks[n] == k && m[k] == cs[n];
      } else {
        var i := EarlierLastValue(ks, cs, m0, k);
      }
    }
  }

  /** A key other than the newest keeps the witness it had before. */
  lemma EarlierLastValue(ks: seq<string>, cs: seq<Json>, m0: map<string, Json>, k: string) returns (i: nat)
    requires |ks| == |cs| && |ks| > 0
    requires LastValues(ks[..|ks| - 1], cs[..|cs| - 1], m0)
    requires k in m0 && k != ks[|ks| - 1]
    ensures i < |ks| && ks[i] == k && m0[ks[|ks| - 1] := cs[|cs| - 1]][k] == cs[i]
    ensures forall j :: i < j < |ks| ==> ks[j] != k
  {
    var n := |ks| - 1;
    var pks, pcs := ks[..n], cs[..n];
    i :| 0 <= i < n && pks[i] == k && m0[k] == pcs[i] && forall j :: i < j < n ==> pks[j] != k;
    assert forall j :: i < j < n ==> ks[j] == pks[j];
    assert ks[i] == pks[i] && cs[i] == pcs[i];
  }

  /** With no blank property, the record has one key per distinct trimmed
      property, and the value of each is the content of the last element
      carrying it. */
  lemma {:induction false} LastWins(es: seq<MetaElement>)
    requires HasProperties(es) && forall i :: 0 <= i < |es| ==> Key(es[i]) != ""
    ensures Reduce(es).Ok? && Reduce(es).value.Record?
    ensures KeysKept(Keys(es), Reduce(es).value.fields)
    ensures LastValues(Keys(es), Contents(es), Reduce(es).value.fields)
    decreases |es|
  {
    if |es| > 0 {
      var init := es[..|es| - 1];
      var last := es[|es| - 1];
      assert forall i :: 0 <= i < |init| ==> init[i] == es[i];
      LastWins(init);
      ReduceLast(es);
      var m0 := Reduce(init).value.fields;
      assert Reduce(es) == Ok(Record(m0[Key(last) := ContentJson(last.content)]));
      var ks, cs := Keys(es), Contents(es);
      assert ks[..|ks| - 1] == Keys(init) && cs[..|cs| - 1] == Contents(init);
      assert ks[|ks| - 1] == Key(last) && cs[|cs| - 1] == ContentJson(last.content);
      LastWinsStep(ks, cs, m0);
    }
  }

  /** A blank property followed only by blank ones leaves no record: the
      reduce returns undefined. */
  lemma {:induction false} BlankTailLosesRecord(es: seq<MetaElement>, i: nat)
    requires HasProperties(es) && i < |es| && Reduce(es[..i]).Ok?
    requires forall j :: i <= j < |es| ==> Key(es[j]) == ""
    ensures Reduce(es) == Ok(Lost)
    decreases |es|
  {
    var init := es[..|es| - 1];
    if i < |es| - 1 {
      assert init[..i] == es[..i];
      BlankTailLosesRecord(init, i);
    }
  }

  /** A blank property loses the record, if there was one. */
  lemma BlankLoses(es: seq<MetaElement>, i: nat)
    requires HasProperties(es) && i < |es| && Reduce(es[..i]).Ok? && Key(es[i]) == ""
    ensures Reduce(es[..i + 1]) == Ok(Lost)
  {
    var blank := es[..i + 1];
    assert blank[..|blank| - 1] == es[..i] && blank[|blank| - 1] == es[i];
    ReduceLast(blank);
  }

  /** A valid property after the record is lost throws. */
  lemma ValidAfterLostThrows(es: seq<MetaElement>, i: nat)
    requires HasProperties(es) && i < |es| && Reduce(es[..i]) == Ok(Lost) && Key(es[i]) != ""
    ensures Reduce(es[..i + 1]) == Throw("Cannot set properties of undefined (setting '" + Key(es[i]) + "')")
  {
    var valid := es[..i + 1];
    assert valid[..|valid| - 1] == es[..i] && valid[|valid| - 1] == es[i];
    ReduceLast(valid);
  }

  /** A blank property followed by a valid one throws the TypeError of
      setting a property of undefined, and that error is the result. */
  lemma BlankThenValidThrows(es: seq<MetaElement>, i: nat)
    requires HasProperties(es) && i + 1 < |es| && Reduce(es[..i]).Ok?
    requires Key(es[i]) == "" && Key(es[i + 1]) != ""
    ensures Reduce(es) == Throw("Cannot set properties of undefined (setting '" + Key(es[i + 1]) + "')")
  {
    BlankLoses(es, i);
    ValidAfterLostThrows(es, i + 1);
    ErrorEndsReduce(es, i + 2);
  }

  /** Elements without a property attribute are ignored: none at all gives
      an empty record. */
  lemma {:induction false} NoPropertiesGivesEmptyRecord(es: seq<MetaElement>)
    requires forall i :: 0 <= i < |es| ==> es[i].property.None?
    ensures WithProperty(es) == []
    ensures Reduce(WithProperty(es)) == Ok(Record(map[]))
  {
    if |es| > 0 {
      assert forall i :: 0 <= i < |es| - 1 ==> es[1..][i] == es[i + 1];
      NoPropertiesGivesEmptyRecord(es[1..]);
    }
  }

  /** `getOgp(url)` (utils/getOgp.ts:4-21): null for a non-string url,
      without fetching; otherwise the record (or `undefined`, when the
      reduce lost it), and any error, fetching or extracting, rethrown with
      its message. */
  method GetOgp(url: Json, head: Fetch<seq<MetaElement>>) returns (r: Result<Json>)
    ensures !url.Str? ==> r == Ok(Null)
    ensures url.Str? && head.FetchFailed? ==> r == Throw(head.message)
    ensures url.Str? && head.Fetched? ==>
      match Reduce(WithProperty(head.value))
      case Throw(m) => r == Throw(m)
      case Ok(Lost) => r == Ok(Undefined)
      case Ok(Record(m)) => r == Ok(Obj(m))
  {
    if !url.Str? {
      return Ok(Null);
    }
    match head
    case FetchFailed(m) =>
      r := Throw(m);
    case Fetched(meta) =>
      var ogp := ExtractOgp(meta);
      match ogp
      case Throw(m) => r := Throw(m);
      case Ok(Lost) => r := Ok(Undefined);
      case Ok(Record(m)) => r := Ok(Obj(m));
  }
}
