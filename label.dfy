/** The profiler label that a delegated call builds from its first argument
    when profiling is enabled: `riak <fn> ` followed by the `types/`,
    `bucket/`, `search/` and `query/` segments of the fields that are
    truthy, trimmed. */
module Label {
  import opened Js
  import Wildcard

  // ---------------------------------------------------------------------
  // String.prototype.trim

  /** ECMAScript WhiteSpace and LineTerminator code points. */
  const Spaces: set<char> := {
    '\t', '\n', '\U{000B}', '\U{000C}', '\r', ' ', '\U{00A0}', '\U{1680}',
    '\U{2000}', '\U{2001}', '\U{2002}', '\U{2003}', '\U{2004}', '\U{2005}',
    '\U{2006}', '\U{2007}', '\U{2008}', '\U{2009}', '\U{200A}',
    '\U{2028}', '\U{2029}', '\U{202F}', '\U{205F}', '\U{3000}', '\U{FEFF}'
  }

  predicate IsSpace(c: char) {
    c in Spaces
  }

  /** Printable ASCII other than the space itself is not white space. */
  lemma NotSpace(c: char)
    requires ' ' < c <= '~'
    ensures !IsSpace(c)
  {
  }

  predicate AllSpace(s: string) {
    forall k :: 0 <= k < |s| ==> IsSpace(s[k])
  }

  lemma SpacesJoin(a: string, b: string)
    requires AllSpace(a) && AllSpace(b)
    ensures AllSpace(a + b)
  {
    forall k | 0 <= k < |a + b| ensures IsSpace((a + b)[k]) {
      if k < |a| {
        assert (a + b)[k] == a[k];
      } else {
        assert (a + b)[k] == b[k - |a|];
      }
    }
  }

  /** `s` with its leading white space removed. */
  function TrimStart(s: string): (r: string)
    ensures |r| <= |s| && r == s[|s| - |r|..]
    ensures |r| == 0 || !IsSpace(r[0])
  {
    if |s| > 0 && IsSpace(s[0]) then TrimStart(s[1..]) else s
  }

  /** What `TrimStart` cuts off is white space. */
  lemma {:induction false} TrimStartCutsSpace(s: string)
    ensures AllSpace(s[..|s| - |TrimStart(s)|])
  {
    if |s| > 0 && IsSpace(s[0]) {
      var t := s[1..];
      var r := TrimStart(t);
      TrimStartCutsSpace(t);
      var cut := t[..|t| - |r|];
      assert s[..|s| - |r|] == [s[0]] + cut;
      SpacesJoin([s[0]], cut);
    }
  }

  /** `s` with its trailing white space removed. */
  function TrimEnd(s: string): (r: string)
    ensures |r| <= |s| && r == s[..|r|]
    ensures |r| == 0 || !IsSpace(r[|r| - 1])
  {
    if |s| > 0 && IsSpace(s[|s| - 1]) then TrimEnd(s[..|s| - 1]) else s
  }

  /** What `TrimEnd` cuts off is white space. */
  lemma {:induction false} TrimEndCutsSpace(s: string)
    ensures AllSpace(s[|TrimEnd(s)|..])
  {
    if |s| > 0 && IsSpace(s[|s| - 1]) {
      var r := TrimEnd(s[..|s| - 1]);
      TrimEndCutsSpace(s[..|s| - 1]);
      assert s[|r|..] == s[..|s| - 1][|r|..] + [s[|s| - 1]];
      SpacesJoin(s[..|s| - 1][|r|..], [s[|s| - 1]]);
    }
  }

  /** `s.trim()`: `s` without its leading and its trailing white space. */
  function Trim(s: string): (r: string)
    ensures |r| <= |s|
    ensures |r| == 0 || (!IsSpace(r[0]) && !IsSpace(r[|r| - 1]))
  {
    var t := TrimStart(s);
    var r := TrimEnd(t);
    assert |r| > 0 ==> r[0] == t[0];
    r
  }

  /** What `Trim` keeps is a slice of `s`, and what it cuts off on either
      side is white space only. */
  lemma TrimCutsOnlySpace(s: string)
    ensures var i, r := |s| - |TrimStart(s)|, Trim(s);
            && i + |r| <= |s| && r == s[i..i + |r|]
            && AllSpace(s[..i]) && AllSpace(s[i + |r|..])
  {
    var t := TrimStart(s);
    TrimStartCutsSpace(s);
    TrimEndCutsSpace(t);
    SliceOfSlice(s, |s| - |t|, t, TrimEnd(t));
  }

  /** A prefix `r` of the suffix `t` of `s` that starts at `i`, followed by
      white space in `t`, is a slice of `s` followed by white space in `s`. */
  lemma SliceOfSlice(s: string, i: nat, t: string, r: string)
    requires i <= |s| && t == s[i..]
    requires |r| <= |t| && r == t[..|r|] && AllSpace(t[|r|..])
    ensures i + |r| <= |s| && r == s[i..i + |r|] && AllSpace(s[i + |r|..])
  {
    assert s[i..][|r|..] == s[i + |r|..];
    assert s[i..][..|r|] == s[i..i + |r|];
  }

  /** Trimming keeps a prefix that ends in a character that is not white space. */
  lemma TrimEndKeepsPrefix(p: string, rest: string)
    requires |p| > 0 && !IsSpace(p[|p| - 1])
    ensures |TrimEnd(p + rest)| >= |p| && TrimEnd(p + rest)[..|p|] == p
  {
    var s := p + rest;
    var r := TrimEnd(s);
    TrimEndCutsSpace(s);
    assert s[|p| - 1] == p[|p| - 1];
  }

  // ---------------------------------------------------------------------
  // The label

  /** The four fields of `args[0]` that the label reads, each `Some(text)`
      when the field is truthy, with `text` its string conversion. */
  datatype LabelFields = LabelFields(
    bucketType: Option<string>,
    bucket: Option<string>,
    indexName: Option<string>,
    q: Option<string>)

  /** One `if (args[0].field) { req += ... }` step. */
  function Grow(req: string, prefix: string, field: Option<string>, sep: string): string {
    if field.Some? then req + prefix + field.value + sep else req
  }

  /** The label before trimming, grown field by field as the source does. */
  function RawLabel(fn: string, f: LabelFields): string {
    var req := "riak " + fn + " ";
    var req := Grow(req, "types/", f.bucketType, " ");
    var req := Grow(req, "bucket/", f.bucket, " ");
    var req := Grow(req, "search/", f.indexName, " ");
    Grow(req, "query/", if f.q.Some? then Some(Wildcard.Wildcard(f.q.value)) else None, "")
  }

  /** `req.trim()`, the label handed to the profiler. */
  function BuildLabel(fn: string, f: LabelFields): (r: string)
    ensures |r| <= |RawLabel(fn, f)|
    ensures |r| > 0 ==> !IsSpace(r[0]) && !IsSpace(r[|r| - 1])
  {
    Trim(RawLabel(fn, f))
  }

  /** Growing the label only ever appends. */
  lemma GrowExtends(req: string, prefix: string, field: Option<string>, sep: string)
    ensures var r := Grow(req, prefix, field, sep); |r| >= |req| && r[..|req|] == req
  {
    if field.Some? {
      var r := req + prefix + field.value + sep;
      assert r == req + (prefix + field.value + sep);
    }
  }

  /** The untrimmed label starts with `riak `, the operation name and a
      space. */
  lemma RawLabelStarts(fn: string, f: LabelFields)
    ensures var r := RawLabel(fn, f);
            |r| >= 6 + |fn| && r[..6 + |fn|] == "riak " + fn + " "
  {
    var r0 := "riak " + fn + " ";
    var r1 := Grow(r0, "types/", f.bucketType, " ");
    GrowExtends(r0, "types/", f.bucketType, " ");
    var r2 := Grow(r1, "bucket/", f.bucket, " ");
    GrowExtends(r1, "bucket/", f.bucket, " ");
    var r3 := Grow(r2, "search/", f.indexName, " ");
    GrowExtends(r2, "search/", f.indexName, " ");
    var q := if f.q.Some? then Some(Wildcard.Wildcard(f.q.value)) else None;
    var raw := Grow(r3, "query/", q, "");
    GrowExtends(r3, "query/", q, "");
    assert raw == RawLabel(fn, f);
    assert raw[..|r0|] == r3[..|r0|] == r2[..|r0|] == r1[..|r0|] == r0;
  }

  /** A string that starts with `head` and one more character is `head`
      followed by its own tail. */
  lemma HeadOfPrefix(s: string, head: string, c: char)
    requires |s| >= |head| + 1 && s[..|head| + 1] == head + [c]
    ensures s == head + s[|head|..]
  {
    assert s[..|head|] == s[..|head| + 1][..|head|] == head;
    assert s == s[..|head|] + s[|head|..];
  }

  /** Trimming a string that starts with a known head, whose first and last
      characters are not white space, cuts only the tail and keeps the head. */
  lemma TrimAfterHead(head: string, rest: string)
    requires |head| > 0 && !IsSpace(head[0]) && !IsSpace(head[|head| - 1])
    ensures var l := Trim(head + rest);
            && l == TrimEnd(head + rest)
            && |l| >= |head| && l[..|head|] == head
  {
    var s := head + rest;
    assert s[0] == head[0];
    assert TrimStart(s) == s;
    TrimEndKeepsPrefix(head, rest);
  }

  /** `l` is the trimmed `raw` of a call to `fn`: only the tail was cut, it
      begins with `riak ` and the name, and no white space is left at
      either end. */
  predicate LabelOf(fn: string, raw: string, l: string) {
    && l == TrimEnd(raw)
    && |l| >= 5 + |fn| && l[..5 + |fn|] == "riak " + fn
    && !IsSpace(l[0]) && !IsSpace(l[|l| - 1])
  }

  /** The label begins with `riak ` and the operation name, only its tail
      is trimmed, and it has no white space at either end. */
  lemma LabelShape(fn: string, f: LabelFields)
    requires |fn| > 0 && !IsSpace(fn[|fn| - 1])
    ensures LabelOf(fn, RawLabel(fn, f), BuildLabel(fn, f))
  {
    var raw := RawLabel(fn, f);
    assert BuildLabel(fn, f) == Trim(raw);
    RawLabelStarts(fn, f);
    TrimmedLabel(fn, raw);
  }

  /** Trimming any text that starts with `riak <fn> `. */
  lemma TrimmedLabel(fn: string, raw: string)
    requires |fn| > 0 && !IsSpace(fn[|fn| - 1])
    requires |raw| >= 6 + |fn| && raw[..6 + |fn|] == "riak " + fn + " "
    ensures LabelOf(fn, raw, Trim(raw))
  {
    var head := "riak " + fn;
    HeadOfPrefix(raw, head, ' ');
    assert head[0] == 'r' && head[|head| - 1] == fn[|fn| - 1];
    NotSpace('r');
    TrimmedAfterHead(head, raw);
  }

  /** `TrimAfterHead` for a string known only to start with the head. */
  lemma TrimmedAfterHead(head: string, s: string)
    requires |head| > 0 && !IsSpace(head[0]) && !IsSpace(head[|head| - 1])
    requires |s| >= |head| && s == head + s[|head|..]
    ensures var l := Trim(s);
            && l == TrimEnd(s)
            && |l| >= |head| && l[..|head|] == head
            && !IsSpace(l[0]) && !IsSpace(l[|l| - 1])
  {
    TrimAfterHead(head, s[|head|..]);
    assert Trim(s)[0] == head[0];
  }

  // ---------------------------------------------------------------------
  // The same label described segment by segment

  datatype Kind = Types | Bucket | Search | Query

  /** Position of a segment kind in the fixed order. */
  function Rank(k: Kind): nat {
    match k
    case Types => 0
    case Bucket => 1
    case Search => 2
    case Query => 3
  }

  function Prefix(k: Kind): string {
    match k
    case Types => "types/"
    case Bucket => "bucket/"
    case Search => "search/"
    case Query => "query/"
  }

  datatype Segment = Segment(kind: Kind, text: string)

  /** The field a segment kind is built from; the query is wildcarded. */
  function FieldText(f: LabelFields, k: Kind): Option<string> {
    match k
    case Types => f.bucketType
    case Bucket => f.bucket
    case Search => f.indexName
    case Query => if f.q.Some? then Some(Wildcard.Wildcard(f.q.value)) else None
  }

  function SegmentOf(f: LabelFields, k: Kind): seq<Segment> {
    if FieldText(f, k).Some? then [Segment(k, FieldText(f, k).value)] else []
  }

  /** The segments present, in the fixed order. */
  function Segments(f: LabelFields): seq<Segment> {
    SegmentOf(f, Types) + SegmentOf(f, Bucket) + SegmentOf(f, Search) + SegmentOf(f, Query)
  }

  /** Each segment followed by one space, except the query segment. */
  function Render(segs: seq<Segment>): string {
    if |segs| == 0 then ""
    else
      var s := segs[0];
      Prefix(s.kind) + s.text + (if s.kind == Query then "" else " ") + Render(segs[1..])
  }

  /** A segment appears exactly when its field is truthy, with that field's
      text, and the segments come in the order types, bucket, search, query. */
  lemma SegmentsPresentInOrder(f: LabelFields)
    ensures forall k: Kind :: (exists s :: s in Segments(f) && s.kind == k) <==> FieldText(f, k).Some?
    ensures forall s :: s in Segments(f) ==> FieldText(f, s.kind) == Some(s.text)
    ensures forall a, b :: 0 <= a < b < |Segments(f)| ==> Rank(Segments(f)[a].kind) < Rank(Segments(f)[b].kind)
  {
    forall k: Kind ensures (exists s :: s in Segments(f) && s.kind == k) <==> FieldText(f, k).Some? {
      SegmentPresent(f, k);
    }
    SegmentTexts(f);
    SegmentsOrdered(f);
  }

  lemma SegmentPresent(f: LabelFields, k: Kind)
    ensures (exists s :: s in Segments(f) && s.kind == k) <==> FieldText(f, k).Some?
  {
    if FieldText(f, k).Some? {
      assert Segment(k, FieldText(f, k).value) in Segments(f);
    }
  }

  lemma SegmentTexts(f: LabelFields)
    ensures forall s :: s in Segments(f) ==> FieldText(f, s.kind) == Some(s.text)
  {
  }

  lemma SegmentsOrdered(f: LabelFields)
    ensures forall a, b :: 0 <= a < b < |Segments(f)| ==> Rank(Segments(f)[a].kind) < Rank(Segments(f)[b].kind)
  {
  }

  lemma RenderConcat(a: seq<Segment>, b: seq<Segment>)
    ensures Render(a + b) == Render(a) + Render(b)
  {
    if |a| > 0 {
      assert (a + b)[1..] == a[1..] + b;
      RenderConcat(a[1..], b);
    } else {
      assert a + b == b;
    }
  }

  lemma GrowRenders(req: string, f: LabelFields, k: Kind)
    ensures Grow(req, Prefix(k), FieldText(f, k), if k == Query then "" else " ")
            == req + Render(SegmentOf(f, k))
  {
    if FieldText(f, k).Some? {
      var s := SegmentOf(f, k);
      assert s[1..] == [];
    }
  }

  /** Regrouping a concatenation. A lemma of its own, so that this step is
      proved apart from the large context of `RawLabelIsRendered`, where the
      solver would otherwise run out of resource. */
  lemma ConcatAssoc(a: string, b: string, c: string)
    ensures a + (b + c) == a + b + c
  {
  }

  /** The label grown field by field is the rendering of its segments. */
  lemma RawLabelIsRendered(fn: string, f: LabelFields)
    ensures RawLabel(fn, f) == "riak " + fn + " " + Render(Segments(f))
  {
    var t, b, s, q := SegmentOf(f, Types), SegmentOf(f, Bucket), SegmentOf(f, Search), SegmentOf(f, Query);
    var rt, rb, rs, rq := Render(t), Render(b), Render(s), Render(q);
    var r0 := "riak " + fn + " ";
    var r1 := Grow(r0, "types/", f.bucketType, " ");
    GrowRenders(r0, f, Types);
    var r2 := Grow(r1, "bucket/", f.bucket, " ");
    GrowRenders(r1, f, Bucket);
    var r3 := Grow(r2, "search/", f.indexName, " ");
    GrowRenders(r2, f, Search);
    GrowRenders(r3, f, Query);
    assert RawLabel(fn, f) == r3 + rq;
    RenderConcat(t, b);
    RenderConcat(t + b, s);
    RenderConcat(t + b + s, q);
    assert Segments(f) == t + b + s + q;
    var all := rt + rb + rs + rq;
    assert Render(Segments(f)) == all;
    ConcatAssoc(r0, rt + rb + rs, rq);
    ConcatAssoc(r0, rt + rb, rs);
    ConcatAssoc(r0, rt, rb);
  }

  // ---------------------------------------------------------------------
  // Reading the fields out of `args[0]`

  /** A TypeError thrown synchronously while the label is built. */
  datatype Fault =
    | ReadOfNullish(target: Value, property: string)   // `args[0].bucketType` on undefined or null
    | ReplaceNotAFunction(q: Value)                    // `args[0].q.replace` on a truthy non-string

  /** The text of a field that is truthy; `None` for a falsy one. */
  function TruthyText(v: Value): (r: Option<string>)
    ensures r.Some? <==> Truthy(v)
    ensures r.Some? ==> r.value == ToText(v)
  {
    if Truthy(v) then Some(ToText(v)) else None
  }

  /** The label fields of `args[0]`, or the fault that reading them throws:
      each of `bucketType`, `bucket` and `indexName` is present exactly when
      that property of `args[0]` is truthy, and `q` exactly when `args[0].q`
      is a truthy string. */
  function FieldsOf(arg0: Value): (r: Result<LabelFields, Fault>)
    ensures Nullish(arg0) ==> r == Err(ReadOfNullish(arg0, "bucketType"))
    ensures !Nullish(arg0) ==>
              (r.Err? <==> Truthy(Prop(arg0, "q")) && !Prop(arg0, "q").Str?)
    ensures !Nullish(arg0) && r.Err? ==> r.error == ReplaceNotAFunction(Prop(arg0, "q"))
    ensures r.Ok? ==> && r.value.bucketType == TruthyText(Prop(arg0, "bucketType"))
                      && r.value.bucket == TruthyText(Prop(arg0, "bucket"))
                      && r.value.indexName == TruthyText(Prop(arg0, "indexName"))
                      && (r.value.q.Some? <==> Truthy(Prop(arg0, "q")))
                      && (r.value.q.Some? ==> Prop(arg0, "q") == Str(r.value.q.value))
  {
    if Nullish(arg0) then Err(ReadOfNullish(arg0, "bucketType"))
    else
      var q := Prop(arg0, "q");
      if Truthy(q) && !q.Str? then Err(ReplaceNotAFunction(q))
      else Ok(LabelFields(
                TruthyText(Prop(arg0, "bucketType")),
                TruthyText(Prop(arg0, "bucket")),
                TruthyText(Prop(arg0, "indexName")),
                if Truthy(q) then Some(q.s) else None))
  }

  /** The label of a call `fn(...args)`, or the TypeError building it throws.
      Building it throws exactly when `args[0]` is missing, undefined or
      null, or its `q` is truthy and not a string. */
  function ProfileLabel(fn: string, args: seq<Value>): (r: Result<string, Fault>)
    ensures r.Err? <==>
              (|args| == 0 || Nullish(args[0])
               || (Truthy(Prop(args[0], "q")) && !Prop(args[0], "q").Str?))
    ensures r.Ok? ==> r.value == BuildLabel(fn, FieldsOf(args[0]).value)
  {
    match FieldsOf(Arg(args, 0))
    case Err(e) => Err(e)
    case Ok(f) => Ok(BuildLabel(fn, f))
  }

  /** A call with all four fields and a single `key:value` query: every
      segment appears, in order, and the value is replaced by `*`. */
  lemma FullLabel(fn: string, bucketType: string, bucket: string, indexName: string, key: string, value: string)
    requires |fn| > 0 && !IsSpace(fn[|fn| - 1])
    requires |key| > 0 && Wildcard.AllWord(key) && |value| > 0 && Wildcard.AllWord(value)
    ensures BuildLabel(fn, LabelFields(Some(bucketType), Some(bucket), Some(indexName), Some(key + ":" + value)))
            == "riak " + fn + " " + "types/" + bucketType + " " + "bucket/" + bucket + " "
               + "search/" + indexName + " " + "query/" + key + ":*"
  {
    var f := LabelFields(Some(bucketType), Some(bucket), Some(indexName), Some(key + ":" + value));
    var head := "riak " + fn + " " + "types/" + bucketType + " " + "bucket/" + bucket + " "
                + "search/" + indexName + " " + "query/";
    var w := Wildcard.Wildcard(key + ":" + value);
    assert RawLabel(fn, f) == head + w + "";
    Wildcard.KeyValue(key, value);
    var raw := head + key + ":*";
    assert head + w + "" == raw;
    assert raw[|raw| - 1] == '*';
    NotSpace('*');
    assert TrimEnd(raw) == raw;
    LabelShape(fn, f);
  }

  /** The label of a `search` call with all four fields set and a
      `field:value` query. */
  lemma SearchLabelExample(args: seq<Value>)
    requires args == [Obj(map["bucketType" := Str("t"), "bucket" := Str("b"),
                              "indexName" := Str("i"), "q" := Str("field:value")], "[object Object]")]
    ensures ProfileLabel("search", args) == Ok("riak search types/t bucket/b search/i query/field:*")
  {
    var fn, key, value := "search", "field", "value";
    SearchFields(args[0], key, value);
    FullLabel(fn, "t", "b", "i", key, value);
    SearchText(fn, key);
  }

  lemma SearchFields(arg0: Value, key: string, value: string)
    requires arg0 == Obj(map["bucketType" := Str("t"), "bucket" := Str("b"),
                             "indexName" := Str("i"), "q" := Str("field:value")], "[object Object]")
    requires key == "field" && value == "value"
    ensures FieldsOf(arg0) == Ok(LabelFields(Some("t"), Some("b"), Some("i"), Some(key + ":" + value)))
  {
    assert Prop(arg0, "bucketType") == Str("t");
    assert Prop(arg0, "bucket") == Str("b");
    assert Prop(arg0, "indexName") == Str("i");
    assert Prop(arg0, "q") == Str("field:value");
    assert key + ":" + value == "field:value";
  }

  lemma SearchText(fn: string, key: string)
    requires fn == "search" && key == "field"
    ensures "riak " + fn + " " + "types/" + "t" + " " + "bucket/" + "b" + " "
            + "search/" + "i" + " " + "query/" + key + ":*"
            == "riak search types/t bucket/b search/i query/field:*"
  {
    var l1 := "riak " + fn + " " + "types/" + "t" + " ";
    assert l1 == "riak search types/t ";
    var l2 := l1 + "bucket/" + "b" + " ";
    assert l2 == "riak search types/t bucket/b ";
    var l3 := l2 + "search/" + "i" + " ";
    assert l3 == "riak search types/t bucket/b search/i ";
  }
}
