/**
 What the one-pass compiler accepts, and what its result says about the type.
 */
module TagTheorems {
  import opened Wire
  import opened GoSlices
  import opened RequestTags

  // ---------- which types are accepted ----------

  /** A tag use without its position in the type. */
  datatype Shape = BadShape | Shape(source: Source, value: string, typ: GoType)

  function ShapeOf(e: Event): Shape {
    if e.BadField? then BadShape else Shape(e.source, e.value, e.typ)
  }

  function ShapeSeq(events: seq<Event>): seq<Shape> {
    seq(|events|, k requires 0 <= k < |events| => ShapeOf(events[k]))
  }

  function Shapes(events: seq<Event>): multiset<Shape> {
    multiset(ShapeSeq(events))
  }

  predicate IsNamedUse(u: Shape) {
    u.Shape? && IsNamedSource(u.source) && u.value != ""
  }

  predicate FitsAlone(u: Shape) {
    u.Shape? && (IsNamedUse(u) || ((u.source == Multipart ==> u.value == "") && TypeFits(u.source, u.typ)))
  }

  /** Two uses of one source are only ever two named fields. */
  predicate Coexist(u: Shape, v: Shape) {
    u.Shape? && v.Shape? && u.source == v.source ==> IsNamedUse(u) && IsNamedUse(v)
  }

  /**
   A request type's tag uses, taken as a bag: every exported anonymous field is a struct, each use
   fits on its own, and a whole-source, `multipart` or `body` field is the only use of its source.
   */
  ghost predicate WellFormed(uses: multiset<Shape>) {
    && (forall u :: u in uses ==> FitsAlone(u))
    && (forall u, v :: u in uses && v in uses && (u != v || uses[u] >= 2) ==> Coexist(u, v))
  }

  predicate IsWholeUse(e: Event) {
    e.Use? && IsWhole(e.source, e.value)
  }

  /** The compiled metadata says exactly what the events contain. */
  ghost predicate Describes(tags: Tags, events: seq<Event>) {
    && (forall s :: s in tags.flags <==> exists e :: e in events && e.Use? && e.source == s)
    && (forall s :: s in tags.index <==> exists e :: e in events && IsWholeUse(e) && e.source == s)
    && (forall e :: e in events && IsWholeUse(e) ==> e.source in tags.index && tags.index[e.source] == e.path)
    && (Body !in tags.flags ==> tags.contentTypes == [])
    && (forall e :: e in events && e.Use? && e.source == Body ==>
          tags.contentTypes == if e.value == "" then [] else Words(e.value))
  }

  lemma ShapesOfEvents(events: seq<Event>)
    ensures forall u :: u in Shapes(events) <==> exists e :: e in events && ShapeOf(e) == u
  {
    forall u | u in Shapes(events)
      ensures exists e :: e in events && ShapeOf(e) == u
    {
      var k :| 0 <= k < |events| && ShapeSeq(events)[k] == u;
      assert events[k] in events;
    }
    forall e | e in events
      ensures ShapeOf(e) in Shapes(events)
    {
      var k :| 0 <= k < |events| && events[k] == e;
      assert ShapeSeq(events)[k] == ShapeOf(e);
    }
  }

  lemma WellFormedStep(uses: multiset<Shape>, u: Shape)
    ensures WellFormed(uses + multiset{u})
       <==> WellFormed(uses) && FitsAlone(u) && forall v :: v in uses ==> Coexist(v, u)
  {
  }

  lemma OneMoreUseAccepted(tags: Tags, events: seq<Event>, e: Event)
    requires Describes(tags, events) && forall d :: d in events ==> d.Use?
    ensures AfterUse(tags, e).Some?
       <==> FitsAlone(ShapeOf(e)) && forall v :: v in Shapes(events) ==> Coexist(v, ShapeOf(e))
  {
    ShapesOfEvents(events);
    if e.Use? && IsNamedUse(ShapeOf(e)) {
      if e.source in tags.index {
        var d :| d in events && IsWholeUse(d) && d.source == e.source;
        assert ShapeOf(d) in Shapes(events) && !Coexist(ShapeOf(d), ShapeOf(e));
      }
    } else if e.Use? && e.source in tags.flags {
      var d :| d in events && d.Use? && d.source == e.source;
      assert ShapeOf(d) in Shapes(events) && !Coexist(ShapeOf(d), ShapeOf(e));
    }
  }

  lemma OneMoreUseDescribed(tags: Tags, events: seq<Event>, e: Event)
    requires Describes(tags, events) && AfterUse(tags, e).Some?
    requires forall d :: d in events ==> d.Use?
    ensures Describes(AfterUse(tags, e).value, events + [e])
  {
    var more, after := events + [e], AfterUse(tags, e).value;
    assert forall d :: d in more <==> d in events || d == e;
    forall s
      ensures s in after.flags <==> exists d :: d in more && d.Use? && d.source == s
    {
      if s == e.source { assert e in more; }
    }
    forall s
      ensures s in after.index <==> exists d :: d in more && IsWholeUse(d) && d.source == s
    {
      if s == e.source && IsWholeUse(e) { assert e in more; }
    }
  }

  /**
   The compiler accepts a sequence of tag uses exactly when they are well formed as a bag, whatever their
   order, and then its flags, paths and allowlist are exactly those of the uses.
   */
  lemma {:induction false} CompilerIsExact(events: seq<Event>)
    ensures AfterEvents(NO_TAGS, events).Some? <==> WellFormed(Shapes(events))
    ensures AfterEvents(NO_TAGS, events).Some? ==> Describes(AfterEvents(NO_TAGS, events).value, events)
  {
    if events != [] {
      var before, e := events[..|events| - 1], events[|events| - 1];
      assert events == before + [e];
      CompilerIsExact(before);
      ShapesOfConcat(before, [e]);
      assert ShapeSeq([e]) == [ShapeOf(e)];
      WellFormedStep(Shapes(before), ShapeOf(e));
      if AfterEvents(NO_TAGS, before).Some? {
        var tags := AfterEvents(NO_TAGS, before).value;
        AllAreUses(before);
        OneMoreUseAccepted(tags, before, e);
        if AfterUse(tags, e).Some? {
          OneMoreUseDescribed(tags, before, e);
        }
      }
    }
  }

  lemma AllAreUses(events: seq<Event>)
    requires WellFormed(Shapes(events))
    ensures forall e :: e in events ==> e.Use?
  {
    ShapesOfEvents(events);
    forall e | e in events
      ensures e.Use?
    {
      assert ShapeOf(e) in Shapes(events);
    }
  }

  // ---------- field order ----------

  lemma ShapesOfConcat(a: seq<Event>, b: seq<Event>)
    ensures Shapes(a + b) == Shapes(a) + Shapes(b)
  {
    assert ShapeSeq(a + b) == ShapeSeq(a) + ShapeSeq(b);
  }

  /** The uses of a field list as a bag, computed without any positions. */
  function FieldBag(fields: seq<Field>): multiset<Shape>
    decreases fields
  {
    if fields == [] then multiset{}
    else FieldBag(fields[..|fields| - 1]) + OneFieldBag(fields[|fields| - 1])
  }

  function OneFieldBag(f: Field): multiset<Shape>
    decreases f
  {
    if !f.exported then multiset{}
    else if f.anonymous then (if f.typ.Struct? then FieldBag(f.typ.fields) else multiset{BadShape})
    else Shapes(FieldEvents(f, [], |SOURCES|))
  }

  lemma {:induction false} PathsDoNotMatter(f: Field, p: Path, q: Path, n: nat)
    requires n <= |SOURCES|
    ensures |FieldEvents(f, p, n)| == |FieldEvents(f, q, n)|
    ensures forall k :: 0 <= k < |FieldEvents(f, p, n)| ==>
              ShapeOf(FieldEvents(f, p, n)[k]) == ShapeOf(FieldEvents(f, q, n)[k])
  {
    if n > 0 {
      PathsDoNotMatter(f, p, q, n - 1);
    }
  }

  lemma {:induction false} OneFieldShapes(f: Field, path: Path)
    ensures Shapes(EventsOf(f, path)) == OneFieldBag(f)
    decreases f
  {
    if f.exported && f.anonymous {
      if f.typ.Struct? {
        TypeShapes(f.typ, path, |f.typ.fields|);
        assert f.typ.fields[..|f.typ.fields|] == f.typ.fields;
      }
    } else if f.exported {
      PathsDoNotMatter(f, path, [], |SOURCES|);
      assert ShapeSeq(FieldEvents(f, path, |SOURCES|)) == ShapeSeq(FieldEvents(f, [], |SOURCES|));
    }
  }

  lemma {:induction false} TypeShapes(t: GoType, prefix: Path, n: nat)
    requires t.Struct? && n <= |t.fields|
    ensures Shapes(Events(t, prefix, n)) == FieldBag(t.fields[..n])
    decreases t, n
  {
    if n > 0 {
      TypeShapes(t, prefix, n - 1);
      OneFieldShapes(t.fields[n - 1], prefix + [n - 1]);
      ShapesOfConcat(Events(t, prefix, n - 1), EventsOf(t.fields[n - 1], prefix + [n - 1]));
      assert t.fields[..n][..n - 1] == t.fields[..n - 1];
    }
  }

  lemma {:induction false} BagOfConcat(a: seq<Field>, b: seq<Field>)
    ensures FieldBag(a + b) == FieldBag(a) + FieldBag(b)
  {
    if b == [] {
      assert a + b == a;
    } else {
      var rest, f, all := b[..|b| - 1], b[|b| - 1], a + b;
      BagOfConcat(a, rest);
      assert all[..|all| - 1] == a + rest && all[|all| - 1] == f;
      assert FieldBag(all) == FieldBag(a + rest) + OneFieldBag(f);
    }
  }

  lemma BagOfMiddle(left: seq<Field>, f: Field, right: seq<Field>)
    ensures FieldBag(left + [f] + right) == FieldBag(left + right) + OneFieldBag(f)
  {
    BagOfConcat(left + [f], right);
    BagOfConcat(left, right);
    assert (left + [f])[..|left|] == left;
  }

  lemma {:induction false} BagIgnoresOrder(a: seq<Field>, b: seq<Field>)
    requires multiset(a) == multiset(b)
    ensures FieldBag(a) == FieldBag(b)
    decreases |a|
  {
    if a == [] {
      assert |multiset(b)| == 0;
    } else {
      var rest, f := a[..|a| - 1], a[|a| - 1];
      assert a == rest + [f];
      assert f in multiset(b);
      var k :| 0 <= k < |b| && b[k] == f;
      var left, right := b[..k], b[k + 1..];
      assert b == left + [f] + right;
      assert multiset(rest) == multiset(a) - multiset{f} == multiset(b) - multiset{f} == multiset(left + right);
      BagIgnoresOrder(rest, left + right);
      BagOfMiddle(left, f, right);
    }
  }

  lemma ShapesOfType(t: GoType)
    requires t.Struct?
    ensures Shapes(AllEvents(t)) == FieldBag(t.fields)
  {
    TypeShapes(t, [], |t.fields|);
    assert t.fields[..|t.fields|] == t.fields;
  }

  // ---------- events are the tagged fields of the type ----------

  /** `FieldByIndex` on a value of type `t`; None where reflect would panic. */
  function FieldByIndex(t: GoType, path: Path): Option<Field>
    decreases |path|
  {
    if path == [] || !t.Struct? || !(0 <= path[0] < |t.fields|) then None
    else if |path| == 1 then Some(t.fields[path[0]])
    else FieldByIndex(t.fields[path[0]].typ, path[1..])
  }

  /** The path leads through exported embedded structs to an exported field of its own. */
  predicate IsLeaf(t: GoType, path: Path)
    decreases |path|
  {
    && path != [] && t.Struct? && 0 <= path[0] < |t.fields|
    && var f := t.fields[path[0]];
       f.exported && if |path| == 1 then !f.anonymous else f.anonymous && IsLeaf(f.typ, path[1..])
  }

  /** `e` is a tag of the field that `rest` leads to inside `t`. */
  ghost predicate IsTagOf(t: GoType, rest: Path, e: Event) {
    && e.Use? && IsLeaf(t, rest)
    && var f := FieldByIndex(t, rest);
       f.Some? && e.source in f.value.tags && f.value.tags[e.source] == e.value && f.value.typ == e.typ
  }

  lemma {:induction false} FieldEventsAreTags(f: Field, path: Path, n: nat, e: Event)
    requires n <= |SOURCES|
    ensures e in FieldEvents(f, path, n)
       <==> e.Use? && e.path == path && e.source in SOURCES[..n] && e.source in f.tags
            && e.value == f.tags[e.source] && e.typ == f.typ
  {
    if n > 0 {
      FieldEventsAreTags(f, path, n - 1, e);
      assert SOURCES[..n] == SOURCES[..n - 1] + [SOURCES[n - 1]];
    }
  }

  /**
   The tag uses found in a type are exactly the tags of its exported fields, embedded structs included,
   and the path of each is the path `FieldByIndex` follows to that field.
   */
  lemma {:induction false} EventsAreTheTags(t: GoType, prefix: Path, n: nat, e: Event)
    requires t.Struct? && n <= |t.fields| && e.Use?
    ensures e in Events(t, prefix, n)
       <==> exists rest :: rest != [] && rest[0] < n && e.path == prefix + rest && IsTagOf(t, rest, e)
    decreases t, n, 0
  {
    if n > 0 {
      var k := n - 1;
      EventsAreTheTags(t, prefix, k, e);
      FieldEventsAreItsTags(t, prefix, k, e);
    }
  }

  lemma EverySourceIsLookedUp(s: Source)
    ensures s in SOURCES
  {
  }

  /** A tag below field `k` is a tag of that field, or a tag inside the struct embedded there. */
  lemma TagBelowField(t: GoType, rest: Path, e: Event)
    requires t.Struct? && rest != [] && 0 <= rest[0] < |t.fields|
    ensures
      var f := t.fields[rest[0]];
      IsTagOf(t, rest, e) == (
        f.exported &&
        if |rest| > 1 then f.anonymous && IsTagOf(f.typ, rest[1..], e)
        else !f.anonymous && e.Use? && e.source in f.tags && f.tags[e.source] == e.value && f.typ == e.typ)
  {
  }

  /** Where a tag use of field `k` stands in the type. */
  lemma {:induction false} TagOfUse(t: GoType, prefix: Path, k: nat, e: Event) returns (rest: Path)
    requires t.Struct? && k < |t.fields| && e.Use? && e in EventsOf(t.fields[k], prefix + [k])
    ensures rest != [] && rest[0] == k && e.path == prefix + rest && IsTagOf(t, rest, e)
    decreases t, k, 1
  {
    var f, path := t.fields[k], prefix + [k];
    if f.anonymous {
      EventsAreTheTags(f.typ, path, |f.typ.fields|, e);
      var inner: Path :| inner != [] && inner[0] < |f.typ.fields| && e.path == path + inner && IsTagOf(f.typ, inner, e);
      rest := [k] + inner;
      assert rest[1..] == inner && e.path == prefix + rest;
    } else {
      FieldEventsAreTags(f, path, |SOURCES|, e);
      rest := [k];
    }
    TagBelowField(t, rest, e);
  }

  /** A tag below field `k` is found among its uses. */
  lemma {:induction false} UseOfTag(t: GoType, prefix: Path, k: nat, e: Event, rest: Path)
    requires t.Struct? && k < |t.fields| && rest != [] && rest[0] == k
    requires e.Use? && e.path == prefix + rest && IsTagOf(t, rest, e)
    ensures e in EventsOf(t.fields[k], prefix + [k])
    decreases t, k, 1
  {
    var f, path, inner := t.fields[k], prefix + [k], rest[1..];
    TagBelowField(t, rest, e);
    assert rest == [k] + inner && e.path == path + inner;
    if |rest| > 1 {
      EventsAreTheTags(f.typ, path, |f.typ.fields|, e);
      assert inner != [] && inner[0] < |f.typ.fields| && IsTagOf(f.typ, inner, e);
    } else {
      assert e.path == path;
      FieldEventsAreTags(f, path, |SOURCES|, e);
      EverySourceIsLookedUp(e.source);
      assert SOURCES[..|SOURCES|] == SOURCES;
    }
  }

  lemma {:induction false} FieldEventsAreItsTags(t: GoType, prefix: Path, k: nat, e: Event)
    requires t.Struct? && k < |t.fields| && e.Use?
    ensures e in EventsOf(t.fields[k], prefix + [k])
       <==> exists rest :: rest != [] && rest[0] == k && e.path == prefix + rest && IsTagOf(t, rest, e)
    decreases t, k, 2
  {
    if e in EventsOf(t.fields[k], prefix + [k]) {
      var rest := TagOfUse(t, prefix, k, e);
    }
    forall rest | rest != [] && rest[0] == k && e.path == prefix + rest && IsTagOf(t, rest, e)
      ensures e in EventsOf(t.fields[k], prefix + [k])
    {
      UseOfTag(t, prefix, k, e, rest);
    }
  }

  // ---------- the allowlist of a body tag ----------

  /** The separators are the code points with the Unicode property White_Space. */
  lemma SeparatorsAreWhiteSpace(c: char)
    ensures IsSpace(c) <==>
      (c as int) in {0x09, 0x0A, 0x0B, 0x0C, 0x0D, 0x20, 0x85, 0xA0, 0x1680,
                     0x2000, 0x2001, 0x2002, 0x2003, 0x2004, 0x2005, 0x2006, 0x2007, 0x2008, 0x2009, 0x200A,
                     0x2028, 0x2029, 0x202F, 0x205F, 0x3000}
  {
  }

  /** `text[i..j]` is a word: no separator inside, and a separator or an end of the text on either side. */
  ghost predicate IsRun(text: string, i: nat, j: nat) {
    && i < j <= |text|
    && (forall k :: i <= k < j ==> !IsSpace(text[k]))
    && (i == 0 || IsSpace(text[i - 1]))
    && (j == |text| || IsSpace(text[j]))
  }

  ghost predicate IsWordOf(text: string, start: nat, word: string) {
    exists i: nat, j: nat :: start <= i && IsRun(text, i, j) && word == text[i..j]
  }

  /** The media type is one of the words of the tag's text. */
  ghost predicate Lists(text: string, mediaType: string) {
    IsWordOf(text, 0, mediaType)
  }

  /** The words still to be found when `text[start..pos]` is the run being read are those that start from `start` on. */
  lemma {:induction false} WordsFrom(text: string, start: nat, pos: nat, word: string)
    requires start <= pos <= |text|
    requires forall k :: start <= k < pos ==> !IsSpace(text[k])
    requires start == 0 || IsSpace(text[start - 1])
    ensures word in Words(text[pos..], text[start..pos]) <==> IsWordOf(text, start, word)
    decreases |text| - pos
  {
    var rest := text[pos..];
    if pos == |text| {
      if start < pos {
        assert IsRun(text, start, pos);
      }
      forall i: nat, j: nat | start <= i && IsRun(text, i, j)
        ensures i == start && j == pos
      {
      }
    } else if IsSpace(text[pos]) {
      assert rest[0] == text[pos] && rest[1..] == text[pos + 1..] && text[pos + 1..pos + 1] == "";
      WordsFrom(text, pos + 1, pos + 1, word);
      if start < pos {
        assert IsRun(text, start, pos);
      }
      forall i: nat, j: nat | start <= i && IsRun(text, i, j)
        ensures (i == start && j == pos) || pos + 1 <= i
      {
      }
    } else {
      assert rest[0] == text[pos] && rest[1..] == text[pos + 1..];
      assert text[start..pos] + [text[pos]] == text[start..pos + 1];
      WordsFrom(text, start, pos + 1, word);
    }
  }

  /** The allowlist is exactly the words of the tag's text. */
  lemma WordsAreTheRuns(text: string, word: string)
    ensures word in Words(text) <==> Lists(text, word)
  {
    assert text[0..] == text && text[0..0] == "";
    WordsFrom(text, 0, 0, word);
  }

  /** An allowlist has no entries exactly if it is white space only. */
  lemma {:induction false} BlankAllowlist(text: string, word: string)
    ensures Words(text, word) == [] <==> word == "" && forall k :: 0 <= k < |text| ==> IsSpace(text[k])
    decreases |text|
  {
    if text != "" {
      BlankAllowlist(text[1..], if IsSpace(text[0]) then "" else word + [text[0]]);
      assert forall k :: 0 < k < |text| ==> text[k] == text[1..][k - 1];
    }
  }

  // ---------- createTags without its cache ----------

  const FORM_TYPE := "application/x-www-form-urlencoded"
  const JSON_TYPE := "application/json"
  const MULTIPART_TYPE := "multipart/form-data"

  /** The media type that a body source claims for itself. */
  function MediaTypeOf(s: Source): string
    requires s in {Form, Json, Multipart}
  {
    if s == Form then FORM_TYPE else if s == Json then JSON_TYPE else MULTIPART_TYPE
  }

  predicate Conflicts(tags: Tags) {
    || (Form in tags.flags && FORM_TYPE in tags.contentTypes)
    || (Json in tags.flags && JSON_TYPE in tags.contentTypes)
    || (Multipart in tags.flags && MULTIPART_TYPE in tags.contentTypes)
  }

  /** Compiling from scratch; None is a panic. `defaultsOk` is the outcome of applying the type's defaults. */
  function Compile(t: GoType, defaultsOk: bool): Option<Tags> {
    if !t.Struct? || !defaultsOk then None
    else
      var tags := AfterEvents(NO_TAGS, AllEvents(t));
      if tags.None? || Conflicts(tags.value) then None else tags
  }

  method CompileTags(t: GoType, defaultsOk: bool) returns (ok: bool, builder: TagsBuilder)
    ensures builder.Consistent()
    ensures (if ok then Some(builder.Value) else None) == Compile(t, defaultsOk)
  {
    builder := new TagsBuilder();
    if !t.Struct? || !defaultsOk {
      return false, builder;
    }
    StructIsItsEvents(NO_TAGS, t, [], |t.fields|);
    ok := builder.CheckRecursively(t, NilSlice);
    if ok && |builder.contentTypes| > 0 {
      if Form in builder.flags && FORM_TYPE in builder.contentTypes {
        ok := false;
      } else if Json in builder.flags && JSON_TYPE in builder.contentTypes {
        ok := false;
      } else if Multipart in builder.flags && MULTIPART_TYPE in builder.contentTypes {
        ok := false;
      }
    }
  }

  // ---------- what the binders may rely on ----------

  /** The Go types of the values binders store, as far as assignability is concerned. */
  datatype Stored = StoredHeader | StoredUrlValues | StoredKeyValues | StoredKeyValue | StoredMultipart | StoredBody

  function StoredBy(s: Source): Stored
    requires s != Json
  {
    match s
    case Header => StoredHeader
    case Cookie => StoredKeyValues
    case Query => StoredUrlValues
    case Url => StoredKeyValue
    case Form => StoredUrlValues
    case Multipart => StoredMultipart
    case Body => StoredBody
  }

  /**
   Assignability: identical types, or identical underlying types of which one is unnamed
   (KeyValues is an unnamed map type, http.Header and url.Values are named), or an interface.
   */
  predicate AssignableTo(value: Stored, typ: GoType) {
    match typ
    case HttpHeader => value == StoredHeader || value == StoredKeyValues
    case KeyValues => value == StoredHeader || value == StoredUrlValues || value == StoredKeyValues
    case KeyValue => value == StoredKeyValue
    case MultipartReader => value == StoredMultipart
    case ReadCloser => value == StoredBody
    case _ => false
  }

  /** Following `path` never meets a non-struct, every step is exported, and the field accepts the value of `s`. */
  ghost predicate CanBind(t: GoType, path: Path, s: Source) {
    && IsLeaf(t, path)
    && var f := FieldByIndex(t, path);
       f.Some? && s in f.value.tags && IsWhole(s, f.value.tags[s]) && (s != Json ==> AssignableTo(StoredBy(s), f.value.typ))
  }

  /** The tag uses of a whole type are its tags, each at its own path. */
  lemma TagsOfType(t: GoType, e: Event)
    requires t.Struct? && e.Use?
    ensures e in AllEvents(t) <==> IsTagOf(t, e.path, e)
  {
    EventsAreTheTags(t, [], |t.fields|, e);
    assert [] + e.path == e.path;
    forall rest | e.path == [] + rest
      ensures rest == e.path
    {
    }
  }

  /** A compiled whole-source use: the use that put the path of `s` into the metadata. */
  lemma RecordedUse(t: GoType, defaultsOk: bool, s: Source) returns (e: Event)
    requires Compile(t, defaultsOk).Some? && s in Compile(t, defaultsOk).value.index
    ensures e in AllEvents(t) && IsWholeUse(e) && e.source == s
    ensures e.path == Compile(t, defaultsOk).value.index[s]
    ensures FitsAlone(ShapeOf(e))
  {
    var events := AllEvents(t);
    CompilerIsExact(events);
    ShapesOfEvents(events);
    e :| e in events && IsWholeUse(e) && e.source == s;
    assert ShapeOf(e) in Shapes(events);
  }

  /** Every recorded path can be followed, and its field accepts what the binder stores there. */
  lemma CompiledPathsCanBeBound(t: GoType, defaultsOk: bool, s: Source)
    requires Compile(t, defaultsOk).Some? && s in Compile(t, defaultsOk).value.index
    ensures CanBind(t, Compile(t, defaultsOk).value.index[s], s)
  {
    var e := RecordedUse(t, defaultsOk, s);
    TagsOfType(t, e);
  }

  /** A whole-source field is the only field tagged with its source. */
  lemma WholeFieldIsAlone(t: GoType, defaultsOk: bool, s: Source, e: Event)
    requires Compile(t, defaultsOk).Some? && s in Compile(t, defaultsOk).value.index
    requires e.Use? && IsTagOf(t, e.path, e) && e.source == s
    ensures e.path == Compile(t, defaultsOk).value.index[s]
  {
    var events := AllEvents(t);
    var d := RecordedUse(t, defaultsOk, s);
    CompilerIsExact(events);
    ShapesOfEvents(events);
    TagsOfType(t, e);
    assert ShapeOf(d) in Shapes(events) && ShapeOf(e) in Shapes(events);
    assert !Coexist(ShapeOf(d), ShapeOf(e));
    assert IsWholeUse(e);
  }

  /** A used source has named fields unless its whole field is recorded; streams are always recorded. */
  lemma FlagsAreTheTags(t: GoType, defaultsOk: bool, s: Source)
    requires Compile(t, defaultsOk).Some?
    ensures
      var tags := Compile(t, defaultsOk).value;
      && (s in tags.flags <==> exists e: Event :: e.Use? && IsTagOf(t, e.path, e) && e.source == s)
      && (s in tags.flags && !IsNamedSource(s) ==> s in tags.index)
  {
    var tags, events := Compile(t, defaultsOk).value, AllEvents(t);
    CompilerIsExact(events);
    if s in tags.flags {
      var e :| e in events && e.Use? && e.source == s;
      TagsOfType(t, e);
    }
    forall e: Event | e.Use? && IsTagOf(t, e.path, e) && e.source == s
      ensures s in tags.flags
    {
      TagsOfType(t, e);
    }
  }
}
