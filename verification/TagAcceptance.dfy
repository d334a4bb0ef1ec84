/**
 Which request types are accepted, said about the fields of the type, and why their order does not matter.
 */
module TagAcceptance {
  import opened Wire
  import opened RequestTags
  import opened TagTheorems

  // ---------- acceptance on the type tree ----------

  /** An exported chain of embedded structs that ends at an exported embedded field which is not a struct. */
  predicate IsBadEmbedding(t: GoType, path: Path)
    decreases |path|
  {
    && path != [] && t.Struct? && 0 <= path[0] < |t.fields|
    && var f := t.fields[path[0]];
       f.exported && f.anonymous && if |path| == 1 then !f.typ.Struct? else IsBadEmbedding(f.typ, path[1..])
  }

  predicate StartsBelow(path: Path, n: nat) {
    path != [] && path[0] < n
  }

  /** A bad field is met exactly if the type has a bad embedding. */
  lemma {:induction false} BadFieldsAreBadEmbeddings(t: GoType, prefix: Path, n: nat)
    requires t.Struct? && n <= |t.fields|
    ensures BadField in Events(t, prefix, n) <==> exists rest :: StartsBelow(rest, n) && IsBadEmbedding(t, rest)
    decreases t, n, 0
  {
    if n > 0 {
      BadFieldsAreBadEmbeddings(t, prefix, n - 1);
      BadFieldsOfOneField(t, prefix, n - 1);
    }
  }

  lemma {:induction false} BadFieldsOfOneField(t: GoType, prefix: Path, k: nat)
    requires t.Struct? && k < |t.fields|
    ensures BadField in EventsOf(t.fields[k], prefix + [k])
       <==> exists rest :: rest != [] && rest[0] == k && IsBadEmbedding(t, rest)
    decreases t, k, 1
  {
    var f, path := t.fields[k], prefix + [k];
    if f.exported && f.anonymous && f.typ.Struct? {
      BadFieldsAreBadEmbeddings(f.typ, path, |f.typ.fields|);
      assert EventsOf(f, path) == EmbeddedEvents(f.typ, path) == Events(f.typ, path, |f.typ.fields|);
      if BadField in EventsOf(f, path) {
        var inner: Path :| StartsBelow(inner, |f.typ.fields|) && IsBadEmbedding(f.typ, inner);
        assert ([k] + inner)[1..] == inner;
        assert IsBadEmbedding(t, [k] + inner);
      }
      forall rest | rest != [] && rest[0] == k && IsBadEmbedding(t, rest)
        ensures BadField in EventsOf(f, path)
      {
        var inner := rest[1..];
        assert IsBadEmbedding(f.typ, inner);
        assert StartsBelow(inner, |f.typ.fields|);
      }
    } else if f.exported && f.anonymous {
      assert EventsOf(f, path) == [BadField] && IsBadEmbedding(t, [k]);
    } else if f.exported {
      NoBadFieldInTags(f, path, |SOURCES|);
    }
  }

  lemma {:induction false} NoBadFieldInTags(f: Field, path: Path, n: nat)
    requires n <= |SOURCES|
    ensures BadField !in FieldEvents(f, path, n)
  {
    if n > 0 {
      NoBadFieldInTags(f, path, n - 1);
    }
  }

  /** No two events are the same use: they differ in their source or in their path. */
  ghost predicate AllDifferent(events: seq<Event>) {
    forall i, j :: 0 <= i < j < |events| && events[i].Use? && events[j].Use? ==>
      events[i].source != events[j].source || events[i].path != events[j].path
  }

  ghost predicate AllBelow(events: seq<Event>, path: Path) {
    forall e :: e in events && e.Use? ==> path <= e.path
  }

  lemma {:induction false} FieldEventsDiffer(f: Field, path: Path, n: nat)
    requires n <= |SOURCES|
    ensures AllDifferent(FieldEvents(f, path, n)) && AllBelow(FieldEvents(f, path, n), path)
    ensures forall e :: e in FieldEvents(f, path, n) ==> e.Use? && e.source in SOURCES[..n]
  {
    if n > 0 {
      FieldEventsDiffer(f, path, n - 1);
      assert SOURCES[..n] == SOURCES[..n - 1] + [SOURCES[n - 1]];
      SourcesDiffer(n - 1);
    }
  }

  lemma SourcesDiffer(n: nat)
    requires n < |SOURCES|
    ensures SOURCES[n] !in SOURCES[..n]
  {
  }

  lemma {:induction false} EventsDiffer(t: GoType, prefix: Path, n: nat)
    requires t.Struct? && n <= |t.fields|
    ensures AllDifferent(Events(t, prefix, n)) && AllBelow(Events(t, prefix, n), prefix)
    ensures forall e :: e in Events(t, prefix, n) && e.Use? ==> |e.path| > |prefix| && e.path[|prefix|] < n
    decreases t, n, 0
  {
    if n > 0 {
      var path := prefix + [n - 1];
      var some, more := Events(t, prefix, n - 1), EventsOf(t.fields[n - 1], path);
      EventsDiffer(t, prefix, n - 1);
      OneFieldEventsDiffer(t, n - 1, path);
      forall e | e in more && e.Use?
        ensures prefix <= e.path && |e.path| > |prefix| && e.path[|prefix|] == n - 1
      {
        assert path <= e.path;
      }
    }
  }

  lemma {:induction false} OneFieldEventsDiffer(t: GoType, k: nat, path: Path)
    requires t.Struct? && k < |t.fields|
    ensures AllDifferent(EventsOf(t.fields[k], path)) && AllBelow(EventsOf(t.fields[k], path), path)
    decreases t, k, 1
  {
    var f := t.fields[k];
    if f.exported && f.anonymous {
      if f.typ.Struct? {
        EventsDiffer(f.typ, path, |f.typ.fields|);
      } else {
        assert EventsOf(f, path) == [BadField];
      }
    } else if f.exported {
      FieldEventsDiffer(f, path, |SOURCES|);
    }
  }

  lemma {:induction false} TwiceMeansTwoPlaces(s: seq<Shape>, u: Shape)
    ensures multiset(s)[u] >= 2 <==> exists i, j :: 0 <= i < j < |s| && s[i] == u && s[j] == u
  {
    if s != [] {
      var rest, last := s[..|s| - 1], s[|s| - 1];
      assert s == rest + [last];
      TwiceMeansTwoPlaces(rest, u);
      if multiset(s)[u] >= 2 {
        if multiset(rest)[u] >= 2 {
          var i, j :| 0 <= i < j < |rest| && rest[i] == u && rest[j] == u;
          assert s[i] == u && s[j] == u;
        } else {
          assert u in multiset(rest) && last == u;
          var i :| 0 <= i < |rest| && rest[i] == u;
          assert s[i] == u && s[|s| - 1] == u;
        }
      }
      if i, j :| 0 <= i < j < |s| && s[i] == u && s[j] == u {
        assert i < |rest| && rest[i] == u;
        assert u in multiset(rest);
        if j < |rest| {
          assert rest[j] == u;
        }
      }
    }
  }

  /** Every use fits alone, and any two uses at different places coexist. */
  ghost predicate WellPlaced(shapes: seq<Shape>) {
    && (forall i :: 0 <= i < |shapes| ==> FitsAlone(shapes[i]))
    && (forall i, j :: 0 <= i < |shapes| && 0 <= j < |shapes| && i != j ==> Coexist(shapes[i], shapes[j]))
  }

  lemma WellFormedIsWellPlaced(shapes: seq<Shape>)
    requires WellFormed(multiset(shapes))
    ensures WellPlaced(shapes)
  {
    forall i, j | 0 <= i < |shapes| && 0 <= j < |shapes| && i != j
      ensures Coexist(shapes[i], shapes[j])
    {
      assert shapes[i] in multiset(shapes) && shapes[j] in multiset(shapes);
      if shapes[i] == shapes[j] {
        TwiceMeansTwoPlaces(shapes, shapes[i]);
        if i < j { assert multiset(shapes)[shapes[i]] >= 2; } else { assert multiset(shapes)[shapes[j]] >= 2; }
      }
    }
  }

  lemma WellPlacedIsWellFormed(shapes: seq<Shape>)
    requires WellPlaced(shapes)
    ensures WellFormed(multiset(shapes))
  {
    forall u, v | u in multiset(shapes) && v in multiset(shapes) && (u != v || multiset(shapes)[u] >= 2)
      ensures Coexist(u, v)
    {
      if u == v {
        TwiceMeansTwoPlaces(shapes, u);
        var i, j :| 0 <= i < j < |shapes| && shapes[i] == u && shapes[j] == u;
      } else {
        var i, j :| 0 <= i < |shapes| && 0 <= j < |shapes| && shapes[i] == u && shapes[j] == v;
      }
    }
  }

  /** `e` is a tag of the type, at its own path. */
  ghost predicate IsTag(t: GoType, e: Event) {
    e.Use? && IsTagOf(t, e.path, e)
  }

  /** The type of a field that stands for a whole source; a whole `json` field may have any. */
  const WHOLE_TYPES: map<Source, GoType> := map[
    Header := HttpHeader, Cookie := KeyValues, Query := KeyValues, Url := KeyValue, Form := KeyValues,
    Multipart := MultipartReader, Body := ReadCloser]

  /** A field that takes one named value of its source. */
  predicate IsNamedTag(e: Event) {
    e.Use? && e.value != "" && e.source in {Header, Cookie, Query, Url, Form, Json}
  }

  predicate FitsItsField(e: Event)
    requires e.Use?
  {
    || IsNamedTag(e)
    || (e.source == Json && e.value == "")
    || (e.source in WHOLE_TYPES && e.typ == WHOLE_TYPES[e.source] && (e.source == Multipart ==> e.value == ""))
  }

  /**
   What makes a type acceptable, said about its fields: no exported embedded field is anything but a struct; every
   tag is a named one or stands on a field of its source's own type; and two fields with a tag of one source are both
   named fields.
   */
  ghost predicate Acceptable(t: GoType) {
    && (forall path :: !IsBadEmbedding(t, path))
    && (forall e :: IsTag(t, e) ==> FitsItsField(e))
    && (forall d, e :: IsTag(t, d) && IsTag(t, e) && d.path != e.path && d.source == e.source ==>
          IsNamedTag(d) && IsNamedTag(e))
  }

  lemma FitsAloneIsFits(e: Event)
    requires e.Use?
    ensures FitsAlone(ShapeOf(e)) <==> FitsItsField(e)
    ensures IsNamedUse(ShapeOf(e)) <==> IsNamedTag(e)
  {
  }

  lemma NoBadEmbeddings(t: GoType)
    requires t.Struct?
    ensures BadField in AllEvents(t) <==> exists path :: IsBadEmbedding(t, path)
  {
    BadFieldsAreBadEmbeddings(t, [], |t.fields|);
    if path :| IsBadEmbedding(t, path) {
      assert StartsBelow(path, |t.fields|);
    }
  }

  lemma AcceptedIsAcceptable(t: GoType)
    requires t.Struct? && WellFormed(Shapes(AllEvents(t)))
    ensures Acceptable(t)
  {
    var events := AllEvents(t);
    AllAreUses(events);
    NoBadEmbeddings(t);
    WellFormedIsWellPlaced(ShapeSeq(events));
    forall e | IsTag(t, e)
      ensures FitsItsField(e)
    {
      var k := PlaceOf(t, e);
      assert FitsAlone(ShapeSeq(events)[k]);
      FitsAloneIsFits(e);
    }
    forall d, e | IsTag(t, d) && IsTag(t, e) && d.path != e.path && d.source == e.source
      ensures IsNamedTag(d) && IsNamedTag(e)
    {
      FitsAloneIsFits(d);
      FitsAloneIsFits(e);
      var i := PlaceOf(t, d);
      var j := PlaceOf(t, e);
      assert Coexist(ShapeSeq(events)[i], ShapeSeq(events)[j]);
    }
  }

  lemma PlaceOf(t: GoType, e: Event) returns (k: nat)
    requires t.Struct? && IsTag(t, e)
    ensures k < |AllEvents(t)| && AllEvents(t)[k] == e
  {
    TagsOfType(t, e);
    k :| 0 <= k < |AllEvents(t)| && AllEvents(t)[k] == e;
  }

  lemma AcceptableIsAccepted(t: GoType)
    requires t.Struct? && Acceptable(t)
    ensures WellFormed(Shapes(AllEvents(t)))
  {
    var events := AllEvents(t);
    NoBadEmbeddings(t);
    EventsDiffer(t, [], |t.fields|);
    forall i | 0 <= i < |events|
      ensures IsTag(t, events[i]) && FitsAlone(ShapeOf(events[i]))
      ensures IsNamedUse(ShapeOf(events[i])) <==> IsNamedTag(events[i])
    {
      assert events[i] in events && events[i].Use?;
      TagsOfType(t, events[i]);
      FitsAloneIsFits(events[i]);
    }
    forall i, j | 0 <= i < |events| && 0 <= j < |events| && i != j
      ensures Coexist(ShapeOf(events[i]), ShapeOf(events[j]))
    {
      assert events[i].Use? && events[j].Use?;
    }
    WellPlacedIsWellFormed(ShapeSeq(events));
  }

  /** The media type that a tag of a body source claims for itself. */
  const CLAIMED: map<Source, string> := map[
    Form := "application/x-www-form-urlencoded", Json := "application/json", Multipart := "multipart/form-data"]

  /** A body field whose tag lists the media type that another body tag of the type stands for. */
  ghost predicate ListsAnotherBody(t: GoType) {
    exists b, e ::
      && IsTag(t, b) && b.source == Body
      && IsTag(t, e) && e.source in CLAIMED && Lists(b.value, CLAIMED[e.source])
  }

  lemma TagIsEvent(t: GoType, e: Event)
    requires t.Struct?
    ensures IsTag(t, e) <==> e.Use? && e in AllEvents(t)
  {
    if e.Use? {
      TagsOfType(t, e);
    }
  }

  /** White space only. */
  predicate Blank(text: string) {
    forall k :: 0 <= k < |text| ==> IsSpace(text[k])
  }

  /** The compiled allowlist is the one of the body tag, and is empty if that tag is blank. */
  lemma AllowlistIsTheTag(t: GoType, tags: Tags, b: Event, mediaType: string)
    requires t.Struct? && Describes(tags, AllEvents(t)) && IsTag(t, b) && b.source == Body
    ensures mediaType in tags.contentTypes <==> Lists(b.value, mediaType)
    ensures tags.contentTypes == [] <==> Blank(b.value)
  {
    TagIsEvent(t, b);
    WordsAreTheRuns(b.value, mediaType);
    BlankAllowlist(b.value, "");
    assert Words("") == [];
  }

  lemma ConflictIsListed(t: GoType, tags: Tags, s: Source)
    requires t.Struct? && Describes(tags, AllEvents(t))
    requires s in tags.flags * {Form, Json, Multipart} && MediaTypeOf(s) in tags.contentTypes
    ensures ListsAnotherBody(t)
  {
    var e :| e in AllEvents(t) && e.Use? && e.source == s;
    var b :| b in AllEvents(t) && b.Use? && b.source == Body;
    TagIsEvent(t, e);
    TagIsEvent(t, b);
    WordsAreTheRuns(b.value, CLAIMED[s]);
  }

  lemma ListedIsConflict(t: GoType, tags: Tags, b: Event, e: Event)
    requires t.Struct? && Describes(tags, AllEvents(t))
    requires IsTag(t, b) && b.source == Body
    requires IsTag(t, e) && e.source in CLAIMED && Lists(b.value, CLAIMED[e.source])
    ensures Conflicts(tags)
  {
    TagIsEvent(t, e);
    TagIsEvent(t, b);
    WordsAreTheRuns(b.value, CLAIMED[e.source]);
    assert tags.contentTypes == Words(b.value) && e.source in tags.flags;
  }

  lemma ConflictsAreListed(t: GoType, tags: Tags)
    requires t.Struct? && AfterEvents(NO_TAGS, AllEvents(t)) == Some(tags)
    ensures Conflicts(tags) <==> ListsAnotherBody(t)
  {
    CompilerIsExact(AllEvents(t));
    if Conflicts(tags) {
      var s := if Form in tags.flags && FORM_TYPE in tags.contentTypes then Form
               else if Json in tags.flags && JSON_TYPE in tags.contentTypes then Json
               else Multipart;
      ConflictIsListed(t, tags, s);
    }
    if ListsAnotherBody(t) {
      var b, e :|
        && IsTag(t, b) && b.source == Body
        && IsTag(t, e) && e.source in CLAIMED && Lists(b.value, CLAIMED[e.source]);
      ListedIsConflict(t, tags, b, e);
    }
  }

  /** `createTags` accepts a type if and only if its defaults apply and it is an acceptable struct without a conflict. */
  lemma TypeIsAcceptedExactly(t: GoType, defaultsOk: bool)
    ensures Compile(t, defaultsOk).Some? <==> defaultsOk && t.Struct? && Acceptable(t) && !ListsAnotherBody(t)
  {
    if t.Struct? && defaultsOk {
      CompilerIsExact(AllEvents(t));
      if WellFormed(Shapes(AllEvents(t))) {
        AcceptedIsAcceptable(t);
        ConflictsAreListed(t, AfterEvents(NO_TAGS, AllEvents(t)).value);
      }
      if Acceptable(t) {
        AcceptableIsAccepted(t);
      }
    }
  }

  // ---------- field order ----------

  /** `u` is `t` with the fields of one struct, at any depth of embedding, in another order. */
  ghost predicate Reordered(t: GoType, u: GoType)
    decreases t
  {
    && t.Struct? && u.Struct?
    && (multiset(t.fields) == multiset(u.fields) ||
        exists k :: 0 <= k < |t.fields| && ReorderedAt(t, u, k))
  }

  ghost predicate ReorderedAt(t: GoType, u: GoType, k: nat)
    requires t.Struct? && u.Struct? && k < |t.fields|
    decreases t, 0
  {
    && |u.fields| == |t.fields|
    && u.fields == t.fields[k := t.fields[k].(typ := u.fields[k].typ)]
    && t.fields[k].anonymous && Reordered(t.fields[k].typ, u.fields[k].typ)
  }

  lemma {:induction false} ReorderedSameBag(t: GoType, u: GoType)
    requires Reordered(t, u)
    ensures FieldBag(t.fields) == FieldBag(u.fields)
    decreases t
  {
    if multiset(t.fields) == multiset(u.fields) {
      BagIgnoresOrder(t.fields, u.fields);
    } else {
      var k :| 0 <= k < |t.fields| && ReorderedAt(t, u, k);
      ReorderedSameBag(t.fields[k].typ, u.fields[k].typ);
      OneFieldReordered(t.fields, u.fields, k);
    }
  }

  /** Two field lists that differ in one field have the same bag if that field has. */
  lemma OneFieldReordered(a: seq<Field>, b: seq<Field>, k: nat)
    requires k < |a| && |a| == |b| && b == a[k := b[k]] && OneFieldBag(a[k]) == OneFieldBag(b[k])
    ensures FieldBag(a) == FieldBag(b)
  {
    var left, right := a[..k], a[k + 1..];
    assert a == left + [a[k]] + right;
    assert b == left + [b[k]] + right;
    BagOfMiddle(left, a[k], right);
    BagOfMiddle(left, b[k], right);
  }

  /** Two descriptions of one bag agree in everything but the paths. */
  ghost predicate SameButForPaths(a: Tags, b: Tags) {
    a.flags == b.flags && a.contentTypes == b.contentTypes && a.index.Keys == b.index.Keys
  }

  /** Every use in `a` has one of the same source, value and type in a `b` with the same bag. */
  lemma LikeUse(a: seq<Event>, b: seq<Event>, d: Event) returns (e: Event)
    requires Shapes(a) == Shapes(b) && WellFormed(Shapes(a)) && d in a
    ensures d.Use? && e.Use? && e in b && ShapeOf(e) == ShapeOf(d)
  {
    ShapesOfEvents(a);
    ShapesOfEvents(b);
    assert ShapeOf(d) in Shapes(b);
    e :| e in b && ShapeOf(e) == ShapeOf(d);
    AllAreUses(a);
  }

  /** The description of a bag covers any other description of it. */
  lemma SharedUsesAreDescribed(x: Tags, a: seq<Event>, y: Tags, b: seq<Event>)
    requires Describes(x, a) && Describes(y, b)
    requires Shapes(a) == Shapes(b) && WellFormed(Shapes(a))
    ensures x.flags <= y.flags && x.index.Keys <= y.index.Keys
    ensures Body in x.flags ==> x.contentTypes == y.contentTypes
    ensures Body !in x.flags ==> x.contentTypes == []
  {
    forall s | s in x.flags
      ensures s in y.flags
    {
      var d :| d in a && d.Use? && d.source == s;
      var e := LikeUse(a, b, d);
    }
    forall s | s in x.index
      ensures s in y.index
    {
      var d :| d in a && IsWholeUse(d) && d.source == s;
      var e := LikeUse(a, b, d);
      assert IsWholeUse(e);
    }
    if Body in x.flags {
      var d :| d in a && d.Use? && d.source == Body;
      var e := LikeUse(a, b, d);
    }
  }

  lemma SameBagSameTags(x: Tags, a: seq<Event>, y: Tags, b: seq<Event>)
    requires Describes(x, a) && Describes(y, b)
    requires Shapes(a) == Shapes(b) && WellFormed(Shapes(a))
    ensures SameButForPaths(x, y)
  {
    SharedUsesAreDescribed(x, a, y, b);
    SharedUsesAreDescribed(y, b, x, a);
  }

  /**
   Reordering fields, at the top or inside embedded structs, never changes whether a type is accepted, which sources
   it uses, which of them are whole, or its allowlist.
   */
  lemma FieldOrderDoesNotMatter(t: GoType, u: GoType, defaultsOk: bool)
    requires Reordered(t, u)
    ensures
      var a, b := Compile(t, defaultsOk), Compile(u, defaultsOk);
      (a.Some? <==> b.Some?) && (a.Some? ==> SameButForPaths(a.value, b.value))
  {
    ReorderedSameBag(t, u);
    ShapesOfType(t);
    ShapesOfType(u);
    CompilerIsExact(AllEvents(t));
    CompilerIsExact(AllEvents(u));
    if WellFormed(Shapes(AllEvents(t))) {
      var a, b := AfterEvents(NO_TAGS, AllEvents(t)).value, AfterEvents(NO_TAGS, AllEvents(u)).value;
      SameBagSameTags(a, AllEvents(t), b, AllEvents(u));
    }
  }
}
