/**
 request_tags.go: the one-pass compiler from a request struct type to its binding metadata.
 */
module RequestTags {
  import opened Wire
  import opened GoSlices

  datatype Source = Header | Cookie | Query | Url | Form | Json | Multipart | Body

  /** A Go type as the compiler can tell types apart. */
  datatype GoType =
    | Struct(name: string, fields: seq<Field>)
    | HttpHeader
    | KeyValues
    | KeyValue
    | MultipartReader
    | ReadCloser
    | OtherType(name: string)

  /** `exported` is an empty PkgPath; `tags` holds the source tags that `Tag.Lookup` finds. */
  datatype Field = Field(exported: bool, anonymous: bool, typ: GoType, tags: map<Source, string>)

  type Path = seq<int>

  /** The order in which the tags of one field are looked up. */
  const SOURCES: seq<Source> := [Header, Cookie, Query, Url, Form, Json, Multipart, Body]

  /** Compiled metadata: which sources are used, the paths of whole-source fields, the body allowlist. */
  datatype Tags = Tags(flags: set<Source>, index: map<Source, Path>, contentTypes: seq<string>)

  const NO_TAGS := Tags({}, map[], [])

  /** What one field contributes: a tag use, or an anonymous field that is not a struct. */
  datatype Event = BadField | Use(source: Source, path: Path, value: string, typ: GoType)

  predicate IsNamedSource(s: Source) {
    s != Multipart && s != Body
  }

  /** The type a whole-source field must have; a whole `json` field may have any. */
  predicate TypeFits(s: Source, typ: GoType) {
    match s
    case Header => typ == HttpHeader
    case Url => typ == KeyValue
    case Json => true
    case Multipart => typ == MultipartReader
    case Body => typ == ReadCloser
    case _ => typ == KeyValues
  }

  predicate IsSpace(c: char) {
    || c == ' ' || '\t' <= c <= '\r' || c == '\U{85}' || c == '\U{A0}' || c == '\U{1680}'
    || '\U{2000}' <= c <= '\U{200A}' || c == '\U{2028}' || c == '\U{2029}' || c == '\U{202F}'
    || c == '\U{205F}' || c == '\U{3000}'
  }

  /** `strings.Fields`: the maximal runs of non-space characters; `word` is the run being read. */
  function Words(text: string, word: string := ""): seq<string> {
    if text == "" then (if word == "" then [] else [word])
    else if IsSpace(text[0]) then (if word == "" then [] else [word]) + Words(text[1..])
    else Words(text[1..], word + [text[0]])
  }

  /** Whether a tag use panics, given the sources used and whether a whole field of `s` was `recorded`. */
  predicate Refused(flags: set<Source>, recorded: bool, s: Source, value: string, typ: GoType) {
    if IsNamedSource(s) && value != "" then recorded
    else (s == Multipart && value != "") || s in flags || !TypeFits(s, typ)
  }

  /** A use that stands for its whole source, so its path is recorded. */
  predicate IsWhole(s: Source, value: string) {
    !IsNamedSource(s) || value == ""
  }

  /** One tag use checked against everything seen before it; None is a panic. */
  function AfterUse(tags: Tags, e: Event): Option<Tags> {
    if e.BadField? || Refused(tags.flags, e.source in tags.index, e.source, e.value, e.typ) then None
    else
      Some(Tags(tags.flags + {e.source},
                if IsWhole(e.source, e.value) then tags.index[e.source := e.path] else tags.index,
                if e.source == Body && e.value != "" then Words(e.value) else tags.contentTypes))
  }

  function AfterEvents(tags: Tags, events: seq<Event>): Option<Tags> {
    if events == [] then Some(tags)
    else
      var before := AfterEvents(tags, events[..|events| - 1]);
      if before.None? then None else AfterUse(before.value, events[|events| - 1])
  }

  /** The tag uses of one field, in lookup order, among the first `n` sources. */
  function FieldEvents(f: Field, path: Path, n: nat): seq<Event>
    requires n <= |SOURCES|
  {
    if n == 0 then []
    else
      var s := SOURCES[n - 1];
      FieldEvents(f, path, n - 1) + if s in f.tags then [Use(s, path, f.tags[s], f.typ)] else []
  }

  /** The tags of one field checked in lookup order, as far as the first `n` sources. */
  function AfterField(tags: Tags, f: Field, path: Path, n: nat): Option<Tags>
    requires n <= |SOURCES|
  {
    if n == 0 then Some(tags)
    else
      var s, before := SOURCES[n - 1], AfterField(tags, f, path, n - 1);
      if before.None? || s !in f.tags then before else AfterUse(before.value, Use(s, path, f.tags[s], f.typ))
  }

  /** The events of the first `n` fields of a struct, embedded structs flattened in place. */
  function Events(t: GoType, prefix: Path, n: nat): seq<Event>
    requires t.Struct? && n <= |t.fields|
    decreases t, n
  {
    if n == 0 then []
    else Events(t, prefix, n - 1) + EventsOf(t.fields[n - 1], prefix + [n - 1])
  }

  /** The events of one field alone. */
  function EventsOf(f: Field, path: Path): seq<Event>
    decreases f
  {
    if !f.exported then []
    else if f.anonymous then EmbeddedEvents(f.typ, path)
    else FieldEvents(f, path, |SOURCES|)
  }

  function EmbeddedEvents(t: GoType, path: Path): seq<Event>
    decreases t, |if t.Struct? then t.fields else []| + 1
  {
    if t.Struct? then Events(t, path, |t.fields|) else [BadField]
  }

  /** The fields of a struct checked in order, as far as the first `n`. */
  function AfterFields(tags: Tags, t: GoType, prefix: Path, n: nat): Option<Tags>
    requires t.Struct? && n <= |t.fields|
  {
    if n == 0 then Some(tags)
    else
      var before := AfterFields(tags, t, prefix, n - 1);
      if before.None? then None else AfterEvents(before.value, EventsOf(t.fields[n - 1], prefix + [n - 1]))
  }

  function AllEvents(t: GoType): seq<Event>
    requires t.Struct?
  {
    Events(t, [], |t.fields|)
  }

  lemma {:induction false} EventsInTwoSteps(tags: Tags, a: seq<Event>, b: seq<Event>)
    ensures
      var middle := AfterEvents(tags, a);
      AfterEvents(tags, a + b) == if middle.None? then None else AfterEvents(middle.value, b)
  {
    if b == [] {
      assert a + b == a;
    } else {
      assert (a + b)[..|a + b| - 1] == a + b[..|b| - 1];
      EventsInTwoSteps(tags, a, b[..|b| - 1]);
    }
  }

  // ---------- the code ----------

  /** The recorded slices hold these paths, in backing arrays from `repr`. */
  ghost predicate HoldPaths(index: map<Source, Slice<int>>, paths: map<Source, Path>, repr: set<array<int>>)
    reads repr
  {
    && index.Keys == paths.Keys
    && forall s :: s in index ==> Backing(index[s]) <= repr && Valid(index[s]) && Contents(index[s]) == paths[s]
  }

  /**
   The `*requestTags` receiver while it is being filled. `Value` is its meaning, kept up to date;
   `Repr` holds the backing arrays of the recorded paths.
   */
  class TagsBuilder {
    var flags: set<Source>
    var index: map<Source, Slice<int>>
    var contentTypes: seq<string>
    ghost var Value: Tags
    ghost var Repr: set<array<int>>

    constructor ()
      ensures Consistent() && Value == NO_TAGS && Repr == {}
    {
      flags, index, contentTypes := {}, map[], [];
      Value, Repr := NO_TAGS, {};
    }

    ghost predicate Consistent()
      reads this, Repr
    {
      Value.flags == flags && Value.contentTypes == contentTypes && HoldPaths(index, Value.index, Repr)
    }

    /** Records a copy of the field's path, so no later `append` can reach it. */
    method Record(s: Source, prefix: Slice<int>, i: int)
      requires Consistent() && Valid(prefix)
      modifies this`index, this`Value, this`Repr
      ensures Consistent() && fresh(Repr - old(Repr))
      ensures Value == old(Value).(index := old(Value).index[s := Contents(prefix) + [i]])
    {
      var own := if prefix.NilSlice? then [] else prefix.arr[..prefix.len];
      var path := CopyAppend(own, [i]);
      index := index[s := path];
      Value := Value.(index := Value.index[s := own + [i]]);
      Repr := Repr + Backing(path);
    }

    /** One of the eight tag blocks of the loop body; `prefix` and `i` give the field's path. */
    method CheckTag(s: Source, value: string, typ: GoType, prefix: Slice<int>, i: int) returns (ok: bool)
      requires Consistent() && Valid(prefix)
      modifies this
      ensures Consistent() && fresh(Repr - old(Repr))
      ensures (if ok then Some(Value) else None) == AfterUse(old(Value), Use(s, Contents(prefix) + [i], value, typ))
    {
      if Refused(flags, s in index, s, value, typ) {
        return false;
      }
      if IsWhole(s, value) {
        Record(s, prefix, i);
      }
      if s == Body && value != "" {
        contentTypes := Words(value);
      }
      flags := flags + {s};
      Value := Value.(flags := flags, contentTypes := contentTypes);
      return true;
    }

    method CheckField(f: Field, prefix: Slice<int>, i: int) returns (ok: bool)
      requires Consistent() && Valid(prefix)
      modifies this
      ensures Consistent() && fresh(Repr - old(Repr))
      ensures (if ok then Some(Value) else None) == AfterField(old(Value), f, Contents(prefix) + [i], |SOURCES|)
    {
      ghost var path := Contents(prefix) + [i];
      ok := true;
      var n := 0;
      while ok && n < |SOURCES|
        invariant 0 <= n <= |SOURCES|
        invariant Consistent() && fresh(Repr - old(Repr))
        invariant (if ok then Some(Value) else None) == AfterField(old(Value), f, path, n)
      {
        var s := SOURCES[n];
        if s in f.tags {
          ok := CheckTag(s, f.tags[s], f.typ, prefix, i);
        }
        n := n + 1;
      }
      RefusalIsFinal(old(Value), f, path, n);
    }

    /**
     `append(fieldIndex, field.Index...)` may write behind `prefix` into a backing array that embedded
     siblings share. Whatever the growth of slices, the prefix the caller still reads does not change,
     and the recorded paths are the root-to-field paths of the flattened type.
     */
    method CheckRecursively(t: GoType, prefix: Slice<int>) returns (ok: bool)
      requires t.Struct?
      requires Consistent() && Valid(prefix) && Backing(prefix) !! Repr
      modifies this, Backing(prefix)
      ensures Consistent() && fresh(Repr - old(Repr))
      ensures Contents(prefix) == old(Contents(prefix))
      ensures (if ok then Some(Value) else None) == AfterFields(old(Value), t, old(Contents(prefix)), |t.fields|)
      decreases t, 0
    {
      ghost var path := Contents(prefix);
      ok := true;
      var i := 0;
      while ok && i < |t.fields|
        invariant 0 <= i <= |t.fields|
        invariant Consistent() && fresh(Repr - old(Repr))
        invariant Contents(prefix) == path
        invariant (if ok then Some(Value) else None) == AfterFields(old(Value), t, path, i)
      {
        ok := CheckOne(t.fields[i], prefix, i);
        i := i + 1;
      }
      StructRefusalIsFinal(old(Value), t, path, i);
    }

    /** The body of the loop: unexported fields are skipped, embedded structs entered, others checked. */
    method CheckOne(field: Field, prefix: Slice<int>, i: int) returns (ok: bool)
      requires Consistent() && Valid(prefix) && Backing(prefix) !! Repr
      modifies this, Backing(prefix)
      ensures Consistent() && fresh(Repr - old(Repr))
      ensures Contents(prefix) == old(Contents(prefix))
      ensures (if ok then Some(Value) else None) == AfterEvents(old(Value), EventsOf(field, old(Contents(prefix)) + [i]))
      decreases field
    {
      if !field.exported {
        ok := true;
      } else if field.anonymous {
        ok := CheckEmbedded(field.typ, prefix, i);
      } else {
        FieldIsItsEvents(Value, field, Contents(prefix) + [i], |SOURCES|);
        ok := CheckField(field, prefix, i);
      }
    }

    /** The anonymous-field branch of the loop. */
    method CheckEmbedded(t: GoType, prefix: Slice<int>, i: int) returns (ok: bool)
      requires Consistent() && Valid(prefix) && Backing(prefix) !! Repr
      modifies this, Backing(prefix)
      ensures Consistent() && fresh(Repr - old(Repr))
      ensures Contents(prefix) == old(Contents(prefix))
      ensures (if ok then Some(Value) else None) == AfterEvents(old(Value), EmbeddedEvents(t, old(Contents(prefix)) + [i]))
      decreases t, 1
    {
      if !t.Struct? {
        return false;
      }
      var child := Append(prefix, [i]);
      assert Consistent();
      StructIsItsEvents(Value, t, Contents(child), |t.fields|);
      ok := CheckRecursively(t, child);
      assert prefix.Slice? && child.arr == prefix.arr ==> Contents(prefix) == Contents(child)[..prefix.len];
    }
  }

  lemma {:induction false} RefusalIsFinal(tags: Tags, f: Field, path: Path, n: nat)
    requires n <= |SOURCES|
    ensures AfterField(tags, f, path, n).None? ==> AfterField(tags, f, path, |SOURCES|).None?
    decreases |SOURCES| - n
  {
    if n < |SOURCES| {
      RefusalIsFinal(tags, f, path, n + 1);
    }
  }

  lemma {:induction false} FieldIsItsEvents(tags: Tags, f: Field, path: Path, n: nat)
    requires n <= |SOURCES|
    ensures AfterField(tags, f, path, n) == AfterEvents(tags, FieldEvents(f, path, n))
  {
    if n > 0 {
      var s, before := SOURCES[n - 1], FieldEvents(f, path, n - 1);
      FieldIsItsEvents(tags, f, path, n - 1);
      if s in f.tags {
        assert (before + [Use(s, path, f.tags[s], f.typ)])[..|before|] == before;
      } else {
        assert FieldEvents(f, path, n) == before;
      }
    }
  }

  lemma {:induction false} StructRefusalIsFinal(tags: Tags, t: GoType, prefix: Path, n: nat)
    requires t.Struct? && n <= |t.fields|
    ensures AfterFields(tags, t, prefix, n).None? ==> AfterFields(tags, t, prefix, |t.fields|).None?
    decreases |t.fields| - n
  {
    if n < |t.fields| {
      StructRefusalIsFinal(tags, t, prefix, n + 1);
    }
  }

  /** Checking a struct field by field is checking its flattened events in order. */
  lemma {:induction false} StructIsItsEvents(tags: Tags, t: GoType, prefix: Path, n: nat)
    requires t.Struct? && n <= |t.fields|
    ensures AfterFields(tags, t, prefix, n) == AfterEvents(tags, Events(t, prefix, n))
  {
    if n > 0 {
      StructIsItsEvents(tags, t, prefix, n - 1);
      EventsInTwoSteps(tags, Events(t, prefix, n - 1), EventsOf(t.fields[n - 1], prefix + [n - 1]));
    }
  }
}
