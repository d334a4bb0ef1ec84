/**
 What binding a request comes to, read off the struct tags and the request directly: no compiled metadata, no
 goroutine, no order of discovery. The compiled binder computes exactly this.
 */
module DirectBindings {
  import opened Wire
  import opened RequestTags
  import opened TagTheorems
  import opened TagAcceptance
  import opened Binding
  import PathValues

  // ---------- what a request carries ----------

  function WildcardNames(segments: seq<PathValues.Segment>): set<string> {
    set i | 0 <= i < |segments| && segments[i].wild && segments[i].s != "" :: segments[i].s
  }

  function CookieValues(request: MatchedRequest): Data {
    map c | c in request.cookies :: c.0 := Strings(ValuesNamed(request.cookies, c.0))
  }

  /** The value of every named wildcard, looked up by its name. */
  function PathWildcards(request: MatchedRequest): Data {
    match request.pattern
    case None => map[]
    case Some(segments) =>
      map name | name in WildcardNames(segments) ::
        Strings([PathValues.PathValue(segments, request.matches, name, 0, 0)])
  }

  lemma PathDataIsByName(request: MatchedRequest)
    ensures PathData(PathValues.Values(request.pattern, request.matches)) == PathWildcards(request)
  {
    if request.pattern.Some? {
      var segments, matches := request.pattern.value, request.matches;
      var collected := PathValues.Collected(segments, matches, |segments|);
      forall name
        ensures name in collected <==> name in WildcardNames(segments)
        ensures name in collected ==> collected[name] == PathValues.PathValue(segments, matches, name, 0, 0)
      {
        PathValues.KeysAreTheNames(segments, matches, |segments|, name);
        if name in WildcardNames(segments) {
          var i: nat :| i < |segments| && segments[i].wild && segments[i].s == name && name != "";
          assert PathValues.LastNamed(segments, |segments|, name, i);
        }
        if name in collected {
          PathValues.ValuesAgreeWithLookup(segments, matches, name);
        }
      }
    }
  }

  /** The four sources outside the body hold what the request's own fields hold. */
  lemma SourcesAreTheRequests(request: MatchedRequest)
    ensures SourceData(request, Header) == request.header
    ensures SourceData(request, Cookie) == CookieValues(request)
    ensures SourceData(request, Query) == request.query
    ensures SourceData(request, Url) == PathWildcards(request)
    ensures request.text.Content? ==>
              SourceData(request, Form) == request.text.data && SourceData(request, Json) == request.text.data
  {
    PathDataIsByName(request);
    assert SourceData(request, Cookie) == CookieValues(request);
  }

  // ---------- which body a request has for a type ----------

  ghost predicate HasTag(t: GoType, s: Source) {
    exists e :: IsTag(t, e) && e.source == s
  }

  ghost predicate TakesRawBody(t: GoType, mediaType: string) {
    exists b :: IsTag(t, b) && b.source == Body && (Blank(b.value) || Lists(b.value, mediaType))
  }

  ghost predicate HasBody(t: GoType, request: MatchedRequest) {
    && (HasTag(t, Form) || HasTag(t, Json) || HasTag(t, Multipart) || HasTag(t, Body))
    && request.method_ in {"POST", "PUT", "PATCH", "DELETE"}
    && request.contentLength != 0
  }

  /** The body source that a media type is for, if the type asks for one. */
  ghost function BodyFor(t: GoType, mediaType: string): Option<Source> {
    if mediaType == "application/x-www-form-urlencoded" && HasTag(t, Form) then Some(Form)
    else if mediaType == "application/json" && HasTag(t, Json) then Some(Json)
    else if mediaType == "multipart/form-data" && HasTag(t, Multipart) then Some(Multipart)
    else if TakesRawBody(t, mediaType) then Some(Body)
    else None
  }

  ghost function BodySource(t: GoType, request: MatchedRequest): Option<Source> {
    if HasBody(t, request) && request.contentType.Media? then BodyFor(t, request.contentType.mediaType) else None
  }

  /** The flags and the allowlist of an accepted type are its tags. */
  lemma MetadataIsTheTags(t: GoType, tags: Tags, mediaType: string)
    requires Compile(t, true) == Some(tags)
    ensures forall s :: s in tags.flags <==> HasTag(t, s)
    ensures Matches(tags, mediaType, Body) <==> TakesRawBody(t, mediaType)
  {
    CompilerIsExact(AllEvents(t));
    forall s
      ensures s in tags.flags <==> HasTag(t, s)
    {
      FlagsAreTheTags(t, true, s);
    }
    forall b | IsTag(t, b) && b.source == Body
      ensures mediaType in tags.contentTypes <==> Lists(b.value, mediaType)
      ensures tags.contentTypes == [] <==> Blank(b.value)
    {
      AllowlistIsTheTag(t, tags, b, mediaType);
    }
  }

  lemma ClaimsAreTheTags(t: GoType, tags: Tags, mediaType: string)
    requires Compile(t, true) == Some(tags)
    ensures BodyFor(t, mediaType) ==
            if Matches(tags, mediaType, Form) then Some(Form)
            else if Matches(tags, mediaType, Json) then Some(Json)
            else if Matches(tags, mediaType, Multipart) then Some(Multipart)
            else if Matches(tags, mediaType, Body) then Some(Body)
            else None
  {
    MetadataIsTheTags(t, tags, mediaType);
  }

  lemma NoBodyFlags(flags: set<Source>)
    ensures flags * {Form, Json, Multipart, Body} == {} <==>
      Form !in flags && Json !in flags && Multipart !in flags && Body !in flags
  {
    forall s | s in {Form, Json, Multipart, Body} && s in flags
      ensures s in flags * {Form, Json, Multipart, Body}
    {
    }
  }

  /** The selection of `parse`, said about the type and the request. */
  lemma SelectionIsDirect(t: GoType, tags: Tags, request: MatchedRequest)
    requires Compile(t, true) == Some(tags)
    ensures SelectBody(tags, request) ==
      if !HasBody(t, request) then NoBody
      else
        match request.contentType
        case Missing => Refuse(415)
        case Invalid => Refuse(400)
        case Media(_, _) =>
          match BodySource(t, request)
          case Some(s) => Select(s)
          case None => Refuse(415)
  {
    MetadataIsTheTags(t, tags, "");
    if request.contentType.Media? {
      ClaimsAreTheTags(t, tags, request.contentType.mediaType);
    }
    NoBodyFlags(tags.flags);
  }

  // ---------- the outcome ----------

  /** Some named field has a value in `data` that converts to `failure`. */
  ghost predicate SomeValueIs(t: GoType, lib: Library, s: Source, data: Data, failure: Conversion) {
    exists e :: IsTag(t, e) && e.source == s && e.value != "" && e.value in data && lib.convert(e.typ, data[e.value]) == failure
  }

  /** Binding the named fields of one source. */
  ghost function NamedFields(t: GoType, lib: Library, s: Source, data: Data): Bound {
    if SomeValueIs(t, lib, s, data, Panics) && (lib.panicsFirst(s, data) || !SomeValueIs(t, lib, s, data, Unfit))
    then PanickedBinder
    else if SomeValueIs(t, lib, s, data, Unfit) then Rejected(400)
    else Parsed
  }

  /** A form or JSON body; `text` is what reading and decoding it came to. */
  ghost function TextResult(t: GoType, request: MatchedRequest, lib: Library, s: Source): Bound {
    if request.contentLength < 0 then Rejected(411)
    else if request.contentLength > 1024 * 1024 then Rejected(413)
    else
      match request.text
      case BadCharset => Rejected(415)
      case TimedOut => Rejected(408)
      case ReadFailed => if s == Form then Rejected(500) else Rejected(400)
      case Malformed => Rejected(400)
      case BinderPanics => PanickedBinder
      case Content(data, _) => NamedFields(t, lib, s, data)
  }

  ghost function BodyResult(t: GoType, request: MatchedRequest, lib: Library): Bound {
    match request.contentType
    case Missing => Rejected(415)
    case Invalid => Rejected(400)
    case Media(_, boundary) =>
      match BodySource(t, request)
      case None => Rejected(415)
      case Some(s) =>
        if s == Body then Parsed
        else if s == Multipart then (if boundary then Parsed else Rejected(400))
        else TextResult(t, request, lib, s)
  }

  /** The first source that fails decides: header, cookie, query, path, body. */
  ghost function RequestResult(t: GoType, request: MatchedRequest, lib: Library): Bound {
    var header := NamedFields(t, lib, Header, request.header);
    var cookie := NamedFields(t, lib, Cookie, CookieValues(request));
    var query := NamedFields(t, lib, Query, request.query);
    var path := NamedFields(t, lib, Url, PathWildcards(request));
    if header != Parsed then header
    else if cookie != Parsed then cookie
    else if query != Parsed then query
    else if path != Parsed then path
    else if HasBody(t, request) then BodyResult(t, request, lib)
    else Parsed
  }

  lemma TagOfField(t: GoType, path: Path, s: Source, f: Field)
    requires IsLeaf(t, path) && FieldByIndex(t, path) == Some(f) && s in f.tags
    ensures IsTag(t, Use(s, path, f.tags[s], f.typ))
  {
  }

  /** A named value that converts to a failure is the conversion at the path of its tag, and the other way round. */
  lemma FailureAt(t: GoType, lib: Library, s: Source, data: Data, failure: Conversion)
    ensures SomeValueIs(t, lib, s, data, failure) <==>
      exists path :: IsLeaf(t, path) && NamesKey(t, s, data, path) && ConversionAt(t, lib, s, data, path) == failure
  {
    if e :| IsTag(t, e) && e.source == s && e.value != "" && e.value in data && lib.convert(e.typ, data[e.value]) == failure {
      assert IsLeaf(t, e.path) && NamesKey(t, s, data, e.path);
      assert ConversionAt(t, lib, s, data, e.path) == failure;
    }
    if path :| IsLeaf(t, path) && NamesKey(t, s, data, path) && ConversionAt(t, lib, s, data, path) == failure {
      var f := FieldByIndex(t, path).value;
      var e := Use(s, path, f.tags[s], f.typ);
      TagOfField(t, path, s, f);
      assert IsTag(t, e) && e.value in data && lib.convert(e.typ, data[e.value]) == failure;
    }
  }

  lemma SomeValueIsConversion(t: GoType, lib: Library, s: Source, data: Data)
    ensures SomeValueIs(t, lib, s, data, Panics) <==> exists path :: IsLeaf(t, path) && ConversionPanics(t, lib, s, data, path)
    ensures SomeValueIs(t, lib, s, data, Unfit) <==> exists path :: IsLeaf(t, path) && DoesNotFit(t, lib, s, data, path)
  {
    FailureAt(t, lib, s, data, Panics);
    FailureAt(t, lib, s, data, Unfit);
    forall path
      ensures ConversionPanics(t, lib, s, data, path) <==>
                NamesKey(t, s, data, path) && ConversionAt(t, lib, s, data, path) == Panics
      ensures DoesNotFit(t, lib, s, data, path) <==>
                NamesKey(t, s, data, path) && ConversionAt(t, lib, s, data, path) == Unfit
    {
    }
  }

  lemma NamedFieldsAreBound(t: GoType, lib: Library, s: Source, data: Data)
    ensures NamedOutcome(t, lib, s, data) == NamedFields(t, lib, s, data)
  {
    SomeValueIsConversion(t, lib, s, data);
  }

  /** A named tag of a source rules out a whole field of that source. */
  lemma NamedTagIsNotWhole(t: GoType, tags: Tags, e: Event)
    requires Compile(t, true) == Some(tags) && IsTag(t, e) && IsNamedTag(e)
    ensures e.source !in tags.index
  {
    if e.source in tags.index {
      WholeFieldIsAlone(t, true, e.source, e);
      CompiledPathsCanBeBound(t, true, e.source);
      assert false;
    }
  }

  /** A whole source has no named fields to fail, and a source without data none that could. */
  lemma SourceIsNamedFields(t: GoType, tags: Tags, request: MatchedRequest, lib: Library, s: Source)
    requires Compile(t, true) == Some(tags) && IsNamedSource(s)
    requires IsBodySource(s) ==> SelectBody(tags, request) == Select(s)
    ensures SourceOutcome(t, tags, request, lib, s) == NamedFields(t, lib, s, SourceData(request, s))
  {
    var data := SourceData(request, s);
    NamedFieldsAreBound(t, lib, s, data);
    MetadataIsTheTags(t, tags, "");
    forall e | IsTag(t, e) && e.source == s && e.value != "" && e.value in data
      ensures Consulted(tags, request, s) && s !in tags.index
    {
      NamedTagIsNotWhole(t, tags, e);
      assert HasTag(t, s);
    }
  }

  lemma TextIsDirect(t: GoType, tags: Tags, request: MatchedRequest, lib: Library, s: Source)
    requires Compile(t, true) == Some(tags) && (s == Form || s == Json) && SelectBody(tags, request) == Select(s)
    ensures BodyOutcome(t, tags, request, lib) == TextResult(t, request, lib, s)
  {
    SourcesAreTheRequests(request);
    SourceIsNamedFields(t, tags, request, lib, s);
  }

  lemma BodyIsDirect(t: GoType, tags: Tags, request: MatchedRequest, lib: Library)
    requires Compile(t, true) == Some(tags)
    ensures BodyOutcome(t, tags, request, lib) ==
            if HasBody(t, request) then BodyResult(t, request, lib) else Parsed
  {
    SelectionIsDirect(t, tags, request);
    match SelectBody(tags, request)
    case Select(s) =>
      if s == Form || s == Json {
        TextIsDirect(t, tags, request, lib, s);
      }
    case _ =>
  }

  /** For every accepted type and every request, `parse` ends as the tags and the request alone say it should. */
  lemma OutcomeIsDirect(t: GoType, tags: Tags, request: MatchedRequest, lib: Library)
    requires Compile(t, true) == Some(tags)
    ensures Outcome(t, tags, request, lib) == RequestResult(t, request, lib)
  {
    SourcesAreTheRequests(request);
    SourceIsNamedFields(t, tags, request, lib, Header);
    SourceIsNamedFields(t, tags, request, lib, Cookie);
    SourceIsNamedFields(t, tags, request, lib, Query);
    SourceIsNamedFields(t, tags, request, lib, Url);
    BodyIsDirect(t, tags, request, lib);
  }

  // ---------- the value of one field ----------

  /** A field after one source: all of the source, the conversion of its own value there, or what was there before. */
  function FromSource(f: Field, s: Source, data: Data, lib: Library, before: Val): Val {
    if s !in f.tags then before
    else if f.tags[s] == "" then Val.Whole(s, data)
    else if f.tags[s] in data then
      var conversion := lib.convert(f.typ, data[f.tags[s]]);
      if conversion.Fits? then conversion.value else before
    else before
  }

  /** A source that carries nothing is left alone, whole fields included. */
  function FromCarried(f: Field, s: Source, data: Data, lib: Library, before: Val): Val {
    if data == map[] then before else FromSource(f, s, data, lib, before)
  }

  ghost function FromBody(t: GoType, f: Field, request: MatchedRequest, lib: Library, before: Val): Val {
    match BodySource(t, request)
    case None => before
    case Some(Multipart) => if Multipart in f.tags then Live(Multipart) else before
    case Some(Body) => if Body in f.tags then Live(Body) else before
    case Some(s) =>
      if !request.text.Content? then before
      else if s == Json && Json in f.tags && f.tags[Json] == "" then lib.decodeInto(before, request.text.document)
      else FromSource(f, s, request.text.data, lib, before)
  }

  /** The default, then what header, cookie, query, path and body have for the field, each over the ones before. */
  ghost function FieldValue(t: GoType, f: Field, request: MatchedRequest, lib: Library, default: Val): Val {
    var header := FromCarried(f, Header, request.header, lib, default);
    var cookie := FromCarried(f, Cookie, CookieValues(request), lib, header);
    var query := FromCarried(f, Query, request.query, lib, cookie);
    var path := FromCarried(f, Url, PathWildcards(request), lib, query);
    FromBody(t, f, request, lib, path)
  }

  function OneField(t: GoType, tags: Tags, request: MatchedRequest, lib: Library, s: Source, path: Path, before: Val): Val {
    if Supplies(t, tags, request, s, path) then ValueFrom(t, tags, request, lib, s, path, before) else before
  }

  /** The metadata about one source, as one field's tag for it says. */
  lemma IndexIsTheTag(t: GoType, tags: Tags, path: Path, f: Field, s: Source)
    requires Compile(t, true) == Some(tags) && IsLeaf(t, path) && FieldByIndex(t, path) == Some(f)
    ensures s in f.tags ==> s in tags.flags
    ensures s in f.tags && IsWhole(s, f.tags[s]) ==> s in tags.index && tags.index[s] == path
    ensures s in f.tags && !IsWhole(s, f.tags[s]) ==> s !in tags.index
    ensures s !in f.tags && s in tags.index ==> tags.index[s] != path
  {
    CompilerIsExact(AllEvents(t));
    if s in f.tags {
      var e := Use(s, path, f.tags[s], f.typ);
      TagOfField(t, path, s, f);
      TagIsEvent(t, e);
      if !IsWhole(s, f.tags[s]) {
        NamedTagIsNotWhole(t, tags, e);
      }
    } else if s in tags.index {
      CompiledPathsCanBeBound(t, true, s);
    }
  }

  lemma SourceIsDirect(
      t: GoType, tags: Tags, request: MatchedRequest, lib: Library, s: Source, path: Path, f: Field, before: Val)
    requires Compile(t, true) == Some(tags) && IsLeaf(t, path) && FieldByIndex(t, path) == Some(f)
    requires !IsBodySource(s)
    ensures OneField(t, tags, request, lib, s, path, before) == FromCarried(f, s, SourceData(request, s), lib, before)
  {
    IndexIsTheTag(t, tags, path, f, s);
  }

  lemma BodySourceIsDirect(
      t: GoType, tags: Tags, request: MatchedRequest, lib: Library, s: Source, path: Path, f: Field, before: Val)
    requires Compile(t, true) == Some(tags) && IsLeaf(t, path) && FieldByIndex(t, path) == Some(f)
    requires IsBodySource(s) && ((s == Form || s == Json) && BodySource(t, request) == Some(s) ==> request.text.Content?)
    ensures OneField(t, tags, request, lib, s, path, before)
         == if BodySource(t, request) == Some(s) then FromBody(t, f, request, lib, before) else before
  {
    IndexIsTheTag(t, tags, path, f, s);
    SelectionIsDirect(t, tags, request);
    SourcesAreTheRequests(request);
  }

  /**
   After a successful parse every field holds what its own tags and the request say, whatever other fields the type
   has and however its tags were compiled.
   */
  lemma FieldIsDirect(t: GoType, tags: Tags, request: MatchedRequest, lib: Library, record: Record, path: Path, f: Field)
    requires Compile(t, true) == Some(tags) && Outcome(t, tags, request, lib) == Parsed
    requires path in record && IsLeaf(t, path) && FieldByIndex(t, path) == Some(f)
    ensures
      var after := Sources(t, tags, request, lib, record, |SOURCES|);
      path in after && after[path] == FieldValue(t, f, request, lib, record[path])
  {
    OutcomeIsDirect(t, tags, request, lib);
    FieldsAreIndependent(t, tags, request, lib, record, |SOURCES|, path);
    SourcesAreTheRequests(request);
    var v0 := record[path];
    var v1 := OneField(t, tags, request, lib, Header, path, v0);
    var v2 := OneField(t, tags, request, lib, Cookie, path, v1);
    var v3 := OneField(t, tags, request, lib, Query, path, v2);
    var v4 := OneField(t, tags, request, lib, Url, path, v3);
    SourceIsDirect(t, tags, request, lib, Header, path, f, v0);
    SourceIsDirect(t, tags, request, lib, Cookie, path, f, v1);
    SourceIsDirect(t, tags, request, lib, Query, path, f, v2);
    SourceIsDirect(t, tags, request, lib, Url, path, f, v3);
    var v5 := OneField(t, tags, request, lib, Form, path, v4);
    var v6 := OneField(t, tags, request, lib, Json, path, v5);
    var v7 := OneField(t, tags, request, lib, Multipart, path, v6);
    BodySourceIsDirect(t, tags, request, lib, Form, path, f, v4);
    BodySourceIsDirect(t, tags, request, lib, Json, path, f, v5);
    BodySourceIsDirect(t, tags, request, lib, Multipart, path, f, v6);
    BodySourceIsDirect(t, tags, request, lib, Body, path, f, v7);
    FirstFourSources(t, tags, request, lib, path, v0);
    LastFourSources(t, tags, request, lib, path, v0);
  }

  lemma FirstFourSources(t: GoType, tags: Tags, request: MatchedRequest, lib: Library, path: Path, v0: Val)
    ensures
      var v1 := OneField(t, tags, request, lib, Header, path, v0);
      var v2 := OneField(t, tags, request, lib, Cookie, path, v1);
      var v3 := OneField(t, tags, request, lib, Query, path, v2);
      FieldAfter(t, tags, request, lib, path, v0, 4) == OneField(t, tags, request, lib, Url, path, v3)
  {
    OneMoreField(t, tags, request, lib, path, v0, 0, Header);
    OneMoreField(t, tags, request, lib, path, v0, 1, Cookie);
    OneMoreField(t, tags, request, lib, path, v0, 2, Query);
    OneMoreField(t, tags, request, lib, path, v0, 3, Url);
  }

  lemma LastFourSources(t: GoType, tags: Tags, request: MatchedRequest, lib: Library, path: Path, v0: Val)
    ensures
      var v4 := FieldAfter(t, tags, request, lib, path, v0, 4);
      var v5 := OneField(t, tags, request, lib, Form, path, v4);
      var v6 := OneField(t, tags, request, lib, Json, path, v5);
      var v7 := OneField(t, tags, request, lib, Multipart, path, v6);
      FieldAfter(t, tags, request, lib, path, v0, 8) == OneField(t, tags, request, lib, Body, path, v7)
  {
    OneMoreField(t, tags, request, lib, path, v0, 4, Form);
    OneMoreField(t, tags, request, lib, path, v0, 5, Json);
    OneMoreField(t, tags, request, lib, path, v0, 6, Multipart);
    OneMoreField(t, tags, request, lib, path, v0, 7, Body);
  }

  lemma OneMoreField(
      t: GoType, tags: Tags, request: MatchedRequest, lib: Library, path: Path, default: Val, n: nat, s: Source)
    requires n < |SOURCES| && SOURCES[n] == s
    ensures FieldAfter(t, tags, request, lib, path, default, n + 1)
         == OneField(t, tags, request, lib, s, path, FieldAfter(t, tags, request, lib, path, default, n))
  {
  }

  // ---------- named body fields ----------

  lemma NamedValueFits(t: GoType, lib: Library, s: Source, data: Data, path: Path, f: Field)
    requires NamedFields(t, lib, s, data) == Parsed
    requires IsLeaf(t, path) && FieldByIndex(t, path) == Some(f) && s in f.tags && f.tags[s] != "" && f.tags[s] in data
    ensures lib.convert(f.typ, data[f.tags[s]]).Fits?
  {
    var e := Use(s, path, f.tags[s], f.typ);
    TagOfField(t, path, s, f);
    assert IsTag(t, e) && e.value in data;
    assert !SomeValueIs(t, lib, s, data, Unfit) && !SomeValueIs(t, lib, s, data, Panics);
  }

  /** A named form or JSON field whose key the decoded body has holds the conversion of its value there. */
  lemma NamedBodyFieldIsBound(
      t: GoType, tags: Tags, request: MatchedRequest, lib: Library, record: Record, path: Path, f: Field, s: Source)
    requires Compile(t, true) == Some(tags) && Outcome(t, tags, request, lib) == Parsed
    requires path in record && IsLeaf(t, path) && FieldByIndex(t, path) == Some(f)
    requires (s == Form || s == Json) && BodySource(t, request) == Some(s) && s in f.tags && f.tags[s] != ""
    ensures
      var after := Sources(t, tags, request, lib, record, |SOURCES|);
      && path in after && request.text.Content?
      && (f.tags[s] in request.text.data ==> lib.convert(f.typ, request.text.data[f.tags[s]]) == Fits(after[path]))
  {
    OutcomeIsDirect(t, tags, request, lib);
    assert TextResult(t, request, lib, s) == Parsed;
    FieldIsDirect(t, tags, request, lib, record, path, f);
    if f.tags[s] in request.text.data {
      NamedValueFits(t, lib, s, request.text.data, path, f);
    }
  }
}
