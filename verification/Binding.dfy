/**
 request_bind.go and the binders of request_body.go: which sources fill a request value, in which order,
 and which status answers a request that cannot be bound.
 */
module Binding {
  import opened Wire
  import opened RequestTags
  import opened TagTheorems
  import BodyRaces
  import PathValues

  /** One raw value of a source: repeated strings, or a decoded JSON value. */
  datatype Raw = Strings(values: seq<string>) | JsonValue(id: nat)

  type Data = map<string, Raw>

  /** A field's content: something the library produced, a whole source, or a live stream. */
  datatype Val = Converted(id: nat) | Whole(source: Source, data: Data) | Live(source: Source)

  /** A request value: the content of every exported field, by path. */
  type Record = map<Path, Val>

  /** What converting one value comes to: user code that unmarshals it may also panic. */
  datatype Conversion = Fits(value: Val) | Unfit | Panics

  /**
   The library functions whose source is not part of this model: conversion of one named value; whether the
   library meets a panicking value before one that does not fit, when a source has both; and JSON decoding into
   a field, which may build on what the field already holds.
   */
  datatype Library = Library(
    convert: (GoType, Raw) -> Conversion,
    panicsFirst: (Source, Data) -> bool,
    decodeInto: (Val, nat) -> Val)

  datatype ContentType = Missing | Invalid | Media(mediaType: string, boundary: bool)

  /** What reading and decoding a form or JSON body comes to. */
  datatype TextBody = BadCharset | TimedOut | ReadFailed | Malformed | BinderPanics | Content(data: Data, document: nat)

  datatype Request = Request(
    method_: string,
    contentLength: int,
    header: Data,
    cookies: seq<(string, string)>,
    query: Data,
    pattern: Option<seq<PathValues.Segment>>,
    matches: seq<string>,
    contentType: ContentType,
    text: TextBody)

  /** A request as ServeMux hands it on: one match for each named wildcard, and no name twice. */
  type MatchedRequest = r: Request |
    PathValues.WellMatched(r.pattern, r.matches) && (r.pattern.Some? ==> PathValues.DistinctNames(r.pattern.value))
    witness Request("GET", 0, map[], [], map[], None, [], Missing, Malformed)

  // ---------- cookies ----------

  /** The values of the cookies called `name`, in the order they were sent. */
  function ValuesNamed(cookies: seq<(string, string)>, name: string): seq<string> {
    if cookies == [] then []
    else
      var last := cookies[|cookies| - 1];
      ValuesNamed(cookies[..|cookies| - 1], name) + if last.0 == name then [last.1] else []
  }

  function CookieData(cookies: seq<(string, string)>): Data {
    map c | c in cookies :: c.0 := Strings(ValuesNamed(cookies, c.0))
  }

  function CookiesNamed(cookies: seq<(string, string)>, name: string): nat {
    if cookies == [] then 0
    else CookiesNamed(cookies[..|cookies| - 1], name) + if cookies[|cookies| - 1].0 == name then 1 else 0
  }

  /** Of the cookies with one name, the value of each stands at its rank among them, and there are no others. */
  lemma {:induction false} CookiesKeepTheirOrder(cookies: seq<(string, string)>, name: string)
    ensures |ValuesNamed(cookies, name)| == CookiesNamed(cookies, name)
    ensures forall k :: 0 <= k < |cookies| && cookies[k].0 == name ==>
              var rank := CookiesNamed(cookies[..k], name);
              rank < |ValuesNamed(cookies, name)| && ValuesNamed(cookies, name)[rank] == cookies[k].1
  {
    if cookies != [] {
      var n := |cookies| - 1;
      var before := cookies[..n];
      CookiesKeepTheirOrder(before, name);
      forall k | 0 <= k < |cookies| && cookies[k].0 == name
        ensures
          var rank := CookiesNamed(cookies[..k], name);
          rank < |ValuesNamed(cookies, name)| && ValuesNamed(cookies, name)[rank] == cookies[k].1
      {
        if k < n {
          assert before[k] == cookies[k] && before[..k] == cookies[..k];
        }
      }
    }
  }

  lemma OneMoreCookie(cookies: seq<(string, string)>, n: nat, name: string)
    requires n < |cookies|
    ensures ValuesNamed(cookies[..n + 1], name)
         == ValuesNamed(cookies[..n], name) + if cookies[n].0 == name then [cookies[n].1] else []
  {
    assert cookies[..n + 1][..n] == cookies[..n];
  }

  function Names(cookies: seq<(string, string)>): set<string> {
    set c | c in cookies :: c.0
  }

  lemma OneMoreName(cookies: seq<(string, string)>, n: nat)
    requires n < |cookies|
    ensures Names(cookies[..n + 1]) == Names(cookies[..n]) + {cookies[n].0}
  {
    assert cookies[..n + 1] == cookies[..n] + [cookies[n]];
  }

  /** Repeated names keep all their values in order, and the keys are exactly the names sent. */
  method GroupCookies(cookies: seq<(string, string)>) returns (keyValues: map<string, seq<string>>)
    ensures keyValues.Keys == Names(cookies)
    ensures forall name :: name in keyValues ==> keyValues[name] == ValuesNamed(cookies, name)
  {
    keyValues := map[];
    for n := 0 to |cookies|
      invariant keyValues.Keys == Names(cookies[..n])
      invariant forall name :: ValuesNamed(cookies[..n], name) == if name in keyValues then keyValues[name] else []
    {
      var cookie := cookies[n];
      forall name {
        OneMoreCookie(cookies, n, name);
      }
      OneMoreName(cookies, n);
      keyValues := keyValues[cookie.0 := (if cookie.0 in keyValues then keyValues[cookie.0] else []) + [cookie.1]];
    }
    assert cookies[..|cookies|] == cookies;
  }

  // ---------- choosing the body binder ----------

  datatype Selection = NoBody | Refuse(status: int) | Select(source: Source)

  predicate HasBodyMethod(request: MatchedRequest) {
    request.method_ in {"POST", "PUT", "PATCH", "DELETE"}
  }

  /** The conditions of the four branches, in the order `parse` tries them. */
  predicate Matches(tags: Tags, mediaType: string, s: Source) {
    s in tags.flags &&
    match s
    case Form => mediaType == FORM_TYPE
    case Json => mediaType == JSON_TYPE
    case Multipart => mediaType == MULTIPART_TYPE
    case Body => tags.contentTypes == [] || mediaType in tags.contentTypes
    case _ => false
  }

  function SelectBody(tags: Tags, request: MatchedRequest): Selection {
    if tags.flags * {Form, Json, Multipart, Body} == {} || !HasBodyMethod(request) || request.contentLength == 0 then NoBody
    else
      match request.contentType
      case Missing => Refuse(415)
      case Invalid => Refuse(400)
      case Media(mediaType, _) =>
        if Matches(tags, mediaType, Form) then Select(Form)
        else if Matches(tags, mediaType, Json) then Select(Json)
        else if Matches(tags, mediaType, Multipart) then Select(Multipart)
        else if Matches(tags, mediaType, Body) then Select(Body)
        else Refuse(415)
  }

  /**
   For accepted tags two branches can match one media type exactly when there is a `body` field with an
   empty allowlist beside a form, JSON or multipart field; then the specific binder is tried first.
   With an allowlist, reordering the branches would change nothing.
   */
  lemma BranchesOverlapOnlyForCatchAll(t: GoType, defaultsOk: bool)
    requires Compile(t, defaultsOk).Some?
    ensures
      var tags := Compile(t, defaultsOk).value;
      (exists mediaType, a, b :: a != b && Matches(tags, mediaType, a) && Matches(tags, mediaType, b))
        <==> Body in tags.flags && tags.contentTypes == [] && tags.flags * {Form, Json, Multipart} != {}
  {
    var tags := Compile(t, defaultsOk).value;
    if Body in tags.flags && tags.contentTypes == [] && tags.flags * {Form, Json, Multipart} != {} {
      var s :| s in tags.flags * {Form, Json, Multipart};
      assert Matches(tags, MediaTypeOf(s), s) && Matches(tags, MediaTypeOf(s), Body);
    }
    forall mediaType, a, b | a != b && Matches(tags, mediaType, a) && Matches(tags, mediaType, b)
      ensures Body in tags.flags && tags.contentTypes == [] && tags.flags * {Form, Json, Multipart} != {}
    {
      MediaTypesDiffer();
      var s := if a == Body then b else a;
      assert s in tags.flags * {Form, Json, Multipart};
    }
  }

  /**
   The selected binder is the one whose media type the request names; the raw body gets only what no other
   binder claims, and a request without a body, or with a method that has none, selects nothing.
   */
  lemma SelectionIsSpecific(t: GoType, defaultsOk: bool, request: MatchedRequest, s: Source)
    requires Compile(t, defaultsOk).Some?
    ensures
      var tags := Compile(t, defaultsOk).value;
      (SelectBody(tags, request) == Select(s)) == (
        && HasBodyMethod(request) && request.contentLength != 0 && request.contentType.Media?
        && Matches(tags, request.contentType.mediaType, s)
        && (s == Body ==> forall other :: other != Body ==> !Matches(tags, request.contentType.mediaType, other)))
  {
    var tags := Compile(t, defaultsOk).value;
    MediaTypesDiffer();
    if request.contentType.Media? {
      var mediaType := request.contentType.mediaType;
      forall other | other != Body && Matches(tags, mediaType, other)
        ensures other in tags.flags * {Form, Json, Multipart} && MediaTypeOf(other) == mediaType
      {
      }
      if Matches(tags, mediaType, s) {
        assert s in tags.flags * {Form, Json, Multipart, Body};
      }
      if s == Body {
        assert (forall other :: other != Body ==> !Matches(tags, mediaType, other))
          <==> !Matches(tags, mediaType, Form) && !Matches(tags, mediaType, Json) && !Matches(tags, mediaType, Multipart);
      }
    }
  }

  lemma MediaTypesDiffer()
    ensures FORM_TYPE != JSON_TYPE && FORM_TYPE != MULTIPART_TYPE && JSON_TYPE != MULTIPART_TYPE
  {
  }

  // ---------- what a source supplies ----------

  function PathData(values: Option<map<string, string>>): Data {
    if values.None? then map[] else map name | name in values.value :: Strings([values.value[name]])
  }

  /** The data of a source in a request; body sources have data only when their binder was selected and succeeded. */
  function SourceData(request: MatchedRequest, s: Source): Data {
    match s
    case Header => request.header
    case Cookie => CookieData(request.cookies)
    case Query => request.query
    case Url =>
      PathData(PathValues.Values(request.pattern, request.matches))
    case _ => if IsNamedSource(s) && request.text.Content? then request.text.data else map[]
  }

  predicate IsBodySource(s: Source) {
    s == Form || s == Json || s == Multipart || s == Body
  }

  /** Whether `parse` gets to bind this source at all. */
  predicate Consulted(tags: Tags, request: MatchedRequest, s: Source) {
    if IsBodySource(s) then SelectBody(tags, request) == Select(s)
    else s in tags.flags && SourceData(request, s) != map[]
  }

  /** `path` leads to a field that names a key of `data` in its tag for `s`. */
  predicate NamesKey(t: GoType, s: Source, data: Data, path: Path) {
    var f := FieldByIndex(t, path);
    f.Some? && s in f.value.tags && f.value.tags[s] != "" && f.value.tags[s] in data
  }

  function RawAt(t: GoType, s: Source, data: Data, path: Path): Raw
    requires NamesKey(t, s, data, path)
  {
    data[FieldByIndex(t, path).value.tags[s]]
  }

  function ConversionAt(t: GoType, lib: Library, s: Source, data: Data, path: Path): Conversion
    requires NamesKey(t, s, data, path)
  {
    lib.convert(FieldByIndex(t, path).value.typ, RawAt(t, s, data, path))
  }

  /** The content of a field after the library bound the named fields of one source. */
  function NamedValue(t: GoType, lib: Library, s: Source, data: Data, path: Path, before: Val): Val {
    if NamesKey(t, s, data, path) && ConversionAt(t, lib, s, data, path).Fits?
    then ConversionAt(t, lib, s, data, path).value else before
  }

  predicate Converts(t: GoType, lib: Library, s: Source, data: Data, path: Path) {
    NamesKey(t, s, data, path) ==> ConversionAt(t, lib, s, data, path).Fits?
  }

  predicate ConversionPanics(t: GoType, lib: Library, s: Source, data: Data, path: Path) {
    NamesKey(t, s, data, path) && ConversionAt(t, lib, s, data, path).Panics?
  }

  predicate DoesNotFit(t: GoType, lib: Library, s: Source, data: Data, path: Path) {
    NamesKey(t, s, data, path) && ConversionAt(t, lib, s, data, path).Unfit?
  }

  /** What the request supplies for a field from one source. */
  predicate Supplies(t: GoType, tags: Tags, request: MatchedRequest, s: Source, path: Path) {
    Consulted(tags, request, s) &&
    if s in tags.index then path == tags.index[s] else NamesKey(t, s, SourceData(request, s), path)
  }

  /** The value a supplying source gives; only a whole JSON field looks at what was there before. */
  function ValueFrom(t: GoType, tags: Tags, request: MatchedRequest, lib: Library, s: Source, path: Path, before: Val): Val
    requires Supplies(t, tags, request, s, path)
  {
    var data := SourceData(request, s);
    if s !in tags.index then NamedValue(t, lib, s, data, path, before)
    else if s == Json then
      if request.text.Content? then lib.decodeInto(before, request.text.document) else before
    else if s == Multipart || s == Body then Live(s)
    else Whole(s, data)
  }

  function OneSource(t: GoType, tags: Tags, request: MatchedRequest, lib: Library, s: Source, record: Record): Record {
    map path | path in record ::
      if Supplies(t, tags, request, s, path) then ValueFrom(t, tags, request, lib, s, path, record[path])
      else record[path]
  }

  function NonBodySources(t: GoType, tags: Tags, request: MatchedRequest, lib: Library, record: Record): Record {
    var header := OneSource(t, tags, request, lib, Header, record);
    var cookie := OneSource(t, tags, request, lib, Cookie, header);
    var query := OneSource(t, tags, request, lib, Query, cookie);
    OneSource(t, tags, request, lib, Url, query)
  }

  /** The record after the body binder that `parse` selects, if any. */
  function OneBodySource(t: GoType, tags: Tags, request: MatchedRequest, lib: Library, record: Record): Record {
    match SelectBody(tags, request)
    case Select(s) => OneSource(t, tags, request, lib, s, record)
    case _ => record
  }

  /** The record after the first `n` sources. */
  function Sources(t: GoType, tags: Tags, request: MatchedRequest, lib: Library, record: Record, n: nat): Record
    requires n <= |SOURCES|
  {
    if n == 0 then record
    else OneSource(t, tags, request, lib, SOURCES[n - 1], Sources(t, tags, request, lib, record, n - 1))
  }

  // ---------- the code ----------

  /** What bindHeader, bindCookie, bindQuery and bindUrl read from the request. */
  method ReadSource(s: Source, request: MatchedRequest) returns (data: Data)
    requires !IsBodySource(s)
    ensures data == SourceData(request, s)
  {
    if s == Cookie {
      var keyValues := GroupCookies(request.cookies);
      data := map name | name in keyValues :: Strings(keyValues[name]);
      assert data == CookieData(request.cookies);
    } else if s == Url {
      var keyValue := PathValues.GetPathValues(request.pattern, request.matches);
      data := PathData(keyValue);
    } else {
      data := SourceData(request, s);
    }
  }

  datatype Bound = Parsed | Rejected(status: int) | PanickedBinder

  predicate IsErrorStatus(status: int) {
    status in {400, 408, 411, 413, 415, 500}
  }

  function FirstFailure(panics: bool, unfit: bool, panicsFirst: bool): Bound {
    if panics && (panicsFirst || !unfit) then PanickedBinder else if unfit then Rejected(400) else Parsed
  }

  /** Binding the named fields of a source: a value may not fit its field, and converting one may panic. */
  ghost function NamedOutcome(t: GoType, lib: Library, s: Source, data: Data): Bound {
    var panics := exists path :: IsLeaf(t, path) && ConversionPanics(t, lib, s, data, path);
    var unfit := exists path :: IsLeaf(t, path) && DoesNotFit(t, lib, s, data, path);
    FirstFailure(panics, unfit, lib.panicsFirst(s, data))
  }

  /** Binding one source once its data is there; only named fields can fail. */
  ghost function SourceOutcome(t: GoType, tags: Tags, request: MatchedRequest, lib: Library, s: Source): (bound: Bound)
    ensures bound in {Parsed, Rejected(400), PanickedBinder}
  {
    if Consulted(tags, request, s) && s !in tags.index then NamedOutcome(t, lib, s, SourceData(request, s)) else Parsed
  }

  /** The outcome a text body stands for, before its values are converted. */
  function OutcomeOfText(text: TextBody, s: Source): Bound {
    match text
    case BadCharset => Rejected(415)
    case TimedOut => Rejected(408)
    case ReadFailed => Rejected(if s == Form then 500 else 400)
    case Malformed => Rejected(400)
    case BinderPanics => PanickedBinder
    case Content(_, _) => Parsed
  }

  /** How binding a form or JSON body ends, before its values are converted. */
  function TextOutcome(request: MatchedRequest, s: Source): Bound {
    if request.contentLength < 0 then Rejected(411)
    else if request.contentLength > BodyRaces.MAX_BODY_LENGTH then Rejected(413)
    else OutcomeOfText(request.text, s)
  }

  ghost function BodyOutcome(t: GoType, tags: Tags, request: MatchedRequest, lib: Library): Bound {
    match SelectBody(tags, request)
    case NoBody => Parsed
    case Refuse(status) => Rejected(status)
    case Select(s) =>
      if s == Body then Parsed
      else if s == Multipart then (if request.contentType.boundary then Parsed else Rejected(400))
      else Then(TextOutcome(request, s), SourceOutcome(t, tags, request, lib, s))
  }

  /** What comes second is only reached when the first succeeds. */
  function Then(first: Bound, second: Bound): Bound {
    if first == Parsed then second else first
  }

  /** The first of the four non-body sources that fails decides. */
  ghost function NonBodyOutcome(t: GoType, tags: Tags, request: MatchedRequest, lib: Library): (bound: Bound)
    ensures bound in {Parsed, Rejected(400), PanickedBinder}
  {
    Then(SourceOutcome(t, tags, request, lib, Header),
         Then(SourceOutcome(t, tags, request, lib, Cookie),
              Then(SourceOutcome(t, tags, request, lib, Query), SourceOutcome(t, tags, request, lib, Url))))
  }

  /** The outcome of `parse`: a failure of an earlier source is answered before the body is looked at. */
  ghost function Outcome(t: GoType, tags: Tags, request: MatchedRequest, lib: Library): Bound {
    Then(NonBodyOutcome(t, tags, request, lib), BodyOutcome(t, tags, request, lib))
  }

  class RequestValue {
    const t: GoType
    const tags: Tags
    const lib: Library
    var record: Record

    constructor (t: GoType, tags: Tags, lib: Library, record: Record)
      ensures this.t == t && this.tags == tags && this.lib == lib && this.record == record
    {
      this.t, this.tags, this.lib, this.record := t, tags, lib, record;
    }

    /** The record has exactly the exported fields of its type, and the tags are the type's. */
    ghost predicate Consistent()
      reads this
    {
      && Compile(t, true) == Some(tags)
      && forall path :: path in record <==> IsLeaf(t, path)
    }

    /** `FieldByIndex(path).Set(value)`: the path is one reflect can follow. */
    method Set(s: Source, value: Val)
      requires Consistent() && s in tags.index
      modifies this
      ensures Consistent()
      ensures tags.index[s] in record && record == old(record)[tags.index[s] := value]
    {
      CompiledPathsCanBeBound(t, true, s);
      record := record[tags.index[s] := value];
    }

    /** What the library binder comes to, found without changing the request value. */
    method Convert(s: Source, data: Data) returns (bound: Bound)
      requires Consistent()
      ensures bound == NamedOutcome(t, lib, s, data)
    {
      var panics := exists path :: path in record && ConversionPanics(t, lib, s, data, path);
      var unfit := exists path :: path in record && DoesNotFit(t, lib, s, data, path);
      return FirstFailure(panics, unfit, lib.panicsFirst(s, data));
    }

    /** The library binder: all named fields whose key is present, unless one does not fit or panics. */
    method BindStructWithTag(s: Source, data: Data) returns (bound: Bound)
      requires Consistent()
      modifies this
      ensures Consistent()
      ensures bound == NamedOutcome(t, lib, s, data)
      ensures record == if bound != Parsed then old(record)
                        else map path | path in old(record) :: NamedValue(t, lib, s, data, path, old(record)[path])
    {
      bound := Convert(s, data);
      if bound == Parsed {
        record := map path | path in record :: NamedValue(t, lib, s, data, path, record[path]);
      }
    }

    /** bindHeader, bindCookie, bindQuery and bindUrl: the whole source, or the named fields. */
    method BindNonBody(s: Source, request: MatchedRequest) returns (bound: Bound)
      requires Consistent() && !IsBodySource(s)
      modifies this
      ensures Consistent()
      ensures bound == SourceOutcome(t, tags, request, lib, s)
      ensures bound == Parsed ==> record == OneSource(t, tags, request, lib, s, old(record))
    {
      var data := ReadSource(s, request);
      bound := Parsed;
      if s !in tags.flags || data == map[] {
        UnconsultedIsSkipped(t, tags, request, lib, s, record);
      } else if s in tags.index {
        Set(s, Whole(s, data));
      } else {
        NamedSourceIsBound(t, tags, request, lib, s, record);
        bound := BindStructWithTag(s, data);
      }
    }

    /** bindForm and bindJson behind bindFullTextBody. */
    method BindText(s: Source, request: MatchedRequest) returns (bound: Bound)
      requires Consistent() && (s == Form || s == Json) && SelectBody(tags, request) == Select(s)
      modifies this
      ensures Consistent()
      ensures bound == BodyOutcome(t, tags, request, lib)
      ensures bound == Parsed ==> record == OneSource(t, tags, request, lib, s, old(record))
    {
      if request.contentLength < 0 {
        return Rejected(411);
      }
      if request.contentLength > BodyRaces.MAX_BODY_LENGTH {
        return Rejected(413);
      }
      match request.text {
        case BadCharset => return Rejected(415);
        case TimedOut => return Rejected(408);
        case ReadFailed => return Rejected(if s == Form then 500 else 400);
        case Malformed => return Rejected(400);
        case BinderPanics => return PanickedBinder;
        case Content(data, document) =>
          if s !in tags.index {
            NamedSourceIsBound(t, tags, request, lib, s, record);
            bound := BindStructWithTag(s, data);
          } else {
            CompiledPathsCanBeBound(t, true, s);
            Set(s, if s == Form then Whole(s, data) else lib.decodeInto(record[tags.index[s]], document));
            return Parsed;
          }
      }
    }

    method BindBody(request: MatchedRequest) returns (bound: Bound)
      requires Consistent()
      modifies this
      ensures Consistent()
      ensures bound == BodyOutcome(t, tags, request, lib)
      ensures bound == Parsed ==> record == OneBodySource(t, tags, request, lib, old(record))
    {
      match SelectBody(tags, request) {
        case NoBody => return Parsed;
        case Refuse(status) => return Rejected(status);
        case Select(s) =>
          if s == Form || s == Json {
            bound := BindText(s, request);
            return;
          }
          if s == Multipart && !request.contentType.boundary {
            return Rejected(400);
          }
          FlagsAreTheTags(t, true, s);
          Set(s, Live(s));
          return Parsed;
      }
    }

    method BindNonBodySources(request: MatchedRequest) returns (bound: Bound)
      requires Consistent()
      modifies this
      ensures Consistent()
      ensures bound == NonBodyOutcome(t, tags, request, lib)
      ensures bound == Parsed ==> record == NonBodySources(t, tags, request, lib, old(record))
    {
      bound := BindNonBody(Header, request);
      if bound == Parsed {
        bound := BindNonBody(Cookie, request);
      }
      if bound == Parsed {
        bound := BindNonBody(Query, request);
      }
      if bound == Parsed {
        bound := BindNonBody(Url, request);
      }
    }

    /**
     `parse`: the four non-body sources in order, then at most one body binder. The outcome is the expected
     one, and success leaves exactly what the sources supply, in their order.
     */
    method Parse(request: MatchedRequest) returns (bound: Bound)
      requires Consistent()
      modifies this
      ensures Consistent()
      ensures bound == Outcome(t, tags, request, lib)
      ensures bound == Parsed ==> record == Sources(t, tags, request, lib, old(record), |SOURCES|)
    {
      bound := BindNonBodySources(request);
      if bound == Parsed {
        bound := BindBody(request);
        AllSources(t, tags, request, lib, old(record));
      }
    }
  }

  lemma UnconsultedIsSkipped(t: GoType, tags: Tags, request: MatchedRequest, lib: Library, s: Source, record: Record)
    requires !Consulted(tags, request, s)
    ensures OneSource(t, tags, request, lib, s, record) == record
  {
  }

  lemma NamedSourceIsBound(t: GoType, tags: Tags, request: MatchedRequest, lib: Library, s: Source, record: Record)
    requires Consulted(tags, request, s) && s !in tags.index
    ensures OneSource(t, tags, request, lib, s, record)
         == map path | path in record :: NamedValue(t, lib, s, SourceData(request, s), path, record[path])
  {
  }

  /** Of the four body sources only the selected one can change the record. */
  lemma BodySourcesAreExclusive(t: GoType, tags: Tags, request: MatchedRequest, lib: Library, record: Record)
    ensures
      var form := OneSource(t, tags, request, lib, Form, record);
      var json := OneSource(t, tags, request, lib, Json, form);
      var multipart := OneSource(t, tags, request, lib, Multipart, json);
      OneSource(t, tags, request, lib, Body, multipart) == OneBodySource(t, tags, request, lib, record)
  {
    var form := OneSource(t, tags, request, lib, Form, record);
    var json := OneSource(t, tags, request, lib, Json, form);
    var multipart := OneSource(t, tags, request, lib, Multipart, json);
    var selection := SelectBody(tags, request);
    if selection != Select(Form) { UnconsultedIsSkipped(t, tags, request, lib, Form, record); }
    if selection != Select(Json) { UnconsultedIsSkipped(t, tags, request, lib, Json, form); }
    if selection != Select(Multipart) { UnconsultedIsSkipped(t, tags, request, lib, Multipart, json); }
    if selection != Select(Body) { UnconsultedIsSkipped(t, tags, request, lib, Body, multipart); }
  }

  lemma OneMoreSource(t: GoType, tags: Tags, request: MatchedRequest, lib: Library, record: Record, n: nat, s: Source)
    requires n < |SOURCES| && SOURCES[n] == s
    ensures Sources(t, tags, request, lib, record, n + 1)
         == OneSource(t, tags, request, lib, s, Sources(t, tags, request, lib, record, n))
  {
  }

  lemma AllSources(t: GoType, tags: Tags, request: MatchedRequest, lib: Library, record: Record)
    ensures Sources(t, tags, request, lib, record, |SOURCES|)
         == OneBodySource(t, tags, request, lib, NonBodySources(t, tags, request, lib, record))
  {
    OneMoreSource(t, tags, request, lib, record, 0, Header);
    OneMoreSource(t, tags, request, lib, record, 1, Cookie);
    OneMoreSource(t, tags, request, lib, record, 2, Query);
    OneMoreSource(t, tags, request, lib, record, 3, Url);
    OneMoreSource(t, tags, request, lib, record, 4, Form);
    OneMoreSource(t, tags, request, lib, record, 5, Json);
    OneMoreSource(t, tags, request, lib, record, 6, Multipart);
    OneMoreSource(t, tags, request, lib, record, 7, Body);
    BodySourcesAreExclusive(t, tags, request, lib, NonBodySources(t, tags, request, lib, record));
  }

  /** Every rejection carries a status that `NewResponse` accepts as an error. */
  lemma RejectionsCarryErrorStatus(t: GoType, tags: Tags, request: MatchedRequest, lib: Library)
    ensures
      var outcome := Outcome(t, tags, request, lib);
      outcome.Rejected? ==> IsErrorStatus(outcome.status) && 400 <= outcome.status <= 599
  {
  }

  // ---------- precedence ----------

  /** `k` is the last source, in binding order, that supplies the field. */
  ghost predicate IsLastSupplier(t: GoType, tags: Tags, request: MatchedRequest, path: Path, k: nat, n: nat)
    requires n <= |SOURCES|
  {
    && k < n && Supplies(t, tags, request, SOURCES[k], path)
    && forall j :: k < j < n ==> !Supplies(t, tags, request, SOURCES[j], path)
  }

  /** One field's content after the first `n` sources. */
  function FieldAfter(t: GoType, tags: Tags, request: MatchedRequest, lib: Library, path: Path, default: Val, n: nat): Val
    requires n <= |SOURCES|
  {
    if n == 0 then default
    else
      var before := FieldAfter(t, tags, request, lib, path, default, n - 1);
      if Supplies(t, tags, request, SOURCES[n - 1], path)
      then ValueFrom(t, tags, request, lib, SOURCES[n - 1], path, before) else before
  }

  lemma {:induction false} FieldsAreIndependent(
      t: GoType, tags: Tags, request: MatchedRequest, lib: Library, record: Record, n: nat, path: Path)
    requires n <= |SOURCES| && path in record
    ensures path in Sources(t, tags, request, lib, record, n)
    ensures Sources(t, tags, request, lib, record, n)[path]
         == FieldAfter(t, tags, request, lib, path, record[path], n)
  {
    if n > 0 {
      FieldsAreIndependent(t, tags, request, lib, record, n - 1, path);
    }
  }

  lemma {:induction false} LaterSourcesDecide(
      t: GoType, tags: Tags, request: MatchedRequest, lib: Library, path: Path, default: Val, m: nat, n: nat)
    requires m <= n <= |SOURCES|
    requires forall j :: m <= j < n ==> !Supplies(t, tags, request, SOURCES[j], path)
    ensures FieldAfter(t, tags, request, lib, path, default, n) == FieldAfter(t, tags, request, lib, path, default, m)
  {
    if m < n {
      LaterSourcesDecide(t, tags, request, lib, path, default, m, n - 1);
    }
  }

  /** A field that no source supplies keeps its default. */
  lemma UnsuppliedKeepsDefault(
      t: GoType, tags: Tags, request: MatchedRequest, lib: Library, record: Record, path: Path)
    requires path in record
    requires forall s :: !Supplies(t, tags, request, s, path)
    ensures
      var after := Sources(t, tags, request, lib, record, |SOURCES|);
      path in after && after[path] == record[path]
  {
    FieldsAreIndependent(t, tags, request, lib, record, |SOURCES|, path);
    LaterSourcesDecide(t, tags, request, lib, path, record[path], 0, |SOURCES|);
  }

  /** What a source that supplies a field has for it, once the request is known to parse. */
  function SuppliedValue(t: GoType, tags: Tags, request: MatchedRequest, lib: Library, s: Source, path: Path): Option<Val>
    requires Supplies(t, tags, request, s, path) && !(s == Json && s in tags.index)
  {
    if s !in tags.index then
      var conversion := ConversionAt(t, lib, s, SourceData(request, s), path);
      if conversion.Fits? then Some(conversion.value) else None
    else if s == Multipart || s == Body then Some(Live(s))
    else Some(Whole(s, SourceData(request, s)))
  }

  lemma ParsedSourcesConvert(t: GoType, tags: Tags, request: MatchedRequest, lib: Library, s: Source, path: Path)
    requires Compile(t, true) == Some(tags) && Outcome(t, tags, request, lib) == Parsed
    requires IsLeaf(t, path) && Supplies(t, tags, request, s, path) && s !in tags.index
    ensures Converts(t, lib, s, SourceData(request, s), path)
  {
    if IsBodySource(s) {
      FlagsAreTheTags(t, true, s);
      SelectionIsSpecific(t, true, request, s);
    }
    assert SourceOutcome(t, tags, request, lib, s) == Parsed;
    assert !ConversionPanics(t, lib, s, SourceData(request, s), path);
    assert !DoesNotFit(t, lib, s, SourceData(request, s), path);
  }

  /**
   After a successful parse a field holds what the last source that supplies it has for it, in the order header,
   cookie, query, URL, body: the converted named value, the whole source, or the live stream. Earlier sources and
   the default have no part in it.
   */
  lemma LastSourceWins(
      t: GoType, tags: Tags, request: MatchedRequest, lib: Library, record: Record, k: nat, path: Path)
    requires Compile(t, true) == Some(tags) && Outcome(t, tags, request, lib) == Parsed
    requires path in record && IsLeaf(t, path)
    requires IsLastSupplier(t, tags, request, path, k, |SOURCES|)
    requires !(SOURCES[k] == Json && Json in tags.index)
    ensures
      var after := Sources(t, tags, request, lib, record, |SOURCES|);
      path in after && Some(after[path]) == SuppliedValue(t, tags, request, lib, SOURCES[k], path)
  {
    FieldsAreIndependent(t, tags, request, lib, record, |SOURCES|, path);
    LaterSourcesDecide(t, tags, request, lib, path, record[path], k + 1, |SOURCES|);
    if SOURCES[k] !in tags.index {
      ParsedSourcesConvert(t, tags, request, lib, SOURCES[k], path);
    }
  }

  /**
   A whole `json` field is decoded into what the sources before the body left there: the value of the last of
   them, or the default.
   */
  lemma WholeJsonDecodesIntoEarlierValue(
      t: GoType, tags: Tags, request: MatchedRequest, lib: Library, record: Record)
    requires Compile(t, true) == Some(tags) && Outcome(t, tags, request, lib) == Parsed
    requires Json in tags.index && tags.index[Json] in record && SelectBody(tags, request) == Select(Json)
    ensures
      var path, after := tags.index[Json], Sources(t, tags, request, lib, record, |SOURCES|);
      && path in after && request.text.Content?
      && after[path] == lib.decodeInto(FieldAfter(t, tags, request, lib, path, record[path], 4), request.text.document)
  {
    var path := tags.index[Json];
    FieldsAreIndependent(t, tags, request, lib, record, |SOURCES|, path);
    assert SOURCES[4] == Form && SOURCES[5] == Json && SOURCES[6] == Multipart && SOURCES[7] == Body;
    LaterSourcesDecide(t, tags, request, lib, path, record[path], 6, |SOURCES|);
    LaterSourcesDecide(t, tags, request, lib, path, record[path], 4, 5);
    assert Supplies(t, tags, request, Json, path);
  }
}
