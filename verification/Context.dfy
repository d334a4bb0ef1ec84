/**
 context.go and the handle half of response.go: the pending response or takeover of one request,
 and the `Response` handles that go stale.
 */
module Contexts {
  import opened Wire
  import opened StreamWriters

  /** How user code ends: a nil error, an error, or a panic. */
  datatype Ending = ReturnsNil | ReturnsError | Panics

  /** A stream body is the calls it makes on its StreamWriter and the way it ends. */
  datatype StreamCode = StreamCode(calls: seq<StreamCall>, ending: Ending)

  /** A hijack body owns the connection; only the way it ends reaches the framework. */
  datatype HijackCode = HijackCode(ending: Ending)

  /** The dynamic type of `Context.body`; `Other` is any value outside the types the setters store. */
  datatype Body =
    | Nothing
    | Raw(bytes: Bytes)
    | Text(text: Bytes)
    | Streaming(stream: StreamCode)
    | Takeover(hijack: HijackCode)
    | Other(id: nat)

  /** `open` is `writer != nil`; `json` is `marshaller == marshallerIsJson`. */
  datatype Ctx = Ctx(open: bool, status: int, body: Body, json: bool, ticket: nat)

  const FRESH_CTX := Ctx(true, 0, Nothing, false, 0)

  /** A `Response` value: the zero value, or a handle carrying the ticket it was issued with. */
  datatype Response = Zero | Handle(ticket: nat)

  datatype Setter =
    | BytesBody(bytes: Bytes)
    | StringBody(text: Bytes)
    | StreamBody(stream: StreamCode)
    | PlainTextBody(text: Bytes)
    | OctetsBody(bytes: Bytes)
    | JsonBody(value: Body)

  function BodyOf(setter: Setter): Body {
    match setter
    case BytesBody(bytes) => Raw(bytes)
    case StringBody(text) => Text(text)
    case StreamBody(stream) => Streaming(stream)
    case PlainTextBody(text) => Text(text)
    case OctetsBody(bytes) => Raw(bytes)
    case JsonBody(value) => value
  }

  function ContentTypeOf(setter: Setter, header: Headers): Headers {
    match setter
    case PlainTextBody(_) => header["Content-Type" := ["text/plain; charset=utf-8"]]
    case OctetsBody(_) => header["Content-Type" := ["application/octet-stream"]]
    case _ => header
  }

  function AddCookie(header: Headers, cookie: string): Headers {
    header["Set-Cookie" := (if "Set-Cookie" in header then header["Set-Cookie"] else []) + [cookie]]
  }

  predicate ValidStatus(status: int) {
    200 <= status <= 599
  }

  predicate Live(c: Ctx, r: Response) {
    r.Handle? && r.ticket == c.ticket
  }

  predicate IsHijacked(c: Ctx) {
    c.status == 0 && c.body != Nothing
  }

  function CurrentResponse(c: Ctx): Response {
    if c.status == 0 then Zero else Handle(c.ticket)
  }

  function AfterNewResponse(c: Ctx, status: int): Ctx {
    if ValidStatus(status) then Ctx(c.open, status, Nothing, false, c.ticket + 1) else c
  }

  function AfterTakeover(c: Ctx, body: Option<HijackCode>): Ctx {
    if body.Some? then Ctx(c.open, 0, Takeover(body.value), false, c.ticket + 1) else c
  }

  function AfterSetter(c: Ctx, r: Response, setter: Setter): Ctx {
    if Live(c, r) then c.(body := BodyOf(setter), json := setter.JsonBody?) else c
  }

  /** What the public API can ever leave in an open Context. */
  ghost predicate Reachable(c: Ctx) {
    && c.open
    && (c.status == 0 || ValidStatus(c.status))
    && (c.status == 0 ==> !c.json && (c.body.Nothing? || c.body.Takeover?))
    && (c.status != 0 && !c.json ==> c.body.Nothing? || c.body.Raw? || c.body.Text? || c.body.Streaming?)
  }

  /** A handle that was really issued: not from the future, and live only while there is a response. */
  ghost predicate Issued(c: Ctx, r: Response) {
    r.Handle? ==> r.ticket <= c.ticket && (r.ticket == c.ticket ==> c.status != 0)
  }

  class Context {
    var writer: StreamWriter?
    var status: int
    var body: Body
    var marshaller: nat
    var ticket: nat

    constructor (writer: StreamWriter)
      ensures this.writer == writer && View() == FRESH_CTX
    {
      this.writer := writer;
      status, body, marshaller, ticket := 0, Nothing, MARSHALLER_IS_DIRECT, 0;
    }

    static const MARSHALLER_IS_DIRECT: nat := 0
    static const MARSHALLER_IS_JSON: nat := 1

    ghost function View(): Ctx
      reads this
    {
      Ctx(writer != null, status, body, marshaller == MARSHALLER_IS_JSON, ticket)
    }

    method Response() returns (r: Response, ok: bool)
      ensures r == CurrentResponse(View()) && ok == r.Handle?
    {
      if status == 0 {
        return Zero, false;
      }
      return Handle(ticket), true;
    }

    method Hijacked() returns (pending: bool)
      ensures pending == IsHijacked(View())
    {
      pending := status == 0 && body != Nothing;
    }

    /** `header` is the header map behind `writer`; a refused status panics and changes nothing. */
    method NewResponse(status: int, under: ResponseWriter) returns (r: Response, panicked: bool)
      requires writer != null && writer.writer == under
      modifies this`status, this`body, this`marshaller, this`ticket, under
      ensures View() == AfterNewResponse(old(View()), status)
      ensures panicked == !ValidStatus(status)
      ensures under.conn == if panicked then old(under.conn) else old(under.conn).(header := map[])
      ensures r == if panicked then Zero else CurrentResponse(View())
    {
      if status < 200 || status > 599 {
        return Zero, true;
      }
      this.status, body, marshaller := status, Nothing, MARSHALLER_IS_DIRECT;
      under.SetHeaders(map[]);
      ticket := ticket + 1;
      return Handle(ticket), false;
    }

    method Hijack(takeover: Option<HijackCode>) returns (panicked: bool)
      modifies this`status, this`body, this`marshaller, this`ticket
      ensures View() == AfterTakeover(old(View()), takeover)
      ensures panicked == takeover.None?
    {
      if takeover.None? {
        return true;
      }
      status, body, marshaller := 0, Takeover(takeover.value), MARSHALLER_IS_DIRECT;
      ticket := ticket + 1;
      return false;
    }

    /** The six body setters of a handle, which differ in the Content-Type and the marshaller. */
    method SetBody(r: Response, setter: Setter, under: ResponseWriter) returns (panicked: bool)
      requires writer != null && writer.writer == under
      modifies this`body, this`marshaller, under
      ensures View() == AfterSetter(old(View()), r, setter)
      ensures panicked == !Live(old(View()), r)
      ensures under.conn == if panicked then old(under.conn)
                            else old(under.conn).(header := ContentTypeOf(setter, old(under.conn.header)))
    {
      if r.Zero? || r.ticket != ticket {
        return true;
      }
      under.SetHeaders(ContentTypeOf(setter, under.conn.header));
      body := BodyOf(setter);
      marshaller := if setter.JsonBody? then MARSHALLER_IS_JSON else MARSHALLER_IS_DIRECT;
      return false;
    }

    method Cookie(r: Response, cookie: string, under: ResponseWriter) returns (panicked: bool)
      requires writer != null && writer.writer == under
      modifies under
      ensures panicked == !Live(View(), r)
      ensures under.conn == if panicked then old(under.conn)
                            else old(under.conn).(header := AddCookie(old(under.conn.header), cookie))
    {
      if r.Zero? || r.ticket != ticket {
        return true;
      }
      under.SetHeaders(AddCookie(under.conn.header, cookie));
      return false;
    }

    /** `Header()` does not check the ticket: a stale handle still reaches the live header map. */
    method SetHeader(r: Response, key: string, value: string, under: ResponseWriter) returns (panicked: bool)
      requires writer != null && writer.writer == under
      modifies under
      ensures panicked == r.Zero?
      ensures under.conn == if panicked then old(under.conn)
                            else old(under.conn).(header := old(under.conn.header)[key := [value]])
    {
      if r.Zero? {
        return true;
      }
      under.SetHeaders(under.conn.header[key := [value]]);
      return false;
    }
  }
}
