/**
 The environment of one request: the `net/http` response writer the server is handed.

 It is the only part of this project that does not model the repository's own code.
 It follows the documented behaviour of `http.ResponseWriter`: the first final status wins,
 later ones are ignored, 1xx statuses other than 101 are passed on without committing,
 a code outside 100..999 panics, and a short `Write` reports an error.
 */
module Wire {

  newtype byte = b: int | 0 <= b < 256

  type Bytes = seq<byte>

  type Headers = map<string, seq<string>>

  datatype Option<+T> = None | Some(value: T)

  /** The network's reply to one `Write` or one `Hijack`. */
  datatype Answer = Answer(count: nat, ok: bool)

  /** Replies in the order they are asked for; an arbitrary function, so every network is covered. */
  type Network = nat -> Answer

  /**
   Everything observable about the connection of one request.
   `final` is 0 until a final status line is sent; `sent` is the header map that went out with it;
   `closes` counts the closes performed by the framework after a takeover.
   */
  datatype Conn = Conn(
    header: Headers,
    informational: seq<int>,
    final: int,
    sent: Headers,
    accepted: Bytes,
    hijacked: bool,
    closes: nat,
    answered: nat)

  const FRESH_CONN := Conn(map[], [], 0, map[], [], false, 0, 0)

  datatype ConnStep = ConnStep(conn: Conn, panicked: bool)

  datatype ConnWrite = ConnWrite(conn: Conn, count: nat, failed: bool)

  datatype ConnHijack = ConnHijack(conn: Conn, ok: bool)

  function AfterWriteHeader(c: Conn, code: int): ConnStep {
    if c.hijacked || c.final != 0 then ConnStep(c, false)
    else if code < 100 || 999 < code then ConnStep(c, true)
    else if code < 200 && code != 101 then ConnStep(c.(informational := c.informational + [code]), false)
    else ConnStep(c.(final := code, sent := c.header), false)
  }

  function AfterWrite(c: Conn, data: Bytes, net: Network): ConnWrite {
    var answer := net(c.answered);
    var count := if c.hijacked then 0 else if answer.count < |data| then answer.count else |data|;
    var committed := AfterWriteHeader(c, 200).conn;
    ConnWrite(committed.(accepted := c.accepted + data[..count], answered := c.answered + 1),
              count, c.hijacked || !answer.ok || count < |data|)
  }

  function AfterHijack(c: Conn, net: Network): ConnHijack {
    var ok := net(c.answered).ok && !c.hijacked;
    ConnHijack(c.(answered := c.answered + 1, hijacked := c.hijacked || ok), ok)
  }

  /** The response writer object itself; `StreamWriter` holds a reference to it. */
  class ResponseWriter {
    var conn: Conn
    const net: Network

    constructor (net: Network)
      ensures conn == FRESH_CONN && this.net == net
    {
      conn := FRESH_CONN;
      this.net := net;
    }

    method SetHeaders(header: Headers)
      modifies this
      ensures conn == old(conn).(header := header)
    {
      conn := conn.(header := header);
    }

    method WriteHeader(code: int) returns (panicked: bool)
      modifies this
      ensures ConnStep(conn, panicked) == AfterWriteHeader(old(conn), code)
    {
      var step := AfterWriteHeader(conn, code);
      conn := step.conn;
      panicked := step.panicked;
    }

    method Write(data: Bytes) returns (count: nat, failed: bool)
      modifies this
      ensures ConnWrite(conn, count, failed) == AfterWrite(old(conn), data, net)
    {
      var step := AfterWrite(conn, data, net);
      conn := step.conn;
      count, failed := step.count, step.failed;
    }

    method Hijack() returns (ok: bool)
      modifies this
      ensures ConnHijack(conn, ok) == AfterHijack(old(conn), net)
    {
      var step := AfterHijack(conn, net);
      conn := step.conn;
      ok := step.ok;
    }

    method Close()
      modifies this
      ensures conn == old(conn).(closes := old(conn).closes + 1)
    {
      conn := conn.(closes := conn.closes + 1);
    }
  }
}
