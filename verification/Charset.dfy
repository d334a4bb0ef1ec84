/**
 charsetReader in request_body.go: which decoder a form or JSON body gets, and the text it yields.
 */
module Charsets {
  import opened Wire

  // ---------- a buffered reader over a body that arrives in pieces ----------

  function Joined(pieces: seq<Bytes>): Bytes {
    if pieces == [] then [] else pieces[0] + Joined(pieces[1..])
  }

  /** `bufio.Reader`: what was read and not consumed, and the pieces still to come. */
  class BufferedReader {
    var buffer: Bytes
    var pieces: seq<Bytes>

    constructor (pieces: seq<Bytes>)
      ensures Rest() == Joined(pieces)
    {
      buffer, this.pieces := [], pieces;
    }

    ghost function Rest(): Bytes
      reads this
    {
      buffer + Joined(pieces)
    }

    /** Reads until `n` bytes are buffered or the body ends. */
    method Peek(n: nat) returns (peek: Bytes)
      modifies this
      ensures Rest() == old(Rest())
      ensures peek == if |Rest()| < n then Rest() else Rest()[..n]
      ensures peek <= buffer
    {
      while |buffer| < n && pieces != []
        invariant Rest() == old(Rest())
        decreases |pieces|
      {
        assert buffer + (pieces[0] + Joined(pieces[1..])) == (buffer + pieces[0]) + Joined(pieces[1..]);
        buffer, pieces := buffer + pieces[0], pieces[1..];
      }
      peek := if |buffer| < n then buffer else buffer[..n];
    }

    method Discard(n: nat)
      requires n <= |buffer|
      modifies this
      ensures Rest() == old(Rest())[n..]
    {
      buffer := buffer[n..];
    }
  }

  // ---------- UTF-8 and UTF-16 ----------

  predicate IsSurrogate(x: int) {
    0xD800 <= x <= 0xDFFF
  }

  predicate IsLowSurrogate(x: int) {
    0xDC00 <= x <= 0xDFFF
  }

  type Scalar = x: int | 0 <= x <= 0x10FFFF && !IsSurrogate(x)

  const REPLACEMENT: Scalar := 0xFFFD
  const BYTE_ORDER_MARK: Scalar := 0xFEFF

  /** Section 3 of RFC 3629. */
  function Utf8One(x: Scalar): Bytes {
    if x < 0x80 then [x as byte]
    else if x < 0x800 then [(0xC0 + x / 64) as byte, (0x80 + x % 64) as byte]
    else if x < 0x1_0000 then [(0xE0 + x / 4096) as byte, (0x80 + x / 64 % 64) as byte, (0x80 + x % 64) as byte]
    else
      [(0xF0 + x / 262144) as byte, (0x80 + x / 4096 % 64) as byte, (0x80 + x / 64 % 64) as byte, (0x80 + x % 64) as byte]
  }

  predicate IsContinuation(b: byte) {
    0x80 <= b <= 0xBF
  }

  /** `b` is the UTF-8 form of `x`: the lead byte gives the length and no shorter form exists. */
  predicate IsUtf8Of(b: Bytes, x: int) {
    if |b| == 1 then b[0] <= 0x7F && x == b[0] as int
    else if |b| == 2 then
      0xC2 <= b[0] <= 0xDF && IsContinuation(b[1]) && x == (b[0] as int - 0xC0) * 64 + (b[1] as int - 0x80)
    else if |b| == 3 then
      && 0xE0 <= b[0] <= 0xEF && IsContinuation(b[1]) && IsContinuation(b[2]) && x >= 0x800
      && x == (b[0] as int - 0xE0) * 4096 + (b[1] as int - 0x80) * 64 + (b[2] as int - 0x80)
    else
      && |b| == 4 && 0xF0 <= b[0] <= 0xF4
      && IsContinuation(b[1]) && IsContinuation(b[2]) && IsContinuation(b[3]) && x >= 0x1_0000
      && x == (b[0] as int - 0xF0) * 262144 + (b[1] as int - 0x80) * 4096 + (b[2] as int - 0x80) * 64 + (b[3] as int - 0x80)
  }

  lemma SixBitGroups(x: nat)
    ensures x == x / 64 * 64 + x % 64
    ensures x == x / 4096 * 4096 + x / 64 % 64 * 64 + x % 64
    ensures x == x / 262144 * 262144 + x / 4096 % 64 * 4096 + x / 64 % 64 * 64 + x % 64
  {
    var y := x / 64;
    var z := y / 64;
    assert z == x / 4096 && z / 64 == x / 262144;
  }

  lemma Utf8OneIsUtf8(x: Scalar)
    ensures IsUtf8Of(Utf8One(x), x)
  {
    SixBitGroups(x);
    var b := Utf8One(x);
    if x >= 0x1_0000 {
      var lead, high, mid, low := x / 262144, x / 4096 % 64, x / 64 % 64, x % 64;
      assert lead <= 4 && |b| == 4;
      assert b[0] as int == 0xF0 + lead && b[1] as int == 0x80 + high;
      assert b[2] as int == 0x80 + mid && b[3] as int == 0x80 + low;
    } else if x >= 0x800 {
      var lead, mid, low := x / 4096, x / 64 % 64, x % 64;
      assert lead <= 15 && |b| == 3;
      assert b[0] as int == 0xE0 + lead && b[1] as int == 0x80 + mid && b[2] as int == 0x80 + low;
    } else if x >= 0x80 {
      var lead, low := x / 64, x % 64;
      assert 2 <= lead <= 31 && |b| == 2;
      assert b[0] as int == 0xC0 + lead && b[1] as int == 0x80 + low;
    }
  }

  function Utf8(text: seq<Scalar>): Bytes {
    if text == [] then [] else Utf8One(text[0]) + Utf8(text[1..])
  }

  datatype Order = LittleEndian | BigEndian

  function UnitBytes(unit: int, order: Order): (b: Bytes)
    requires 0 <= unit < 0x1_0000
    ensures |b| == 2
  {
    var high, low := (unit / 256) as byte, (unit % 256) as byte;
    if order.BigEndian? then [high, low] else [low, high]
  }

  function UnitAt(b: Bytes, order: Order): (unit: int)
    requires |b| >= 2
    ensures 0 <= unit < 0x1_0000
  {
    if order.BigEndian? then b[0] as int * 256 + b[1] as int else b[1] as int * 256 + b[0] as int
  }

  /** Section 2.1 of RFC 2781. */
  function Utf16One(x: Scalar, order: Order): Bytes {
    if x < 0x1_0000 then UnitBytes(x, order)
    else UnitBytes(0xD800 + (x - 0x1_0000) / 0x400, order) + UnitBytes(0xDC00 + (x - 0x1_0000) % 0x400, order)
  }

  function Utf16(text: seq<Scalar>, order: Order): Bytes {
    if text == [] then [] else Utf16One(text[0], order) + Utf16(text[1..], order)
  }

  /**
   The decoder of golang.org/x/text with IgnoreBOM, following section 2.2 of RFC 2781: a lone surrogate
   or a trailing byte becomes U+FFFD, and a byte-order mark is an ordinary character.
   */
  function FromUtf16(b: Bytes, order: Order): seq<Scalar>
    decreases |b|
  {
    if b == [] then []
    else if |b| == 1 then [REPLACEMENT]
    else
      var unit := UnitAt(b, order);
      if !IsSurrogate(unit) then [unit as Scalar] + FromUtf16(b[2..], order)
      else if |b| >= 4 && IsLowSurrogate(UnitAt(b[2..], order)) then
        var low := UnitAt(b[2..], order);
        [if unit < 0xDC00 then 0x1_0000 + (unit - 0xD800) * 0x400 + (low - 0xDC00) else REPLACEMENT]
        + FromUtf16(b[4..], order)
      else [REPLACEMENT] + FromUtf16(b[2..], order)
  }

  /** What is no character reads as U+FFFD: a trailing byte, a surrogate without its partner, a pair out of order. */
  lemma MalformedUtf16(b: Bytes, order: Order)
    requires b != []
    ensures |b| == 1 ==> FromUtf16(b, order) == [0xFFFD]
    ensures |b| >= 2 && IsSurrogate(UnitAt(b, order)) && !(|b| >= 4 && IsLowSurrogate(UnitAt(b[2..], order))) ==>
              FromUtf16(b, order) == [0xFFFD] + FromUtf16(b[2..], order)
    ensures |b| >= 4 && IsLowSurrogate(UnitAt(b, order)) && IsLowSurrogate(UnitAt(b[2..], order)) ==>
              FromUtf16(b, order) == [0xFFFD] + FromUtf16(b[4..], order)
  {
  }

  // ---------- charsetReader ----------

  /** A decoder named by an explicit charset; any function from the raw body to UTF-8. */
  type Decoder = Bytes -> Bytes

  /** The decoder `charsetReader` puts in front of the rest of the body. */
  datatype Reader = Plain | Unicode16(order: Order) | Explicit(decode: Decoder)

  function TextOf(reader: Reader, rest: Bytes): Bytes {
    match reader
    case Plain => rest
    case Unicode16(order) => Utf8(FromUtf16(rest, order))
    case Explicit(decode) => decode(rest)
  }

  const UTF8_MARK: Bytes := [0xEF, 0xBB, 0xBF]

  function Mark16(order: Order): Bytes {
    if order.BigEndian? then [0xFE, 0xFF] else [0xFF, 0xFE]
  }

  /** The text of a body sent without a charset parameter. */
  function SniffedText(body: Bytes): Bytes {
    if UTF8_MARK <= body then body[3..]
    else if Mark16(LittleEndian) <= body then Utf8(FromUtf16(body[2..], LittleEndian))
    else if Mark16(BigEndian) <= body then Utf8(FromUtf16(body[2..], BigEndian))
    else body
  }

  /**
   The chosen reader yields the sniffed text of the whole body however the body is cut into pieces;
   an explicit charset is authoritative and gets every byte, and an unknown one is refused.
   */
  method CharsetReader(reader: BufferedReader, charset: Option<string>, lookup: string -> Option<Decoder>)
    returns (r: Option<Reader>)
    modifies reader
    ensures r.None? <==> charset.Some? && lookup(charset.value).None?
    ensures r.Some? ==>
              TextOf(r.value, reader.Rest())
                == if charset.Some? then lookup(charset.value).value(old(reader.Rest()))
                   else SniffedText(old(reader.Rest()))
  {
    if charset.Some? {
      var encoding := lookup(charset.value);
      return if encoding.Some? then Some(Explicit(encoding.value)) else None;
    }
    var peek := reader.Peek(3);
    ghost var body := reader.Rest();
    assert |peek| >= 2 ==> peek[..2] == body[..2];
    assert Mark16(LittleEndian) <= body <==> |peek| >= 2 && peek[0] == 0xFF && peek[1] == 0xFE;
    assert Mark16(BigEndian) <= body <==> |peek| >= 2 && peek[0] == 0xFE && peek[1] == 0xFF;
    if |peek| >= 3 && peek[0] == 0xEF && peek[1] == 0xBB && peek[2] == 0xBF {
      reader.Discard(3);
      return Some(Plain);
    }
    if |peek| >= 2 {
      if peek[0] == 0xFF && peek[1] == 0xFE {
        reader.Discard(2);
        return Some(Unicode16(LittleEndian));
      }
      if peek[0] == 0xFE && peek[1] == 0xFF {
        reader.Discard(2);
        return Some(Unicode16(BigEndian));
      }
    }
    return Some(Plain);
  }

  // ---------- the encodings agree ----------

  lemma OneScalarRoundTrip(x: Scalar, order: Order, rest: Bytes)
    ensures FromUtf16(Utf16One(x, order) + rest, order) == [x] + FromUtf16(rest, order)
  {
  }

  lemma {:induction false} Utf16RoundTrip(text: seq<Scalar>, order: Order)
    ensures FromUtf16(Utf16(text, order), order) == text
  {
    if text != [] {
      Utf16RoundTrip(text[1..], order);
      OneScalarRoundTrip(text[0], order, Utf16(text[1..], order));
    }
  }

  /**
   A text sent with a byte-order mark reads the same in all three encodings, the empty text included,
   and so does a text that itself starts with U+FEFF.
   */
  lemma MarkedEncodingsAgree(text: seq<Scalar>, order: Order)
    ensures SniffedText(UTF8_MARK + Utf8(text)) == Utf8(text)
    ensures SniffedText(Mark16(order) + Utf16(text, order)) == Utf8(text)
  {
    Utf16RoundTrip(text, order);
    var body := Mark16(order) + Utf16(text, order);
    assert (UTF8_MARK + Utf8(text))[3..] == Utf8(text);
    assert body[2..] == Utf16(text, order) && body[..2] == Mark16(order);
    assert body[0] != 0xEF;
    assert body[0] == Mark16(order)[0];
  }

  lemma Utf8FirstBytes(text: seq<Scalar>)
    requires text != []
    ensures
      var b := Utf8(text);
      && b != [] && b[0] != 0xFE && b[0] != 0xFF
      && (UTF8_MARK <= b <==> text[0] == BYTE_ORDER_MARK)
  {
    var x, one, b := text[0], Utf8One(text[0]), Utf8(text);
    assert b == one + Utf8(text[1..]);
    assert b[0] == one[0];
    if b[0] == 0xEF {
      assert 0x800 <= x < 0x1_0000 && |one| == 3;
      assert b[1] == one[1] && b[2] == one[2];
      assert b[..3] == one;
    }
  }

  /**
   No valid UTF-8 text is taken for UTF-16. Sent without a mark it reads as itself exactly when it
   does not start with U+FEFF, which cannot be told from a mark and is dropped.
   */
  lemma UnmarkedUtf8(text: seq<Scalar>)
    ensures SniffedText(Utf8(text)) == Utf8(if text != [] && text[0] == BYTE_ORDER_MARK then text[1..] else text)
    ensures SniffedText(Utf8(text)) == Utf8(text) <==> text == [] || text[0] != BYTE_ORDER_MARK
  {
    if text != [] {
      Utf8FirstBytes(text);
      if text[0] == BYTE_ORDER_MARK {
        assert Utf8(text) == Utf8One(BYTE_ORDER_MARK) + Utf8(text[1..]);
        assert Utf8(text)[3..] == Utf8(text[1..]);
      }
    }
  }
}
