/**
 bindJson in request_body.go: exactly one JSON value, then only white space.

 `json.Decoder` reads its input through a byte-at-a-time automaton. The grammar itself is a parameter;
 what is modelled is the decoder's buffering: values end in the middle of what was read, and the rest
 of the body is partly in the decoder's buffer and partly still in the reader.
 */
module JsonBodies {
  import opened Wire
  import opened Charsets

  /**
   What the scanner says to one byte: go on, the value ended before this byte, it ended with this byte
   (a closing bracket), or a syntax error.
   */
  datatype Move = Goes(state: nat) | EndsBefore | EndsAfter | Fails

  /** Any automaton; `atEnd` says whether the value is complete when the input ends in a state. */
  datatype Grammar = Grammar(move: (nat, byte) -> Move, atEnd: nat -> bool)

  datatype Scan = More(state: nat) | Value(end: nat) | Bad

  /** Scans `input` from `from` on; the end of a value is a position in `input`. */
  function ScanFrom(g: Grammar, state: nat, input: Bytes, from: nat): Scan
    requires from <= |input|
    decreases |input| - from
  {
    if from == |input| then More(state)
    else
      match g.move(state, input[from])
      case Goes(next) => ScanFrom(g, next, input, from + 1)
      case EndsBefore => Value(from)
      case EndsAfter => Value(from + 1)
      case Fails => Bad
  }

  /** The first value of a complete body; None when there is none. */
  function FirstValue(g: Grammar, body: Bytes): Option<nat> {
    match ScanFrom(g, 0, body, 0)
    case Value(end) => Some(end)
    case More(state) => if g.atEnd(state) then Some(|body|) else None
    case Bad => None
  }

  /** Section 2 of RFC 8259. */
  predicate IsSpace(b: byte) {
    b == 0x20 || b == 0x09 || b == 0x0A || b == 0x0D
  }

  predicate AllSpace(b: Bytes) {
    forall k :: 0 <= k < |b| ==> IsSpace(b[k])
  }

  /** The body is one value, whatever white space the grammar skips before it, and white space after it. */
  predicate IsOneDocument(g: Grammar, body: Bytes) {
    var end := FirstValue(g, body);
    end.Some? && end.value <= |body| && AllSpace(body[end.value..])
  }

  /** The automaton goes through `input[from..to]` without a decision and ends in `next`. */
  predicate GoesTo(g: Grammar, state: nat, input: Bytes, from: nat, to: nat, next: nat)
    decreases to - from
  {
    && from <= to <= |input|
    && if from == to then state == next
       else g.move(state, input[from]).Goes? && GoesTo(g, g.move(state, input[from]).state, input, from + 1, to, next)
  }

  /** In state `last` before position `at`, the value is complete at `end`: before a byte, with it, or with the input. */
  predicate Decides(g: Grammar, input: Bytes, at: nat, last: nat, end: nat) {
    if at < |input| then
      var move := g.move(last, input[at]);
      (move.EndsBefore? && end == at) || (move.EndsAfter? && end == at + 1)
    else at == |input| == end && g.atEnd(last)
  }

  /** The value that starts at `from` ends at `end`. */
  ghost predicate EndsAt(g: Grammar, state: nat, input: Bytes, from: nat, end: nat) {
    exists at: nat, last: nat :: GoesTo(g, state, input, from, at, last) && Decides(g, input, at, last, end)
  }

  /** The end that a scan from `from` on comes to, if it comes to any. */
  function EndFrom(g: Grammar, state: nat, input: Bytes, from: nat): Option<nat>
    requires from <= |input|
  {
    match ScanFrom(g, state, input, from)
    case Value(end) => Some(end)
    case More(last) => if g.atEnd(last) then Some(|input|) else None
    case Bad => None
  }

  lemma {:induction false} EndFromIsTheEnd(g: Grammar, state: nat, input: Bytes, from: nat, end: nat)
    requires from <= |input|
    ensures EndFrom(g, state, input, from) == Some(end) <==> EndsAt(g, state, input, from, end)
    decreases |input| - from
  {
    if from < |input| && g.move(state, input[from]).Goes? {
      var next := g.move(state, input[from]).state;
      EndFromIsTheEnd(g, next, input, from + 1, end);
      forall at: nat, last: nat | from < at
        ensures GoesTo(g, state, input, from, at, last) <==> GoesTo(g, next, input, from + 1, at, last)
      {
      }
    } else {
      assert GoesTo(g, state, input, from, from, state);
      forall at: nat, last: nat | GoesTo(g, state, input, from, at, last)
        ensures at == from && last == state
      {
      }
    }
  }

  /** The first value ends where the automaton, run from its start, first decides that a value is complete. */
  lemma FirstValueExactly(g: Grammar, body: Bytes, end: nat)
    ensures FirstValue(g, body) == Some(end) <==> EndsAt(g, 0, body, 0, end)
  {
    EndFromIsTheEnd(g, 0, body, 0, end);
  }

  lemma {:induction false} ScanEndsInside(g: Grammar, state: nat, input: Bytes, from: nat)
    requires from <= |input|
    ensures
      var scan := ScanFrom(g, state, input, from);
      scan.Value? ==> from <= scan.end <= |input|
    decreases |input| - from
  {
    if from < |input| && g.move(state, input[from]).Goes? {
      ScanEndsInside(g, g.move(state, input[from]).state, input, from + 1);
    }
  }

  /** What is decided on part of the input stays decided, and an undecided scan resumes where it stopped. */
  lemma {:induction false} ScanResumes(g: Grammar, state: nat, input: Bytes, more: Bytes, from: nat)
    requires from <= |input|
    ensures
      var scan := ScanFrom(g, state, input, from);
      ScanFrom(g, state, input + more, from)
        == if scan.More? then ScanFrom(g, scan.state, input + more, |input|) else scan
    decreases |input| - from
  {
    if from < |input| {
      assert (input + more)[from] == input[from];
      if g.move(state, input[from]).Goes? {
        ScanResumes(g, g.move(state, input[from]).state, input, more, from + 1);
      }
    }
  }

  /** Where `Decode` left off: the end of the value in what it buffered, and the pieces it has not read. */
  datatype Decoded = Decoded(buffered: Bytes, end: nat, unread: seq<Bytes>)

  /** `Decoder.Decode` over a reader that delivers the body in arbitrary pieces. */
  method Decode(g: Grammar, pieces: seq<Bytes>) returns (r: Option<Decoded>)
    ensures r.Some? <==> FirstValue(g, Joined(pieces)).Some?
    ensures r.Some? ==>
              && r.value.end <= |r.value.buffered|
              && r.value.buffered + Joined(r.value.unread) == Joined(pieces)
              && FirstValue(g, Joined(pieces)) == Some(r.value.end)
  {
    var buffered: Bytes, unread, state, scanned: nat := [], pieces, 0, 0;
    ghost var body := Joined(pieces);
    while true
      invariant scanned == |buffered| && buffered + Joined(unread) == body
      invariant ScanFrom(g, 0, buffered, 0) == More(state)
      decreases |unread|
    {
      if unread == [] {
        assert buffered == body;
        return if g.atEnd(state) then Some(Decoded(buffered, |buffered|, unread)) else None;
      }
      var piece, later := unread[0], unread[1..];
      ScanResumes(g, 0, buffered, piece, 0);
      var scan := ScanFrom(g, state, buffered + piece, scanned);
      ScanEndsInside(g, state, buffered + piece, scanned);
      assert (buffered + piece) + Joined(later) == buffered + (piece + Joined(later));
      buffered, unread := buffered + piece, later;
      ScanResumes(g, 0, buffered, Joined(unread), 0);
      match scan {
        case Value(end) => return Some(Decoded(buffered, end, unread));
        case Bad => return None;
        case More(next) => state, scanned := next, |buffered|;
      }
    }
  }

  /** `bytes.ContainsFunc` on what is left behind the value. */
  method HasTrailingData(remaining: Bytes) returns (found: bool)
    ensures found <==> exists k :: 0 <= k < |remaining| && remaining[k] !in {0x20, 0x09, 0x0D, 0x0A}
    ensures found == !AllSpace(remaining)
  {
    for k := 0 to |remaining|
      invariant AllSpace(remaining[..k])
    {
      if remaining[k] != 0x20 && remaining[k] != 0x09 && remaining[k] != 0x0D && remaining[k] != 0x0A {
        return true;
      }
      assert remaining[..k + 1] == remaining[..k] + [remaining[k]];
    }
    assert remaining[..|remaining|] == remaining;
    return false;
  }

  /**
   The trailing check reads the decoder's buffer and then the rest of the reader, so the two checks on the text pass
   exactly when it is one document, however it was cut into reads and however far the decoder read ahead.
   */
  method AcceptsJson(g: Grammar, pieces: seq<Bytes>) returns (ok: bool)
    ensures ok == IsOneDocument(g, Joined(pieces))
  {
    var decoded := Decode(g, pieces);
    if decoded.None? {
      return false;
    }
    var Decoded(buffered, end, unread) := decoded.value;
    var remaining := buffered[end..] + Joined(unread);
    assert remaining == Joined(pieces)[end..];
    var trailing := HasTrailingData(remaining);
    return !trailing;
  }

  /** After a finished value, only white space can follow without turning the body away. */
  lemma OnlySpaceMayFollow(g: Grammar, body: Bytes, tail: Bytes)
    requires ScanFrom(g, 0, body, 0).Value?
    ensures IsOneDocument(g, body + tail) <==> IsOneDocument(g, body) && AllSpace(tail)
  {
    ScanResumes(g, 0, body, tail, 0);
    ScanEndsInside(g, 0, body, 0);
    var end := ScanFrom(g, 0, body, 0).end;
    var rest := (body + tail)[end..];
    assert rest == body[end..] + tail;
    if AllSpace(rest) {
      assert forall k :: 0 <= k < |body[end..]| ==> body[end..][k] == rest[k];
      assert forall k :: 0 <= k < |tail| ==> tail[k] == rest[|body[end..]| + k];
    }
  }
}
