/**
 The parser for replies of the migration control service. It is run again on everything received so far
 whenever more bytes arrive. Bytes are characters; the JSON reader is a function about which nothing is known.
 */
module ControlReply {
  import opened Options

  const HEADER_LIMIT := 8192
  const INT64_MAXIMUM := 0x7fff_ffff_ffff_ffff
  const CRLF_CRLF := "\r\n\r\n"

  type Bytes = string

  datatype Reply = Pending | Complete(payload: string) | Failed(reason: string, httpStatus: int)

  // ------------------------------------------------------------------------ text

  /** Index of the first blank line. */
  function Boundary(s: Bytes): (r: Option<nat>)
    ensures r.Some? ==> r.value + 4 <= |s|
  {
    if |s| < 4 then None
    else if s[..4] == CRLF_CRLF then Some(0)
    else
      match Boundary(s[1..])
      case None => None
      case Some(i) => Some(i + 1)
  }

  function Split(s: Bytes, separator: char): (r: seq<Bytes>)
    ensures r != []
  {
    if s == [] then [[]]
    else
      var rest := Split(s[1..], separator);
      if s[0] == separator then [[]] + rest else [[s[0]] + rest[0]] + rest[1..]
  }

  predicate IsSpace(c: char) {
    c == ' ' || '\t' <= c <= '\r'
  }

  function TrimLeft(s: Bytes): Bytes {
    if s != [] && IsSpace(s[0]) then TrimLeft(s[1..]) else s
  }

  function TrimRight(s: Bytes): Bytes {
    if s != [] && IsSpace(s[|s| - 1]) then TrimRight(s[..|s| - 1]) else s
  }

  function Trim(s: Bytes): Bytes {
    TrimRight(TrimLeft(s))
  }

  function Lower(s: Bytes): Bytes {
    seq(|s|, i requires 0 <= i < |s| => if 'A' <= s[i] <= 'Z' then s[i] + ' ' else s[i])
  }

  predicate IsDigits(s: Bytes) {
    forall i :: 0 <= i < |s| ==> '0' <= s[i] <= '9'
  }

  function Decimal(s: Bytes): nat
    requires IsDigits(s)
  {
    if s == [] then 0 else Decimal(s[..|s| - 1]) * 10 + (s[|s| - 1] as int - '0' as int)
  }

  /** A decimal 64-bit integer with an optional sign. */
  function ToLongLong(s: Bytes): Option<int> {
    var negative := s != [] && s[0] == '-';
    var digits := if s != [] && (s[0] == '-' || s[0] == '+') then s[1..] else s;
    if digits == [] || !IsDigits(digits) then None
    else
      var value: int := Decimal(digits);
      if negative then (if value <= INT64_MAXIMUM + 1 then Some(-value) else None)
      else if value <= INT64_MAXIMUM then Some(value) else None
  }

  // ------------------------------------------------------------------- the header

  /** The status code, if the status line is acceptable at all. */
  function Status(line: Bytes): Option<int> {
    var words := Split(Trim(line), ' ');
    if || |words| < 3 || (words[0] != "HTTP/1.0" && words[0] != "HTTP/1.1")
       || |words[1]| != 3 || !IsDigits(words[1])
    then None
    else
      var code := Decimal(words[1]);
      if 100 <= code <= 599 then Some(code) else None
  }

  datatype LengthResult = Length(value: int) | Rejected(reason: string)

  /** Reads the remaining header lines; `length` is what has been found so far, or -1. */
  function ScanHeaders(lines: seq<Bytes>, length: int, maximum: int): LengthResult {
    if lines == [] then
      if length < 0 then Rejected("control_response_missing_length") else Length(length)
    else
      var lower := Lower(lines[0]);
      if "transfer-encoding:" <= lower then Rejected("control_response_transfer_encoding")
      else if "content-length:" <= lower then
        var parsed := ToLongLong(Trim(lines[0][15..]));
        if parsed.None? || length >= 0 || parsed.value <= 0 || parsed.value > maximum
        then Rejected("control_response_invalid_length")
        else ScanHeaders(lines[1..], parsed.value, maximum)
      else ScanHeaders(lines[1..], length, maximum)
  }

  /** What the header alone decides: a failure, or the length of the body. */
  function Header(header: Bytes, maximum: int): LengthResult {
    if |header| > HEADER_LIMIT then Rejected("control_response_headers_too_large")
    else
      var lines := Split(header, '\n');
      var status := Status(lines[0]);
      if status.None? then Rejected("control_response_invalid_status")
      else if status.value != 200 then Rejected("control_http_rejected")
      else ScanHeaders(lines[1..], -1, maximum)
  }

  function HttpStatus(header: Bytes): int {
    if |header| > HEADER_LIMIT then 0
    else
      var status := Status(Split(header, '\n')[0]);
      if status.None? then 0 else status.value
  }

  lemma {:induction false} LengthIsPositive(lines: seq<Bytes>, length: int, maximum: int)
    requires length == -1 || 0 < length <= maximum
    ensures var r := ScanHeaders(lines, length, maximum); r.Length? ==> 0 < r.value <= maximum
  {
    hide Lower, Trim, ToLongLong;
    if lines != [] {
      LowerKeepsLength(lines[0]);
      var parsed := ToLongLong(if |lines[0]| >= 15 then Trim(lines[0][15..]) else []);
      LengthIsPositive(lines[1..], length, maximum);
      if parsed.Some? && 0 < parsed.value <= maximum { LengthIsPositive(lines[1..], parsed.value, maximum); }
    }
  }

  // -------------------------------------------------------------------- the parser

  function Parse(json: Bytes -> Option<string>, bytes: Bytes, maximum: int): Reply {
    if |bytes| > maximum + HEADER_LIMIT then Failed("control_response_too_large", 0)
    else
      match Boundary(bytes)
      case None => Pending
      case Some(boundary) =>
        var header := bytes[..boundary];
        match Header(header, maximum)
        case Rejected(reason) => Failed(reason, HttpStatus(header))
        case Length(length) => Body(json, bytes, boundary + 4, length)
  }

  function Body(json: Bytes -> Option<string>, bytes: Bytes, start: nat, length: int): Reply
    requires start <= |bytes|
  {
    if |bytes| < start + length then Pending
    else if |bytes| != start + length then Failed("control_response_extra_bytes", 200)
    else
      match json(bytes[start..])
      case None => Failed("control_response_invalid_json", 200)
      case Some(payload) => Complete(payload)
  }

  /** The header loop of the source. */
  method ReadLength(headers: seq<Bytes>, maximum: int) returns (r: LengthResult)
    ensures r == ScanHeaders(headers, -1, maximum)
  {
    hide Lower, Trim, ToLongLong;
    var length := -1;
    assert headers[0..] == headers;
    for i := 0 to |headers|
      invariant ScanHeaders(headers[i..], length, maximum) == ScanHeaders(headers, -1, maximum)
    {
      var header := headers[i];
      assert headers[i..][0] == header && headers[i..][1..] == headers[i + 1..];
      var lower := Lower(header);
      LowerKeepsLength(header);
      if "transfer-encoding:" <= lower {
        return Rejected("control_response_transfer_encoding");
      }
      if "content-length:" <= lower {
        var parsed := ToLongLong(Trim(header[15..]));
        if parsed.None? || length >= 0 || parsed.value <= 0 || parsed.value > maximum {
          return Rejected("control_response_invalid_length");
        }
        length := parsed.value;
      }
    }
    assert headers[|headers|..] == [];
    return if length < 0 then Rejected("control_response_missing_length") else Length(length);
  }

  lemma LowerKeepsLength(s: Bytes)
    ensures |Lower(s)| == |s|
  {
  }

  method ParseControlReply(json: Bytes -> Option<string>, bytes: Bytes, maximum: int) returns (reply: Reply)
    ensures reply == Parse(json, bytes, maximum)
  {
    hide Split, Status, ScanHeaders, Decimal;
    if |bytes| > maximum + HEADER_LIMIT {
      return Failed("control_response_too_large", 0);
    }
    var boundary := FindBoundary(bytes);
    if boundary < 0 {
      return Pending;
    }
    if boundary > HEADER_LIMIT {
      return Failed("control_response_headers_too_large", 0);
    }
    var headers := Split(bytes[..boundary], '\n');
    var status := Status(headers[0]);
    if status.None? {
      return Failed("control_response_invalid_status", 0);
    }
    if status.value != 200 {
      return Failed("control_http_rejected", status.value);
    }
    var length := ReadLength(headers[1..], maximum);
    if length.Rejected? {
      return Failed(length.reason, 200);
    }
    var size := boundary + 4 + length.value;
    if |bytes| < size {
      return Pending;
    }
    if |bytes| != size {
      return Failed("control_response_extra_bytes", 200);
    }
    var document := json(bytes[boundary + 4..]);
    if document.None? {
      return Failed("control_response_invalid_json", 200);
    }
    return Complete(document.value);
  }

  method FindBoundary(bytes: Bytes) returns (r: int)
    ensures r == if Boundary(bytes).Some? then Boundary(bytes).value else -1
  {
    assert bytes[0..] == bytes;
    for i := 0 to |bytes|
      invariant Boundary(bytes) == match Boundary(bytes[i..]) case None => None case Some(k) => Some(k + i)
    {
      assert bytes[i..][1..] == bytes[i + 1..];
      if i + 4 <= |bytes| && bytes[i..i + 4] == CRLF_CRLF {
        assert bytes[i..][..4] == bytes[i..i + 4];
        return i;
      }
      assert |bytes[i..]| >= 4 ==> bytes[i..][..4] == bytes[i..i + 4];
    }
    return -1;
  }

  // ---------------------------------------------------------------------- prefixes

  /** A blank line, once seen, stays the first one. */
  lemma {:induction false} BoundaryStable(s: Bytes, more: Bytes)
    requires Boundary(s).Some?
    ensures Boundary(s + more) == Boundary(s)
  {
    assert (s + more)[..4] == s[..4];
    if s[..4] != CRLF_CRLF {
      BoundaryStable(s[1..], more);
      assert (s + more)[1..] == s[1..] + more;
    }
  }

  /** The verdict on a longer input, in terms of a shorter one that already holds the whole header. */
  lemma ParseExtended(json: Bytes -> Option<string>, s: Bytes, more: Bytes, maximum: int)
    requires Boundary(s).Some? && |s + more| <= maximum + HEADER_LIMIT
    ensures var boundary := Boundary(s).value;
      Parse(json, s + more, maximum) ==
        match Header(s[..boundary], maximum)
        case Rejected(reason) => Failed(reason, HttpStatus(s[..boundary]))
        case Length(length) => Body(json, s + more, boundary + 4, length)
  {
    hide Header, HttpStatus;
    BoundaryStable(s, more);
    var boundary := Boundary(s).value;
    assert (s + more)[..boundary] == s[..boundary];
  }

  /** A verdict of failure is final. */
  lemma FailedStable(json: Bytes -> Option<string>, s: Bytes, more: Bytes, maximum: int)
    requires Parse(json, s, maximum).Failed?
    ensures Parse(json, s + more, maximum).Failed?
  {
    if |s + more| <= maximum + HEADER_LIMIT {
      ParseExtended(json, s, more, maximum);
      hide Header, HttpStatus, Boundary;
      assert more == [] ==> s + more == s;
    }
  }

  /** A complete reply is never prefixed or followed by anything but Pending and Failed. */
  lemma CompleteIsExact(json: Bytes -> Option<string>, s: Bytes, more: Bytes, maximum: int)
    requires more != []
    ensures Parse(json, s, maximum).Complete? ==> Parse(json, s + more, maximum).Failed?
    ensures Parse(json, s + more, maximum).Complete? ==> Parse(json, s, maximum).Pending?
  {
    if |s + more| <= maximum + HEADER_LIMIT && Boundary(s).Some? {
      ParseExtended(json, s, more, maximum);
    }
    hide Header, HttpStatus, Boundary;
  }

  lemma PendingIsBounded(json: Bytes -> Option<string>, s: Bytes, maximum: int)
    requires Parse(json, s, maximum).Pending?
    ensures |s| <= maximum + HEADER_LIMIT
    ensures Boundary(s).Some? ==> |s| < Boundary(s).value + 4 + maximum
  {
    hide Boundary;
    if Boundary(s).Some? {
      var header := s[..Boundary(s).value];
      HeaderLength(header, maximum);
      hide Header, HttpStatus;
    }
  }

  lemma HeaderLength(header: Bytes, maximum: int)
    ensures var r := Header(header, maximum); r.Length? ==> 0 < r.value <= maximum
  {
    hide ScanHeaders, Status;
    LengthIsPositive(Split(header, '\n')[1..], -1, maximum);
  }

  // ---------------------------------------------------------------------- chunking

  /** Receiving chunk by chunk until the parser reaches a verdict. */
  function Receive(json: Bytes -> Option<string>, buffer: Bytes, chunks: seq<Bytes>, maximum: int): Reply
    decreases |chunks|
  {
    if chunks == [] then Pending
    else
      var reply := Parse(json, buffer + chunks[0], maximum);
      if reply.Pending? then Receive(json, buffer + chunks[0], chunks[1..], maximum) else reply
  }

  function Concat(chunks: seq<Bytes>): Bytes {
    if chunks == [] then [] else chunks[0] + Concat(chunks[1..])
  }

  /** However a complete reply is cut into chunks, it is received as the same reply. */
  lemma {:induction false} ChunkingIrrelevant(json: Bytes -> Option<string>, buffer: Bytes, chunks: seq<Bytes>,
                                              maximum: int)
    requires Parse(json, buffer + Concat(chunks), maximum).Complete? && Parse(json, buffer, maximum).Pending?
    ensures Receive(json, buffer, chunks, maximum) == Parse(json, buffer + Concat(chunks), maximum)
    decreases |chunks|
  {
    hide Parse;
    assert chunks == [] ==> buffer + Concat(chunks) == buffer;
    if chunks != [] {
      var next, rest := buffer + chunks[0], Concat(chunks[1..]);
      assert buffer + Concat(chunks) == next + rest;
      if rest == [] {
        assert next + rest == next;
      } else {
        CompleteIsExact(json, next, rest, maximum);
        ChunkingIrrelevant(json, next, chunks[1..], maximum);
      }
    }
  }

  /** The reply is complete when exactly the first `k` chunks have arrived. */
  predicate CompleteAt(json: Bytes -> Option<string>, buffer: Bytes, chunks: seq<Bytes>, k: nat, maximum: int) {
    k <= |chunks| && Parse(json, buffer + Concat(chunks[..k]), maximum).Complete?
  }

  /** The outcome is Complete exactly when the parser would accept what some first chunks hold. */
  lemma {:induction false} CompleteIffCutThere(json: Bytes -> Option<string>, buffer: Bytes, chunks: seq<Bytes>,
                                               maximum: int)
    requires Parse(json, buffer, maximum).Pending?
    ensures Receive(json, buffer, chunks, maximum).Complete?
       <==> exists k: nat :: CompleteAt(json, buffer, chunks, k, maximum)
    decreases |chunks|
  {
    hide Parse, CompleteAt;
    NotYet(json, buffer, chunks, maximum);
    if chunks != [] {
      var next := buffer + chunks[0];
      forall k: nat
        ensures CompleteAt(json, buffer, chunks, k + 1, maximum) <==> CompleteAt(json, next, chunks[1..], k, maximum)
      {
        CutShift(json, buffer, chunks, k, maximum);
      }
      if Parse(json, next, maximum).Pending? {
        CompleteIffCutThere(json, next, chunks[1..], maximum);
        if k: nat :| CompleteAt(json, next, chunks[1..], k, maximum) {
          assert CompleteAt(json, buffer, chunks, k + 1, maximum);
        }
        if k: nat :| CompleteAt(json, buffer, chunks, k, maximum) {
          CutShift(json, buffer, chunks, k - 1, maximum);
          assert CompleteAt(json, next, chunks[1..], k - 1, maximum);
        }
      } else {
        FirstChunkDecides(json, buffer, chunks, maximum);
      }
    }
  }

  lemma NotYet(json: Bytes -> Option<string>, buffer: Bytes, chunks: seq<Bytes>, maximum: int)
    requires Parse(json, buffer, maximum).Pending?
    ensures !CompleteAt(json, buffer, chunks, 0, maximum)
    ensures forall k: nat :: CompleteAt(json, buffer, chunks, k, maximum) ==> k <= |chunks|
  {
    hide Parse;
    assert buffer + Concat(chunks[..0]) == buffer;
  }

  lemma CutShift(json: Bytes -> Option<string>, buffer: Bytes, chunks: seq<Bytes>, k: nat, maximum: int)
    requires chunks != []
    ensures CompleteAt(json, buffer, chunks, k + 1, maximum)
       <==> CompleteAt(json, buffer + chunks[0], chunks[1..], k, maximum)
  {
    hide Parse;
    if k < |chunks| {
      assert chunks[..k + 1][1..] == chunks[1..][..k];
      assert buffer + Concat(chunks[..k + 1]) == buffer + chunks[0] + Concat(chunks[1..][..k]);
    }
  }

  lemma FirstChunkDecides(json: Bytes -> Option<string>, buffer: Bytes, chunks: seq<Bytes>, maximum: int)
    requires chunks != [] && !Parse(json, buffer + chunks[0], maximum).Pending? && Parse(json, buffer, maximum).Pending?
    ensures Parse(json, buffer + chunks[0], maximum).Complete? ==> CompleteAt(json, buffer, chunks, 1, maximum)
    ensures Parse(json, buffer + chunks[0], maximum).Failed? ==>
              forall k: nat :: !CompleteAt(json, buffer, chunks, k, maximum)
  {
    hide Parse;
    var next := buffer + chunks[0];
    assert buffer + Concat(chunks[..1]) == next;
    if Parse(json, next, maximum).Failed? {
      NotYet(json, buffer, chunks, maximum);
      forall k: nat | 0 < k <= |chunks|
        ensures !CompleteAt(json, buffer, chunks, k, maximum)
      {
        FailedStable(json, next, Concat(chunks[..k][1..]), maximum);
        assert buffer + Concat(chunks[..k]) == next + Concat(chunks[..k][1..]);
      }
    }
  }

  // ------------------------------------------------------------------ where to cut

  /** With bytes to spare after the reply, the outcome depends on the cut. */
  lemma SurplusDependsOnCut(json: Bytes -> Option<string>, s: Bytes, more: Bytes, maximum: int)
    requires Parse(json, s, maximum).Complete? && more != []
    ensures Receive(json, [], [s, more], maximum) == Parse(json, s, maximum)
    ensures Receive(json, [], [s + more], maximum).Failed?
  {
    hide Parse;
    CompleteIsExact(json, s, more, maximum);
    assert [] + s == s && [] + (s + more) == s + more;
  }

  /** Where the reply at the start of a stream ends: after the blank line and the declared number of bytes. */
  function ReplyEnd(stream: Bytes, maximum: int): Option<int> {
    match Boundary(stream)
    case None => None
    case Some(boundary) =>
      match Header(stream[..boundary], maximum)
      case Rejected(_) => None
      case Length(length) => Some(boundary + 4 + length)
  }

  /** The stream starts with a reply that ends at `end` and is acceptable. */
  predicate Acceptable(json: Bytes -> Option<string>, stream: Bytes, end: int, maximum: int) {
    && ReplyEnd(stream, maximum) == Some(end) && end <= |stream| && end <= maximum + HEADER_LIMIT
    && Boundary(stream).Some? && Boundary(stream).value + 4 <= end
    && json(stream[Boundary(stream).value + 4..end]).Some?
  }

  lemma {:induction false} BoundaryOfPrefix(stream: Bytes, n: nat)
    requires n <= |stream| && Boundary(stream).Some? && Boundary(stream).value + 4 <= n
    ensures Boundary(stream[..n]) == Boundary(stream)
  {
    assert stream[..n][..4] == stream[..4];
    if stream[..4] != CRLF_CRLF {
      BoundaryOfPrefix(stream[1..], n - 1);
      assert stream[1..][..n - 1] == stream[..n][1..];
    }
  }

  /** A prefix of a stream is a complete reply exactly when it ends where the stream's reply does. */
  lemma CompleteIffEnd(json: Bytes -> Option<string>, stream: Bytes, n: nat, maximum: int)
    requires n <= |stream|
    ensures Parse(json, stream[..n], maximum).Complete? <==> Acceptable(json, stream, n, maximum)
  {
    hide Header, HttpStatus;
    assert stream == stream[..n] + stream[n..];
    if Boundary(stream[..n]).Some? { BoundaryStable(stream[..n], stream[n..]); }
    if Boundary(stream).Some? {
      var boundary := Boundary(stream).value;
      HeaderLength(stream[..boundary], maximum);
      if boundary + 4 <= n {
        BoundaryOfPrefix(stream, n);
        hide Boundary;
        assert stream[..n][..boundary] == stream[..boundary];
        assert stream[..n][boundary + 4..] == stream[boundary + 4..n];
      }
    }
  }

  /** Some number of chunks ends exactly there. */
  predicate CutAt(buffer: Bytes, chunks: seq<Bytes>, k: nat, end: int) {
    k <= |chunks| && |buffer + Concat(chunks[..k])| == end
  }

  lemma {:induction false} ConcatPrefix(chunks: seq<Bytes>, k: nat)
    requires k <= |chunks|
    ensures |Concat(chunks[..k])| <= |Concat(chunks)|
    ensures Concat(chunks)[..|Concat(chunks[..k])|] == Concat(chunks[..k])
  {
    if k > 0 {
      assert chunks[..k][1..] == chunks[1..][..k - 1];
      ConcatPrefix(chunks[1..], k - 1);
      assert Concat(chunks) == chunks[0] + Concat(chunks[1..]);
    }
  }

  lemma CompleteAtIffCut(json: Bytes -> Option<string>, buffer: Bytes, chunks: seq<Bytes>, k: nat, maximum: int)
    requires k <= |chunks|
    ensures var stream, n := buffer + Concat(chunks), |buffer + Concat(chunks[..k])|;
      CompleteAt(json, buffer, chunks, k, maximum) <==> Acceptable(json, stream, n, maximum)
  {
    hide Parse, Acceptable;
    ConcatPrefix(chunks, k);
    var stream, part := buffer + Concat(chunks), buffer + Concat(chunks[..k]);
    assert stream[..|part|] == part;
    CompleteIffEnd(json, stream, |part|, maximum);
  }

  /**
   For every stream and every way of cutting it: the reply is received exactly if it is acceptable and a chunk
   ends at its end, that is at the blank line plus four plus the declared length.
   */
  lemma CompleteIffCutAtEnd(json: Bytes -> Option<string>, buffer: Bytes, chunks: seq<Bytes>, maximum: int)
    requires Parse(json, buffer, maximum).Pending?
    ensures var stream := buffer + Concat(chunks);
      Receive(json, buffer, chunks, maximum).Complete?
      <==> && ReplyEnd(stream, maximum).Some? && Acceptable(json, stream, ReplyEnd(stream, maximum).value, maximum)
           && exists k: nat :: CutAt(buffer, chunks, k, ReplyEnd(stream, maximum).value)
  {
    hide Parse, Receive, ReplyEnd;
    var stream := buffer + Concat(chunks);
    CompleteIffCutThere(json, buffer, chunks, maximum);
    if k: nat :| CompleteAt(json, buffer, chunks, k, maximum) {
      CompleteAtIffCut(json, buffer, chunks, k, maximum);
      assert CutAt(buffer, chunks, k, ReplyEnd(stream, maximum).value);
    }
    if ReplyEnd(stream, maximum).Some? && Acceptable(json, stream, ReplyEnd(stream, maximum).value, maximum) {
      if k: nat :| CutAt(buffer, chunks, k, ReplyEnd(stream, maximum).value) {
        CompleteAtIffCut(json, buffer, chunks, k, maximum);
      }
    }
  }
}
