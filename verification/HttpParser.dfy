/** The incremental HTTP/1.1 request parser: what it reads from a buffer, and the object that owns the buffer. */
module HttpParser {
  import opened Basics

  type Byte = b: int | 0 <= b < 256

  const CR: Byte := 13
  const LF: Byte := 10
  const SPACE: Byte := 32
  const TAB: Byte := 9
  const COLON: Byte := 58
  const CRLF: seq<Byte> := [CR, LF]
  const BLANK: seq<Byte> := [CR, LF, CR, LF]

  // "HTTP/1.1", "host", "content-length" and "transfer-encoding" as bytes
  const VERSION: seq<Byte> := [72, 84, 84, 80, 47, 49, 46, 49]
  const HOST: seq<Byte> := [104, 111, 115, 116]
  const CONTENT_LENGTH: seq<Byte> := [99, 111, 110, 116, 101, 110, 116, 45, 108, 101, 110, 103, 116, 104]
  const TRANSFER_ENCODING: seq<Byte> :=
    [116, 114, 97, 110, 115, 102, 101, 114, 45, 101, 110, 99, 111, 100, 105, 110, 103]

  datatype Limits = Limits(line: nat, header: nat, headers: nat, body: nat, buffer: nat) {
    predicate Valid() {
      line > 0 && header > 0 && headers > 0 && body > 0 && buffer > 0 && line <= header && header + body <= buffer
    }
  }

  datatype Header = Header(name: seq<Byte>, value: seq<Byte>)
  datatype Request = Request(method_: seq<Byte>, target: seq<Byte>, headers: seq<Header>, body: seq<Byte>)

  // ----- Searching and splitting -----

  /** The first place at or after `i` where `pattern` occurs. */
  function Find(b: seq<Byte>, pattern: seq<Byte>, i: nat): (r: Option<nat>)
    ensures r.Some? ==> i <= r.value && r.value + |pattern| <= |b| && b[r.value..r.value + |pattern|] == pattern
    decreases |b| - i
  {
    if i + |pattern| > |b| || i >= |b| then None
    else if b[i..i + |pattern|] == pattern then Some(i)
    else Find(b, pattern, i + 1)
  }

  function Split(b: seq<Byte>, separator: seq<Byte>): (r: seq<seq<Byte>>)
    ensures |r| >= 1
    decreases |b|
  {
    var at := Find(b, separator, 0);
    if at.None? || separator == [] then [b]
    else [b[..at.value]] + Split(b[at.value + |separator|..], separator)
  }

  function StripLeft(b: seq<Byte>): seq<Byte> {
    if b != [] && (b[0] == SPACE || b[0] == TAB) then StripLeft(b[1..]) else b
  }

  function StripRight(b: seq<Byte>): seq<Byte> {
    if b != [] && (b[|b| - 1] == SPACE || b[|b| - 1] == TAB) then StripRight(b[..|b| - 1]) else b
  }

  // ----- The request line and the headers -----

  predicate IsDigit(c: Byte) { 48 <= c <= 57 }

  predicate IsToken(c: Byte) {
    || IsDigit(c) || 65 <= c <= 90 || 97 <= c <= 122
    || c in [33, 35, 36, 37, 38, 39, 42, 43, 45, 46, 94, 95, 96, 124, 126]
  }

  function Lower(b: seq<Byte>): seq<Byte> {
    seq(|b|, k requires 0 <= k < |b| => if 65 <= b[k] <= 90 then b[k] + 32 else b[k])
  }

  datatype Line = BadLine(status: nat) | GoodLine(method_: seq<Byte>, target: seq<Byte>)

  function RequestLine(line: seq<Byte>): Line {
    var parts := Split(line, [SPACE]);
    if |parts| != 3 || parts[0] == [] || parts[1] == [] || parts[2] == [] then BadLine(400)
    else if exists c :: c in parts[0] && !IsToken(c) then BadLine(400)
    else if exists c :: c in parts[1] && (c >= 128 || c < 33 || c == 127) then BadLine(400)
    else if parts[2] != VERSION then BadLine(400)
    else GoodLine(parts[0], parts[1])
  }

  datatype Field = BadField(status: nat) | GoodField(header: Header)

  function HeaderLine(line: seq<Byte>): Field {
    if line == [] || line[0] == SPACE || line[0] == TAB then BadField(400)
    else
      var at := Find(line, [COLON], 0);
      if at.None? || at.value == 0 || exists c :: c in line[..at.value] && !IsToken(c) then BadField(400)
      else
        var value := StripRight(StripLeft(line[at.value + 1..]));
        if exists c :: c in value && ((c < 32 && c != 9) || c == 127) then BadField(400)
        else GoodField(Header(Lower(line[..at.value]), value))
  }

  datatype Fields = BadFields(status: nat) | GoodFields(headers: seq<Header>)

  function HeaderLines(lines: seq<seq<Byte>>): Fields {
    if lines == [] then GoodFields([])
    else
      match HeaderLines(lines[..|lines| - 1])
      case BadFields(status) => BadFields(status)
      case GoodFields(headers) =>
        match HeaderLine(lines[|lines| - 1])
        case BadField(status) => BadFields(status)
        case GoodField(header) => GoodFields(headers + [header])
  }

  function Values(headers: seq<Header>, name: seq<Byte>): seq<seq<Byte>> {
    if headers == [] then []
    else
      var h := headers[|headers| - 1];
      Values(headers[..|headers| - 1], name) + if h.name == name then [h.value] else []
  }

  function Headers(l: Limits, lines: seq<seq<Byte>>): Fields {
    if |lines| > l.headers then BadFields(431)
    else
      match HeaderLines(lines)
      case BadFields(status) => BadFields(status)
      case GoodFields(headers) =>
        var hosts := Values(headers, HOST);
        if |hosts| != 1 || hosts[0] == [] then BadFields(400) else GoodFields(headers)
  }

  // ----- The content length -----

  predicate AllDigits(digits: seq<Byte>) {
    forall k :: 0 <= k < |digits| ==> IsDigit(digits[k])
  }

  function Number(digits: seq<Byte>): nat
    requires AllDigits(digits)
  {
    if digits == [] then 0
    else
      var last: int := digits[|digits| - 1];
      10 * Number(digits[..|digits| - 1]) + (last - 48)
  }

  function StripZeros(digits: seq<Byte>): (r: seq<Byte>)
    ensures AllDigits(digits) ==> AllDigits(r)
  {
    if digits != [] && digits[0] == 48 then StripZeros(digits[1..]) else digits
  }

  /** How many decimal digits a number has. */
  function DigitCount(n: nat): nat {
    if n < 10 then 1 else 1 + DigitCount(n / 10)
  }

  datatype Length = BadLength(status: nat) | GoodLength(bytes: nat)

  function ContentLength(l: Limits, headers: seq<Header>): Length {
    var lengths := Values(headers, CONTENT_LENGTH);
    var encodings := Values(headers, TRANSFER_ENCODING);
    if encodings != [] && lengths != [] then BadLength(400)
    else if encodings != [] then BadLength(501)
    else if |lengths| > 1 then BadLength(400)
    else if lengths == [] then GoodLength(0)
    else DecimalLength(l, lengths[0])
  }

  function DecimalLength(l: Limits, value: seq<Byte>): Length {
    if value == [] || !AllDigits(value) then BadLength(400)
    else
      var stripped := StripZeros(value);
      var normalized := if stripped == [] then [48] else stripped;
      if |normalized| > DigitCount(l.body) then BadLength(413)
      else
        var length := Number(normalized);
        if length > l.body then BadLength(413) else GoodLength(length)
  }

  // ----- One request -----

  datatype Head =
    | BadHead(status: nat)
    | GoodHead(method_: seq<Byte>, target: seq<Byte>, headers: seq<Header>, body: nat)

  /** Everything before the blank line. */
  function ParseHead(l: Limits, head: seq<Byte>): Head {
    var lines := Split(head, CRLF);
    match RequestLine(lines[0])
    case BadLine(status) => BadHead(status)
    case GoodLine(method_, target) =>
      match Headers(l, lines[1..])
      case BadFields(status) => BadHead(status)
      case GoodFields(headers) =>
        match ContentLength(l, headers)
        case BadLength(status) => BadHead(status)
        case GoodLength(bytes) => GoodHead(method_, target, headers, bytes)
  }

  datatype Parsed = NeedMore | Bad(status: nat) | Ok(request: Request, consumed: nat)

  function ParseOne(l: Limits, b: seq<Byte>): (r: Parsed)
    ensures r.Ok? ==> 4 <= r.consumed <= |b|
  {
    var line := Find(b, CRLF, 0);
    if line.None? then
      if |b| > l.line then Bad(414) else NeedMore
    else if line.value > l.line then Bad(414)
    else
      var end := Find(b, BLANK, line.value);
      if end.None? then
        if |b| > l.header then Bad(431) else NeedMore
      else if end.value + 4 > l.header then Bad(431)
      else
        match ParseHead(l, b[..end.value])
        case BadHead(status) => Bad(status)
        case GoodHead(method_, target, headers, body) =>
          var consumed := end.value + 4 + body;
          if |b| < consumed then NeedMore
          else Ok(Request(method_, target, headers, b[end.value + 4..consumed]), consumed)
  }

  // ----- Many requests -----

  /** Requests parsed, what is left of the buffer, and the error that stopped the parser, if any. */
  datatype Drained = Drained(requests: seq<Request>, rest: seq<Byte>, error: Option<nat>)

  function Prepend(r: Request, d: Drained): Drained {
    d.(requests := [r] + d.requests)
  }

  predicate Exhausted(max: Option<nat>) {
    max == Some(0)
  }

  function Less(max: Option<nat>): Option<nat> {
    if max.None? then None else Some(if max.value == 0 then 0 else max.value - 1)
  }

  /** Take requests off the front of a buffer until there is no complete one, or `max` have been taken. */
  function Drain(l: Limits, b: seq<Byte>, max: Option<nat>): Drained
    decreases |b|
  {
    if Exhausted(max) then Drained([], b, None)
    else
      match ParseOne(l, b)
      case NeedMore => Drained([], b, None)
      case Bad(status) => Drained([], b, Some(status))
      case Ok(request, consumed) => Prepend(request, Drain(l, b[consumed..], Less(max)))
  }

  // ----- The parser object -----

  class HttpRequestParser {
    const limits: Limits
    var buffer: seq<Byte>

    constructor (limits: Limits)
      requires limits.Valid()
      ensures this.limits == limits && buffer == []
    {
      this.limits := limits;
      buffer := [];
    }

    /** Add data to the buffer and take off up to `max` requests. */
    method Feed(data: seq<Byte>, max: Option<nat>) returns (requests: seq<Request>, error: Option<nat>)
      modifies this
      ensures if |old(buffer)| + |data| > limits.buffer then
                buffer == old(buffer) && requests == [] && error == Some(413)
              else
                Drain(limits, old(buffer) + data, max) == Drained(requests, buffer, error)
    {
      hide ParseOne;
      requests := [];
      if |buffer| + |data| > limits.buffer { return [], Some(413); }
      buffer := buffer + data;
      ghost var whole := buffer;
      ghost var left := max;
      while max.None? || |requests| < max.value
        invariant left == (if max.None? then None
                           else if |requests| <= max.value then Some(max.value - |requests|) else None)
        invariant max.Some? ==> |requests| <= max.value
        invariant Drain(limits, whole, max)
                  == var d := Drain(limits, buffer, left); d.(requests := requests + d.requests)
        decreases |buffer|
      {
        var parsed := ParseOne(limits, buffer);
        match parsed {
          case NeedMore =>
            assert requests + [] == requests;
            return requests, None;
          case Bad(status) =>
            assert requests + [] == requests;
            return requests, Some(status);
          case Ok(request, consumed) =>
            ghost var d := Drain(limits, buffer[consumed..], Less(left));
            assert requests + ([request] + d.requests) == (requests + [request]) + d.requests;
            buffer := buffer[consumed..];
            requests := requests + [request];
            left := Less(left);
        }
      }
      assert requests + [] == requests;
      error := None;
    }

    /** The end of the input: what is left must be complete requests. */
    method Finish(max: Option<nat>) returns (requests: seq<Request>, error: Option<nat>)
      requires |buffer| <= limits.buffer
      modifies this
      ensures var d := Drain(limits, old(buffer), max);
              && requests == d.requests && buffer == d.rest
              && error == if d.error.Some? then d.error
                          else if max.Some? && |requests| == max.value then None
                          else if d.rest != [] then Some(400) else None
    {
      hide ParseOne;
      assert buffer + [] == buffer;
      requests, error := Feed([], max);
      if error.Some? { return; }
      if max.Some? && (max.value == 0 || |requests| == max.value) { return; }
      if buffer != [] { error := Some(400); }
    }
  }
}
