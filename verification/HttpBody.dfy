/**
 The body of a forwarded HTTP/1.1 request, byte by byte.

 `Feed` is the automaton the proxy's body gate is: it eats bytes until the body
 is complete, a byte is refused or the data runs out. `Render` is the other
 side: what a chunked body looks like on the wire, as a grammar with no
 automaton and no trimming in it. HttpBodyFraming proves the two agree, and
 HttpBodyStandard relates the grammar to section 7.1 of RFC 9112.
 */
module HttpBody {
  import opened Prelude

  type Byte = b: int | 0 <= b < 256

  const CR: Byte := 0x0d
  const LF: Byte := 0x0a
  const SEMICOLON: Byte := 0x3b
  const CRLF: seq<Byte> := [CR, LF]

  const MAX_LINE_BYTES := 8 * 1024
  const MAX_TRAILER_BYTES := 64 * 1024
  const MAX_SAFE_INTEGER := 0x1F_FFFF_FFFF_FFFF

  datatype Error = BadDataEnd | TrailersTooLarge | LineTooLarge | BadSize | SizeTooLarge

  // ----- The size line -----

  predicate IsHex(b: Byte) { 0x30 <= b <= 0x39 || 0x41 <= b <= 0x46 || 0x61 <= b <= 0x66 }

  function HexDigit(b: Byte): (d: nat)
    requires IsHex(b)
    ensures d < 16
  {
    if b <= 0x39 then b - 0x30 else if b <= 0x46 then b - 0x41 + 10 else b - 0x61 + 10
  }

  function HexValue(digits: seq<Byte>): nat
    requires forall b :: b in digits ==> IsHex(b)
  {
    if digits == [] then 0 else 16 * HexValue(digits[..|digits| - 1]) + HexDigit(digits[|digits| - 1])
  }

  /** What `String.prototype.trim` removes, among the characters a byte can be. */
  predicate IsSpace(b: Byte) { 0x09 <= b <= 0x0d || b == 0x20 || b == 0xa0 }

  function TrimStart(s: seq<Byte>): seq<Byte> { if s != [] && IsSpace(s[0]) then TrimStart(s[1..]) else s }

  function TrimEnd(s: seq<Byte>): seq<Byte> { if s != [] && IsSpace(s[|s| - 1]) then TrimEnd(s[..|s| - 1]) else s }

  function BeforeSemicolon(line: seq<Byte>): seq<Byte> {
    if line == [] || line[0] == SEMICOLON then [] else [line[0]] + BeforeSemicolon(line[1..])
  }

  function SizeToken(line: seq<Byte>): seq<Byte> { TrimEnd(TrimStart(BeforeSemicolon(line))) }

  datatype Size = Size(bytes: nat) | BadLine(error: Error)

  /** The size a chunk's first line announces. */
  function SizeOf(line: seq<Byte>): Size {
    var token := SizeToken(line);
    if token == [] || exists b :: b in token && !IsHex(b) then BadLine(BadSize)
    else if HexValue(token) > MAX_SAFE_INTEGER then BadLine(SizeTooLarge)
    else Size(HexValue(token))
  }

  // ----- The automaton -----

  datatype ChunkState = AtSize | InData | AtDataEnd | InTrailers

  datatype Chunked = Chunked(state: ChunkState, remaining: nat, line: seq<Byte>, dataEndOffset: nat, trailerBytes: nat, completed: bool)

  const START: Chunked := Chunked(AtSize, 0, [], 0, 0, false)

  datatype Verdict = Going(next: Chunked) | Refused(error: Error)

  predicate EndsLine(line: seq<Byte>) { |line| >= 2 && line[|line| - 2] == CR && line[|line| - 1] == LF }

  /** What the gate may be in between two bytes. */
  predicate Sane(c: Chunked) {
    && (c.state == InData ==> c.remaining > 0)
    && (c.state == AtDataEnd ==> c.remaining == 0)
    && (c.state != AtDataEnd ==> c.dataEndOffset == 0) && c.dataEndOffset < 2
    && (c.completed ==> c.state == InTrailers)
  }

  function EndLine(c: Chunked, line: seq<Byte>): Verdict {
    if c.state == InTrailers then Going(c.(line := [], completed := line == []))
    else
      match SizeOf(line)
      case BadLine(error) => Refused(error)
      case Size(bytes) =>
        if bytes == 0 then Going(c.(line := [], state := InTrailers))
        else Going(c.(line := [], state := InData, remaining := bytes))
  }

  function LineByte(c: Chunked, b: Byte): Verdict {
    var trailerBytes := if c.state == InTrailers then c.trailerBytes + 1 else c.trailerBytes;
    var line := c.line + [b];
    if c.state == InTrailers && trailerBytes > MAX_TRAILER_BYTES then Refused(TrailersTooLarge)
    else if |line| > MAX_LINE_BYTES then Refused(LineTooLarge)
    else if !EndsLine(line) then Going(c.(line := line, trailerBytes := trailerBytes))
    else EndLine(c.(trailerBytes := trailerBytes), line[..|line| - 2])
  }

  function NextByte(c: Chunked, b: Byte): Verdict {
    match c.state
    case InData =>
      if c.remaining <= 1 then Going(c.(remaining := 0, state := AtDataEnd)) else Going(c.(remaining := c.remaining - 1))
    case AtDataEnd =>
      if b != (if c.dataEndOffset == 0 then CR else LF) then Refused(BadDataEnd)
      else if c.dataEndOffset == 0 then Going(c.(dataEndOffset := 1))
      else Going(c.(dataEndOffset := 0, state := AtSize))
    case _ => LineByte(c, b)
  }

  datatype Outcome = Fed(bytes: nat, next: Chunked) | Failed(error: Error)

  function Shift(n: nat, o: Outcome): Outcome { if o.Fed? then o.(bytes := o.bytes + n) else o }

  /** Bytes one at a time until the body is complete, a byte is refused or the data runs out. */
  function Feed(c: Chunked, data: seq<Byte>): (o: Outcome)
    ensures o.Fed? ==> o.bytes <= |data| && (o.next.completed || o.bytes == |data|)
    decreases |data|
  {
    if data == [] || c.completed then Fed(0, c)
    else
      match NextByte(c, data[0])
      case Refused(error) => Failed(error)
      case Going(next) => Shift(1, Feed(next, data[1..]))
  }

  // ----- What a chunked body is -----

  datatype Chunk = Chunk(sizeLine: seq<Byte>, data: seq<Byte>)

  datatype Body = Body(chunks: seq<Chunk>, lastLine: seq<Byte>, trailers: seq<seq<Byte>>)

  function RenderLine(line: seq<Byte>): seq<Byte> { line + CRLF }

  function RenderChunks(chunks: seq<Chunk>): seq<Byte> {
    if chunks == [] then []
    else RenderLine(chunks[0].sizeLine) + (chunks[0].data + CRLF) + RenderChunks(chunks[1..])
  }

  function RenderTrailers(trailers: seq<seq<Byte>>): seq<Byte> {
    if trailers == [] then CRLF else RenderLine(trailers[0]) + RenderTrailers(trailers[1..])
  }

  function Render(body: Body): seq<Byte> {
    RenderChunks(body.chunks) + (RenderLine(body.lastLine) + RenderTrailers(body.trailers))
  }

  /** A line no longer than the gate accepts, whose end is the first CR LF in it. */
  predicate IsLine(line: seq<Byte>) {
    && |line| + 2 <= MAX_LINE_BYTES
    && forall i :: 0 <= i < |line| ==> !(RenderLine(line)[i] == CR && RenderLine(line)[i + 1] == LF)
  }

  /** The parts of a chunk's first line: padding, hex digits, padding, and anything at all after a semicolon. */
  datatype SizeLine = SizeLine(before: seq<Byte>, digits: seq<Byte>, after: seq<Byte>, extension: seq<Byte>)

  function RenderSizeLine(l: SizeLine): seq<Byte> { l.before + l.digits + l.after + l.extension }

  predicate IsPadding(s: seq<Byte>) { forall b :: b in s ==> IsSpace(b) }

  predicate IsHexNumber(s: seq<Byte>) { s != [] && forall b :: b in s ==> IsHex(b) }

  predicate IsSizeLine(l: SizeLine) {
    && IsPadding(l.before) && IsHexNumber(l.digits) && IsPadding(l.after)
    && (l.extension == [] || l.extension[0] == SEMICOLON)
  }

  predicate ReadsAs(line: seq<Byte>, l: SizeLine) { IsSizeLine(l) && RenderSizeLine(l) == line }

  /** The line says this size, and it is one the gate can count. */
  ghost predicate Announces(line: seq<Byte>, size: nat) {
    size <= MAX_SAFE_INTEGER && exists l :: ReadsAs(line, l) && HexValue(l.digits) == size
  }

  ghost predicate IsChunk(chunk: Chunk) {
    IsLine(chunk.sizeLine) && chunk.data != [] && Announces(chunk.sizeLine, |chunk.data|)
  }

  predicate AreTrailers(trailers: seq<seq<Byte>>) {
    && |RenderTrailers(trailers)| <= MAX_TRAILER_BYTES
    && forall line :: line in trailers ==> IsLine(line) && line != []
  }

  ghost predicate IsBody(body: Body) {
    && (forall chunk :: chunk in body.chunks ==> IsChunk(chunk))
    && IsLine(body.lastLine) && Announces(body.lastLine, 0)
    && AreTrailers(body.trailers)
  }

  ghost predicate IsChunkedBody(bytes: seq<Byte>) { exists body :: IsBody(body) && Render(body) == bytes }
}
