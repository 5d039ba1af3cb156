/**
 Chunked bodies as section 7.1 of RFC 9112 has them, and how the gate's own
 grammar relates: every one of them within the gate's limits is forwarded
 exactly, and the bodies forwarded beyond them are those with a size line
 padded in other ways, an extension of no known form or a trailer that is no
 field line.
 */
module HttpBodyStandard {
  import opened HttpBody
  import opened HttpSizeLine
  import opened HttpBodyFraming
  import opened HttpForwardBody

  // ----- Tokens, blanks and quoted strings (sections 5.5 and 5.6 of RFC 9110) -----

  const QUOTE: Byte := 0x22
  const BACKSLASH: Byte := 0x5c
  const EQUALS: Byte := 0x3d
  const COLON: Byte := 0x3a

  predicate IsBlank(b: Byte) { b == 0x20 || b == 0x09 }

  predicate AreBlanks(s: seq<Byte>) { forall b :: b in s ==> IsBlank(b) }

  predicate IsVisible(b: Byte) { 0x21 <= b <= 0x7e || 0x80 <= b }

  predicate IsTokenByte(b: Byte) {
    || 0x30 <= b <= 0x39 || 0x41 <= b <= 0x5a || 0x5e <= b <= 0x7a || b == 0x7c || b == 0x7e
    || b == 0x21 || 0x23 <= b <= 0x27 || b == 0x2a || b == 0x2b || b == 0x2d || b == 0x2e
  }

  predicate IsToken(s: seq<Byte>) { s != [] && forall b :: b in s ==> IsTokenByte(b) }

  datatype Quoted = Plain(b: Byte) | Escaped(b: Byte)

  predicate IsQuoted(q: Quoted) { (IsBlank(q.b) || IsVisible(q.b)) && (q.Plain? ==> q.b != QUOTE && q.b != BACKSLASH) }

  function RenderQuoted(items: seq<Quoted>): seq<Byte> {
    if items == [] then []
    else (if items[0].Plain? then [items[0].b] else [BACKSLASH, items[0].b]) + RenderQuoted(items[1..])
  }

  // ----- Chunk extensions (section 7.1.1 of RFC 9112) -----

  datatype Value = NoValue | Token(token: seq<Byte>) | String(items: seq<Quoted>)

  /** Four runs of blanks: before and after the semicolon, and before and after the equals sign. */
  datatype Extension = Extension(before: seq<Byte>, between: seq<Byte>, name: seq<Byte>, left: seq<Byte>, right: seq<Byte>, value: Value)

  predicate IsExtension(e: Extension) {
    && AreBlanks(e.before) && AreBlanks(e.between) && IsToken(e.name) && AreBlanks(e.left) && AreBlanks(e.right)
    && match e.value
       case NoValue => e.left == [] && e.right == []
       case Token(token) => IsToken(token)
       case String(items) => forall q :: q in items ==> IsQuoted(q)
  }

  function RenderValue(e: Extension): seq<Byte> {
    match e.value
    case NoValue => []
    case Token(token) => e.left + [EQUALS] + e.right + token
    case String(items) => e.left + [EQUALS] + e.right + [QUOTE] + RenderQuoted(items) + [QUOTE]
  }

  function RenderFromSemicolon(e: Extension): seq<Byte> { [SEMICOLON] + e.between + e.name + RenderValue(e) }

  function RenderExtensions(extensions: seq<Extension>): seq<Byte> {
    if extensions == [] then []
    else extensions[0].before + RenderFromSemicolon(extensions[0]) + RenderExtensions(extensions[1..])
  }

  predicate AreExtensions(extensions: seq<Extension>) { forall e :: e in extensions ==> IsExtension(e) }

  // ----- Bodies -----

  datatype StandardLine = StandardLine(digits: seq<Byte>, extensions: seq<Extension>)

  predicate IsStandardLine(l: StandardLine) { IsHexNumber(l.digits) && AreExtensions(l.extensions) }

  function RenderSize(l: StandardLine): seq<Byte> { l.digits + RenderExtensions(l.extensions) }

  datatype StandardChunk = StandardChunk(line: StandardLine, data: seq<Byte>)

  datatype Field = Field(name: seq<Byte>, value: seq<Byte>)

  /** The optional blanks around a field's value are blanks like those in it. */
  predicate IsField(f: Field) { IsToken(f.name) && forall b :: b in f.value ==> IsBlank(b) || IsVisible(b) }

  function RenderField(f: Field): seq<Byte> { f.name + [COLON] + f.value }

  datatype StandardBody = StandardBody(chunks: seq<StandardChunk>, last: StandardLine, fields: seq<Field>)

  predicate IsStandardChunk(c: StandardChunk) { IsStandardLine(c.line) && c.data != [] && HexValue(c.line.digits) == |c.data| }

  predicate IsStandardBody(body: StandardBody) {
    && (forall c :: c in body.chunks ==> IsStandardChunk(c))
    && IsStandardLine(body.last) && (forall b :: b in body.last.digits ==> b == 0x30)
    && (forall f :: f in body.fields ==> IsField(f))
  }

  function Chunks(chunks: seq<StandardChunk>): seq<Chunk> {
    if chunks == [] then [] else [Chunk(RenderSize(chunks[0].line), chunks[0].data)] + Chunks(chunks[1..])
  }

  function Trailers(fields: seq<Field>): seq<seq<Byte>> {
    if fields == [] then [] else [RenderField(fields[0])] + Trailers(fields[1..])
  }

  function Lines(body: StandardBody): Body { Body(Chunks(body.chunks), RenderSize(body.last), Trailers(body.fields)) }

  /** No longer than the gate reads lines, trailers and sizes. */
  predicate WithinLimits(body: StandardBody) {
    && (forall c :: c in body.chunks ==> |RenderSize(c.line)| + 2 <= MAX_LINE_BYTES && |c.data| <= MAX_SAFE_INTEGER)
    && |RenderSize(body.last)| + 2 <= MAX_LINE_BYTES
    && (forall f :: f in body.fields ==> |RenderField(f)| + 2 <= MAX_LINE_BYTES)
    && |RenderTrailers(Trailers(body.fields))| <= MAX_TRAILER_BYTES
  }

  // ----- Lines of the standard are lines -----

  lemma {:induction false} QuotedHasNoCr(items: seq<Quoted>)
    requires forall q :: q in items ==> IsQuoted(q)
    ensures CR !in RenderQuoted(items)
  {
    if items != [] {
      assert items[0] in items;
      QuotedHasNoCr(items[1..]);
    }
  }

  lemma ExtensionHasNoCr(e: Extension)
    requires IsExtension(e)
    ensures CR !in e.before && CR !in RenderFromSemicolon(e)
  {
    if e.value.String? { QuotedHasNoCr(e.value.items); }
  }

  lemma {:induction false} ExtensionsHaveNoCr(extensions: seq<Extension>)
    requires AreExtensions(extensions)
    ensures CR !in RenderExtensions(extensions)
  {
    if extensions != [] {
      assert extensions[0] in extensions;
      ExtensionHasNoCr(extensions[0]);
      ExtensionsHaveNoCr(extensions[1..]);
    }
  }

  lemma LineWithoutCr(line: seq<Byte>)
    requires CR !in line
    ensures IsLine(line) <==> |line| + 2 <= MAX_LINE_BYTES
  {
    forall i | 0 <= i < |line| ensures RenderLine(line)[i] != CR { assert line[i] in line; }
  }

  /** A size line of the standard is one of the gate's, unpadded and with its first blanks before the semicolon. */
  lemma StandardForm(line: StandardLine) returns (l: SizeLine)
    requires IsStandardLine(line)
    ensures ReadsAs(RenderSize(line), l) && l.before == [] && l.digits == line.digits
    ensures l.after + l.extension == RenderExtensions(line.extensions)
  {
    if line.extensions == [] {
      l := SizeLine([], line.digits, [], []);
    } else {
      var e := line.extensions[0];
      assert e in line.extensions;
      l := SizeLine([], line.digits, e.before, RenderFromSemicolon(e) + RenderExtensions(line.extensions[1..]));
    }
  }

  /** Every size line of the standard is a line if it is short enough, and announces the size it says if that is small enough. */
  lemma StandardLineIsRead(line: StandardLine, size: nat)
    requires IsStandardLine(line)
    ensures IsLine(RenderSize(line)) <==> |RenderSize(line)| + 2 <= MAX_LINE_BYTES
    ensures Announces(RenderSize(line), size) <==> HexValue(line.digits) == size <= MAX_SAFE_INTEGER
  {
    ExtensionsHaveNoCr(line.extensions);
    assert CR !in line.digits;
    LineWithoutCr(RenderSize(line));
    var l := StandardForm(line);
    forall other | ReadsAs(RenderSize(line), other) ensures other.digits == line.digits {
      TokenOf(l);
      TokenOf(other);
    }
  }

  lemma FieldIsLine(f: Field)
    requires IsField(f)
    ensures RenderField(f) != [] && (IsLine(RenderField(f)) <==> |RenderField(f)| + 2 <= MAX_LINE_BYTES)
  {
    LineWithoutCr(RenderField(f));
  }

  // ----- Bodies of the standard are bodies -----

  lemma {:induction false} ZerosAreZero(digits: seq<Byte>)
    requires forall b :: b in digits ==> IsHex(b)
    ensures HexValue(digits) == 0 <==> forall b :: b in digits ==> b == 0x30
    decreases |digits|
  {
    if digits != [] {
      var n := |digits| - 1;
      assert digits == digits[..n] + [digits[n]];
      assert forall b :: b in digits <==> b in digits[..n] || b == digits[n];
      assert HexDigit(digits[n]) == 0 <==> digits[n] == 0x30;
      ZerosAreZero(digits[..n]);
    }
  }

  lemma {:induction false} ChunksAt(chunks: seq<StandardChunk>)
    ensures |Chunks(chunks)| == |chunks|
    ensures forall i :: 0 <= i < |chunks| ==> Chunks(chunks)[i] == Chunk(RenderSize(chunks[i].line), chunks[i].data)
  {
    if chunks != [] { ChunksAt(chunks[1..]); }
  }

  lemma {:induction false} TrailersAt(fields: seq<Field>)
    ensures |Trailers(fields)| == |fields|
    ensures forall i :: 0 <= i < |fields| ==> Trailers(fields)[i] == RenderField(fields[i])
  {
    if fields != [] { TrailersAt(fields[1..]); }
  }

  lemma StandardChunksExactly(chunks: seq<StandardChunk>)
    requires forall c :: c in chunks ==> IsStandardChunk(c)
    ensures (forall chunk :: chunk in Chunks(chunks) ==> IsChunk(chunk)) <==>
      forall c :: c in chunks ==> |RenderSize(c.line)| + 2 <= MAX_LINE_BYTES && |c.data| <= MAX_SAFE_INTEGER
  {
    ChunksAt(chunks);
    var all := Chunks(chunks);
    forall i | 0 <= i < |chunks|
      ensures chunks[i] in chunks && all[i] in all
      ensures IsChunk(all[i]) <==> |RenderSize(chunks[i].line)| + 2 <= MAX_LINE_BYTES && |chunks[i].data| <= MAX_SAFE_INTEGER
    {
      assert chunks[i] in chunks && IsStandardChunk(chunks[i]);
      StandardLineIsRead(chunks[i].line, |chunks[i].data|);
    }
  }

  lemma StandardTrailersExactly(fields: seq<Field>)
    requires forall f :: f in fields ==> IsField(f)
    ensures AreTrailers(Trailers(fields)) <==>
      (forall f :: f in fields ==> |RenderField(f)| + 2 <= MAX_LINE_BYTES) && |RenderTrailers(Trailers(fields))| <= MAX_TRAILER_BYTES
  {
    TrailersAt(fields);
    var all := Trailers(fields);
    forall i | 0 <= i < |fields|
      ensures fields[i] in fields && all[i] in all && all[i] != []
      ensures IsLine(all[i]) <==> |RenderField(fields[i])| + 2 <= MAX_LINE_BYTES
    {
      FieldIsLine(fields[i]);
    }
  }

  /** A body of the standard is a body for the gate if and only if it is within the gate's limits. */
  lemma StandardBodiesExactly(body: StandardBody)
    requires IsStandardBody(body)
    ensures IsBody(Lines(body)) <==> WithinLimits(body)
  {
    StandardChunksExactly(body.chunks);
    ZerosAreZero(body.last.digits);
    StandardLineIsRead(body.last, 0);
    StandardTrailersExactly(body.fields);
  }

  /** However it is cut, a body of the standard within the limits is forwarded exactly, and what follows it is not. */
  lemma ForwardsStandardBodies(body: StandardBody, contentLength: nat, rest: seq<Byte>, pieces: seq<seq<Byte>>)
    requires IsStandardBody(body) && WithinLimits(body)
    requires pieces != [] && Concat(pieces) == Render(Lines(body)) + rest
    ensures var r := ConsumedAll(NewGate(Spec(ChunkedBody, contentLength)), pieces);
      r.Passed? && r.forward == Render(Lines(body)) && r.extra == rest && r.gate.chunked.completed
  {
    var spec, wire, data := Spec(ChunkedBody, contentLength), Render(Lines(body)), Concat(pieces);
    StandardBodiesExactly(body);
    assert data[..|wire|] == wire && IsBodyFor(spec, data[..|wire|]);
    ForwardsExactlyTheBody(spec, pieces);
    var r := ConsumedAll(NewGate(spec), pieces);
    assert r.forward == wire;
    assert data[|wire|..] == rest;
  }

  // ----- What the gate takes beyond the standard -----

  ghost predicate IsStandardSizeLine(line: seq<Byte>) { exists l :: IsStandardLine(l) && RenderSize(l) == line }

  ghost predicate IsExtensionText(s: seq<Byte>) { exists extensions :: AreExtensions(extensions) && RenderExtensions(extensions) == s }

  ghost predicate IsFieldLine(line: seq<Byte>) { exists f :: IsField(f) && RenderField(f) == line }

  function HexRun(s: seq<Byte>): seq<Byte> { if s == [] || !IsHex(s[0]) then [] else [s[0]] + HexRun(s[1..]) }

  lemma {:induction false} HexRunOf(digits: seq<Byte>, after: seq<Byte>)
    requires (forall b :: b in digits ==> IsHex(b)) && (after == [] || !IsHex(after[0]))
    ensures HexRun(digits + after) == digits
    decreases |digits|
  {
    if digits == [] {
      assert digits + after == after;
    } else {
      assert digits[0] in digits && (digits + after)[1..] == digits[1..] + after;
      HexRunOf(digits[1..], after);
    }
  }

  /** The digits of a line with nothing before them are its hex run, and the rest is what follows. */
  lemma DigitsAreHexRun(line: seq<Byte>, l: SizeLine)
    requires ReadsAs(line, l) && l.before == []
    ensures l.digits == HexRun(line) && l.after + l.extension == line[|HexRun(line)|..]
  {
    var after := l.after + l.extension;
    assert l.after != [] ==> after[0] in l.after;
    assert line == l.digits + after;
    HexRunOf(l.digits, after);
  }

  lemma StartsWithDigit(line: seq<Byte>, l: SizeLine)
    requires ReadsAs(line, l)
    ensures IsHex(line[0]) <==> l.before == []
  {
    assert l.before != [] ==> line[0] in l.before;
    assert l.before == [] ==> line[0] in l.digits;
  }

  /** A size line the gate takes is one of the standard if and only if nothing is before its digits and what follows
      them is a list of chunk extensions. */
  lemma StandardSizeLineExactly(line: seq<Byte>, l: SizeLine)
    requires ReadsAs(line, l)
    ensures IsStandardSizeLine(line) <==> l.before == [] && IsExtensionText(l.after + l.extension)
  {
    if standard :| IsStandardLine(standard) && RenderSize(standard) == line {
      var form := StandardForm(standard);
      StartsWithDigit(line, form);
      StartsWithDigit(line, l);
      DigitsAreHexRun(line, form);
      DigitsAreHexRun(line, l);
    }
    if l.before == [] && IsExtensionText(l.after + l.extension) { ExtendedIsStandard(line, l); }
  }

  lemma ExtendedIsStandard(line: seq<Byte>, l: SizeLine)
    requires ReadsAs(line, l) && l.before == [] && IsExtensionText(l.after + l.extension)
    ensures IsStandardSizeLine(line)
  {
    var extensions :| AreExtensions(extensions) && RenderExtensions(extensions) == l.after + l.extension;
    WithoutBefore(l);
    assert RenderSize(StandardLine(l.digits, extensions)) == line;
  }

  lemma WithoutBefore(l: SizeLine)
    requires l.before == []
    ensures RenderSizeLine(l) == l.digits + (l.after + l.extension)
  {}

  /** Every line of the body is one of the standard. */
  ghost predicate HasStandardLines(body: Body) {
    && (forall chunk :: chunk in body.chunks ==> IsStandardSizeLine(chunk.sizeLine))
    && IsStandardSizeLine(body.lastLine)
    && (forall line :: line in body.trailers ==> IsFieldLine(line))
  }

  lemma {:induction false} ChunksOf(chunks: seq<Chunk>) returns (standard: seq<StandardChunk>)
    requires forall chunk :: chunk in chunks ==> IsChunk(chunk) && IsStandardSizeLine(chunk.sizeLine)
    ensures Chunks(standard) == chunks && forall c :: c in standard ==> IsStandardChunk(c)
  {
    standard := [];
    if chunks != [] {
      assert chunks[0] in chunks;
      var line :| IsStandardLine(line) && RenderSize(line) == chunks[0].sizeLine;
      StandardLineIsRead(line, |chunks[0].data|);
      var rest := ChunksOf(chunks[1..]);
      standard := [StandardChunk(line, chunks[0].data)] + rest;
      assert standard[1..] == rest;
    }
  }

  lemma {:induction false} FieldsOf(trailers: seq<seq<Byte>>) returns (fields: seq<Field>)
    requires forall line :: line in trailers ==> IsFieldLine(line)
    ensures Trailers(fields) == trailers && forall f :: f in fields ==> IsField(f)
  {
    fields := [];
    if trailers != [] {
      assert trailers[0] in trailers;
      var field :| IsField(field) && RenderField(field) == trailers[0];
      var rest := FieldsOf(trailers[1..]);
      fields := [field] + rest;
      assert fields[1..] == rest;
    }
  }

  lemma LinesAreStandard(body: StandardBody)
    requires IsStandardBody(body)
    ensures HasStandardLines(Lines(body))
  {
    ChunksAt(body.chunks);
    TrailersAt(body.fields);
    forall chunk | chunk in Chunks(body.chunks) ensures IsStandardSizeLine(chunk.sizeLine) {
      var i :| 0 <= i < |body.chunks| && Chunks(body.chunks)[i] == chunk;
      assert body.chunks[i] in body.chunks && IsStandardChunk(body.chunks[i]);
    }
    forall line | line in Trailers(body.fields) ensures IsFieldLine(line) {
      var i :| 0 <= i < |body.fields| && Trailers(body.fields)[i] == line;
      assert body.fields[i] in body.fields;
    }
  }

  /** A body the gate forwards is one of the standard if and only if all its lines are. */
  lemma StandardExactlyByItsLines(body: Body)
    requires IsBody(body)
    ensures (exists standard :: IsStandardBody(standard) && Lines(standard) == body) <==> HasStandardLines(body)
  {
    if standard :| IsStandardBody(standard) && Lines(standard) == body { LinesAreStandard(standard); }
    if HasStandardLines(body) {
      var chunks := ChunksOf(body.chunks);
      var fields := FieldsOf(body.trailers);
      var last :| IsStandardLine(last) && RenderSize(last) == body.lastLine;
      StandardLineIsRead(last, 0);
      ZerosAreZero(last.digits);
      assert IsStandardBody(StandardBody(chunks, last, fields)) && Lines(StandardBody(chunks, last, fields)) == body;
    }
  }

  /** Three lines the gate takes and the standard does not: a tab before the digit, a no-break space before and a
      vertical tab after it, and a blank after it with no extension; and a trailer with no field name. */
  lemma TakesMoreThanTheStandard()
    ensures Announces([0x09, 0x35], 5) && !IsStandardSizeLine([0x09, 0x35])
    ensures Announces([0xa0, 0x35, 0x0b], 5) && !IsStandardSizeLine([0xa0, 0x35, 0x0b])
    ensures Announces([0x35, 0x20], 5) && !IsStandardSizeLine([0x35, 0x20])
    ensures AreTrailers([[COLON]]) && !IsFieldLine([COLON])
  {
    PaddedFive([0x09, 0x35], [0x09], []);
    PaddedFive([0xa0, 0x35, 0x0b], [0xa0], [0x0b]);
    PaddedFive([0x35, 0x20], [], [0x20]);
    NamelessTrailer([COLON]);
  }

  lemma PaddedFive(line: seq<Byte>, before: seq<Byte>, after: seq<Byte>)
    requires IsPadding(before) && IsPadding(after) && (before != [] || after != []) && line == before + [0x35] + after
    ensures Announces(line, 5) && !IsStandardSizeLine(line)
  {
    var l := SizeLine(before, [0x35], after, []);
    assert RenderSizeLine(l) == line && after + [] == after;
    assert HexValue([0x35]) == 5 by { assert [0x35][..0] == []; }
    StandardSizeLineExactly(line, l);
    if IsExtensionText(after) { ExtensionTextHasSemicolon(after); }
  }

  lemma ExtensionTextHasSemicolon(text: seq<Byte>)
    requires IsExtensionText(text)
    ensures text == [] || SEMICOLON in text
  {
    var extensions: seq<Extension> :| AreExtensions(extensions) && RenderExtensions(extensions) == text;
    if |extensions| > 0 { assert text[|extensions[0].before|] == SEMICOLON; }
  }

  lemma NamelessTrailer(line: seq<Byte>)
    requires line == [COLON]
    ensures AreTrailers([line]) && !IsFieldLine(line)
  {
    assert RenderTrailers([line][1..]) == CRLF;
  }
}
