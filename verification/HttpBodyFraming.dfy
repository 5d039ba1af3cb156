/**
 The automaton and the wire format agree: feeding bytes completes exactly when
 they begin with a chunked body, and then exactly that body was eaten.
 */
module HttpBodyFraming {
  import opened Prelude
  import opened HttpBody
  import opened HttpSizeLine

  // ----- Pieces -----

  /** What a second piece of data adds to what the first one came to. */
  function Then(first: Outcome, length: nat, second: seq<Byte>): Outcome {
    if first.Failed? || first.next.completed then first else Shift(length, Feed(first.next, second))
  }

  lemma {:induction false} FeedSplit(c: Chunked, a: seq<Byte>, b: seq<Byte>)
    ensures Feed(c, a + b) == Then(Feed(c, a), |a|, b)
    decreases |a|
  {
    if a == [] {
      assert a + b == b;
    } else if !c.completed {
      assert (a + b)[1..] == a[1..] + b;
      var v := NextByte(c, a[0]);
      if v.Going? { FeedSplit(v.next, a[1..], b); }
    }
  }

  // ----- Lines -----

  predicate ReadsLines(c: Chunked) { (c.state == AtSize || c.state == InTrailers) && !c.completed }

  function Counted(c: Chunked, bytes: nat): nat { if c.state == InTrailers then c.trailerBytes + bytes else c.trailerBytes }

  /** What a whole line comes to. */
  function AfterLine(c: Chunked, line: seq<Byte>, bytes: nat): Outcome {
    match EndLine(c.(trailerBytes := Counted(c, bytes)), line)
    case Refused(error) => Failed(error)
    case Going(next) => Fed(bytes, next)
  }

  /** The last byte of a line ends it, and no byte before does. */
  lemma LineByteAt(c: Chunked, line: seq<Byte>, k: nat)
    requires ReadsLines(c) && IsLine(line) && k < |line| + 2 && c.line == RenderLine(line)[..k]
    requires Counted(c, 1) <= MAX_TRAILER_BYTES || c.state == AtSize
    ensures NextByte(c, RenderLine(line)[k]) ==
      if k == |line| + 1 then EndLine(c.(trailerBytes := Counted(c, 1)), line)
      else Going(c.(line := RenderLine(line)[..k + 1], trailerBytes := Counted(c, 1)))
  {
    var wire := RenderLine(line);
    var grown := wire[..k + 1];
    assert c.line + [wire[k]] == grown;
    if k == |line| + 1 {
      assert grown == wire && wire[..|wire| - 2] == line;
    } else if k >= 1 {
      assert !(wire[k - 1] == CR && wire[k] == LF);
    }
  }

  lemma EndLineIgnoresBuffer(c: Chunked, buffer: seq<Byte>, line: seq<Byte>)
    ensures EndLine(c.(line := buffer), line) == EndLine(c, line)
  {}

  /** The rest of a line, up to and including its CR LF. */
  lemma {:induction false} FeedLine(c: Chunked, line: seq<Byte>, k: nat)
    requires ReadsLines(c) && IsLine(line) && k < |line| + 2 && c.line == RenderLine(line)[..k]
    requires Counted(c, |line| + 2 - k) <= MAX_TRAILER_BYTES || c.state == AtSize
    ensures Feed(c, RenderLine(line)[k..]) == AfterLine(c, line, |line| + 2 - k)
    decreases |line| - k
  {
    var wire := RenderLine(line);
    var rest := wire[k + 1..];
    assert wire[k..][1..] == rest && wire[k..][0] == wire[k];
    LineByteAt(c, line, k);
    if k == |line| + 1 {
      assert rest == [];
      AfterLastByte(c, wire[k..], line);
    } else {
      var next := c.(line := wire[..k + 1], trailerBytes := Counted(c, 1));
      FeedLine(next, line, k + 1);
      EndLineIgnoresBuffer(c.(trailerBytes := Counted(c, |line| + 2 - k)), wire[..k + 1], line);
    }
  }

  lemma AfterLastByte(c: Chunked, data: seq<Byte>, line: seq<Byte>)
    requires |data| == 1 && !c.completed && NextByte(c, data[0]) == EndLine(c.(trailerBytes := Counted(c, 1)), line)
    ensures Feed(c, data) == AfterLine(c, line, 1)
  {
    assert data[1..] == [];
    var v := NextByte(c, data[0]);
    if v.Going? { assert Feed(v.next, data[1..]) == Fed(0, v.next); }
  }

  predicate Clean(line: seq<Byte>) { forall i :: 0 <= i < |line| - 1 ==> !(line[i] == CR && line[i + 1] == LF) }

  lemma LineEnds(grown: seq<Byte>)
    requires |grown| >= 1 && Clean(grown[..|grown| - 1]) && EndsLine(grown) && |grown| <= MAX_LINE_BYTES
    ensures IsLine(grown[..|grown| - 2]) && RenderLine(grown[..|grown| - 2]) == grown
  {
    var line := grown[..|grown| - 2];
    assert RenderLine(line) == grown;
    forall i | 0 <= i < |line| ensures !(grown[i] == CR && grown[i + 1] == LF) {
      assert grown[..|grown| - 1][i] == grown[i] && grown[..|grown| - 1][i + 1] == grown[i + 1];
    }
  }

  lemma StaysClean(line: seq<Byte>, b: Byte)
    requires Clean(line) && !EndsLine(line + [b])
    ensures Clean(line + [b])
  {}

  /** The rest of `line` after its first `k` bytes starts `data`. */
  predicate Continues(line: seq<Byte>, k: nat, data: seq<Byte>) {
    k < |line| + 2 && RenderLine(line)[k..] <= data
  }

  lemma OneByteBack(line: seq<Byte>, k: nat, data: seq<Byte>)
    requires data != [] && Continues(line, k + 1, data[1..]) && RenderLine(line)[k] == data[0]
    ensures Continues(line, k, data)
  {
    assert RenderLine(line)[k..] == [data[0]] + RenderLine(line)[k + 1..];
  }

  /** Data that completes a body from inside a line holds the rest of that line. */
  lemma {:induction false} LineInside(c: Chunked, data: seq<Byte>) returns (line: seq<Byte>)
    requires ReadsLines(c) && Clean(c.line)
    requires Feed(c, data).Fed? && Feed(c, data).next.completed
    ensures IsLine(line) && Continues(line, |c.line|, data) && c.line <= RenderLine(line)
    ensures c.state == InTrailers ==> Counted(c, |line| + 2 - |c.line|) <= MAX_TRAILER_BYTES
    decreases |data|
  {
    var grown := c.line + [data[0]];
    if EndsLine(grown) {
      assert grown[..|grown| - 1] == c.line;
      LineEnds(grown);
      line := grown[..|grown| - 2];
      assert grown[|c.line|..] == [data[0]];
    } else {
      StaysClean(c.line, data[0]);
      var next := c.(line := grown, trailerBytes := Counted(c, 1));
      assert NextByte(c, data[0]) == Going(next);
      line := LineInside(next, data[1..]);
      OneByteBack(line, |c.line|, data);
    }
  }

  // ----- Chunk data -----

  lemma {:induction false} FeedData(c: Chunked, data: seq<Byte>)
    requires c.state == InData && !c.completed && 0 < |data| <= c.remaining
    ensures Feed(c, data) == Fed(|data|, c.(remaining := c.remaining - |data|,
                                            state := if |data| == c.remaining then AtDataEnd else InData))
    decreases |data|
  {
    if |data| > 1 {
      FeedData(c.(remaining := c.remaining - 1), data[1..]);
    } else {
      assert data[1..] == [];
      assert Feed(NextByte(c, data[0]).next, []) == Fed(0, NextByte(c, data[0]).next);
    }
  }

  lemma FeedDataEnd(c: Chunked)
    requires c.state == AtDataEnd && !c.completed && c.dataEndOffset == 0
    ensures Feed(c, CRLF) == Fed(2, c.(state := AtSize))
  {
    var middle := c.(dataEndOffset := 1);
    assert NextByte(c, CR) == Going(middle) && NextByte(middle, LF) == Going(c.(state := AtSize));
    assert CRLF[1..] == [LF] && [LF][1..] == [];
    assert Feed(middle, [LF]) == Fed(1, c.(state := AtSize));
  }

  // ----- From bodies to the automaton -----

  function Trailing(trailerBytes: nat): Chunked { Chunked(InTrailers, 0, [], 0, trailerBytes, false) }

  lemma {:induction false} FeedTrailers(trailers: seq<seq<Byte>>, trailerBytes: nat)
    requires trailerBytes + |RenderTrailers(trailers)| <= MAX_TRAILER_BYTES
    requires forall line :: line in trailers ==> IsLine(line) && line != []
    ensures Feed(Trailing(trailerBytes), RenderTrailers(trailers)).Fed?
    ensures var o := Feed(Trailing(trailerBytes), RenderTrailers(trailers)); o.next.completed && o.bytes == |RenderTrailers(trailers)|
    decreases |trailers|
  {
    var line := if trailers == [] then [] else trailers[0];
    var c := Trailing(trailerBytes);
    assert RenderLine(line)[0..] == RenderLine(line);
    FeedLine(c, line, 0);
    if trailers == [] {
      assert RenderLine([]) == CRLF;
    } else {
      var rest := RenderTrailers(trailers[1..]);
      FeedSplit(c, RenderLine(line), rest);
      FeedTrailers(trailers[1..], trailerBytes + |line| + 2);
    }
  }

  lemma FeedSizeLine(line: seq<Byte>, size: nat)
    requires IsLine(line) && Announces(line, size) && size > 0
    ensures Feed(START, RenderLine(line)) == Fed(|RenderLine(line)|, START.(state := InData, remaining := size))
  {
    assert RenderLine(line)[0..] == RenderLine(line);
    SizeOfExactly(line, size);
    FeedLine(START, line, 0);
  }

  lemma FeedDataAndEnd(data: seq<Byte>)
    requires data != []
    ensures Feed(START.(state := InData, remaining := |data|), data + CRLF) == Fed(|data| + 2, START)
  {
    var inData := START.(state := InData, remaining := |data|);
    FeedSplit(inData, data, CRLF);
    FeedData(inData, data);
    FeedDataEnd(inData.(remaining := 0, state := AtDataEnd));
  }

  lemma FeedChunk(chunk: Chunk)
    requires IsChunk(chunk)
    ensures Feed(START, RenderLine(chunk.sizeLine) + (chunk.data + CRLF))
      == Fed(|RenderLine(chunk.sizeLine) + (chunk.data + CRLF)|, START)
  {
    FeedSizeLine(chunk.sizeLine, |chunk.data|);
    FeedDataAndEnd(chunk.data);
    FeedSplit(START, RenderLine(chunk.sizeLine), chunk.data + CRLF);
  }

  lemma {:induction false} FeedBody(body: Body)
    requires IsBody(body)
    ensures Feed(START, Render(body)).Fed?
    ensures var o := Feed(START, Render(body)); o.next.completed && o.bytes == |Render(body)|
    decreases |body.chunks|
  {
    var last := RenderLine(body.lastLine) + RenderTrailers(body.trailers);
    if body.chunks == [] {
      assert Render(body) == last;
      assert RenderLine(body.lastLine)[0..] == RenderLine(body.lastLine);
      SizeOfExactly(body.lastLine, 0);
      FeedLine(START, body.lastLine, 0);
      FeedSplit(START, RenderLine(body.lastLine), RenderTrailers(body.trailers));
      FeedTrailers(body.trailers, 0);
    } else {
      var chunk, rest := body.chunks[0], body.(chunks := body.chunks[1..]);
      var first := RenderLine(chunk.sizeLine) + (chunk.data + CRLF);
      assert Render(body) == first + Render(rest);
      FeedChunk(chunk);
      FeedSplit(START, first, Render(rest));
      FeedBody(rest);
    }
  }

  // ----- From the automaton to bodies -----

  lemma {:induction false} TrailersInside(trailerBytes: nat, data: seq<Byte>) returns (trailers: seq<seq<Byte>>)
    requires Feed(Trailing(trailerBytes), data).Fed? && Feed(Trailing(trailerBytes), data).next.completed
    ensures forall line :: line in trailers ==> IsLine(line) && line != []
    ensures trailerBytes + |RenderTrailers(trailers)| <= MAX_TRAILER_BYTES
    ensures RenderTrailers(trailers) == data[..Feed(Trailing(trailerBytes), data).bytes]
    decreases |data|
  {
    var c := Trailing(trailerBytes);
    var line := LineInside(c, data);
    var n := |line| + 2;
    var rest := data[n..];
    assert RenderLine(line)[0..] == RenderLine(line) && data == RenderLine(line) + rest;
    FeedLine(c, line, 0);
    FeedSplit(c, RenderLine(line), rest);
    if line == [] {
      trailers := [];
      assert RenderLine([]) == CRLF;
    } else {
      var others := TrailersInside(trailerBytes + n, rest);
      trailers := [line] + others;
      assert trailers[1..] == others;
    }
  }

  lemma DataEndInside(data: seq<Byte>) returns (after: seq<Byte>)
    requires Feed(START.(state := AtDataEnd), data).Fed? && Feed(START.(state := AtDataEnd), data).next.completed
    ensures data == CRLF + after && Feed(START.(state := AtDataEnd), data) == Shift(2, Feed(START, after))
  {
    var c := START.(state := AtDataEnd);
    var middle := c.(dataEndOffset := 1);
    assert NextByte(c, data[0]) == Going(middle);
    assert Feed(middle, data[1..]).Fed? && data[1..] != [] && data[1..][0] == LF;
    after := data[2..];
    assert data == CRLF + after;
    FeedDataEnd(c);
    FeedSplit(c, CRLF, after);
  }

  lemma EnoughData(size: nat, data: seq<Byte>) returns (chunk: seq<Byte>, rest: seq<Byte>)
    requires size > 0
    requires var o := Feed(START.(state := InData, remaining := size), data); o.Fed? && o.next.completed
    ensures |chunk| == size && data == chunk + rest
    ensures Feed(START.(state := InData, remaining := size), data) == Shift(size, Feed(START.(state := AtDataEnd), rest))
  {
    var c := START.(state := InData, remaining := size);
    if 0 < |data| <= size { FeedData(c, data); }
    chunk, rest := data[..size], data[size..];
    FeedData(c, chunk);
    FeedSplit(c, chunk, rest);
  }

  /** Data that completes a body from the start of a chunk's data holds it and its CR LF. */
  lemma DataInside(size: nat, data: seq<Byte>) returns (chunk: seq<Byte>, after: seq<Byte>)
    requires size > 0
    requires var o := Feed(START.(state := InData, remaining := size), data); o.Fed? && o.next.completed
    ensures |chunk| == size && data == chunk + CRLF + after
    ensures Feed(START.(state := InData, remaining := size), data) == Shift(size + 2, Feed(START, after))
  {
    var rest;
    chunk, rest := EnoughData(size, data);
    after := DataEndInside(rest);
    assert chunk + (CRLF + after) == chunk + CRLF + after;
  }

  lemma FirstLine(data: seq<Byte>) returns (line: seq<Byte>, rest: seq<Byte>)
    requires Feed(START, data).Fed? && Feed(START, data).next.completed
    ensures IsLine(line) && data == RenderLine(line) + rest && SizeOf(line).Size?
    ensures Feed(START, data) == Shift(|line| + 2, Feed(EndLine(START, line).next, rest))
  {
    line := LineInside(START, data);
    rest := data[|line| + 2..];
    assert RenderLine(line)[0..] == RenderLine(line) && data == RenderLine(line) + rest;
    FeedLine(START, line, 0);
    FeedSplit(START, RenderLine(line), rest);
  }

  lemma ConsChunk(chunk: Chunk, others: Body)
    requires IsChunk(chunk) && IsBody(others)
    ensures IsBody(others.(chunks := [chunk] + others.chunks))
    ensures Render(others.(chunks := [chunk] + others.chunks)) == RenderLine(chunk.sizeLine) + (chunk.data + CRLF) + Render(others)
  {
    assert ([chunk] + others.chunks)[1..] == others.chunks;
  }

  lemma LastLineInside(line: seq<Byte>, rest: seq<Byte>) returns (body: Body, after: seq<Byte>)
    requires IsLine(line) && SizeOf(line) == Size(0)
    requires Feed(Trailing(0), rest).Fed? && Feed(Trailing(0), rest).next.completed
    ensures IsBody(body) && RenderLine(line) + rest == Render(body) + after
    ensures |Render(body)| == |line| + 2 + Feed(Trailing(0), rest).bytes
  {
    SizeOfExactly(line, 0);
    var trailers := TrailersInside(0, rest);
    body, after := Body([], line, trailers), rest[|RenderTrailers(trailers)|..];
    assert Render(body) == RenderLine(line) + RenderTrailers(trailers);
  }

  lemma Regroup(line: seq<Byte>, chunk: seq<Byte>, body: seq<Byte>, after: seq<Byte>)
    ensures line + (chunk + CRLF + (body + after)) == line + (chunk + CRLF) + body + after
  {}

  lemma {:induction false} BodyInside(data: seq<Byte>) returns (body: Body, after: seq<Byte>)
    requires Feed(START, data).Fed? && Feed(START, data).next.completed
    ensures IsBody(body) && data == Render(body) + after && |Render(body)| == Feed(START, data).bytes
    decreases |data|
  {
    var line, rest := FirstLine(data);
    if SizeOf(line).bytes == 0 {
      body, after := LastLineInside(line, rest);
    } else {
      var chunk, tail := DataInside(SizeOf(line).bytes, rest);
      var others;
      others, after := BodyInside(tail);
      SizeOfExactly(line, |chunk|);
      ConsChunk(Chunk(line, chunk), others);
      Regroup(RenderLine(line), chunk, Render(others), after);
      body := others.(chunks := [Chunk(line, chunk)] + others.chunks);
    }
  }

  // ----- The agreement -----

  /** Whatever follows it, a chunked body is eaten exactly. */
  lemma BodyIsEaten(body: Body, rest: seq<Byte>)
    requires IsBody(body)
    ensures var o := Feed(START, Render(body) + rest); o.Fed? && o.next.completed && o.bytes == |Render(body)|
  {
    FeedBody(body);
    FeedSplit(START, Render(body), rest);
  }

  /** Data completes a body exactly when a chunked body begins it, and what is eaten is that body. */
  lemma CompletesExactlyOnBodies(data: seq<Byte>, n: nat)
    requires n <= |data|
    ensures IsChunkedBody(data[..n]) <==>
      var o := Feed(START, data); o.Fed? && o.next.completed && o.bytes == n
  {
    var o := Feed(START, data);
    if IsChunkedBody(data[..n]) { CompletesOnBody(data, n); }
    if o.Fed? && o.next.completed {
      var body, after := BodyInside(data);
      assert IsBody(body) && Render(body) == data[..o.bytes];
    }
  }

  lemma CompletesOnBody(data: seq<Byte>, n: nat)
    requires n <= |data| && IsChunkedBody(data[..n])
    ensures var o := Feed(START, data); o.Fed? && o.next.completed && o.bytes == n
  {
    var body :| IsBody(body) && Render(body) == data[..n];
    BodyIsEaten(body, data[n..]);
    assert data == data[..n] + data[n..];
  }

  /** No chunked body is a proper prefix of another, so "the shortest" is "the only". */
  lemma BodiesArePrefixFree(a: Body, b: Body)
    requires IsBody(a) && IsBody(b) && Render(a) <= Render(b)
    ensures Render(a) == Render(b)
  {
    BodyIsEaten(a, Render(b)[|Render(a)|..]);
    assert Render(b) == Render(a) + Render(b)[|Render(a)|..];
    FeedBody(b);
  }

  /** Refused data is no beginning of a chunked body, and none begins it. */
  lemma RefusedIsNoBody(data: seq<Byte>, body: Body)
    requires Feed(START, data).Failed? && IsBody(body)
    ensures !(Render(body) <= data) && !(data <= Render(body))
  {
    if Render(body) <= data {
      assert data == Render(body) + data[|Render(body)|..];
      BodyIsEaten(body, data[|Render(body)|..]);
    }
    if data <= Render(body) {
      assert Render(body) == data + Render(body)[|data|..];
      FeedSplit(START, data, Render(body)[|data|..]);
      FeedBody(body);
    }
  }
}
