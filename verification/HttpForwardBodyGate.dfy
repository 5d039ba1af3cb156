/**
 `HttpForwardBodyGate`: what the proxy lets through to the server as one
 request body. The class updates its fields as the source does; whatever the
 data is cut into, what it forwards is exactly the body.
 */
module HttpForwardBody {
  import opened Prelude
  import opened HttpBody
  import opened HttpBodyFraming

  datatype Mode = NoBody | ContentLength | ChunkedBody | Stream

  /** What the request's headers said; see HttpForwardBodySpec for where it comes from. */
  datatype Spec = Spec(mode: Mode, contentLength: nat)

  predicate ValidSpec(spec: Spec) { spec.mode == ContentLength ==> spec.contentLength > 0 }

  /** `chunked.completed` is the gate's completion flag in every mode. */
  datatype Gate = Gate(mode: Mode, remainingContent: nat, chunked: Chunked)

  function NewGate(spec: Spec): Gate {
    Gate(spec.mode, spec.contentLength, Chunked(AtSize, 0, [], 0, 0, spec.mode == NoBody))
  }

  predicate Valid(g: Gate) {
    && (g.mode == NoBody ==> g.chunked.completed)
    && (g.mode == Stream ==> !g.chunked.completed)
    && (g.mode == ContentLength && !g.chunked.completed ==> g.remainingContent > 0)
    && (g.mode == ChunkedBody ==> Sane(g.chunked))
  }

  datatype Passed = Passed(forward: seq<Byte>, extra: seq<Byte>, gate: Gate) | Rejected(error: Error)

  function Consumed(g: Gate, data: seq<Byte>): Passed {
    if g.mode == Stream then Passed(data, [], g)
    else if g.chunked.completed then Passed([], data, g)
    else if g.mode == ContentLength then
      var n := Min(g.remainingContent, |data|);
      var left := g.remainingContent - n;
      Passed(data[..n], data[n..], g.(remainingContent := left, chunked := g.chunked.(completed := left == 0)))
    else Cut(g, data, Feed(g.chunked, data))
  }

  /** The data cut where the automaton stopped. */
  function Cut(g: Gate, data: seq<Byte>, o: Outcome): Passed
    requires o.Fed? ==> o.bytes <= |data|
  {
    match o
    case Failed(error) => Rejected(error)
    case Fed(n, next) => Passed(data[..n], data[n..], g.(chunked := next))
  }

  function Concat(pieces: seq<seq<Byte>>): seq<Byte> { if pieces == [] then [] else pieces[0] + Concat(pieces[1..]) }

  function Prepend(forward: seq<Byte>, extra: seq<Byte>, rest: Passed): Passed {
    if rest.Rejected? then rest else Passed(forward + rest.forward, extra + rest.extra, rest.gate)
  }

  /** Everything forwarded and everything left over, piece after piece. */
  function ConsumedAll(g: Gate, pieces: seq<seq<Byte>>): Passed
    decreases |pieces|
  {
    if pieces == [] then Passed([], [], g)
    else
      match Consumed(g, pieces[0])
      case Rejected(error) => Rejected(error)
      case Passed(forward, extra, next) =>
        Prepend(forward, extra, ConsumedAll(next, pieces[1..]))
  }

  // ----- How the data is cut makes no difference -----

  lemma {:induction false} NextByteStaysSane(c: Chunked, b: Byte)
    requires Sane(c) && !c.completed
    ensures NextByte(c, b).Going? ==> Sane(NextByte(c, b).next)
  {}

  lemma {:induction false} FeedStaysSane(c: Chunked, data: seq<Byte>)
    requires Sane(c)
    ensures Feed(c, data).Fed? ==> Sane(Feed(c, data).next)
    decreases |data|
  {
    if data != [] && !c.completed {
      NextByteStaysSane(c, data[0]);
      if NextByte(c, data[0]).Going? { FeedStaysSane(NextByte(c, data[0]).next, data[1..]); }
    }
  }

  lemma ConsumedStaysValid(g: Gate, data: seq<Byte>)
    requires Valid(g)
    ensures Consumed(g, data).Passed? ==> Valid(Consumed(g, data).gate)
  {
    if g.mode == ChunkedBody { FeedStaysSane(g.chunked, data); }
  }

  /** Two pieces are consumed as one: same bytes forwarded, same bytes left, same gate after, or the same error. */
  lemma ConsumedSplit(g: Gate, a: seq<Byte>, b: seq<Byte>)
    requires Valid(g)
    ensures Consumed(g, a + b) == Both(g, a, b)
  {
    if g.mode == ChunkedBody && !g.chunked.completed {
      FeedSplit(g.chunked, a, b);
      if Feed(g.chunked, a).Fed? {
        if Feed(g.chunked, a).next.completed { CompletedInFirst(g, a, b); } else { GoesOnInSecond(g, a, b); }
      }
    } else if g.mode == ContentLength && !g.chunked.completed {
      CountedSplit(g, a, b);
    }
  }

  function Both(g: Gate, a: seq<Byte>, b: seq<Byte>): Passed {
    var first := Consumed(g, a);
    if first.Rejected? then first else Prepend(first.forward, first.extra, Consumed(first.gate, b))
  }

  lemma CountedSplit(g: Gate, a: seq<Byte>, b: seq<Byte>)
    requires Valid(g) && g.mode == ContentLength && !g.chunked.completed
    ensures Consumed(g, a + b) == Both(g, a, b)
  {
    var n := Min(g.remainingContent, |a + b|);
    if n <= |a| {
      assert (a + b)[..n] == a[..n] + b[..0] && (a + b)[n..] == a[n..] + b;
    } else {
      assert (a + b)[..n] == a + b[..n - |a|] && (a + b)[n..] == b[n - |a|..];
    }
  }

  lemma CompletedInFirst(g: Gate, a: seq<Byte>, b: seq<Byte>)
    requires g.mode == ChunkedBody && !g.chunked.completed && Feed(g.chunked, a).Fed? && Feed(g.chunked, a).next.completed
    requires Feed(g.chunked, a + b) == Feed(g.chunked, a)
    ensures Consumed(g, a + b) == Both(g, a, b)
  {
    CutInFirst(a, b, Feed(g.chunked, a).bytes);
  }

  lemma GoesOnInSecond(g: Gate, a: seq<Byte>, b: seq<Byte>)
    requires g.mode == ChunkedBody && !g.chunked.completed && Feed(g.chunked, a).Fed? && !Feed(g.chunked, a).next.completed
    requires Feed(g.chunked, a + b) == Shift(|a|, Feed(Feed(g.chunked, a).next, b))
    ensures Consumed(g, a + b) == Both(g, a, b)
  {
    var next := Feed(g.chunked, a).next;
    CutLater(g, a, b, next, Feed(next, b));
  }

  lemma CutLater(g: Gate, a: seq<Byte>, b: seq<Byte>, middle: Chunked, o: Outcome)
    requires o.Fed? ==> o.bytes <= |b|
    ensures Cut(g, a + b, Shift(|a|, o)) == Prepend(a[..|a|], a[|a|..], Cut(g.(chunked := middle), b, o))
  {
    if o.Fed? { CutInSecond(a, b, o.bytes); }
  }

  lemma CutInFirst(a: seq<Byte>, b: seq<Byte>, n: nat)
    requires n <= |a|
    ensures (a + b)[..n] == a[..n] + [] && (a + b)[n..] == a[n..] + b
  {}

  lemma CutInSecond(a: seq<Byte>, b: seq<Byte>, n: nat)
    requires n <= |b|
    ensures (a + b)[..|a| + n] == a[..|a|] + b[..n] && (a + b)[|a| + n..] == a[|a|..] + b[n..]
  {}

  /** However a stream is cut into pieces, it is consumed as if it came in one. */
  lemma {:induction false} CuttingMakesNoDifference(g: Gate, pieces: seq<seq<Byte>>)
    requires Valid(g)
    ensures ConsumedAll(g, pieces) == if pieces == [] then Passed([], [], g) else Consumed(g, Concat(pieces))
    decreases |pieces|
  {
    if pieces != [] {
      var first := Consumed(g, pieces[0]);
      if |pieces| == 1 {
        assert Concat(pieces) == pieces[0] + [] == pieces[0];
        assert pieces[1..] == [];
        assert first.Passed? ==> first.forward + [] == first.forward && first.extra + [] == first.extra;
      } else {
        var rest := Concat(pieces[1..]);
        ConsumedSplit(g, pieces[0], rest);
        if first.Passed? {
          ConsumedStaysValid(g, pieces[0]);
          CuttingMakesNoDifference(first.gate, pieces[1..]);
        }
      }
    }
  }

  // ----- What is forwarded is the body -----

  /** A complete body for the headers' framing, said without the gate. */
  ghost predicate IsBodyFor(spec: Spec, bytes: seq<Byte>) {
    match spec.mode
    case NoBody => bytes == []
    case ContentLength => |bytes| == spec.contentLength
    case ChunkedBody => IsChunkedBody(bytes)
    case Stream => false
  }

  ghost predicate HoldsBody(spec: Spec, data: seq<Byte>) {
    exists n :: 0 <= n <= |data| && IsBodyFor(spec, data[..n])
  }

  lemma OneCallForwardsTheBody(spec: Spec, data: seq<Byte>)
    requires ValidSpec(spec)
    ensures Consumed(NewGate(spec), data).Rejected? ==> !HoldsBody(spec, data)
    ensures var r := Consumed(NewGate(spec), data); r.Passed? ==>
      && r.forward + r.extra == data
      && (r.gate.chunked.completed ==> IsBodyFor(spec, r.forward))
      && (!r.gate.chunked.completed ==> r.extra == [] && !HoldsBody(spec, data))
  {
    if spec.mode == ChunkedBody {
      forall n | 0 <= n <= |data|
        ensures IsBodyFor(spec, data[..n]) <==>
          var o := Feed(START, data); o.Fed? && o.next.completed && o.bytes == n
      {
        CompletesExactlyOnBodies(data, n);
      }
    }
  }

  /** A body that begins the data is the only one that does. */
  lemma OnlyOneBody(spec: Spec, data: seq<Byte>, m: nat, n: nat)
    requires m <= |data| && n <= |data| && IsBodyFor(spec, data[..m]) && IsBodyFor(spec, data[..n])
    ensures m == n
  {
    if spec.mode == ChunkedBody {
      CompletesExactlyOnBodies(data, m);
      CompletesExactlyOnBodies(data, n);
    }
  }

  /**
   However the data is cut: forwarded and left-over bytes together are the
   data; what was forwarded is the one body that begins the data if the gate is
   complete; and if it is not, or refused the data, no body begins it.
   */
  lemma ForwardsExactlyTheBody(spec: Spec, pieces: seq<seq<Byte>>)
    requires ValidSpec(spec) && pieces != []
    ensures var r, data := ConsumedAll(NewGate(spec), pieces), Concat(pieces);
      match r
      case Rejected(_) => !HoldsBody(spec, data)
      case Passed(forward, extra, gate) =>
        && forward + extra == data
        && (gate.chunked.completed <==> HoldsBody(spec, data))
        && (gate.chunked.completed ==>
              IsBodyFor(spec, forward) && forall n :: 0 <= n <= |data| && IsBodyFor(spec, data[..n]) ==> n == |forward|)
        && (!gate.chunked.completed ==> extra == [])
  {
    CuttingMakesNoDifference(NewGate(spec), pieces);
    var data := Concat(pieces);
    OneCallForwardsTheBody(spec, data);
    var r := Consumed(NewGate(spec), data);
    if r.Passed? && r.gate.chunked.completed {
      assert data[..|r.forward|] == r.forward;
      forall n | 0 <= n <= |data| && IsBodyFor(spec, data[..n]) ensures n == |r.forward| {
        OnlyOneBody(spec, data, n, |r.forward|);
      }
    }
  }

  // ----- The class -----

  datatype Result = Ok(forward: seq<Byte>, extra: seq<Byte>, complete: bool) | Err(error: Error)

  class HttpForwardBodyGate {
    const mode: Mode
    var remainingContentBytes: nat
    var chunkState: ChunkState
    var remainingChunkBytes: nat
    var lineBuffer: seq<Byte>
    var dataCrlfOffset: nat
    var trailerBytes: nat
    var completed: bool

    ghost function Framing(): Chunked
      reads this
    {
      Chunked(chunkState, remainingChunkBytes, lineBuffer, dataCrlfOffset, trailerBytes, completed)
    }

    ghost function View(): Gate
      reads this
    {
      Gate(mode, remainingContentBytes, Framing())
    }

    constructor (spec: Spec)
      ensures View() == NewGate(spec)
    {
      mode, remainingContentBytes, completed := spec.mode, spec.contentLength, spec.mode == NoBody;
      chunkState, remainingChunkBytes, lineBuffer, dataCrlfOffset, trailerBytes := AtSize, 0, [], 0, 0;
    }

    method Consume(data: seq<Byte>) returns (r: Result)
      requires Valid(View())
      modifies this
      ensures match Consumed(old(View()), data)
        case Rejected(error) => r == Err(error)
        case Passed(forward, extra, gate) =>
          View() == gate && Valid(gate) && r == Ok(forward, extra, completed)
    {
      ConsumedStaysValid(View(), data);
      if mode == Stream { return Ok(data, [], false); }
      if completed { return Ok([], data, true); }
      if mode == ContentLength {
        var forwardedBytes := Min(remainingContentBytes, |data|);
        remainingContentBytes := remainingContentBytes - forwardedBytes;
        completed := remainingContentBytes == 0;
        return Ok(data[..forwardedBytes], data[forwardedBytes..], completed);
      }
      r := ConsumeChunked(data);
    }

    method ConsumeChunked(data: seq<Byte>) returns (r: Result)
      requires Sane(Framing()) && mode == ChunkedBody && !completed
      modifies this
      ensures remainingContentBytes == old(remainingContentBytes)
      ensures match Feed(old(Framing()), data)
        case Failed(error) => r == Err(error)
        case Fed(n, next) => Framing() == next && r == Ok(data[..n], data[n..], completed)
    {
      var offset := 0;
      ghost var all := Feed(Framing(), data);
      assert data[0..] == data;
      while offset < |data| && !completed
        invariant 0 <= offset <= |data| && remainingContentBytes == old(remainingContentBytes)
        invariant Sane(Framing()) && all == Shift(offset, Feed(Framing(), data[offset..]))
        decreases |data| - offset
      {
        if chunkState == InData {
          var consumed := ConsumeData(data, offset);
          offset := offset + consumed;
        } else {
          assert data[offset..][0] == data[offset] && data[offset..][1..] == data[offset + 1..];
          var error := ConsumeByte(data[offset]);
          if error.Some? { return Err(error.value); }
          offset := offset + 1;
        }
      }
      r := Ok(data[..offset], data[offset..], completed);
    }

    /** As much of a chunk's data as there is. */
    method ConsumeData(data: seq<Byte>, offset: nat) returns (consumed: nat)
      requires Sane(Framing()) && chunkState == InData && !completed && offset < |data|
      modifies this
      ensures remainingContentBytes == old(remainingContentBytes)
      ensures offset + consumed <= |data| && consumed > 0 && Sane(Framing())
      ensures Feed(old(Framing()), data[offset..]) == Shift(consumed, Feed(Framing(), data[offset + consumed..]))
    {
      consumed := Min(remainingChunkBytes, |data| - offset);
      remainingChunkBytes := remainingChunkBytes - consumed;
      if remainingChunkBytes == 0 { chunkState := AtDataEnd; }
      DataPiece(old(Framing()), data, offset, consumed);
    }

    /** A byte outside a chunk's data. */
    method ConsumeByte(b: Byte) returns (error: Option<Error>)
      requires Sane(Framing()) && chunkState != InData && !completed
      modifies this
      ensures remainingContentBytes == old(remainingContentBytes)
      ensures match NextByte(old(Framing()), b)
        case Refused(e) => error == Some(e)
        case Going(next) => error == None && Framing() == next && Sane(next)
    {
      error := None;
      if chunkState == AtDataEnd {
        var expected := if dataCrlfOffset == 0 then CR else LF;
        if b != expected { return Some(BadDataEnd); }
        dataCrlfOffset := dataCrlfOffset + 1;
        if dataCrlfOffset == 2 { dataCrlfOffset, chunkState := 0, AtSize; }
        return;
      }
      lineBuffer := lineBuffer + [b];
      if chunkState == InTrailers {
        trailerBytes := trailerBytes + 1;
        if trailerBytes > MAX_TRAILER_BYTES { return Some(TrailersTooLarge); }
      }
      if |lineBuffer| > MAX_LINE_BYTES { return Some(LineTooLarge); }
      if !EndsLine(lineBuffer) { return; }
      var line := lineBuffer[..|lineBuffer| - 2];
      lineBuffer := [];
      if chunkState == InTrailers {
        if line == [] { completed := true; }
        return;
      }
      var size := SizeOf(line);
      if size.BadLine? { return Some(size.error); }
      if size.bytes == 0 {
        chunkState := InTrailers;
      } else {
        remainingChunkBytes, chunkState := size.bytes, InData;
      }
    }
  }

  lemma DataPiece(c: Chunked, data: seq<Byte>, offset: nat, n: nat)
    requires c.state == InData && !c.completed && offset < |data| && n == Min(c.remaining, |data| - offset) && n > 0
    ensures Feed(c, data[offset..]) ==
      Shift(n, Feed(c.(remaining := c.remaining - n, state := if n == c.remaining then AtDataEnd else InData), data[offset + n..]))
  {
    var piece := data[offset..offset + n];
    assert data[offset..] == piece + data[offset + n..];
    FeedData(c, piece);
    FeedSplit(c, piece, data[offset + n..]);
  }

  /** Piece after piece, up to the first refusal. */
  method ForwardAll(gate: HttpForwardBodyGate, pieces: seq<seq<Byte>>) returns (r: Result)
    requires Valid(gate.View())
    modifies gate
    ensures match ConsumedAll(old(gate.View()), pieces)
      case Rejected(error) => r == Err(error)
      case Passed(forward, extra, last) => r == Ok(forward, extra, last.chunked.completed)
  {
    var forward: seq<Byte>, extra: seq<Byte> := [], [];
    ghost var all := ConsumedAll(gate.View(), pieces);
    assert pieces[0..] == pieces;
    for i := 0 to |pieces|
      invariant Valid(gate.View())
      invariant all == Prepend(forward, extra, ConsumedAll(gate.View(), pieces[i..]))
    {
      assert pieces[i..][0] == pieces[i] && pieces[i..][1..] == pieces[i + 1..];
      var piece := gate.Consume(pieces[i]);
      if piece.Err? { return Err(piece.error); }
      Prepended(forward, extra, piece.forward, piece.extra, ConsumedAll(gate.View(), pieces[i + 1..]));
      forward, extra := forward + piece.forward, extra + piece.extra;
    }
    assert forward + [] == forward && extra + [] == extra;
    r := Ok(forward, extra, gate.completed);
  }

  lemma Prepended(f: seq<Byte>, x: seq<Byte>, g: seq<Byte>, y: seq<Byte>, rest: Passed)
    ensures Prepend(f, x, Prepend(g, y, rest)) == Prepend(f + g, x + y, rest)
  {
    if rest.Passed? { assert f + (g + rest.forward) == f + g + rest.forward && x + (y + rest.extra) == x + y + rest.extra; }
  }

  /** Runs a new gate over a request's data as it arrives. */
  method Forward(spec: Spec, pieces: seq<seq<Byte>>) returns (r: Result)
    requires ValidSpec(spec) && pieces != []
    ensures match r
      case Err(_) => !HoldsBody(spec, Concat(pieces))
      case Ok(forward, extra, complete) =>
        && forward + extra == Concat(pieces) && (complete <==> HoldsBody(spec, Concat(pieces)))
        && if complete then IsBodyFor(spec, forward) else extra == []
  {
    var gate := new HttpForwardBodyGate(spec);
    r := ForwardAll(gate, pieces);
    ForwardsExactlyTheBody(spec, pieces);
  }
}
