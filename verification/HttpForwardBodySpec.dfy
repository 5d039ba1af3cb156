/**
 What a forwarded request's headers say about its body, and when they are
 refused: a request two parties could frame differently is never forwarded.
 */
module HttpForwardBodySpec {
  import opened Prelude
  import opened Text
  import opened HttpForwardBody

  const MAX_SAFE_INTEGER := 0x1F_FFFF_FFFF_FFFF

  datatype Refusal = AmbiguousFraming | UnsupportedEncoding | InvalidContentLength | BodyWithUpgrade

  datatype Described = Framed(spec: Spec) | Refused(refusal: Refusal)

  /** The last of a comma-separated list's items that is not blank, or "" if all are. */
  function LastItem(items: seq<string>): string {
    if items == [] then ""
    else if Trim(items[|items| - 1]) != "" then Trim(items[|items| - 1])
    else LastItem(items[..|items| - 1])
  }

  predicate EndsInChunked(transferEncoding: string) { LastItem(Split(ToLower(transferEncoding), ',')) == "chunked" }

  /** The last item that is not blank is "chunked": every item after it trims to nothing. */
  ghost predicate NamesChunkedLast(items: seq<string>) {
    exists i :: 0 <= i < |items| && Trim(items[i]) == "chunked" && forall j :: i < j < |items| ==> Trim(items[j]) == ""
  }

  /** The last item that is not blank, or none. */
  lemma {:induction false} LastItemAt(items: seq<string>) returns (i: int)
    ensures -1 <= i < |items| && forall j :: i < j < |items| ==> Trim(items[j]) == ""
    ensures LastItem(items) == if i >= 0 then Trim(items[i]) else ""
    ensures i >= 0 ==> Trim(items[i]) != ""
    decreases |items|
  {
    i := |items| - 1;
    if items != [] && Trim(items[i]) == "" { i := LastItemAt(items[..i]); }
  }

  lemma LastItemIsLast(items: seq<string>)
    ensures LastItem(items) == "chunked" <==> NamesChunkedLast(items)
  {
    var last := LastItemAt(items);
    if NamesChunkedLast(items) {
      var i :| 0 <= i < |items| && Trim(items[i]) == "chunked" && forall j :: i < j < |items| ==> Trim(items[j]) == "";
      assert i == last;
    }
  }

  predicate AllSame(values: seq<string>) { forall value :: value in values ==> value == values[0] }

  /** `values` are the request's Content-Length values, one for each header line. */
  function DescribeHttpForwardBody(values: seq<string>, transferEncoding: Option<string>, stream: bool): Described {
    if transferEncoding.Some? && values != [] then Refused(AmbiguousFraming)
    else if transferEncoding.Some? && !EndsInChunked(transferEncoding.value) then Refused(UnsupportedEncoding)
    else if values != [] && !(AllSame(values) && AllDigits(values[0])) then Refused(InvalidContentLength)
    else
      var contentLength := if values != [] then DecimalValue(values[0]) else 0;
      if contentLength > MAX_SAFE_INTEGER then Refused(InvalidContentLength)
      else if stream && (transferEncoding.Some? || contentLength > 0) then Refused(BodyWithUpgrade)
      else if stream then Framed(Spec(Stream, 0))
      else if transferEncoding.Some? then Framed(Spec(ChunkedBody, 0))
      else if contentLength == 0 then Framed(Spec(NoBody, 0))
      else Framed(Spec(ContentLength, contentLength))
  }

  /** The length every Content-Length line agrees on, none meaning no body. */
  ghost predicate SaysLength(values: seq<string>, length: nat) {
    length <= MAX_SAFE_INTEGER
    && (forall value :: value in values ==> AllDigits(value) && DecimalValue(value) == length)
    && (forall a, b :: a in values && b in values ==> a == b)
    && (values == [] ==> length == 0)
  }

  /** Each framing is described exactly when the headers leave no other reading. */
  lemma FramedExactlyWhenUnambiguous(values: seq<string>, transferEncoding: Option<string>, stream: bool, length: nat)
    ensures DescribeHttpForwardBody(values, transferEncoding, stream) == Framed(Spec(ContentLength, length)) <==>
      length > 0 && SaysLength(values, length) && transferEncoding.None? && !stream
    ensures DescribeHttpForwardBody(values, transferEncoding, stream) == Framed(Spec(NoBody, 0)) <==>
      SaysLength(values, 0) && transferEncoding.None? && !stream
    ensures DescribeHttpForwardBody(values, transferEncoding, stream) == Framed(Spec(Stream, 0)) <==>
      SaysLength(values, 0) && transferEncoding.None? && stream
    ensures DescribeHttpForwardBody(values, transferEncoding, stream) == Framed(Spec(ChunkedBody, 0)) <==>
      values == [] && transferEncoding.Some? && NamesChunkedLast(Split(ToLower(transferEncoding.value), ',')) && !stream
  {
    if transferEncoding.Some? { LastItemIsLast(Split(ToLower(transferEncoding.value), ',')); }
    if values != [] { assert values[0] in values; }
  }

  /** Whatever has none of these readings is refused, and for this reason. */
  lemma RefusedExactly(values: seq<string>, transferEncoding: Option<string>, stream: bool)
    ensures DescribeHttpForwardBody(values, transferEncoding, stream) == Refused(AmbiguousFraming) <==>
      transferEncoding.Some? && values != []
    ensures DescribeHttpForwardBody(values, transferEncoding, stream) == Refused(UnsupportedEncoding) <==>
      values == [] && transferEncoding.Some? && !NamesChunkedLast(Split(ToLower(transferEncoding.value), ','))
    ensures DescribeHttpForwardBody(values, transferEncoding, stream) == Refused(InvalidContentLength) <==>
      transferEncoding.None? && !exists length: nat :: SaysLength(values, length)
    ensures DescribeHttpForwardBody(values, transferEncoding, stream) == Refused(BodyWithUpgrade) <==>
      && stream
      && (|| (transferEncoding.None? && exists length: nat :: length > 0 && SaysLength(values, length))
          || (values == [] && transferEncoding.Some? && NamesChunkedLast(Split(ToLower(transferEncoding.value), ','))))
  {
    if transferEncoding.Some? { LastItemIsLast(Split(ToLower(transferEncoding.value), ',')); }
    if values == [] {
      assert SaysLength(values, 0);
    } else {
      assert values[0] in values;
      if AllSame(values) && AllDigits(values[0]) && DecimalValue(values[0]) <= MAX_SAFE_INTEGER {
        assert SaysLength(values, DecimalValue(values[0]));
      }
    }
  }

  /** What the headers describe is what the body gate is made for. */
  lemma DescribedIsValid(values: seq<string>, transferEncoding: Option<string>, stream: bool)
    ensures var d := DescribeHttpForwardBody(values, transferEncoding, stream);
      d.Framed? ==> ValidSpec(d.spec) && (d.spec.mode != ContentLength ==> d.spec.contentLength == 0)
  {}
}
