/** UTF-8 lengths of UTF-16 text, and cutting text to a number of UTF-8 bytes. */
module Utf8 {
  import opened Prelude

  /** A UTF-16 code unit. */
  type Unit = u: int | 0 <= u < 0x1_0000

  type Utf16 = seq<Unit>

  predicate IsHigh(u: Unit) { 0xd800 <= u <= 0xdbff }

  predicate IsLow(u: Unit) { 0xdc00 <= u <= 0xdfff }

  datatype Size = Size(bytes: nat, width: nat)

  /** The first character: its UTF-8 bytes and its code units; a surrogate without its other half counts three bytes. */
  function CharacterSize(s: Utf16): (size: Size)
    requires s != []
    ensures 1 <= size.width <= 2 && size.width <= |s| && 1 <= size.bytes <= 4
  {
    if s[0] < 0x80 then Size(1, 1)
    else if s[0] < 0x800 then Size(2, 1)
    else if IsHigh(s[0]) && |s| > 1 && IsLow(s[1]) then Size(4, 2)
    else Size(3, 1)
  }

  function ByteLength(s: Utf16): nat {
    if s == [] then 0 else CharacterSize(s).bytes + ByteLength(s[CharacterSize(s).width..])
  }

  lemma LengthAfterOneMore(value: Utf16, index: nat)
    requires index < |value|
    ensures var size := CharacterSize(value[index..]);
      ByteLength(value[index..]) == size.bytes + ByteLength(value[index + size.width..])
  {
    var size := CharacterSize(value[index..]);
    assert value[index..][size.width..] == value[index + size.width..];
  }

  /** One character in the order `utf8ByteLength` tells them apart. */
  method CharacterAt(value: Utf16, index: nat) returns (size: Size)
    requires index < |value|
    ensures size == CharacterSize(value[index..])
  {
    var code := value[index];
    if code < 0x80 { return Size(1, 1); }
    if code < 0x800 { return Size(2, 1); }
    if IsHigh(code) && index + 1 < |value| && IsLow(value[index + 1]) { return Size(4, 2); }
    return Size(3, 1);
  }

  /** `utf8ByteLength` */
  method Utf8ByteLength(value: Utf16) returns (bytes: nat)
    ensures bytes == ByteLength(value)
  {
    bytes := 0;
    var index: nat := 0;
    assert value[0..] == value;
    while index < |value|
      invariant index <= |value| && bytes + ByteLength(value[index..]) == ByteLength(value)
      decreases |value| - index
    {
      var size := CharacterAt(value, index);
      LengthAfterOneMore(value, index);
      bytes := bytes + size.bytes;
      index := index + size.width;
    }
  }

  // ----- The bytes themselves (section 3 of RFC 3629) -----

  type Byte = b: int | 0 <= b < 256

  /** The character's number; a surrogate without its other half is written as the replacement character. */
  function CodePoint(s: Utf16): (cp: nat)
    requires s != []
    ensures cp < 0x11_0000
  {
    if IsHigh(s[0]) && |s| > 1 && IsLow(s[1]) then 0x1_0000 + 0x400 * (s[0] as int - 0xd800) + (s[1] as int - 0xdc00)
    else if IsHigh(s[0]) || IsLow(s[0]) then 0xfffd
    else s[0]
  }

  /** The two units that write a number beyond sixteen bits (section 2.1 of RFC 2781). */
  function PairOf(cp: nat): Utf16
    requires 0x1_0000 <= cp < 0x11_0000
  {
    [0xd800 + (cp - 0x1_0000) / 0x400, 0xdc00 + (cp - 0x1_0000) % 0x400]
  }

  /** A character of two units is the pair of its number, and such a pair is always one; of the others the surrogates are
      replaced. */
  lemma PairsExactly(s: Utf16)
    requires s != []
    ensures CharacterSize(s).width == 2 <==> |s| > 1 && exists cp :: 0x1_0000 <= cp < 0x11_0000 && s[..2] == PairOf(cp)
    ensures CharacterSize(s).width == 2 ==> 0x1_0000 <= CodePoint(s) && s[..2] == PairOf(CodePoint(s))
    ensures CharacterSize(s).width == 1 ==> CodePoint(s) == if 0xd800 <= s[0] < 0xe000 then 0xfffd else s[0]
  {
    if CharacterSize(s).width == 2 { assert s[..2] == PairOf(CodePoint(s)); }
    if |s| > 1 && exists cp :: 0x1_0000 <= cp < 0x11_0000 && s[..2] == PairOf(cp) {
      var cp :| 0x1_0000 <= cp < 0x11_0000 && s[..2] == PairOf(cp);
      assert s[0] == PairOf(cp)[0] && s[1] == PairOf(cp)[1];
    }
  }

  /** A first byte that says how many follow, and six bits in each that does. */
  function EncodeCodePoint(cp: nat): seq<Byte>
    requires cp < 0x11_0000
  {
    if cp < 0x80 then [cp]
    else if cp < 0x800 then [0xc0 + cp / 0x40, 0x80 + cp % 0x40]
    else if cp < 0x1_0000 then [0xe0 + cp / 0x1000, 0x80 + cp / 0x40 % 0x40, 0x80 + cp % 0x40]
    else [0xf0 + cp / 0x4_0000, 0x80 + cp / 0x1000 % 0x40, 0x80 + cp / 0x40 % 0x40, 0x80 + cp % 0x40]
  }

  function Encode(s: Utf16): seq<Byte> {
    if s == [] then [] else EncodeCodePoint(CodePoint(s)) + Encode(s[CharacterSize(s).width..])
  }

  /** The number the bytes of a character stand for, by how many there are. */
  function DecodeCodePoint(bytes: seq<Byte>): int
    requires 1 <= |bytes| <= 4
  {
    var first := bytes[0] as int;
    if |bytes| == 1 then first
    else if |bytes| == 2 then 0x40 * (first - 0xc0) + Low(bytes[1])
    else if |bytes| == 3 then 0x1000 * (first - 0xe0) + 0x40 * Low(bytes[1]) + Low(bytes[2])
    else 0x4_0000 * (first - 0xf0) + 0x1000 * Low(bytes[1]) + 0x40 * Low(bytes[2]) + Low(bytes[3])
  }

  /** The six bits of a byte that follows. */
  function Low(b: Byte): int { b as int - 0x80 }

  /** A character is written in the fewest bytes that can hold it, of the kinds the standard has. */
  lemma EncodedIsShortest(cp: nat)
    requires cp < 0x11_0000
    ensures var bytes := EncodeCodePoint(cp);
      && 1 <= |bytes| <= 4 && DecodeCodePoint(bytes) == cp
      && (|bytes| == 1 <==> cp < 0x80) && (|bytes| <= 2 <==> cp < 0x800) && (|bytes| <= 3 <==> cp < 0x1_0000)
    ensures WellFormed(EncodeCodePoint(cp))
  {
    SixBits(cp);
    SixBits(cp / 0x40);
    SixBits(cp / 0x40 / 0x40);
    assert cp / 0x1000 == cp / 0x40 / 0x40 && cp / 0x4_0000 == cp / 0x40 / 0x40 / 0x40;
  }

  lemma SixBits(n: nat)
    ensures n == 0x40 * (n / 0x40) + n % 0x40
  {}

  /** The first byte says how many there are, and the others say that they follow. */
  predicate WellFormed(bytes: seq<Byte>) {
    && 1 <= |bytes| <= 4
    && (if |bytes| == 1 then bytes[0] < 0x80 else if |bytes| == 2 then 0xc2 <= bytes[0] < 0xe0
        else if |bytes| == 3 then 0xe0 <= bytes[0] < 0xf0 else 0xf0 <= bytes[0] < 0xf5)
    && forall i :: 1 <= i < |bytes| ==> 0x80 <= bytes[i] < 0xc0
  }

  /** The length is that of the text written in UTF-8. */
  lemma {:induction false} LengthIsEncoded(s: Utf16)
    ensures |Encode(s)| == ByteLength(s)
    decreases |s|
  {
    if s != [] { LengthIsEncoded(s[CharacterSize(s).width..]); }
  }

  // ----- Characters and cuts -----

  /** No surrogate pair straddles position `k`. */
  predicate Boundary(s: Utf16, k: nat) {
    k == 0 || (s != [] && CharacterSize(s).width <= k && Boundary(s[CharacterSize(s).width..], k - CharacterSize(s).width))
  }

  /** How many code units of whole characters fit into `limit` bytes. */
  function LongestPrefix(s: Utf16, limit: nat): (k: nat)
    ensures k <= |s|
  {
    if s == [] || CharacterSize(s).bytes > limit then 0
    else CharacterSize(s).width + LongestPrefix(s[CharacterSize(s).width..], limit - CharacterSize(s).bytes)
  }

  lemma PrefixLength(s: Utf16, k: nat)
    requires s != [] && 0 < k <= |s| && Boundary(s, k)
    ensures var size := CharacterSize(s);
      size.width <= k && Boundary(s[size.width..], k - size.width)
      && ByteLength(s[..k]) == size.bytes + ByteLength(s[size.width..][..k - size.width])
  {
    var w := CharacterSize(s).width;
    assert s[..k][w..] == s[w..][..k - w] && CharacterSize(s[..k]) == CharacterSize(s);
  }

  /** The longest prefix is of whole characters and fits. */
  lemma {:induction false} LongestPrefixFits(s: Utf16, limit: nat)
    ensures Boundary(s, LongestPrefix(s, limit)) && ByteLength(s[..LongestPrefix(s, limit)]) <= limit
    decreases |s|
  {
    if s != [] && CharacterSize(s).bytes <= limit {
      LongestPrefixFits(s[CharacterSize(s).width..], limit - CharacterSize(s).bytes);
      PrefixLength(s, LongestPrefix(s, limit));
    }
  }

  /** No longer prefix of whole characters fits. */
  lemma {:induction false} LongerPrefixIsTooLong(s: Utf16, limit: nat, k: nat)
    requires LongestPrefix(s, limit) < k <= |s| && Boundary(s, k)
    ensures ByteLength(s[..k]) > limit
    decreases |s|
  {
    PrefixLength(s, k);
    var size := CharacterSize(s);
    if size.bytes <= limit { LongerPrefixIsTooLong(s[size.width..], limit - size.bytes, k - size.width); }
  }

  lemma LongestPrefixIsLongest(s: Utf16, limit: nat)
    ensures Boundary(s, LongestPrefix(s, limit)) && ByteLength(s[..LongestPrefix(s, limit)]) <= limit
    ensures forall k :: LongestPrefix(s, limit) < k <= |s| && Boundary(s, k) ==> ByteLength(s[..k]) > limit
  {
    LongestPrefixFits(s, limit);
    forall k | LongestPrefix(s, limit) < k <= |s| && Boundary(s, k) ensures ByteLength(s[..k]) > limit {
      LongerPrefixIsTooLong(s, limit, k);
    }
  }

  /** Two texts side by side take no more bytes than apart; they take fewer where two surrogates meet. */
  lemma {:induction false} JoinedBytes(a: Utf16, b: Utf16)
    ensures ByteLength(a + b) <= ByteLength(a) + ByteLength(b)
    ensures a == [] || b == [] || !IsLow(b[0]) ==> ByteLength(a + b) == ByteLength(a) + ByteLength(b)
    decreases |a|
  {
    if a == [] {
      assert a + b == b;
    } else if |a| == 1 && IsHigh(a[0]) && b != [] && IsLow(b[0]) {
      PairedBytes(a, b);
    } else {
      var w := CharacterSize(a).width;
      assert CharacterSize(a + b) == CharacterSize(a);
      assert (a + b)[w..] == a[w..] + b;
      JoinedBytes(a[w..], b);
    }
  }

  lemma PairedBytes(a: Utf16, b: Utf16)
    requires |a| == 1 && IsHigh(a[0]) && b != [] && IsLow(b[0])
    ensures ByteLength(a + b) + 2 == ByteLength(a) + ByteLength(b)
  {
    assert (a + b)[2..] == b[1..] && CharacterSize(a + b) == Size(4, 2);
    assert CharacterSize(a) == Size(3, 1) && a[1..] == [];
    assert CharacterSize(b) == Size(3, 1);
  }

  // ----- Truncation -----

  /** What `truncateUtf8` answers. */
  function Truncated(value: Utf16, maxBytes: int, marker: Utf16): Utf16 {
    if maxBytes <= 0 then []
    else if ByteLength(value) <= maxBytes then value
    else if ByteLength(marker) < maxBytes then value[..LongestPrefix(value, maxBytes - ByteLength(marker))] + marker
    else value[..LongestPrefix(value, maxBytes)]
  }

  /** After `bytes` bytes up to `index`, `end` is where the cut for the limit is, or will be no earlier. */
  ghost predicate CutSoFar(value: Utf16, limit: nat, index: nat, bytes: nat, end: nat)
    requires index <= |value|
  {
    if bytes <= limit then end == index && LongestPrefix(value, limit) == index + LongestPrefix(value[index..], limit - bytes)
    else end == LongestPrefix(value, limit)
  }

  lemma CutAfterOneMore(value: Utf16, limit: nat, index: nat, bytes: nat, end: nat)
    requires index < |value| && CutSoFar(value, limit, index, bytes, end)
    ensures var size := CharacterSize(value[index..]);
      index + size.width <= |value| &&
      CutSoFar(value, limit, index + size.width, bytes + size.bytes, if bytes + size.bytes <= limit then index + size.width else end)
  {
    var size := CharacterSize(value[index..]);
    assert value[index..][size.width..] == value[index + size.width..];
  }

  /** Where a scan stands: the bytes so far, and the cut for each of the two limits. */
  datatype Scan = Scan(index: nat, bytes: nat, markedEnd: nat)

  ghost predicate Scanned(value: Utf16, maxBytes: nat, markedLimit: nat, scan: Scan) {
    && scan.index <= |value| && scan.bytes <= maxBytes
    && ByteLength(value) == scan.bytes + ByteLength(value[scan.index..])
    && CutSoFar(value, maxBytes, scan.index, scan.bytes, scan.index)
    && CutSoFar(value, markedLimit, scan.index, scan.bytes, scan.markedEnd)
  }

  /** The text does not fit, and these are the cuts. */
  ghost predicate Overflows(value: Utf16, maxBytes: nat, markedLimit: nat, scan: Scan) {
    ByteLength(value) > maxBytes && scan.index == LongestPrefix(value, maxBytes) && scan.markedEnd == LongestPrefix(value, markedLimit)
  }

  lemma StartOfScan(value: Utf16, maxBytes: nat, markedLimit: nat)
    ensures Scanned(value, maxBytes, markedLimit, Scan(0, 0, 0))
  {
    assert value[0..] == value;
  }

  lemma EndOfScan(value: Utf16, maxBytes: nat, markedLimit: nat, scan: Scan)
    requires Scanned(value, maxBytes, markedLimit, scan) && scan.index == |value|
    ensures ByteLength(value) <= maxBytes
  {}

  /** The scan takes one more character, or finds that it does not fit. */
  method ScanCharacter(value: Utf16, maxBytes: nat, markedLimit: nat, scan: Scan) returns (fits: bool, next: Scan)
    requires markedLimit <= maxBytes && Scanned(value, maxBytes, markedLimit, scan) && scan.index < |value|
    ensures fits ==> Scanned(value, maxBytes, markedLimit, next) && next.index > scan.index
    ensures !fits ==> Overflows(value, maxBytes, markedLimit, scan)
  {
    var size := CharacterAt(value, scan.index);
    LengthAfterOneMore(value, scan.index);
    CutAfterOneMore(value, maxBytes, scan.index, scan.bytes, scan.index);
    CutAfterOneMore(value, markedLimit, scan.index, scan.bytes, scan.markedEnd);
    var bytes, index := scan.bytes + size.bytes, scan.index + size.width;
    if bytes > maxBytes { return false, scan; }
    return true, Scan(index, bytes, if bytes <= markedLimit then index else scan.markedEnd);
  }

  /** The scan: the cuts for the whole limit and for the one that leaves room for the marker, if the text does not fit. */
  method FindCuts(value: Utf16, maxBytes: nat, markedLimit: nat) returns (fits: bool, scan: Scan)
    requires markedLimit <= maxBytes
    ensures fits <==> ByteLength(value) <= maxBytes
    ensures !fits ==> Overflows(value, maxBytes, markedLimit, scan)
  {
    fits, scan := true, Scan(0, 0, 0);
    StartOfScan(value, maxBytes, markedLimit);
    while scan.index < |value|
      invariant Scanned(value, maxBytes, markedLimit, scan)
      decreases |value| - scan.index
    {
      var next;
      fits, next := ScanCharacter(value, maxBytes, markedLimit, scan);
      if !fits { return; }
      scan := next;
    }
    fits := true;
    EndOfScan(value, maxBytes, markedLimit, scan);
  }

  method TruncateUtf8(value: Utf16, maxBytes: int, marker: Utf16) returns (r: Utf16)
    ensures r == Truncated(value, maxBytes, marker)
  {
    if maxBytes <= 0 { return []; }
    var markerBytes := Utf8ByteLength(marker);
    var markedLimit := if markerBytes < maxBytes then maxBytes - markerBytes else maxBytes;
    var fits, scan := FindCuts(value, maxBytes, markedLimit);
    if fits { return value; }
    return if markerBytes < maxBytes then value[..scan.markedEnd] + marker else value[..scan.index];
  }

  /** The cut text fits; it is the text itself exactly when that fits. */
  lemma TruncatedFits(value: Utf16, maxBytes: int, marker: Utf16)
    ensures maxBytes > 0 ==> ByteLength(Truncated(value, maxBytes, marker)) <= maxBytes
    ensures maxBytes <= 0 ==> Truncated(value, maxBytes, marker) == []
    ensures maxBytes > 0 ==> (Truncated(value, maxBytes, marker) == value <==> ByteLength(value) <= maxBytes)
  {
    if maxBytes > 0 && ByteLength(value) > maxBytes {
      var limit := if ByteLength(marker) < maxBytes then maxBytes - ByteLength(marker) else maxBytes;
      LongestPrefixIsLongest(value, limit);
      JoinedBytes(value[..LongestPrefix(value, limit)], marker);
    }
  }

  /** A cut text is the longest prefix of whole characters that leaves room for the marker, with the marker where it fits. */
  lemma TruncatedIsPrefix(value: Utf16, maxBytes: int, marker: Utf16) returns (k: nat)
    requires maxBytes > 0 && ByteLength(value) > maxBytes
    ensures k < |value| && Boundary(value, k)
    ensures Truncated(value, maxBytes, marker) == value[..k] + if ByteLength(marker) < maxBytes then marker else []
    ensures var limit := if ByteLength(marker) < maxBytes then maxBytes - ByteLength(marker) else maxBytes;
      ByteLength(value[..k]) <= limit && forall j :: k < j <= |value| && Boundary(value, j) ==> ByteLength(value[..j]) > limit
  {
    var limit := if ByteLength(marker) < maxBytes then maxBytes - ByteLength(marker) else maxBytes;
    k := LongestPrefix(value, limit);
    LongestPrefixIsLongest(value, limit);
    assert value[..|value|] == value;
  }

  /** A cut between characters never separates the halves of a surrogate pair. */
  lemma {:induction false} BoundarySplitsNoPair(s: Utf16, k: nat)
    requires 0 < k < |s| && Boundary(s, k)
    ensures !(IsHigh(s[k - 1]) && IsLow(s[k]))
    decreases k
  {
    var w := CharacterSize(s).width;
    if k > w { BoundarySplitsNoPair(s[w..], k - w); }
  }
}
