/** Printing an address and parsing it back, in both directions. */
module IpAddressText {
  import opened Prelude
  import opened Text
  import opened Bits
  import opened IpAddress

  // ----- Shifts and masks by whole octets and groups -----

  lemma Append(v: nat, k: nat, low: nat)
    requires low < Power(2, k)
    ensures Or(Shl(v, k), low) == v * Power(2, k) + low
  {
    OrFillsShift(v, k, low);
    ShlIsProduct(v, k);
  }

  lemma {:induction false} ShlIsProduct(v: nat, k: nat)
    ensures Shl(v, k) == v * Power(2, k)
  {
    if k > 0 {
      ShlIsProduct(v, k - 1);
      assert v * (2 * Power(2, k - 1)) == 2 * (v * Power(2, k - 1));
    }
  }

  lemma AppendOctet(v: nat, octet: nat)
    requires octet <= 255
    ensures Or(Shl(v, 8), octet) == 256 * v + octet
  {
    OctetBits();
    Append(v, 8, octet);
  }

  lemma AppendGroup(v: nat, group: nat)
    requires group <= 0xffff
    ensures Or(Shl(v, 16), group) == 65536 * v + group
  {
    OctetBits();
    Append(v, 16, group);
  }

  // ----- IPv4 -----

  lemma FourOctets(a: string, b: string, c: string, d: string)
    requires IsOctet(a) && IsOctet(b) && IsOctet(c) && IsOctet(d)
    ensures OctetsValue([a, b, c, d])
      == Some(((DecimalValue(a) * 256 + DecimalValue(b)) * 256 + DecimalValue(c)) * 256 + DecimalValue(d))
  {
    var va, vb := DecimalValue(a), 256 * DecimalValue(a) + DecimalValue(b);
    AppendOctet(0, DecimalValue(a));
    AppendOctet(va, DecimalValue(b));
    AppendOctet(vb, DecimalValue(c));
    AppendOctet(256 * vb + DecimalValue(c), DecimalValue(d));
    var none: seq<string> := [];
    assert [a, b, c, d][..3] == [a, b, c] && [a, b, c][..2] == [a, b] && [a, b][..1] == [a] && [a][..0] == none;
    assert OctetsValue([a]) == Some(va);
    assert OctetsValue([a, b]) == Some(vb);
    assert OctetsValue([a, b, c]) == Some(256 * vb + DecimalValue(c));
  }

  lemma AnOctet(n: nat)
    requires n <= 255
    ensures IsOctet(Decimal(n)) && DecimalValue(Decimal(n)) == n && '.' !in Decimal(n)
  {
    NumeralRoundTrip(n, 10);
  }

  lemma Quarters(v: nat)
    requires v < 0x1_0000_0000
    ensures And(Shr(v, 24), 0xff) == v / 256 / 256 / 256 && And(Shr(v, 16), 0xff) == v / 256 / 256 % 256
    ensures And(Shr(v, 8), 0xff) == v / 256 % 256 && And(Shr(v, 0), 0xff) == v % 256
  {
    ShrShr(v, 8, 8);
    ShrShr(v, 16, 8);
    Octet(v);
    Octet(v / 256);
    Octet(v / 256 / 256);
    Octet(v / 256 / 256 / 256);
  }

  lemma FourParts(v: nat)
    requires v < 0x1_0000_0000
    ensures v / 256 / 256 / 256 <= 255
    ensures v == ((v / 256 / 256 / 256 * 256 + v / 256 / 256 % 256) * 256 + v / 256 % 256) * 256 + v % 256
  {}

  /** Every 32-bit value is read back from its text. */
  lemma Ipv4RoundTrip(v: nat)
    requires v < 0x1_0000_0000
    ensures Ipv4Of(Ipv4Text(v)) == Some(v)
  {
    Quarters(v);
    FourParts(v);
    ReadFour(v / 256 / 256 / 256, v / 256 / 256 % 256, v / 256 % 256, v % 256);
  }

  lemma ReadFour(a: nat, b: nat, c: nat, d: nat)
    requires a <= 255 && b <= 255 && c <= 255 && d <= 255
    ensures Ipv4Of(Join([Decimal(a), Decimal(b), Decimal(c), Decimal(d)], ".")) == Some(((a * 256 + b) * 256 + c) * 256 + d)
  {
    AnOctet(a);
    AnOctet(b);
    AnOctet(c);
    AnOctet(d);
    var octets := [Decimal(a), Decimal(b), Decimal(c), Decimal(d)];
    SplitJoin(octets, '.');
    FourOctets(octets[0], octets[1], octets[2], octets[3]);
  }

  lemma OctetsAreOctets(octets: seq<string>)
    requires OctetsValue(octets).Some?
    ensures forall octet :: octet in octets ==> IsOctet(octet)
  {
    if octets != [] {
      OctetsAreOctets(octets[..|octets| - 1]);
      assert octets == octets[..|octets| - 1] + [octets[|octets| - 1]];
    }
  }

  lemma OctetBack(octet: string)
    requires IsOctet(octet)
    ensures Decimal(DecimalValue(octet)) == octet
  {
    ValueRoundTrip(octet, 10);
  }

  lemma TextOfFour(a: nat, b: nat, c: nat, d: nat)
    requires a <= 255 && b <= 255 && c <= 255 && d <= 255
    ensures var v := ((a * 256 + b) * 256 + c) * 256 + d;
      v < 0x1_0000_0000 && Ipv4Text(v) == Join([Decimal(a), Decimal(b), Decimal(c), Decimal(d)], ".")
  {
    var v := ((a * 256 + b) * 256 + c) * 256 + d;
    Quarters(v);
    assert v / 256 == (a * 256 + b) * 256 + c && v / 256 / 256 == a * 256 + b && v / 256 / 256 / 256 == a;
  }

  lemma OctetTextsBack(octets: seq<string>)
    requires |octets| == 4 && IsOctet(octets[0]) && IsOctet(octets[1]) && IsOctet(octets[2]) && IsOctet(octets[3])
    ensures [Decimal(DecimalValue(octets[0])), Decimal(DecimalValue(octets[1])),
             Decimal(DecimalValue(octets[2])), Decimal(DecimalValue(octets[3]))] == octets
  {
    OctetBack(octets[0]);
    OctetBack(octets[1]);
    OctetBack(octets[2]);
    OctetBack(octets[3]);
  }

  lemma FourBack(octets: seq<string>)
    requires |octets| == 4 && IsOctet(octets[0]) && IsOctet(octets[1]) && IsOctet(octets[2]) && IsOctet(octets[3])
    ensures OctetsValue(octets).Some? && OctetsValue(octets).value < 0x1_0000_0000
    ensures Ipv4Text(OctetsValue(octets).value) == Join(octets, ".")
  {
    ValueOfFour(octets);
    FourOctetsBack(octets);
  }

  lemma FourOctetsBack(octets: seq<string>)
    requires |octets| == 4 && IsOctet(octets[0]) && IsOctet(octets[1]) && IsOctet(octets[2]) && IsOctet(octets[3])
    ensures var v := ((DecimalValue(octets[0]) * 256 + DecimalValue(octets[1])) * 256 + DecimalValue(octets[2])) * 256
                     + DecimalValue(octets[3]);
      v < 0x1_0000_0000 && Ipv4Text(v) == Join(octets, ".")
  {
    OctetTextsBack(octets);
    TextOfFour(DecimalValue(octets[0]), DecimalValue(octets[1]), DecimalValue(octets[2]), DecimalValue(octets[3]));
  }

  lemma ValueOfFour(octets: seq<string>)
    requires |octets| == 4 && IsOctet(octets[0]) && IsOctet(octets[1]) && IsOctet(octets[2]) && IsOctet(octets[3])
    ensures OctetsValue(octets) == Some(((DecimalValue(octets[0]) * 256 + DecimalValue(octets[1])) * 256
                                         + DecimalValue(octets[2])) * 256 + DecimalValue(octets[3]))
  {
    assert octets == [octets[0], octets[1], octets[2], octets[3]];
    FourOctets(octets[0], octets[1], octets[2], octets[3]);
  }

  /** Every accepted text is the one its value is written as: no address has two spellings. */
  lemma Ipv4TextIsUnique(text: string)
    requires Ipv4Of(text).Some?
    ensures Ipv4Of(text).value < 0x1_0000_0000 && Ipv4Text(Ipv4Of(text).value) == text
  {
    var octets := Split(text, '.');
    OctetsAreOctets(octets);
    FourBack(octets);
    JoinSplit(text, '.');
  }

  // ----- IPv6: groups -----

  predicate SmallGroups(groups: seq<nat>) { forall g :: g in groups ==> g <= 0xffff }

  /** The low `n` groups of a value, most significant first. */
  function LowGroups(v: nat, n: nat): (groups: seq<nat>)
    ensures |groups| == n && SmallGroups(groups)
  {
    if n == 0 then [] else LowGroups(v / 65536, n - 1) + [v % 65536]
  }

  lemma {:induction false} GroupAtLow(v: nat, n: nat, i: nat)
    requires i < n
    ensures LowGroups(v, n)[i] == And(Shr(v, (n - 1 - i) * 16), 0xffff)
    decreases n
  {
    if i == n - 1 {
      Group(v);
    } else {
      GroupAtLow(v / 65536, n - 1, i);
      Group(v);
      ShrShr(v, 16, (n - 2 - i) * 16);
    }
  }

  lemma {:induction false} FromLowGroups(v: nat, n: nat)
    requires v < Power(65536, n)
    ensures FromGroups(LowGroups(v, n)) == v
    decreases n
  {
    if n > 0 {
      FromLowGroups(v / 65536, n - 1);
      AppendGroup(v / 65536, v % 65536);
      var groups := LowGroups(v, n);
      assert groups[..n - 1] == LowGroups(v / 65536, n - 1);
    }
  }

  lemma {:induction false} FromGroupsBound(groups: seq<nat>)
    requires SmallGroups(groups)
    ensures FromGroups(groups) < Power(65536, |groups|)
    decreases |groups|
  {
    if groups != [] {
      var init, last := groups[..|groups| - 1], groups[|groups| - 1];
      assert last in groups && forall g :: g in init ==> g in groups;
      FromGroupsBound(init);
      AppendGroup(FromGroups(init), last);
    }
  }

  lemma {:induction false} GroupPower(n: nat)
    ensures Power(65536, n) == Power(2, 16 * n)
  {
    if n > 0 {
      GroupPower(n - 1);
      OctetBits();
      PowerAdds(2, 16, 16 * (n - 1));
    }
  }

  lemma Squared(half: nat, bits: nat, p: nat)
    requires Power(2, half) == p && bits == 2 * half
    ensures Power(2, bits) == p * p
  {
    PowerAdds(2, half, half);
  }

  lemma PowerOfBits(version: nat, bits: nat)
    requires bits == BitsOf(version)
    ensures AddressCount(version) == Power(2, bits)
  {
    OctetBits();
    if version == 4 {
      Squared(16, bits, 65536);
    } else {
      var quarter, half := bits / 4, bits / 2;
      Squared(16, quarter, 65536);
      Squared(quarter, half, IPV4_COUNT);
      Squared(half, bits, IPV4_COUNT * IPV4_COUNT);
    }
  }

  lemma EightGroups(n: nat)
    requires n == 8
    ensures Power(65536, n) == IPV6_COUNT
  {
    GroupPower(n);
    PowerOfBits(6, 16 * n);
  }

  function HexTexts(groups: seq<nat>): seq<string> { seq(|groups|, i requires 0 <= i < |groups| => Hex(groups[i])) }

  lemma TextsOfGroups(v: nat)
    ensures TextsOf(v) == HexTexts(LowGroups(v, 8))
  {
    forall i | 0 <= i < 8 ensures GroupAt(v, i) == LowGroups(v, 8)[i] { GroupAtLow(v, 8, i); }
  }

  lemma HexGroupText(g: nat)
    requires g <= 0xffff
    ensures IsHexGroup(Hex(g)) && HexValue(Hex(g)) == g && ':' !in Hex(g) && (Hex(g) == "0" <==> g == 0)
  {
    NumeralRoundTrip(g, 16);
    PowerAdds(16, 2, 2);
    assert Power(16, 2) == 256;
    HexLength(g, 4);
  }

  lemma {:induction false} ReadHexTexts(groups: seq<nat>)
    requires SmallGroups(groups)
    ensures HexGroups(HexTexts(groups)) == Some(groups)
    decreases |groups|
  {
    if groups != [] {
      var init, last := groups[..|groups| - 1], groups[|groups| - 1];
      assert last in groups && forall g :: g in init ==> g in groups;
      ReadHexTexts(init);
      HexGroupText(last);
      var texts := HexTexts(groups);
      assert texts[..|texts| - 1] == HexTexts(init) && texts[|texts| - 1] == Hex(last);
      assert groups == init + [last];
    }
  }

  // ----- IPv6: colons -----

  /** No colon beside another one or at either end. */
  predicate Plain(s: string) {
    && (forall i :: 0 <= i < |s| - 1 ==> !(s[i] == ':' && s[i + 1] == ':'))
    && (s != "" ==> s[0] != ':' && s[|s| - 1] != ':')
  }

  predicate Pieces(parts: seq<string>) { forall part :: part in parts ==> part != "" && ':' !in part }

  lemma {:induction false} JoinIsPlain(parts: seq<string>)
    requires Pieces(parts)
    ensures Plain(Join(parts, ":")) && (parts != [] ==> Join(parts, ":") != "")
  {
    if |parts| == 1 {
      assert parts[0] in parts;
      assert forall i :: 0 <= i < |parts[0]| ==> parts[0][i] in parts[0];
    } else if |parts| > 1 {
      assert parts[0] in parts && forall part :: part in parts[1..] ==> part in parts;
      JoinIsPlain(parts[1..]);
      PrependPiece(parts[0], Join(parts[1..], ":"));
    }
  }

  lemma PrependPiece(part: string, rest: string)
    requires part != "" && ':' !in part && rest != "" && Plain(rest)
    ensures Plain(part + ":" + rest)
  {
    var s := part + ":" + rest;
    assert forall i :: 0 <= i < |part| ==> s[i] == part[i] && part[i] in part;
    assert forall i :: |part| < i < |s| ==> s[i] == rest[i - |part| - 1];
  }

  lemma {:induction false} SplitPlain(s: string)
    requires forall i :: 0 <= i < |s| - 1 ==> !(s[i] == ':' && s[i + 1] == ':')
    ensures SplitDouble(s) == [s]
    decreases |s|
  {
    if s != "" {
      SplitPlain(s[1..]);
      assert s == [s[0]] + s[1..];
    }
  }

  lemma {:induction false} SplitAtDouble(left: string, right: string)
    requires forall i :: 0 <= i < |left| - 1 ==> !(left[i] == ':' && left[i + 1] == ':')
    requires left != "" ==> left[|left| - 1] != ':'
    ensures SplitDouble(left + "::" + right) == [left] + SplitDouble(right)
    decreases |left|
  {
    var s := left + "::" + right;
    if left == "" {
      assert s[2..] == right;
    } else {
      assert s[1..] == left[1..] + "::" + right && s[0] == left[0];
      assert |left| > 1 ==> s[1] == left[1];
      SplitAtDouble(left[1..], right);
      assert left == [left[0]] + left[1..];
    }
  }

  lemma ThreeColons(s: string, i: int)
    requires HasAt(s, i, ":::")
    ensures 0 <= i && i + 3 <= |s| && s[i] == ':' && s[i + 1] == ':' && s[i + 2] == ':'
  {
    assert s[i] == s[i..i + 3][0] && s[i + 1] == s[i..i + 3][1] && s[i + 2] == s[i..i + 3][2];
  }

  lemma NoTripleInPlain(s: string)
    requires Plain(s)
    ensures !Includes(s, ":::")
  {
    forall i ensures !HasAt(s, i, ":::") {
      if HasAt(s, i, ":::") { ThreeColons(s, i); }
    }
  }

  lemma NoTripleAround(left: string, right: string)
    requires Plain(left) && Plain(right)
    ensures !Includes(left + "::" + right, ":::")
  {
    var s := left + "::" + right;
    assert forall i :: 0 <= i < |left| ==> s[i] == left[i];
    assert forall i :: 0 <= i < |right| ==> s[|left| + 2 + i] == right[i];
    forall i ensures !HasAt(s, i, ":::") {
      if HasAt(s, i, ":::") { ThreeColons(s, i); }
    }
  }

  lemma ReadJoined(groups: seq<nat>)
    requires SmallGroups(groups)
    ensures HexGroups(GroupTexts(Join(HexTexts(groups), ":"))) == Some(groups)
    ensures Plain(Join(HexTexts(groups), ":")) && (groups != [] ==> Join(HexTexts(groups), ":") != "")
  {
    var texts := HexTexts(groups);
    assert forall i :: 0 <= i < |texts| ==> groups[i] in groups && texts[i] == Hex(groups[i]);
    forall text | text in texts ensures text != "" && ':' !in text {
      var i :| 0 <= i < |texts| && texts[i] == text;
      HexGroupText(groups[i]);
    }
    JoinIsPlain(texts);
    ReadHexTexts(groups);
    if groups != [] { SplitJoin(texts, ':'); }
  }

  // ----- IPv6: there and back -----

  lemma ReadUncompressed(groups: seq<nat>)
    requires |groups| == 8 && SmallGroups(groups)
    ensures GroupsOf(Join(HexTexts(groups), ":")) == Some(groups)
  {
    var text := Join(HexTexts(groups), ":");
    ReadJoined(groups);
    NoTripleInPlain(text);
    SplitPlain(text);
    assert groups + Zeros(0) + [] == groups;
  }

  /** `left::right` is split at its one double colon. */
  lemma SplitCompressed(l: string, r: string)
    requires Plain(l) && Plain(r)
    ensures SplitDouble(l + "::" + r) == [l, r] && !Includes(l + "::" + r, ":::") && l + "::" + r != ""
  {
    NoTripleAround(l, r);
    SplitAtDouble(l, r);
    SplitPlain(r);
    assert |l + "::" + r| > 0;
  }

  lemma ReadCompressed(left: seq<nat>, right: seq<nat>)
    requires |left| + |right| < 8 && SmallGroups(left) && SmallGroups(right)
    ensures GroupsOf(Join(HexTexts(left), ":") + "::" + Join(HexTexts(right), ":")) == Some(left + Zeros(8 - |left| - |right|) + right)
  {
    var l, r := Join(HexTexts(left), ":"), Join(HexTexts(right), ":");
    ReadJoined(left);
    ReadJoined(right);
    SplitCompressed(l, r);
    GroupsOfParts(l + "::" + r, l, r, left, right);
  }

  lemma GroupsOfParts(text: string, l: string, r: string, left: seq<nat>, right: seq<nat>)
    requires text != "" && !Includes(text, ":::") && SplitDouble(text) == [l, r] && |left| + |right| < 8
    requires HexGroups(GroupTexts(l)) == Some(left) && HexGroups(GroupTexts(r)) == Some(right)
    ensures GroupsOf(text) == Some(left + Zeros(8 - |left| - |right|) + right)
  {}

  /** A run of zeros in the texts is one in the groups. */
  lemma RunOfZeros(groups: seq<nat>, run: Run)
    requires |groups| == 8 && SmallGroups(groups) && ZeroRun(HexTexts(groups), run.start, run.length)
    ensures groups == groups[..run.start] + Zeros(run.length) + groups[run.start + run.length..]
  {
    var texts, end := HexTexts(groups), run.start + run.length;
    forall i | run.start <= i < end ensures groups[i] == 0 {
      assert texts[i] == "0" && groups[i] in groups;
      HexGroupText(groups[i]);
    }
  }

  /** Whichever run of at least two zero groups is left out, the address reads back. */
  lemma ReadWithoutRun(groups: seq<nat>, run: Run)
    requires |groups| == 8 && SmallGroups(groups) && run.length >= 2 && ZeroRun(HexTexts(groups), run.start, run.length)
    ensures GroupsOf(Compressed(HexTexts(groups), run)) == Some(groups)
  {
    var texts, end := HexTexts(groups), run.start + run.length;
    var left, right := groups[..run.start], groups[end..];
    assert texts[..run.start] == HexTexts(left) && texts[end..] == HexTexts(right);
    RunOfZeros(groups, run);
    assert forall g :: g in left || g in right ==> g in groups;
    ReadCompressed(left, right);
  }

  /** Every 128-bit value is read back from its text. */
  lemma Ipv6RoundTrip(v: nat)
    requires v < IPV6_COUNT
    ensures Ipv6Of(Ipv6Text(v)) == Some(v)
  {
    var groups := LowGroups(v, 8);
    TextsOfGroups(v);
    EightGroups(8);
    FromLowGroups(v, 8);
    var texts := TextsOf(v);
    var run := BestRun(texts, 0);
    BestRunIsLeftmostLongest(texts);
    if run.length < 2 { ReadUncompressed(groups); } else { ReadWithoutRun(groups, run); }
  }

  /** The text spells every group out, or leaves out the leftmost of the longest runs of at least two zero groups. */
  lemma Ipv6TextIsShortest(v: nat) returns (run: Run)
    ensures LeftmostLongest(TextsOf(v), run) && Ipv6Text(v) == Compressed(TextsOf(v), run)
    ensures forall i :: 0 <= i < 8 ==> (TextsOf(v)[i] == "0" <==> LowGroups(v, 8)[i] == 0)
  {
    run := BestRun(TextsOf(v), 0);
    BestRunIsLeftmostLongest(TextsOf(v));
    TextsOfGroups(v);
    forall i | 0 <= i < 8 ensures TextsOf(v)[i] == "0" <==> LowGroups(v, 8)[i] == 0 {
      assert LowGroups(v, 8)[i] in LowGroups(v, 8);
      HexGroupText(LowGroups(v, 8)[i]);
    }
  }

  // ----- Any address -----

  predicate Ipv4Char(c: char) { IsDigit(c) || c == '.' }

  predicate Ipv6Char(c: char) { (IsHexDigit(c) && !('A' <= c <= 'Z')) || c == ':' }

  lemma {:induction false} JoinChars(parts: seq<string>, sep: string, c: char)
    requires c in Join(parts, sep)
    ensures c in sep || exists i :: 0 <= i < |parts| && c in parts[i]
  {
    if |parts| == 1 {
      assert c in parts[0];
    } else if |parts| > 1 && c !in parts[0] && c !in sep {
      JoinChars(parts[1..], sep, c);
      var i :| 0 <= i < |parts[1..]| && c in parts[1..][i];
      assert c in parts[i + 1];
    } else if c in parts[0] {
      assert 0 < |parts|;
    }
  }

  lemma Ipv4Chars(v: nat)
    ensures forall c :: c in Ipv4Text(v) ==> Ipv4Char(c)
    ensures '.' in Ipv4Text(v)
  {
    var octets := [OctetText(v, 24), OctetText(v, 16), OctetText(v, 8), OctetText(v, 0)];
    forall c | c in Join(octets, ".") ensures Ipv4Char(c) {
      JoinChars(octets, ".", c);
      if c !in "." {
        var i :| 0 <= i < |octets| && c in octets[i];
      }
    }
    assert Join(octets, ".") == octets[0] + "." + Join(octets[1..], ".");
    assert Join(octets, ".")[|octets[0]|] == '.';
  }

  lemma GroupTextChars(texts: seq<string>, c: char)
    requires forall text :: text in texts ==> exists g :: text == Hex(g)
    requires c in Join(texts, ":")
    ensures Ipv6Char(c)
  {
    JoinChars(texts, ":", c);
    if c !in ":" {
      var i :| 0 <= i < |texts| && c in texts[i];
      assert texts[i] in texts;
      var g :| texts[i] == Hex(g);
    }
  }

  lemma {:induction false} ColonInJoin(parts: seq<string>)
    requires |parts| > 1
    ensures ':' in Join(parts, ":")
  {
    assert Join(parts, ":") == parts[0] + ":" + Join(parts[1..], ":");
    assert Join(parts, ":")[|parts[0]|] == ':';
  }

  lemma CompressedChars(texts: seq<string>, run: Run)
    requires run.start + run.length <= |texts| && |texts| > 1
    requires forall text :: text in texts ==> exists g :: text == Hex(g)
    ensures forall c :: c in Compressed(texts, run) ==> Ipv6Char(c)
    ensures ':' in Compressed(texts, run)
  {
    var left, right := texts[..run.start], texts[run.start + run.length..];
    assert forall text :: text in left || text in right ==> text in texts;
    forall c | c in Compressed(texts, run) ensures Ipv6Char(c) {
      if run.length < 2 {
        GroupTextChars(texts, c);
      } else if c in Join(left, ":") {
        GroupTextChars(left, c);
      } else if c in Join(right, ":") {
        GroupTextChars(right, c);
      }
    }
    if run.length < 2 {
      ColonInJoin(texts);
    } else {
      assert Compressed(texts, run)[|Join(left, ":")|] == ':';
    }
  }

  lemma Ipv6Chars(v: nat)
    ensures forall c :: c in Ipv6Text(v) ==> Ipv6Char(c)
    ensures ':' in Ipv6Text(v)
  {
    var texts := TextsOf(v);
    forall text | text in texts ensures exists g :: text == Hex(g) {
      var i :| 0 <= i < 8 && texts[i] == text;
      assert text == Hex(GroupAt(v, i));
    }
    CompressedChars(texts, BestRun(texts, 0));
  }

  lemma Ipv4IpRoundTrip(v: nat)
    requires v < 0x1_0000_0000
    ensures IpOf(Ipv4Text(v)) == Some(Ip(4, v))
    ensures NoSpace(Ipv4Text(v)) && '/' !in Ipv4Text(v) && Ipv4Text(v) != ""
  {
    Ipv4RoundTrip(v);
    Ipv4Chars(v);
    TrimNothing(Ipv4Text(v));
  }

  lemma Ipv6TextIsClean(v: nat)
    ensures NoSpace(Ipv6Text(v)) && '/' !in Ipv6Text(v) && '.' !in Ipv6Text(v) && ':' in Ipv6Text(v) && Ipv6Text(v) != ""
  {
    Ipv6Chars(v);
  }

  lemma Ipv6OfClean(text: string, v: nat)
    requires NoSpace(text) && '.' !in text && ':' in text && Ipv6Of(text) == Some(v)
    ensures IpOf(text) == Some(Ip(6, v))
  {
    TrimNothing(text);
  }

  lemma Ipv6IpRoundTrip(v: nat)
    requires v < IPV6_COUNT
    ensures IpOf(Ipv6Text(v)) == Some(Ip(6, v))
    ensures NoSpace(Ipv6Text(v)) && '/' !in Ipv6Text(v) && Ipv6Text(v) != ""
  {
    Ipv6RoundTrip(v);
    Ipv6TextIsClean(v);
    Ipv6OfClean(Ipv6Text(v), v);
  }

  /** Printing and parsing back any address. */
  lemma IpRoundTrip(ip: Ip)
    requires ValidIp(ip)
    ensures IpOf(IpText(ip)) == Some(ip)
    ensures NoSpace(IpText(ip)) && '/' !in IpText(ip) && IpText(ip) != ""
  {
    if ip.version == 4 {
      Ipv4IpRoundTrip(ip.value);
    } else {
      Ipv6IpRoundTrip(ip.value);
    }
  }

  lemma {:induction false} HexGroupsAreSmall(groups: seq<string>)
    requires HexGroups(groups).Some?
    ensures |HexGroups(groups).value| == |groups| && SmallGroups(HexGroups(groups).value)
  {
    if groups != [] {
      var group := groups[|groups| - 1];
      HexGroupsAreSmall(groups[..|groups| - 1]);
      HexValueBound(group);
      PowersOf16(|group|);
    }
  }

  lemma PowersOf16(n: nat)
    requires n <= 4
    ensures Power(16, n) <= 65536
  {
    PowerAdds(16, 2, 2);
    assert Power(16, 1) == 16 && Power(16, 2) == 256 && Power(16, 3) == 4096;
  }

  /** What is parsed is an address: its value fits its version. */
  lemma ParsedIsValid(text: string)
    requires IpOf(text).Some?
    ensures ValidIp(IpOf(text).value)
  {
    if '.' in Trim(text) { Ipv4IsValid(Trim(text)); } else { Ipv6IsValid(Trim(text)); }
  }

  lemma Ipv4IsValid(text: string)
    requires Ipv4Of(text).Some?
    ensures ValidIp(Ip(4, Ipv4Of(text).value))
  {
    Ipv4TextIsUnique(text);
  }

  lemma Ipv6IsValid(text: string)
    requires Ipv6Of(text).Some?
    ensures ValidIp(Ip(6, Ipv6Of(text).value))
  {
    var groups, parts := GroupsOf(text).value, SplitDouble(text);
    HexGroupsAreSmall(GroupTexts(parts[0]));
    if |parts| == 2 { HexGroupsAreSmall(GroupTexts(parts[1])); }
    FromGroupsBound(groups);
    EightGroups(8);
  }
}
