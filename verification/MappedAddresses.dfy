/** IPv4-mapped IPv6 literals, in either spelling, are read as the IPv4 address they carry. */
module MappedAddresses {
  import opened Prelude
  import opened Text
  import opened Bits
  import opened IpAddress
  import opened IpAddressText
  import opened CidrRanges
  import opened IpLiterals

  lemma LowHalf(n: nat)
    requires n == 32
    ensures Power(2, n) == 0x1_0000_0000 && Ones(n) == 0xffff_ffff
  {
    PowerOfBits(4, n);
    OnesIsPower(n);
  }

  lemma MappedParts(v: nat)
    requires v < 0x1_0000_0000
    ensures var m := 0xffff * 0x1_0000_0000 + v; m < IPV6_COUNT && Shr(m, 32) == 0xffff && And(m, 0xffff_ffff) == v
  {
    var m := 0xffff * 0x1_0000_0000 + v;
    LowHalf(32);
    ShrIsDivision(m, 32);
    LowBits(m, 32);
  }

  lemma MappedUnmaps(v: nat)
    requires v < 0x1_0000_0000
    ensures Unmapped(Ip(6, 0xffff * 0x1_0000_0000 + v)) == Ip(4, v)
  {
    MappedParts(v);
  }

  lemma HexShape(m: nat)
    ensures var text := Ipv6Text(m); ToLower(Unbracket(Trim(text))) == text && !HasDottedTail(text)
  {
    Ipv6TextIsClean(m);
    Ipv6Chars(m);
    CleanIsItself(Ipv6Text(m));
    NoDotNoTail(Ipv6Text(m));
  }

  /** An IPv4-mapped IPv6 literal spelled in hex is read as the IPv4 address it carries. */
  lemma MappedInHex(v: nat)
    requires v < 0x1_0000_0000
    ensures UnmappedIpOf(Ipv6Text(0xffff * 0x1_0000_0000 + v)) == Some(Ip(4, v))
  {
    var m := 0xffff * 0x1_0000_0000 + v;
    Ipv6IpRoundTrip(m);
    HexShape(m);
    LiteralAsParsed(Ipv6Text(m));
    UnmappedOfLiteral(Ipv6Text(m), Ipv6Text(m));
    MappedUnmaps(v);
  }

  lemma LastColonAt(head: string, tail: string)
    requires head != "" && head[|head| - 1] == ':' && ':' !in tail
    ensures LastColon(head + tail) == |head| - 1
  {
    var s := head + tail;
    assert forall j :: |head| <= j < |s| ==> s[j] == tail[j - |head|] && s[j] in tail;
    assert s[|head| - 1] == ':';
  }

  lemma {:induction false} ZerosAreZero(n: nat)
    ensures FromGroups(Zeros(n)) == 0
  {
    if n > 0 {
      assert Zeros(n)[..n - 1] == Zeros(n - 1);
      ZerosAreZero(n - 1);
      AppendGroup(0, 0);
    }
  }

  lemma FromThree(zeros: seq<nat>, a: nat, b: nat, c: nat)
    requires FromGroups(zeros) == 0 && a <= 0xffff && b <= 0xffff && c <= 0xffff
    ensures FromGroups(zeros + [a, b, c]) == (a * 65536 + b) * 65536 + c
  {
    var groups := zeros + [a, b, c];
    var n := |zeros|;
    assert groups[..n + 2][..n + 1] == groups[..n + 1] && groups[..n + 1][..n] == zeros && groups[..n] == zeros;
    AppendGroup(0, a);
    AppendGroup(a, b);
    AppendGroup(65536 * a + b, c);
    assert FromGroups(groups[..n + 1]) == a;
    assert FromGroups(groups[..n + 2]) == 65536 * a + b;
  }

  lemma ThreeTexts(a: nat, b: nat, c: nat)
    ensures Join(HexTexts([a, b, c]), ":") == Hex(a) + ":" + (Hex(b) + ":" + Hex(c))
  {
    var texts := HexTexts([a, b, c]);
    assert texts == [Hex(a), Hex(b), Hex(c)] && texts[1..] == [Hex(b), Hex(c)] && texts[1..][1..] == [Hex(c)];
    assert Join(texts[1..][1..], ":") == Hex(c);
    assert Join(texts[1..], ":") == Hex(b) + ":" + Hex(c);
  }

  lemma MappedText(hi: nat, lo: nat)
    ensures "::ffff:" + Hex(hi) + ":" + Hex(lo) ==
      Join(HexTexts([]), ":") + "::" + Join(HexTexts([0xffff, hi, lo]), ":")
  {
    assert Hex(0xffff) == "ffff";
    ThreeTexts(0xffff, hi, lo);
    assert Join(HexTexts([]), ":") == "";
  }

  lemma ReadMapped(left: seq<nat>, right: seq<nat>, top: nat, hi: nat, lo: nat)
    requires left == [] && right == [top, hi, lo] && top <= 0xffff && hi <= 0xffff && lo <= 0xffff
    ensures Ipv6Of(Join(HexTexts(left), ":") + "::" + Join(HexTexts(right), ":")) == Some((top * 65536 + hi) * 65536 + lo)
  {
    var zeros := Zeros(8 - |left| - |right|);
    ReadCompressed(left, right);
    assert left + zeros + right == zeros + right;
    ZerosAreZero(8 - |left| - |right|);
    FromThree(zeros, top, hi, lo);
  }

  lemma MappedGroups(hi: nat, lo: nat)
    requires hi <= 0xffff && lo <= 0xffff
    ensures Ipv6Of("::ffff:" + Hex(hi) + ":" + Hex(lo)) == Some((0xffff * 65536 + hi) * 65536 + lo)
  {
    MappedText(hi, lo);
    ReadMapped([], [0xffff, hi, lo], 0xffff, hi, lo);
  }

  lemma MappedTail(v: nat)
    requires v < 0x1_0000_0000
    ensures DottedTailIpv6("::ffff:", Ipv4Text(v)) == Some(Ip(6, 0xffff * 0x1_0000_0000 + v))
  {
    Ipv4RoundTrip(v);
    Group(v);
    MappedGroups(v / 65536, v % 65536);
  }

  lemma MappedShape(v: nat)
    ensures var text := "::ffff:" + Ipv4Text(v);
      ToLower(Unbracket(Trim(text))) == text && HasDottedTail(text) && LastColon(text) == 6
      && text[..7] == "::ffff:" && text[7..] == Ipv4Text(v)
  {
    var head, tail := "::ffff:", Ipv4Text(v);
    var text := head + tail;
    Ipv4Chars(v);
    assert NoSpace(text) && IsLowerCase(text);
    TrimNothing(text);
    LowerNothing(text);
    LastColonAt(head, tail);
    assert text[0] == ':' && text[..6] == "::ffff";
  }

  /** ... and so is `::ffff:` before a dotted address. */
  lemma MappedInDots(v: nat)
    requires v < 0x1_0000_0000
    ensures UnmappedIpOf("::ffff:" + Ipv4Text(v)) == Some(Ip(4, v))
  {
    var text := "::ffff:" + Ipv4Text(v);
    MappedShape(v);
    MappedTail(v);
    LiteralOfTail(text, "::ffff:", Ipv4Text(v));
    UnmappedOfLiteral(text, text);
    MappedUnmaps(v);
  }

  lemma LiteralOfTail(text: string, head: string, tail: string)
    requires HasDottedTail(text) && text[..LastColon(text) + 1] == head && text[LastColon(text) + 1..] == tail
    ensures LiteralOf(text) == DottedTailIpv6(head, tail)
  {}

  /** An address is read the same in brackets, where it has none of its own, ... */
  lemma BracketsMakeNoDifference(text: string)
    requires Trimmed(text) && (text != "" ==> text[0] != '[') && forall c :: c in text ==> !IsLineTerminator(c)
    ensures UnmappedIpOf("[" + text + "]") == UnmappedIpOf(text)
  {
    BracketsGo(text);
    TrimmedIsItself(text);
  }

  lemma TrimmedIsItself(text: string)
    requires Trimmed(text)
    ensures Trim(text) == text
  {
    TrimOf("", text, "");
    assert "" + text + "" == text;
  }

  lemma BracketsGo(text: string)
    requires forall c :: c in text ==> !IsLineTerminator(c)
    ensures Unbracket(Trim("[" + text + "]")) == text
  {
    var bracketed := "[" + text + "]";
    TrimmedIsItself(bracketed);
    assert bracketed[1..|bracketed| - 1] == text;
  }

  /** ... and in any case. */
  lemma CaseMakesNoDifference(text: string)
    ensures UnmappedIpOf(ToLower(text)) == UnmappedIpOf(text)
  {
    var trimmed := Trim(text);
    var lower := ToLower(trimmed);
    TrimLower(text);
    forall c ensures !IsLetter(c) ==> (c in ToLower(trimmed) <==> c in trimmed) {
      if !IsLetter(c) { SeparatorLower(trimmed, c); }
    }
    if |trimmed| >= 2 {
      var inner := trimmed[1..|trimmed| - 1];
      assert lower[1..|lower| - 1] == ToLower(inner);
      forall c | IsLineTerminator(c) ensures c in ToLower(inner) <==> c in inner { SeparatorLower(inner, c); }
    }
    assert ToLower(Unbracket(lower)) == ToLower(Unbracket(trimmed));
  }
}
