/** The built-in ranges of local destinations: every one parses, and overlap is with one of them. */
module LocalRanges {
  import opened Prelude
  import opened Text
  import opened Bits
  import opened IpAddress
  import opened IpAddressText
  import opened CidrRanges

  lemma AddressAndPrefixParse(ip: string, prefix: nat, number: NumberReader)
    requires ReadsNumerals(number) && NoSpace(ip) && '/' !in ip && ip != ""
    requires IpOf(ip).Some? && prefix <= BitsOf(IpOf(ip).value.version)
    ensures RangeOf(ip + "/" + Decimal(prefix), number).Some?
  {
    var text, digits := ip + "/" + Decimal(prefix), Decimal(prefix);
    NumeralRoundTrip(prefix, 10);
    assert '/' !in digits && NoSpace(text);
    TrimNothing(text);
    SplitPart(digits, '/');
    SplitFirst(ip, digits, '/');
    assert text == ip + ['/'] + digits;
  }

  lemma JoinFour(a: string, b: string, c: string, d: string)
    ensures Join([a, b, c, d], ".") == a + "." + (b + "." + (c + "." + d))
  {
    var parts := [a, b, c, d];
    assert parts[1..] == [b, c, d] && parts[1..][1..] == [c, d] && parts[1..][1..][1..] == [d];
    assert Join(parts[1..][1..][1..], ".") == d;
    assert Join(parts[1..][1..], ".") == c + "." + d;
    assert Join(parts[1..], ".") == b + "." + (c + "." + d);
  }

  lemma Ipv4RangeParses(a: nat, b: nat, c: nat, d: nat, prefix: nat, text: string, number: NumberReader)
    requires ReadsNumerals(number) && a <= 255 && b <= 255 && c <= 255 && d <= 255 && prefix <= 32
    requires text == Decimal(a) + "." + (Decimal(b) + "." + (Decimal(c) + "." + Decimal(d))) + "/" + Decimal(prefix)
    ensures RangeOf(text, number).Some?
  {
    var ip := Decimal(a) + "." + (Decimal(b) + "." + (Decimal(c) + "." + Decimal(d)));
    JoinFour(Decimal(a), Decimal(b), Decimal(c), Decimal(d));
    ReadFour(a, b, c, d);
    assert NoSpace(ip) && '/' !in ip;
    TrimNothing(ip);
    assert ip[|Decimal(a)|] == '.';
    AddressAndPrefixParse(ip, prefix, number);
  }

  lemma LocalNumerals()
    ensures Decimal(0) == "0" && Decimal(8) == "8" && Decimal(10) == "10" && Decimal(12) == "12" && Decimal(16) == "16"
    ensures Decimal(64) == "64" && Decimal(100) == "100" && Decimal(127) == "127" && Decimal(168) == "168"
    ensures Decimal(169) == "169" && Decimal(172) == "172" && Decimal(192) == "192" && Decimal(254) == "254"
    ensures Decimal(7) == "7" && Decimal(128) == "128"
  {}

  lemma Ipv6RangeParses(left: seq<nat>, right: seq<nat>, prefix: nat, text: string, number: NumberReader)
    requires ReadsNumerals(number) && prefix <= 128 && |left| + |right| < 8 && SmallGroups(left) && SmallGroups(right)
    requires text == Join(HexTexts(left), ":") + "::" + Join(HexTexts(right), ":") + "/" + Decimal(prefix)
    ensures RangeOf(text, number).Some?
  {
    var ip := Join(HexTexts(left), ":") + "::" + Join(HexTexts(right), ":");
    ReadCompressed(left, right);
    HexTextChars(left);
    HexTextChars(right);
    assert forall c :: c in ip ==> Ipv6Char(c);
    assert NoSpace(ip) && '/' !in ip && '.' !in ip;
    TrimNothing(ip);
    assert ip[|Join(HexTexts(left), ":")|] == ':';
    AddressAndPrefixParse(ip, prefix, number);
  }

  lemma HexTextChars(groups: seq<nat>)
    ensures forall c :: c in Join(HexTexts(groups), ":") ==> Ipv6Char(c)
  {
    var texts := HexTexts(groups);
    forall text | text in texts ensures exists g :: text == Hex(g) {
      var i :| 0 <= i < |texts| && texts[i] == text;
      assert text == Hex(groups[i]);
    }
    forall c | c in Join(texts, ":") ensures Ipv6Char(c) { GroupTextChars(texts, c); }
  }

  function DottedRange(a: nat, b: nat, c: nat, d: nat, prefix: nat): string {
    Decimal(a) + "." + (Decimal(b) + "." + (Decimal(c) + "." + Decimal(d))) + "/" + Decimal(prefix)
  }

  function HexRange(left: seq<nat>, right: seq<nat>, prefix: nat): string {
    Join(HexTexts(left), ":") + "::" + Join(HexTexts(right), ":") + "/" + Decimal(prefix)
  }

  lemma LocalIpv4Texts()
    ensures LOCAL_DESTINATION_CIDRS[..7] == [
      DottedRange(0, 0, 0, 0, 8), DottedRange(10, 0, 0, 0, 8), DottedRange(100, 64, 0, 0, 10), DottedRange(127, 0, 0, 0, 8),
      DottedRange(169, 254, 0, 0, 16), DottedRange(172, 16, 0, 0, 12), DottedRange(192, 168, 0, 0, 16)]
  {
    ShortRanges();
    LongRanges();
  }

  lemma ShortRanges()
    ensures DottedRange(0, 0, 0, 0, 8) == "0.0.0.0/8" && DottedRange(10, 0, 0, 0, 8) == "10.0.0.0/8"
    ensures DottedRange(100, 64, 0, 0, 10) == "100.64.0.0/10" && DottedRange(127, 0, 0, 0, 8) == "127.0.0.0/8"
  {
    LocalNumerals();
  }

  lemma LongRanges()
    ensures DottedRange(169, 254, 0, 0, 16) == "169.254.0.0/16" && DottedRange(172, 16, 0, 0, 12) == "172.16.0.0/12"
    ensures DottedRange(192, 168, 0, 0, 16) == "192.168.0.0/16"
  {
    LocalNumerals();
  }

  lemma OneHexText(g: nat)
    ensures HexTexts([]) == [] && Join(HexTexts([]), ":") == "" && Join(HexTexts([g]), ":") == Hex(g)
  {
    assert HexTexts([g]) == [Hex(g)];
  }

  lemma LocalIpv6Texts()
    ensures LOCAL_DESTINATION_CIDRS[7..] == [HexRange([], [1], 128), HexRange([0xfc00], [], 7), HexRange([0xfe80], [], 10)]
  {
    LocalHexNumerals();
    HexRangeText(1, 128);
    HexRangeText(0xfc00, 7);
    HexRangeText(0xfe80, 10);
    assert HexRange([], [1], 128) == "::1/128";
    assert HexRange([0xfc00], [], 7) == "fc00::/7";
    assert HexRange([0xfe80], [], 10) == "fe80::/10";
  }

  lemma LocalHexNumerals()
    ensures Hex(1) == "1" && Hex(0xfc00) == "fc00" && Hex(0xfe80) == "fe80"
    ensures Decimal(128) == "128" && Decimal(7) == "7" && Decimal(10) == "10"
  {
    LocalNumerals();
  }

  lemma HexRangeText(g: nat, prefix: nat)
    ensures HexRange([], [g], prefix) == "::" + Hex(g) + "/" + Decimal(prefix)
    ensures HexRange([g], [], prefix) == Hex(g) + "::" + "/" + Decimal(prefix)
  {
    OneHexText(g);
  }

  /** Every built-in local range parses, so the source never refuses to start over one. */
  lemma LocalRangesParse(i: nat, number: NumberReader)
    requires i < |LOCAL_DESTINATION_CIDRS| && ReadsNumerals(number)
    ensures RangeOf(LOCAL_DESTINATION_CIDRS[i], number).Some?
  {
    var text := LOCAL_DESTINATION_CIDRS[i];
    if i < 7 {
      LocalIpv4Texts();
      assert text == LOCAL_DESTINATION_CIDRS[..7][i];
      LocalIpv4RangeParses(i, text, number);
    } else {
      LocalIpv6Texts();
      assert text == LOCAL_DESTINATION_CIDRS[7..][i - 7];
      LocalIpv6RangeParses(i - 7, text, number);
    }
  }

  lemma LocalIpv4RangeParses(i: nat, text: string, number: NumberReader)
    requires i < 7 && ReadsNumerals(number)
    requires text == [
      DottedRange(0, 0, 0, 0, 8), DottedRange(10, 0, 0, 0, 8), DottedRange(100, 64, 0, 0, 10), DottedRange(127, 0, 0, 0, 8),
      DottedRange(169, 254, 0, 0, 16), DottedRange(172, 16, 0, 0, 12), DottedRange(192, 168, 0, 0, 16)][i]
    ensures RangeOf(text, number).Some?
  {
    if i == 0 { Ipv4RangeParses(0, 0, 0, 0, 8, text, number); }
    else if i == 1 { Ipv4RangeParses(10, 0, 0, 0, 8, text, number); }
    else if i == 2 { Ipv4RangeParses(100, 64, 0, 0, 10, text, number); }
    else if i == 3 { Ipv4RangeParses(127, 0, 0, 0, 8, text, number); }
    else if i == 4 { Ipv4RangeParses(169, 254, 0, 0, 16, text, number); }
    else if i == 5 { Ipv4RangeParses(172, 16, 0, 0, 12, text, number); }
    else { Ipv4RangeParses(192, 168, 0, 0, 16, text, number); }
  }

  lemma LocalIpv6RangeParses(i: nat, text: string, number: NumberReader)
    requires i < 3 && ReadsNumerals(number)
    requires text == [HexRange([], [1], 128), HexRange([0xfc00], [], 7), HexRange([0xfe80], [], 10)][i]
    ensures RangeOf(text, number).Some?
  {
    if i == 0 { Ipv6RangeParses([], [1], 128, text, number); }
    else if i == 1 { Ipv6RangeParses([0xfc00], [], 7, text, number); }
    else { Ipv6RangeParses([0xfe80], [], 10, text, number); }
  }

  lemma {:induction false} RangesAreParsedCidrs(cidrs: seq<string>, number: NumberReader, range: Range)
    ensures range in RangesOf(cidrs, number) <==> exists i :: 0 <= i < |cidrs| && RangeOf(cidrs[i], number) == Some(range)
  {
    if cidrs != [] {
      RangesAreParsedCidrs(cidrs[1..], number, range);
      if exists i :: 0 <= i < |cidrs| && RangeOf(cidrs[i], number) == Some(range) {
        var i :| 0 <= i < |cidrs| && RangeOf(cidrs[i], number) == Some(range);
        if i > 0 { assert cidrs[1..][i - 1] == cidrs[i]; }
      }
      if range in RangesOf(cidrs[1..], number) {
        var i :| 0 <= i < |cidrs[1..]| && RangeOf(cidrs[1..][i], number) == Some(range);
        assert cidrs[i + 1] == cidrs[1..][i];
      }
    }
  }

  function LocalRange(i: nat, number: NumberReader): Range
    requires i < |LOCAL_DESTINATION_CIDRS| && ReadsNumerals(number)
  {
    LocalRangesParse(i, number);
    RangeOf(LOCAL_DESTINATION_CIDRS[i], number).value
  }

  /** A rule overlaps the local destinations exactly when it shares an address with one of the ten built-in ranges. */
  lemma OverlapIsWithABuiltInRange(text: string, number: NumberReader)
    requires ReadsNumerals(number) && RangeOf(text, number).Some?
    ensures OverlapsLocalDestinationRange(text, number) <==>
      exists i, ip :: 0 <= i < |LOCAL_DESTINATION_CIDRS| && InBoth(ip, LocalRange(i, number), RangeOf(text, number).value)
  {
    var range := RangeOf(text, number).value;
    OverlapMeansSharedAddress(text, number);
    if OverlapsLocalDestinationRange(text, number) {
      var local, ip :| local in RangesOf(LOCAL_DESTINATION_CIDRS, number) && InBoth(ip, local, range);
      RangesAreParsedCidrs(LOCAL_DESTINATION_CIDRS, number, local);
      var i :| 0 <= i < |LOCAL_DESTINATION_CIDRS| && RangeOf(LOCAL_DESTINATION_CIDRS[i], number) == Some(local);
      assert InBoth(ip, LocalRange(i, number), range);
    }
    if i, ip :| 0 <= i < |LOCAL_DESTINATION_CIDRS| && InBoth(ip, LocalRange(i, number), range) {
      LocalRangesParse(i, number);
      RangesAreParsedCidrs(LOCAL_DESTINATION_CIDRS, number, LocalRange(i, number));
    }
  }
}
