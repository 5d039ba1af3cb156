/**
 CIDR ranges: what a mask keeps, when two ranges share an address, and that the
 rules a user may type are the ones the parser reads.
 */
module CidrRanges {
  import opened Prelude
  import opened Text
  import opened Bits
  import opened IpAddress
  import opened IpAddressText

  // ----- Unmapping -----

  lemma NoColon(s: string)
    requires ':' !in s
    ensures LastColon(s) == -1
  {
    assert forall i :: 0 <= i < |s| ==> s[i] in s;
  }

  /** Text that is already trimmed, lower-case and without brackets is parsed as it stands. */
  lemma CleanIsItself(text: string)
    requires NoSpace(text) && IsLowerCase(text) && '[' !in text
    ensures ToLower(Unbracket(Trim(text))) == text
  {
    TrimNothing(text);
    LowerNothing(text);
    assert text != "" ==> text[0] in text;
  }

  lemma NoDotNoTail(text: string)
    requires '.' !in text || ':' !in text
    ensures !HasDottedTail(text)
  {
    if ':' !in text { NoColon(text); }
    assert forall c :: c in text[LastColon(text) + 1..] ==> c in text;
  }

  lemma LiteralAsParsed(text: string)
    requires !HasDottedTail(text)
    ensures LiteralOf(text) == IpOf(text)
  {}

  lemma UnmappedOfLiteral(text: string, literal: string)
    requires ToLower(Unbracket(Trim(text))) == literal && LiteralOf(literal).Some?
    ensures UnmappedIpOf(text) == Some(Unmapped(LiteralOf(literal).value))
  {}

  /** A dotted IPv4 text is read as the address it is, unmapped or not. */
  lemma UnmappedIpv4(v: nat)
    requires v < 0x1_0000_0000
    ensures UnmappedIpOf(Ipv4Text(v)) == Some(Ip(4, v))
  {
    var text := Ipv4Text(v);
    Ipv4Chars(v);
    Ipv4IpRoundTrip(v);
    CleanIsItself(text);
    NoDotNoTail(text);
    LiteralAsParsed(text);
    UnmappedOfLiteral(text, text);
  }

  lemma {:induction false} AndBelow(a: nat, b: nat)
    ensures And(a, b) <= b
    decreases a
  {
    if a > 0 && b > 0 { AndBelow(a / 2, b / 2); }
  }

  lemma UnmappedIpv4Fits(text: string)
    requires UnmappedIpOf(text).Some? && UnmappedIpOf(text).value.version == 4
    ensures UnmappedIpOf(text).value.value < 0x1_0000_0000
  {
    var value := ToLower(Unbracket(Trim(text)));
    var parsed := LiteralOf(value).value;
    if parsed.version == 6 {
      AndBelow(parsed.value, 0xffff_ffff);
    } else {
      LiteralAsParsed(value);
      Ipv4TextIsUnique(Trim(value));
    }
  }

  /** Replacing a mapped literal by the dotted address never changes which address the host names. */
  lemma UnmappingKeepsTheAddress(host: string)
    ensures UnmappedIpOf(UnmapHost(host)) == UnmappedIpOf(host)
    ensures UnmapHost(UnmapHost(host)) == UnmapHost(host)
  {
    if UnmapHost(host) != host {
      var v := UnmappedIpOf(host).value.value;
      UnmappedIpv4Fits(host);
      UnmappedIpv4(v);
      Ipv4Chars(v);
    }
  }

  // ----- Masks -----

  /** The address with everything after the prefix cleared. */
  function Masked(value: nat, bits: nat, prefixLength: nat): nat
    requires prefixLength <= bits
  {
    Clear(value, bits - prefixLength)
  }

  lemma {:induction false} ClearedByWidth(v: nat, k: nat)
    requires v < Power(2, k)
    ensures Clear(v, k) == 0
    decreases k
  {
    if k > 0 { ClearedByWidth(v / 2, k - 1); }
  }

  lemma MaskClears(value: nat, bits: nat, prefixLength: nat)
    requires value < Power(2, bits) && prefixLength <= bits
    ensures And(value, PrefixToMask(bits, prefixLength)) == Masked(value, bits, prefixLength)
  {
    if prefixLength == 0 {
      ClearedByWidth(value, bits);
    } else {
      ShlOne(prefixLength);
      OnesIsPower(prefixLength);
      AndMaskClears(value, prefixLength, bits - prefixLength);
    }
  }

  /** A range as the parser makes it: its network is an address with the host bits cleared. */
  predicate MaskedRange(range: Range) {
    && ValidIp(Ip(range.version, range.network)) && range.prefixLength <= BitsOf(range.version)
    && Masked(range.network, BitsOf(range.version), range.prefixLength) == range.network
  }

  lemma ParsedRangeIsMasked(text: string, number: NumberReader)
    requires RangeOf(text, number).Some?
    ensures MaskedRange(RangeOf(text, number).value)
  {
    var ip, range := IpOf(Split(Trim(text), '/')[0]).value, RangeOf(text, number).value;
    var bits := BitsOf(ip.version);
    ParsedIsValid(Split(Trim(text), '/')[0]);
    PowerOfBits(ip.version, bits);
    MaskClears(ip.value, bits, range.prefixLength);
    ClearBound(ip.value, bits - range.prefixLength);
    ClearTwice(ip.value, bits - range.prefixLength, bits - range.prefixLength);
  }

  /** Printing and parsing back any masked range. */
  lemma RangeRoundTrip(range: Range, number: NumberReader)
    requires MaskedRange(range) && ReadsNumerals(number)
    ensures RangeOf(RangeText(range), number) == Some(range)
  {
    var ip := Ip(range.version, range.network);
    var prefix, bits := Decimal(range.prefixLength), BitsOf(range.version);
    IpRoundTrip(ip);
    NumeralRoundTrip(range.prefixLength, 10);
    assert '/' !in prefix;
    var text := RangeText(range);
    assert NoSpace(text);
    TrimNothing(text);
    SplitFirst(IpText(ip), prefix, '/');
    SplitPart(prefix, '/');
    assert text == IpText(ip) + ['/'] + prefix;
    PowerOfBits(range.version, bits);
    MaskClears(range.network, bits, range.prefixLength);
  }

  // ----- Shared addresses -----

  lemma MatchesIsMasked(ip: Ip, range: Range)
    requires ValidIp(ip) && MaskedRange(range)
    ensures Matches(ip, range) <==>
      ip.version == range.version && Masked(ip.value, BitsOf(ip.version), range.prefixLength) == range.network
  {
    PowerOfBits(ip.version, BitsOf(ip.version));
    if ip.version == range.version { MaskClears(ip.value, BitsOf(ip.version), range.prefixLength); }
  }

  lemma SharesPrefixIsMasked(a: Range, b: Range)
    requires MaskedRange(a) && MaskedRange(b) && a.version == b.version
    ensures var bits, p := BitsOf(a.version), Min(a.prefixLength, b.prefixLength);
      SharesPrefix(a, b) <==> Masked(a.network, bits, p) == Masked(b.network, bits, p)
  {
    var bits, p := BitsOf(a.version), Min(a.prefixLength, b.prefixLength);
    PowerOfBits(a.version, bits);
    MaskClears(a.network, bits, p);
    MaskClears(b.network, bits, p);
  }

  /** Ranges that agree under the shorter prefix share the longer range's own network address. */
  lemma SharedPrefixShares(a: Range, b: Range) returns (ip: Ip)
    requires MaskedRange(a) && MaskedRange(b) && SharesPrefix(a, b)
    ensures ValidIp(ip) && Matches(ip, a) && Matches(ip, b)
  {
    ip := if a.prefixLength <= b.prefixLength then Ip(b.version, b.network) else Ip(a.version, a.network);
    SharesPrefixIsMasked(a, b);
    MatchesIsMasked(ip, a);
    MatchesIsMasked(ip, b);
  }

  /** An address in both ranges makes them agree under the shorter prefix. */
  lemma SharedAddressSharesPrefix(a: Range, b: Range, ip: Ip)
    requires MaskedRange(a) && MaskedRange(b) && ValidIp(ip) && Matches(ip, a) && Matches(ip, b)
    ensures SharesPrefix(a, b)
  {
    var bits, p := BitsOf(a.version), Min(a.prefixLength, b.prefixLength);
    MatchesIsMasked(ip, a);
    MatchesIsMasked(ip, b);
    SharesPrefixIsMasked(a, b);
    ClearTwice(ip.value, bits - a.prefixLength, bits - p);
    ClearTwice(ip.value, bits - b.prefixLength, bits - p);
  }

  ghost predicate InBoth(ip: Ip, a: Range, b: Range) { ValidIp(ip) && Matches(ip, a) && Matches(ip, b) }

  lemma {:induction false} LocalRangesAreMasked(cidrs: seq<string>, number: NumberReader)
    ensures forall range :: range in RangesOf(cidrs, number) ==> MaskedRange(range)
  {
    if cidrs != [] {
      LocalRangesAreMasked(cidrs[1..], number);
      if RangeOf(cidrs[0], number).Some? { ParsedRangeIsMasked(cidrs[0], number); }
    }
  }

  /** A rule overlaps the local destinations exactly when some address is in it and in a local range. */
  lemma OverlapMeansSharedAddress(text: string, number: NumberReader)
    ensures OverlapsLocalDestinationRange(text, number) <==>
      RangeOf(text, number).Some?
      && exists local, ip :: local in RangesOf(LOCAL_DESTINATION_CIDRS, number) && InBoth(ip, local, RangeOf(text, number).value)
  {
    LocalRangesAreMasked(LOCAL_DESTINATION_CIDRS, number);
    if RangeOf(text, number).Some? {
      var range := RangeOf(text, number).value;
      ParsedRangeIsMasked(text, number);
      if OverlapsLocalDestinationRange(text, number) {
        var local :| local in RangesOf(LOCAL_DESTINATION_CIDRS, number) && SharesPrefix(local, range);
        var ip := SharedPrefixShares(local, range);
        assert InBoth(ip, local, range);
      }
      forall local, ip | local in RangesOf(LOCAL_DESTINATION_CIDRS, number) && InBoth(ip, local, range)
        ensures OverlapsLocalDestinationRange(text, number)
      {
        SharedAddressSharesPrefix(local, range, ip);
      }
    }
  }

  // ----- Rules a user may type -----

  lemma {:induction false} OctetsAccepted(octets: seq<string>)
    ensures OctetsValue(octets).Some? <==> forall octet :: octet in octets ==> IsOctet(octet)
  {
    if octets != [] {
      OctetsAccepted(octets[..|octets| - 1]);
      assert octets == octets[..|octets| - 1] + [octets[|octets| - 1]];
    }
  }

  lemma {:induction false} GroupsAccepted(groups: seq<string>)
    ensures HexGroups(groups).Some? <==> forall group :: group in groups ==> IsHexGroup(group)
    ensures HexGroups(groups).Some? ==> |HexGroups(groups).value| == |groups|
  {
    if groups != [] {
      GroupsAccepted(groups[..|groups| - 1]);
      assert groups == groups[..|groups| - 1] + [groups[|groups| - 1]];
    }
  }

  /** The rule validator and the parser accept the same IPv4 texts. */
  lemma Ipv4ValidatorAgrees(text: string)
    ensures IsValidIpv4(text) <==> Ipv4Of(text).Some?
  {
    OctetsAccepted(Split(text, '.'));
  }

  /** The rule validator and the parser accept the same IPv6 texts. */
  lemma Ipv6ValidatorAgrees(text: string)
    ensures IsValidIpv6(text) <==> Ipv6Of(text).Some?
  {
    if text != "" && !Includes(text, ":::") {
      var parts := SplitDouble(text);
      if |parts| <= 2 {
        var left := GroupTexts(parts[0]);
        var right: seq<string> := if |parts| == 2 then GroupTexts(parts[1]) else [];
        GroupsAccepted(left);
        GroupsAccepted(right);
        assert forall group :: group in left + right <==> group in left || group in right;
      }
    }
  }

  predicate Ipv4Like(c: char) { IsDigit(c) || c == '.' }

  predicate Ipv6Like(c: char) { IsHexDigit(c) || c == ':' }

  lemma {:induction false} SplitChars(s: string, sep: char, c: char)
    requires c in s && c != sep
    ensures exists i :: 0 <= i < |Split(s, sep)| && c in Split(s, sep)[i]
  {
    JoinSplit(s, sep);
    JoinChars(Split(s, sep), [sep], c);
  }

  lemma {:induction false} SplitDoubleChars(s: string, c: char)
    requires c in s && c != ':'
    ensures exists i :: 0 <= i < |SplitDouble(s)| && c in SplitDouble(s)[i]
    decreases |s|
  {
    if |s| >= 2 && s[0] == ':' && s[1] == ':' {
      assert s == "::" + s[2..];
      SplitDoubleChars(s[2..], c);
      var i :| 0 <= i < |SplitDouble(s[2..])| && c in SplitDouble(s[2..])[i];
      assert c in SplitDouble(s)[i + 1];
    } else {
      var rest := SplitDouble(s[1..]);
      if c == s[0] {
        assert c in SplitDouble(s)[0];
      } else {
        assert s == [s[0]] + s[1..];
        SplitDoubleChars(s[1..], c);
        var i :| 0 <= i < |rest| && c in rest[i];
        assert c in SplitDouble(s)[i];
      }
    }
  }

  lemma ValidIpv4Chars(text: string)
    requires IsValidIpv4(text)
    ensures forall c :: c in text ==> Ipv4Like(c)
    ensures '.' in text
  {
    var octets := Split(text, '.');
    forall c | c in text && c != '.' ensures IsDigit(c) {
      SplitChars(text, '.', c);
      var i :| 0 <= i < |octets| && c in octets[i];
      assert octets[i] in octets;
    }
    if '.' !in text { SplitPart(text, '.'); }
  }

  lemma ValidIpv6Char(text: string, c: char)
    requires IsValidIpv6(text) && c in text && c != ':'
    ensures IsHexDigit(c)
  {
    var parts := SplitDouble(text);
    SplitDoubleChars(text, c);
    var i :| 0 <= i < |parts| && c in parts[i];
    SplitChars(parts[i], ':', c);
    var groups := GroupTexts(parts[i]);
    var j :| 0 <= j < |Split(parts[i], ':')| && c in Split(parts[i], ':')[j];
    assert groups[j] in groups && IsHexGroup(groups[j]);
  }

  lemma ValidIpv6Chars(text: string)
    requires IsValidIpv6(text)
    ensures forall c :: c in text ==> Ipv6Like(c)
    ensures ':' in text
  {
    forall c | c in text && c != ':' ensures IsHexDigit(c) { ValidIpv6Char(text, c); }
    if ':' !in text { NoColonNoGroups(text); }
  }

  lemma NoColonNoGroups(text: string)
    requires ':' !in text
    ensures !IsValidIpv6(text)
  {
    assert forall i :: 0 <= i < |text| ==> text[i] in text;
    SplitPlain(text);
    SplitPart(text, ':');
  }

  /** Every IP rule the validator accepts is read as a range, of the version and prefix it says. */
  lemma AcceptedRulesParse(text: string, number: NumberReader)
    requires ValidIpOrCidr(text) && ReadsNumerals(number)
    ensures RangeOf(text, number).Some?
  {
    var parts := Split(Trim(text), '/');
    var ip := parts[0];
    Ipv4ValidatorAgrees(ip);
    Ipv6ValidatorAgrees(ip);
    if IsValidIpv4(ip) { ValidIpv4Chars(ip); } else { ValidIpv6Chars(ip); }
    assert NoSpace(ip);
    TrimNothing(ip);
  }

  /** A text that is read as a range is a rule if and only if it has at most one slash, nothing to trim before it, and a
      plain decimal prefix after it. */
  lemma AcceptedRulesExactly(text: string, number: NumberReader)
    requires ReadsNumerals(number)
    ensures var parts := Split(Trim(text), '/');
      ValidIpOrCidr(text) <==>
        && RangeOf(text, number).Some? && |parts| <= 2 && Trim(parts[0]) == parts[0]
        && (|parts| == 2 ==> AllDigits(parts[1]) && NoLeadingZero(parts[1]))
  {
    var ip := Split(Trim(text), '/')[0];
    Ipv4ValidatorAgrees(ip);
    Ipv6ValidatorAgrees(ip);
    if ValidIpOrCidr(text) {
      AcceptedRulesParse(text, number);
      if IsValidIpv4(ip) { ValidIpv4Chars(ip); } else { ValidIpv6Chars(ip); }
      TrimNothing(ip);
    } else if IpOf(ip).Some? && Trim(ip) == ip {
      NotBothVersions(ip);
    }
  }

  lemma NotBothVersions(ip: string)
    ensures IsValidIpv4(ip) ==> '.' in ip
    ensures IsValidIpv6(ip) ==> '.' !in ip && ':' in ip
  {
    if IsValidIpv4(ip) { ValidIpv4Chars(ip); }
    if IsValidIpv6(ip) { ValidIpv6Chars(ip); }
  }
}
