/**
 IP literals and CIDR ranges: what the parsers and printers compute, and the
 loops that compute it. IpAddressText and CidrRanges say what it means.
 */
module IpAddress {
  import opened Prelude
  import opened Text
  import opened Bits

  datatype Ip = Ip(version: nat, value: nat)

  datatype Range = Range(version: nat, network: nat, prefixLength: nat)

  const IPV6_GROUPS := 8

  function BitsOf(version: nat): nat { if version == 4 then 32 else 128 }

  const IPV4_COUNT: nat := 0x1_0000_0000
  const IPV6_COUNT: nat := 0x1_0000_0000_0000_0000_0000_0000_0000_0000

  /** How many addresses there are: two to the power of the version's bits. */
  function AddressCount(version: nat): nat { if version == 4 then IPV4_COUNT else IPV6_COUNT }

  predicate ValidIp(ip: Ip) { (ip.version == 4 || ip.version == 6) && ip.value < AddressCount(ip.version) }

  // ----- IPv4 -----

  predicate IsOctet(octet: string) { AllDigits(octet) && NoLeadingZero(octet) && DecimalValue(octet) <= 255 }

  /** Octets read most significant first. */
  function OctetsValue(octets: seq<string>): Option<nat> {
    if octets == [] then Some(0)
    else
      var before, octet := OctetsValue(octets[..|octets| - 1]), octets[|octets| - 1];
      if before.None? || !IsOctet(octet) then None else Some(Or(Shl(before.value, 8), DecimalValue(octet)))
  }

  /** The value of a dotted IPv4 literal. */
  function Ipv4Of(text: string): Option<nat> {
    var octets := Split(text, '.');
    if |octets| != 4 then None else OctetsValue(octets)
  }

  function OctetText(value: nat, shift: nat): string { Decimal(And(Shr(value, shift), 0xff)) }

  /** An IPv4 address as dotted decimals. */
  function Ipv4Text(value: nat): string {
    Join([OctetText(value, 24), OctetText(value, 16), OctetText(value, 8), OctetText(value, 0)], ".")
  }

  lemma {:induction false} PrefixRefused(octets: seq<string>, i: nat)
    requires i <= |octets| && OctetsValue(octets[..i]).None?
    ensures OctetsValue(octets).None?
    decreases |octets| - i
  {
    if i < |octets| {
      assert octets[..i + 1][..i] == octets[..i];
      PrefixRefused(octets, i + 1);
    } else {
      assert octets[..i] == octets;
    }
  }

  method ParseIpv4(input: string) returns (ip: Option<Ip>)
    ensures ip == (if Ipv4Of(input).Some? then Some(Ip(4, Ipv4Of(input).value)) else None)
  {
    var octets := Split(input, '.');
    if |octets| != 4 { return None; }
    var value := 0;
    for i := 0 to |octets|
      invariant OctetsValue(octets[..i]) == Some(value)
    {
      var octet := octets[i];
      assert octets[..i + 1][..i] == octets[..i];
      if !AllDigits(octet) || !NoLeadingZero(octet) || DecimalValue(octet) > 255 {
        PrefixRefused(octets, i + 1);
        return None;
      }
      value := Or(Shl(value, 8), DecimalValue(octet));
    }
    assert octets[..|octets|] == octets;
    return Some(Ip(4, value));
  }

  // ----- IPv6, reading -----

  predicate HasAt(s: string, i: int, part: string) { 0 <= i && i + |part| <= |s| && s[i..i + |part|] == part }

  predicate Includes(s: string, part: string) { exists i :: 0 <= i <= |s| && HasAt(s, i, part) }

  /** `s.split("::")` */
  function SplitDouble(s: string): (parts: seq<string>)
    ensures parts != []
  {
    if s == "" then [""]
    else if |s| >= 2 && s[0] == ':' && s[1] == ':' then [""] + SplitDouble(s[2..])
    else
      var rest := SplitDouble(s[1..]);
      [[s[0]] + rest[0]] + rest[1..]
  }

  /** `/^[0-9a-f]{1,4}$/i` */
  predicate IsHexGroup(group: string) { AllHex(group) && |group| <= 4 }

  function HexGroups(groups: seq<string>): Option<seq<nat>> {
    if groups == [] then Some([])
    else
      var before, group := HexGroups(groups[..|groups| - 1]), groups[|groups| - 1];
      if before.None? || !IsHexGroup(group) then None else Some(before.value + [HexValue(group)])
  }

  function GroupTexts(input: string): seq<string> { if input == "" then [] else Split(input, ':') }

  /** Groups read most significant first. */
  function FromGroups(groups: seq<nat>): nat {
    if groups == [] then 0 else Or(Shl(FromGroups(groups[..|groups| - 1]), 16), groups[|groups| - 1])
  }

  function Zeros(n: nat): seq<nat> { seq(n, _ => 0) }

  /** The eight groups of an IPv6 literal, a `::` filled with zeros. */
  function GroupsOf(text: string): Option<seq<nat>> {
    if text == "" || Includes(text, ":::") then None
    else
      var parts := SplitDouble(text);
      if |parts| > 2 then None
      else
        var left := HexGroups(GroupTexts(parts[0]));
        var right := if |parts| == 2 then HexGroups(GroupTexts(parts[1])) else Some([]);
        if left.None? || right.None? then None
        else
          var missing := IPV6_GROUPS - |left.value| - |right.value|;
          if (if |parts| == 2 then missing < 1 else missing != 0) then None
          else Some(left.value + Zeros(missing) + right.value)
  }

  /** The value of an IPv6 literal. */
  function Ipv6Of(text: string): Option<nat> {
    var groups := GroupsOf(text);
    if groups.None? then None else Some(FromGroups(groups.value))
  }

  lemma {:induction false} GroupsRefused(groups: seq<string>, i: nat)
    requires i <= |groups| && HexGroups(groups[..i]).None?
    ensures HexGroups(groups).None?
    decreases |groups| - i
  {
    if i < |groups| {
      assert groups[..i + 1][..i] == groups[..i];
      GroupsRefused(groups, i + 1);
    } else {
      assert groups[..i] == groups;
    }
  }

  method ParseIpv6Groups(input: string) returns (parsed: Option<seq<nat>>)
    ensures parsed == HexGroups(GroupTexts(input))
  {
    if input == "" { return Some([]); }
    var groups := Split(input, ':');
    var values: seq<nat> := [];
    for i := 0 to |groups|
      invariant HexGroups(groups[..i]) == Some(values)
    {
      assert groups[..i + 1][..i] == groups[..i];
      if !IsHexGroup(groups[i]) {
        GroupsRefused(groups, i + 1);
        return None;
      }
      values := values + [HexValue(groups[i])];
    }
    assert groups[..|groups|] == groups;
    return Some(values);
  }

  method ParseIpv6(input: string) returns (ip: Option<Ip>)
    ensures ip == (if Ipv6Of(input).Some? then Some(Ip(6, Ipv6Of(input).value)) else None)
  {
    if input == "" || Includes(input, ":::") { return None; }
    var parts := SplitDouble(input);
    if |parts| > 2 { return None; }
    var left := ParseIpv6Groups(parts[0]);
    var right: Option<seq<nat>> := Some([]);
    if |parts| == 2 { right := ParseIpv6Groups(parts[1]); }
    if left.None? || right.None? { return None; }
    var missing := IPV6_GROUPS - |left.value| - |right.value|;
    if (if |parts| == 2 then missing < 1 else missing != 0) { return None; }
    var groups := left.value + Zeros(missing) + right.value;
    var value := 0;
    for i := 0 to |groups|
      invariant value == FromGroups(groups[..i])
    {
      assert groups[..i + 1][..i] == groups[..i];
      value := Or(Shl(value, 16), groups[i]);
    }
    assert groups[..|groups|] == groups;
    return Some(Ip(6, value));
  }

  // ----- IPv6, writing -----

  function GroupAt(value: nat, i: nat): nat
    requires i < IPV6_GROUPS
  {
    And(Shr(value, (IPV6_GROUPS - 1 - i) * 16), 0xffff)
  }

  function TextsOf(value: nat): (texts: seq<string>)
    ensures |texts| == IPV6_GROUPS
  {
    seq(IPV6_GROUPS, i requires 0 <= i < IPV6_GROUPS => Hex(GroupAt(value, i)))
  }

  /** `texts[i..i + n]` are all zero. */
  predicate ZeroRun(texts: seq<string>, i: int, n: int) {
    0 <= i && 0 <= n && i + n <= |texts| && forall j :: i <= j < i + n ==> texts[j] == "0"
  }

  datatype Run = Run(start: nat, length: nat)

  function RunAt(texts: seq<string>, i: nat): (n: nat)
    requires i <= |texts|
    ensures ZeroRun(texts, i, n) && (i + n < |texts| ==> texts[i + n] != "0")
    decreases |texts| - i
  {
    if i < |texts| && texts[i] == "0" then 1 + RunAt(texts, i + 1) else 0
  }

  /** The longest run of zero groups from `i` on, the leftmost of several. */
  function BestRun(texts: seq<string>, i: nat): (run: Run)
    requires i <= |texts|
    ensures run.start + run.length <= |texts|
    decreases |texts| - i
  {
    if i == |texts| then Run(i, 0)
    else
      var later := BestRun(texts, i + 1);
      if RunAt(texts, i) >= later.length then Run(i, RunAt(texts, i)) else later
  }

  function Compressed(texts: seq<string>, run: Run): string
    requires run.start + run.length <= |texts|
  {
    if run.length < 2 then Join(texts, ":")
    else Join(texts[..run.start], ":") + "::" + Join(texts[run.start + run.length..], ":")
  }

  /** An IPv6 address in its shortest form. */
  function Ipv6Text(value: nat): string {
    var texts := TextsOf(value);
    Compressed(texts, BestRun(texts, 0))
  }

  /** No run of zero groups is longer, and none as long starts further left. */
  ghost predicate LeftmostLongest(texts: seq<string>, run: Run) {
    && ZeroRun(texts, run.start, run.length)
    && forall i, n :: ZeroRun(texts, i, n) && n > 0 ==> n <= run.length && (n == run.length ==> run.start <= i)
  }

  lemma {:induction false} BestRunFrom(texts: seq<string>, i: nat)
    requires i <= |texts|
    ensures var run := BestRun(texts, i);
      && ZeroRun(texts, run.start, run.length) && i <= run.start
      && forall j, n :: i <= j && ZeroRun(texts, j, n) && n > 0 ==> n <= run.length && (n == run.length ==> run.start <= j)
    decreases |texts| - i
  {
    if i < |texts| {
      BestRunFrom(texts, i + 1);
      var run := BestRun(texts, i);
      RunEndsAt(texts, i, i + RunAt(texts, i));
    }
  }

  lemma BestRunIsLeftmostLongest(texts: seq<string>)
    ensures LeftmostLongest(texts, BestRun(texts, 0))
  {
    BestRunFrom(texts, 0);
  }

  /** What the scan has found among the runs that start before `index`. */
  ghost predicate BestBefore(texts: seq<string>, index: int, bestStart: int, bestLength: nat) {
    && (bestLength > 0 ==> bestLength >= 2 && bestStart < index && ZeroRun(texts, bestStart, bestLength))
    && (bestLength == 0 ==> bestStart == -1)
    && forall i, n :: ZeroRun(texts, i, n) && n >= 2 && i < index ==>
         n <= bestLength && (n == bestLength ==> bestStart <= i)
  }

  lemma ScanFindsBest(texts: seq<string>, bestStart: int, bestLength: nat)
    requires BestBefore(texts, |texts|, bestStart, bestLength)
    ensures if bestLength == 0 then BestRun(texts, 0).length < 2 else BestRun(texts, 0) == Run(bestStart, bestLength)
  {
    BestRunIsLeftmostLongest(texts);
    var run := BestRun(texts, 0);
    if run.length >= 2 { assert run.start < |texts| && ZeroRun(texts, run.start, run.length); }
    if bestLength > 0 { assert ZeroRun(texts, bestStart, bestLength); }
  }

  method FormatIpv6(value: nat) returns (text: string)
    ensures text == Ipv6Text(value)
  {
    var groups := TextsOf(value);
    var bestStart, bestLength := FindZeroRun(groups);
    ScanFindsBest(groups, bestStart, bestLength);
    if bestStart < 0 { return Join(groups, ":"); }
    var left := Join(groups[..bestStart], ":");
    var right := Join(groups[bestStart + bestLength..], ":");
    return left + "::" + right;
  }

  method FindZeroRun(groups: seq<string>) returns (bestStart: int, bestLength: nat)
    ensures BestBefore(groups, |groups|, bestStart, bestLength)
  {
    bestStart, bestLength := -1, 0;
    var index := 0;
    while index < |groups|
      invariant 0 <= index <= |groups|
      invariant BestBefore(groups, index, bestStart, bestLength)
    {
      if groups[index] != "0" {
        index := index + 1;
        continue;
      }
      var end := index + 1;
      while end < |groups| && groups[end] == "0"
        invariant index < end <= |groups| && ZeroRun(groups, index, end - index)
      {
        end := end + 1;
      }
      RunEndsAt(groups, index, end);
      if end - index > bestLength && end - index >= 2 { bestStart, bestLength := index, end - index; }
      index := end;
    }
  }

  lemma RunEndsAt(texts: seq<string>, index: nat, end: nat)
    requires index <= end <= |texts| && (end == |texts| || texts[end] != "0")
    ensures forall i, n :: ZeroRun(texts, i, n) && index <= i <= end && n > 0 ==> i + n <= end
  {
    forall i, n | ZeroRun(texts, i, n) && index <= i <= end && n > 0 ensures i + n <= end {
      assert end == |texts| || texts[end] != "0";
    }
  }

  // ----- Any literal -----

  function IpOf(text: string): Option<Ip> {
    var value := Trim(text);
    if '.' in value then (if Ipv4Of(value).Some? then Some(Ip(4, Ipv4Of(value).value)) else None)
    else if ':' in value && Ipv6Of(value).Some? then Some(Ip(6, Ipv6Of(value).value))
    else None
  }

  function IpText(ip: Ip): string { if ip.version == 4 then Ipv4Text(ip.value) else Ipv6Text(ip.value) }

  /** `value.replace(/^\[(.*)\]$/u, "$1")` */
  function Unbracket(value: string): string {
    if |value| >= 2 && value[0] == '[' && value[|value| - 1] == ']'
       && (forall c :: c in value[1..|value| - 1] ==> !IsLineTerminator(c))
    then value[1..|value| - 1] else value
  }

  /** Where the last colon before `n` is. */
  function ColonBefore(s: string, n: nat): (i: int)
    requires n <= |s|
    ensures -1 <= i < n && (i >= 0 ==> s[i] == ':') && forall j :: i < j < n ==> s[j] != ':'
  {
    if n == 0 then -1 else if s[n - 1] == ':' then n - 1 else ColonBefore(s, n - 1)
  }

  function LastColon(s: string): (i: int)
    ensures -1 <= i < |s|
  {
    ColonBefore(s, |s|)
  }

  /** `/^(.*:)([^:]*\.[^:]*)$/u` */
  predicate HasDottedTail(value: string) {
    var i := LastColon(value);
    i >= 0 && '.' in value[i + 1..] && forall c :: c in value[..i] ==> !IsLineTerminator(c)
  }

  function DottedTailIpv6(head: string, tail: string): Option<Ip> {
    var ipv4 := Ipv4Of(tail);
    if ipv4.None? then None
    else
      var ipv6 := Ipv6Of(head + Hex(Shr(ipv4.value, 16)) + ":" + Hex(And(ipv4.value, 0xffff)));
      if ipv6.None? then None else Some(Ip(6, ipv6.value))
  }

  /** A literal without brackets, lower-cased, a dotted tail rewritten. */
  function LiteralOf(value: string): Option<Ip> {
    var i := LastColon(value);
    if HasDottedTail(value) then DottedTailIpv6(value[..i + 1], value[i + 1..]) else IpOf(value)
  }

  /** An IPv4-mapped IPv6 address as the IPv4 address it carries. */
  function Unmapped(ip: Ip): Ip {
    if ip.version == 6 && Shr(ip.value, 32) == 0xffff then Ip(4, And(ip.value, 0xffff_ffff)) else ip
  }

  /** `parseIpAddressUnmapped` */
  function UnmappedIpOf(text: string): Option<Ip> {
    var parsed := LiteralOf(ToLower(Unbracket(Trim(text))));
    if parsed.None? then None else Some(Unmapped(parsed.value))
  }

  /** `unmapIpv4MappedAddress` */
  function UnmapHost(host: string): string {
    var parsed := UnmappedIpOf(host);
    if parsed.None? || parsed.value.version != 4 || ':' !in host then host else Ipv4Text(parsed.value.value)
  }

  // ----- Ranges -----

  /** `Number(text)` as an integer, or nothing where it is not one; only its value on numerals matters. */
  type NumberReader = string -> Option<int>

  ghost predicate ReadsNumerals(number: NumberReader) {
    forall s :: AllDigits(s) ==> number(s) == Some(DecimalValue(s))
  }

  function PrefixToMask(bits: nat, prefixLength: nat): nat {
    if prefixLength == 0 || prefixLength > bits then 0
    else Shl(if Shl(1, prefixLength) > 0 then Shl(1, prefixLength) - 1 else 0, bits - prefixLength)
  }

  function RangeOf(text: string, number: NumberReader): Option<Range> {
    var parts := Split(Trim(text), '/');
    if parts[0] == "" || IpOf(parts[0]).None? then None
    else
      var ip := IpOf(parts[0]).value;
      var bits := BitsOf(ip.version);
      var prefixLength := if |parts| == 1 then Some(bits) else number(parts[1]);
      if prefixLength.None? || prefixLength.value < 0 || prefixLength.value > bits then None
      else Some(Range(ip.version, And(ip.value, PrefixToMask(bits, prefixLength.value)), prefixLength.value))
  }

  function RangeText(range: Range): string { IpText(Ip(range.version, range.network)) + "/" + Decimal(range.prefixLength) }

  function Matches(ip: Ip, range: Range): bool {
    ip.version == range.version && And(ip.value, PrefixToMask(BitsOf(ip.version), range.prefixLength)) == range.network
  }

  const LOCAL_DESTINATION_CIDRS: seq<string> := [
    "0.0.0.0/8", "10.0.0.0/8", "100.64.0.0/10", "127.0.0.0/8", "169.254.0.0/16",
    "172.16.0.0/12", "192.168.0.0/16", "::1/128", "fc00::/7", "fe80::/10"
  ]

  /** The ranges that parse among the given ones; the source refuses to start if one does not. */
  function RangesOf(cidrs: seq<string>, number: NumberReader): seq<Range> {
    if cidrs == [] then []
    else
      var first, rest := RangeOf(cidrs[0], number), RangesOf(cidrs[1..], number);
      if first.Some? then [first.value] + rest else rest
  }

  predicate SharesPrefix(a: Range, b: Range) {
    && a.version == b.version
    && var mask := PrefixToMask(BitsOf(a.version), Min(a.prefixLength, b.prefixLength));
       And(a.network, mask) == And(b.network, mask)
  }

  function OverlapsLocalDestinationRange(text: string, number: NumberReader): bool {
    var range := RangeOf(text, number);
    range.Some? && exists local :: local in RangesOf(LOCAL_DESTINATION_CIDRS, number) && SharesPrefix(local, range.value)
  }

  // ----- Rules a user types -----

  predicate IsValidIpv4(text: string) {
    var octets := Split(text, '.');
    |octets| == 4 && forall octet :: octet in octets ==> IsOctet(octet)
  }

  predicate IsValidIpv6(text: string) {
    if text == "" || Includes(text, ":::") then false
    else
      var parts := SplitDouble(text);
      if |parts| > 2 then false
      else
        var groups := GroupTexts(parts[0]) + if |parts| == 2 then GroupTexts(parts[1]) else [];
        && (forall group :: group in groups ==> IsHexGroup(group))
        && if |parts| == 2 then |groups| < 8 else |groups| == 8
  }

  predicate ValidIpOrCidr(text: string) {
    var input := Trim(text);
    var parts := Split(input, '/');
    && input != "" && |parts| <= 2
    && (IsValidIpv4(parts[0]) || IsValidIpv6(parts[0]))
    && (|parts| == 2 ==>
          && AllDigits(parts[1]) && NoLeadingZero(parts[1])
          && DecimalValue(parts[1]) <= if IsValidIpv4(parts[0]) then 32 else 128)
  }
}
