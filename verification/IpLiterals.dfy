/**
 Which texts are IP literals, and of which value: the grammar of section 2.2 of
 RFC 4291, and that upper and lower case make no difference to a rule.
 */
module IpLiterals {
  import opened Prelude
  import opened Text
  import opened IpAddress
  import opened IpAddressText

  // ----- The grammar of an IPv6 literal -----

  predicate AreGroups(texts: seq<string>) { forall text :: text in texts ==> IsHexGroup(text) }

  function Values(texts: seq<string>): seq<nat>
    requires AreGroups(texts)
  {
    seq(|texts|, i requires 0 <= i < |texts| => assert texts[i] in texts; HexValue(texts[i]))
  }

  /** Eight groups of one to four hex digits. */
  predicate SpellsOut(text: string, texts: seq<string>) {
    |texts| == 8 && AreGroups(texts) && text == Join(texts, ":")
  }

  /** Fewer than eight groups on both sides of a double colon, which stands for zeros. */
  predicate SpellsShort(text: string, left: seq<string>, right: seq<string>) {
    |left| + |right| < 8 && AreGroups(left) && AreGroups(right) && text == Join(left, ":") + "::" + Join(right, ":")
  }

  ghost predicate Spells(text: string, groups: seq<nat>) {
    || (exists texts :: SpellsOut(text, texts) && groups == Values(texts))
    || (exists left, right :: SpellsShort(text, left, right)
          && groups == Values(left) + Zeros(8 - |left| - |right|) + Values(right))
  }

  lemma {:induction false} GroupsRead(texts: seq<string>)
    ensures HexGroups(texts).Some? <==> AreGroups(texts)
    ensures AreGroups(texts) ==> HexGroups(texts) == Some(Values(texts))
    decreases |texts|
  {
    if texts != [] {
      var init, last := texts[..|texts| - 1], texts[|texts| - 1];
      GroupsRead(init);
      assert texts == init + [last];
      if AreGroups(texts) { assert last in texts && AreGroups(init) && Values(texts) == Values(init) + [HexValue(last)]; }
      if AreGroups(init) && IsHexGroup(last) { assert AreGroups(texts); }
    }
  }

  /** Groups joined by colons are split and read back, whatever their case and leading zeros. */
  lemma JoinedGroupsRead(texts: seq<string>)
    requires AreGroups(texts)
    ensures HexGroups(GroupTexts(Join(texts, ":"))) == Some(Values(texts))
    ensures Plain(Join(texts, ":")) && (texts != [] ==> Join(texts, ":") != "")
  {
    GroupsRead(texts);
    JoinIsPlain(texts);
    if texts != [] { SplitJoin(texts, ':'); }
  }

  lemma SpelledOutIsRead(text: string, texts: seq<string>)
    requires SpellsOut(text, texts)
    ensures GroupsOf(text) == Some(Values(texts))
  {
    JoinedGroupsRead(texts);
    NoTripleInPlain(text);
    SplitPlain(text);
    assert Values(texts) + Zeros(0) + [] == Values(texts);
  }

  lemma SpelledShortIsRead(text: string, left: seq<string>, right: seq<string>)
    requires SpellsShort(text, left, right)
    ensures GroupsOf(text) == Some(Values(left) + Zeros(8 - |left| - |right|) + Values(right))
  {
    SideIsRead(left);
    SideIsRead(right);
    SidesAreRead(Join(left, ":"), Join(right, ":"), Values(left), Values(right));
  }

  lemma SideIsRead(texts: seq<string>)
    requires AreGroups(texts)
    ensures HexGroups(GroupTexts(Join(texts, ":"))) == Some(Values(texts)) && |Values(texts)| == |texts|
    ensures Plain(Join(texts, ":"))
  {
    JoinedGroupsRead(texts);
  }

  lemma SidesAreRead(l: string, r: string, left: seq<nat>, right: seq<nat>)
    requires Plain(l) && Plain(r) && |left| + |right| < 8
    requires HexGroups(GroupTexts(l)) == Some(left) && HexGroups(GroupTexts(r)) == Some(right)
    ensures GroupsOf(l + "::" + r) == Some(left + Zeros(8 - |left| - |right|) + right)
  {
    SplitCompressed(l, r);
    GroupsOfParts(l + "::" + r, l, r, left, right);
  }

  lemma {:induction false} SplitDoubleJoins(s: string)
    ensures |SplitDouble(s)| == 1 ==> SplitDouble(s)[0] == s
    ensures |SplitDouble(s)| == 2 ==> SplitDouble(s)[0] + "::" + SplitDouble(s)[1] == s
    decreases |s|
  {
    if |s| >= 2 && s[0] == ':' && s[1] == ':' {
      SplitDoubleJoins(s[2..]);
      assert s == "::" + s[2..];
    } else if s != "" {
      SplitDoubleJoins(s[1..]);
      assert s == [s[0]] + s[1..];
    }
  }

  lemma SideIsJoined(side: string) returns (texts: seq<string>)
    requires HexGroups(GroupTexts(side)).Some?
    ensures AreGroups(texts) && side == Join(texts, ":") && HexGroups(GroupTexts(side)) == Some(Values(texts))
  {
    texts := GroupTexts(side);
    GroupsRead(texts);
    if side != "" { JoinSplit(side, ':'); }
  }

  lemma ReadIsSpelled(text: string)
    requires GroupsOf(text).Some?
    ensures Spells(text, GroupsOf(text).value)
  {
    var parts := SplitDouble(text);
    SplitDoubleJoins(text);
    var left := SideIsJoined(parts[0]);
    if |parts| == 1 {
      assert Values(left) + Zeros(0) + [] == Values(left);
      assert SpellsOut(text, left);
    } else {
      var right := SideIsJoined(parts[1]);
      assert SpellsShort(text, left, right);
    }
  }

  /** A text is read as these groups if and only if it spells them, out or short. */
  lemma Ipv6TextsExactly(text: string, groups: seq<nat>)
    ensures GroupsOf(text) == Some(groups) <==> Spells(text, groups)
  {
    if GroupsOf(text) == Some(groups) { ReadIsSpelled(text); }
    if texts :| SpellsOut(text, texts) && groups == Values(texts) { SpelledOutIsRead(text, texts); }
    if left, right :| SpellsShort(text, left, right) && groups == Values(left) + Zeros(8 - |left| - |right|) + Values(right) {
      SpelledShortIsRead(text, left, right);
    }
  }

  // ----- Case -----

  function LowerAll(parts: seq<string>): (lower: seq<string>)
    ensures |lower| == |parts|
  {
    seq(|parts|, i requires 0 <= i < |parts| => ToLower(parts[i]))
  }

  predicate IsLetter(c: char) { IsUpper(c) || 'a' <= c <= 'z' }

  lemma {:induction false} SplitLower(s: string, sep: char)
    requires !IsLetter(sep)
    ensures Split(ToLower(s), sep) == LowerAll(Split(s, sep))
  {
    if s != "" {
      SplitLower(s[1..], sep);
      assert ToLower(s)[1..] == ToLower(s[1..]);
      var rest := Split(s[1..], sep);
      assert LowerAll(rest)[1..] == LowerAll(rest[1..]);
      assert ToLower([s[0]] + rest[0]) == [ToLower(s)[0]] + ToLower(rest[0]);
    }
  }

  lemma {:induction false} SplitDoubleLower(s: string)
    ensures SplitDouble(ToLower(s)) == LowerAll(SplitDouble(s))
    decreases |s|
  {
    if |s| >= 2 && s[0] == ':' && s[1] == ':' {
      SplitDoubleLower(s[2..]);
      assert ToLower(s)[2..] == ToLower(s[2..]);
    } else if s != "" {
      SplitDoubleLower(s[1..]);
      assert ToLower(s)[1..] == ToLower(s[1..]);
      LowerFirst(s[0], SplitDouble(s[1..]));
    }
  }

  lemma LowerFirst(c: char, rest: seq<string>)
    requires rest != []
    ensures LowerAll([[c] + rest[0]] + rest[1..]) == [[LowerChar(c)] + LowerAll(rest)[0]] + LowerAll(rest)[1..]
  {
    assert LowerAll(rest)[1..] == LowerAll(rest[1..]);
    assert ToLower([c] + rest[0]) == [LowerChar(c)] + ToLower(rest[0]);
  }

  lemma TripleLower(s: string)
    ensures Includes(ToLower(s), ":::") <==> Includes(s, ":::")
  {
    var lower := ToLower(s);
    forall i ensures HasAt(lower, i, ":::") <==> HasAt(s, i, ":::") {
      if HasAt(lower, i, ":::") {
        ThreeColons(lower, i);
        assert s[i..i + 3] == ":::";
      }
      if HasAt(s, i, ":::") {
        ThreeColons(s, i);
        assert lower[i..i + 3] == ":::";
      }
    }
  }

  lemma DigitLower(c: char)
    ensures IsHexDigit(LowerChar(c)) <==> IsHexDigit(c)
    ensures IsHexDigit(c) ==> DigitValue(LowerChar(c)) == DigitValue(c)
  {}

  /** Lower-casing a numeral keeps it one, of the same value. */
  lemma {:induction false} NumeralLower(s: string, base: nat)
    ensures (forall c :: c in ToLower(s) ==> IsHexDigit(c)) <==> forall c :: c in s ==> IsHexDigit(c)
    ensures (forall c :: c in s ==> IsHexDigit(c)) ==> NumeralValue(ToLower(s), base) == NumeralValue(s, base)
    decreases |s|
  {
    if s != "" {
      var init, last := s[..|s| - 1], s[|s| - 1];
      NumeralLower(init, base);
      DigitLower(last);
      assert s == init + [last] && ToLower(s) == ToLower(init) + [LowerChar(last)];
    }
  }

  lemma {:induction false} HexGroupsLower(texts: seq<string>)
    ensures HexGroups(LowerAll(texts)) == HexGroups(texts)
    decreases |texts|
  {
    if texts != [] {
      var init, last := texts[..|texts| - 1], texts[|texts| - 1];
      HexGroupsLower(init);
      assert LowerAll(texts)[..|texts| - 1] == LowerAll(init);
      NumeralLower(last, 16);
    }
  }

  lemma GroupTextsLower(side: string)
    ensures HexGroups(GroupTexts(ToLower(side))) == HexGroups(GroupTexts(side))
  {
    SplitLower(side, ':');
    HexGroupsLower(Split(side, ':'));
  }

  /** The text is cut at the same double colons. */
  lemma SidesLower(text: string)
    ensures text != "" ==>
      var lower, parts := SplitDouble(ToLower(text)), SplitDouble(text);
      && |lower| == |parts| >= 1
      && HexGroups(GroupTexts(lower[0])) == HexGroups(GroupTexts(parts[0]))
      && (|parts| == 2 ==> HexGroups(GroupTexts(lower[1])) == HexGroups(GroupTexts(parts[1])))
  {
    SplitDoubleLower(text);
    var parts := SplitDouble(text);
    GroupTextsLower(parts[0]);
    if |parts| == 2 { GroupTextsLower(parts[1]); }
  }

  lemma GroupsLower(text: string)
    ensures GroupsOf(ToLower(text)) == GroupsOf(text)
  {
    TripleLower(text);
    SidesLower(text);
    assert ToLower(text) == "" <==> text == "";
  }

  /** Case makes no difference to an IPv6 literal. */
  lemma Ipv6IgnoresCase(text: string)
    ensures Ipv6Of(ToLower(text)) == Ipv6Of(text)
  {
    GroupsLower(text);
  }

  lemma DigitsLower(s: string)
    ensures AllDigits(ToLower(s)) <==> AllDigits(s)
    ensures AllDigits(s) ==> ToLower(s) == s
  {
    forall i | 0 <= i < |s| ensures s[i] in s && ToLower(s)[i] in ToLower(s) && (IsDigit(s[i]) <==> IsDigit(ToLower(s)[i])) {}
  }

  lemma {:induction false} OctetsLower(octets: seq<string>)
    ensures OctetsValue(LowerAll(octets)) == OctetsValue(octets)
    decreases |octets|
  {
    if octets != [] {
      var init, last := octets[..|octets| - 1], octets[|octets| - 1];
      OctetsLower(init);
      assert LowerAll(octets)[..|octets| - 1] == LowerAll(init);
      DigitsLower(last);
    }
  }

  lemma Ipv4IgnoresCase(text: string)
    ensures Ipv4Of(ToLower(text)) == Ipv4Of(text)
  {
    SplitLower(text, '.');
    OctetsLower(Split(text, '.'));
  }

  lemma {:induction false} SpaceLower(s: string)
    ensures TrimStart(ToLower(s)) == ToLower(TrimStart(s))
    decreases |s|
  {
    if s != "" && IsSpace(s[0]) {
      SpaceLower(s[1..]);
      assert ToLower(s)[1..] == ToLower(s[1..]);
    }
  }

  lemma {:induction false} SpaceEndLower(s: string)
    ensures TrimEnd(ToLower(s)) == ToLower(TrimEnd(s))
    decreases |s|
  {
    if s != "" && IsSpace(s[|s| - 1]) {
      SpaceEndLower(s[..|s| - 1]);
      assert ToLower(s)[..|s| - 1] == ToLower(s[..|s| - 1]);
    }
  }

  lemma TrimLower(s: string)
    ensures Trim(ToLower(s)) == ToLower(Trim(s))
  {
    SpaceLower(s);
    SpaceEndLower(TrimStart(s));
  }

  lemma SeparatorLower(s: string, c: char)
    requires !IsLetter(c)
    ensures c in ToLower(s) <==> c in s
  {
    forall i | 0 <= i < |s| ensures ToLower(s)[i] == c <==> s[i] == c {}
  }

  /** Case makes no difference to a literal of either version. */
  lemma IpIgnoresCase(text: string)
    ensures IpOf(ToLower(text)) == IpOf(text)
  {
    TrimLower(text);
    SeparatorLower(Trim(text), '.');
    SeparatorLower(Trim(text), ':');
    Ipv4IgnoresCase(Trim(text));
    Ipv6IgnoresCase(Trim(text));
  }

  /** `Number` reads its text without regard to case. */
  ghost predicate ReadsAnyCase(number: NumberReader) { forall s :: number(ToLower(s)) == number(s) }

  /** Case makes no difference to a range. */
  lemma RangeIgnoresCase(text: string, number: NumberReader)
    requires ReadsAnyCase(number)
    ensures RangeOf(ToLower(text), number) == RangeOf(text, number)
  {
    TrimLower(text);
    var parts := Split(Trim(text), '/');
    SplitLower(Trim(text), '/');
    IpIgnoresCase(parts[0]);
  }
}
