/**
 What the rules a user types mean, told from their text: which names, ranges and
 programs a rule covers, and which rules are refused.
 */
module RoutingRuleTexts {
  import opened Prelude
  import opened Text
  import opened IpAddress
  import opened CidrRanges
  import opened RoutingRules

  const SMALL_LETTERS := "abcdefghijklmnopqrstuvwxyz"
  const CAPITALS := "ABCDEFGHIJKLMNOPQRSTUVWXYZ"
  const DIGITS := "0123456789"

  predicate LetterOrDigit(c: char) { c in SMALL_LETTERS || c in DIGITS }

  lemma SmallLetters(c: char)
    ensures c in SMALL_LETTERS <==> 'a' <= c <= 'z'
  {
    if 'a' <= c <= 'z' { assert SMALL_LETTERS[c as int - 'a' as int] == c; }
  }

  lemma Capitals(c: char)
    ensures c in CAPITALS <==> 'A' <= c <= 'Z'
  {
    if 'A' <= c <= 'Z' { assert CAPITALS[c as int - 'A' as int] == c; }
  }

  lemma Digits(c: char)
    ensures c in DIGITS <==> '0' <= c <= '9'
  {
    if '0' <= c <= '9' { assert DIGITS[c as int - '0' as int] == c; }
  }

  lemma LettersAndDigits(c: char)
    ensures LetterOrDigit(c) <==> 'a' <= c <= 'z' || '0' <= c <= '9'
  {
    SmallLetters(c);
    Digits(c);
  }

  // ----- Domain rules -----

  /** Letters, digits and hyphens, with no hyphen at either end. */
  predicate Label(part: string) {
    && 1 <= |part| <= 63 && (forall c :: c in part ==> LetterOrDigit(c) || c == '-')
    && LetterOrDigit(part[0]) && LetterOrDigit(part[|part| - 1])
  }

  /** Two labels at least, with a dot between any two. */
  predicate Names(name: string, labels: seq<string>) {
    |labels| >= 2 && (forall part :: part in labels ==> Label(part)) && name == Join(labels, ".") && |name| <= 253
  }

  lemma LabelsAgree(part: string)
    ensures IsLabel(part) <==> Label(part)
  {
    forall c | c in part ensures IsLabelChar(c) <==> LetterOrDigit(c) || c == '-' { LettersAndDigits(c); }
    if |part| > 0 {
      LettersAndDigits(part[0]);
      LettersAndDigits(part[|part| - 1]);
      assert part[0] in part && part[|part| - 1] in part;
    }
  }

  lemma NamesAgree(name: string)
    ensures (|name| <= 253 && |Split(name, '.')| >= 2 && forall part :: part in Split(name, '.') ==> IsLabel(part)) <==>
      exists labels :: Names(name, labels)
    ensures (exists labels :: Names(name, labels)) ==> !IsWildcard(name)
  {
    var split := Split(name, '.');
    JoinSplit(name, '.');
    forall part ensures IsLabel(part) <==> Label(part) { LabelsAgree(part); }
    if |name| <= 253 && |split| >= 2 && forall part :: part in split ==> IsLabel(part) { assert Names(name, split); }
    if labels :| Names(name, labels) {
      forall part | part in labels ensures '.' !in part { LettersAndDigits('.'); }
      SplitJoin(labels, '.');
      assert labels[0] in labels && name[0] == labels[0][0];
      LettersAndDigits(name[0]);
    }
  }

  lemma PrefixTellsWildcard(pattern: string, key: DomainKey)
    requires !IsWildcard(key.name)
    ensures key == DomainKey(IsWildcard(pattern), Bare(pattern)) <==> pattern == (if key.wildcard then "*." else "") + key.name
  {
    if IsWildcard(pattern) {
      assert pattern == "*." + pattern[2..];
    } else {
      assert "" + pattern == pattern && "" + key.name == key.name;
    }
    if key.wildcard { assert ("*." + key.name)[2..] == key.name; }
  }

  ghost predicate NamesSome(name: string) { exists labels :: Names(name, labels) }

  lemma KeyIsNamed(rule: Rule, key: DomainKey)
    ensures var pattern := ToLower(Trim(rule.value));
      KeyOf(rule) == Some(key) <==>
        rule.enabled && rule.kind == Domain && key == DomainKey(IsWildcard(pattern), Bare(pattern)) && NamesSome(key.name)
  {
    NamesAgree(Bare(ToLower(Trim(rule.value))));
  }

  /** A domain rule that is in force covers by the name that is typed, in any case and with white space around it, and by
      whether a `*.` comes before it; it is in force if that name is one. */
  lemma DomainRulesExactly(rule: Rule, key: DomainKey)
    ensures KeyOf(rule) == Some(key) <==>
      && rule.enabled && rule.kind == Domain
      && ToLower(Trim(rule.value)) == (if key.wildcard then "*." else "") + key.name
      && exists labels :: Names(key.name, labels)
  {
    KeyIsNamed(rule, key);
    NamesAgree(key.name);
    if NamesSome(key.name) { PrefixTellsWildcard(ToLower(Trim(rule.value)), key); }
  }

  // ----- The other rules -----

  /** A process rule covers the program it names, in any case; a name has no path in it. */
  lemma ProcessRulesExactly(rule: Rule, name: string)
    ensures CoversProcess(rule, name) <==>
      && rule.enabled && rule.kind == Process && name == ToLower(Trim(rule.value))
      && 1 <= |name| <= 260 && forall c :: c in Trim(rule.value) ==> LetterOrDigit(c) || c in CAPITALS || c in "._+- "
  {
    forall c ensures IsProcessChar(c) <==> LetterOrDigit(c) || c in CAPITALS || c in "._+- " {
      LettersAndDigits(c);
      Capitals(c);
    }
  }

  /** An IP rule covers the addresses of the range it is read as. */
  lemma IpRulesExactly(rule: Rule, ip: Ip, number: NumberReader)
    ensures CoversIp(rule, ip, number) <==>
      && rule.enabled && rule.kind == IpRange && ValidIpOrCidr(rule.value)
      && RangeOf(rule.value, number).Some? && Matches(ip, RangeOf(rule.value, number).value)
  {
    TrimTwice(rule.value);
  }

  /** The first rules of the two kinds are those with no such rule before them. */
  lemma {:induction false} FirstForIpAt(rules: seq<Rule>, ip: Ip, number: NumberReader, k: nat)
    requires forall i :: 0 <= i < k && i < |rules| ==> !CoversIp(rules[i], ip, number)
    requires k <= |rules| && (k < |rules| ==> CoversIp(rules[k], ip, number))
    ensures FirstForIp(rules, ip, number) == if k < |rules| then Some(rules[k]) else None
    decreases |rules|
  {
    if rules != [] {
      var init := rules[..|rules| - 1];
      FirstForIpAt(init, ip, number, if k < |rules| then k else |init|);
    }
  }

  lemma {:induction false} FirstForProcessAt(rules: seq<Rule>, name: string, k: nat)
    requires forall i :: 0 <= i < k && i < |rules| ==> !CoversProcess(rules[i], name)
    requires k <= |rules| && (k < |rules| ==> CoversProcess(rules[k], name))
    ensures FirstForProcess(rules, name) == if k < |rules| then Some(rules[k]) else None
    decreases |rules|
  {
    if rules != [] {
      var init := rules[..|rules| - 1];
      FirstForProcessAt(init, name, if k < |rules| then k else |init|);
    }
  }

  /** Exactly the enabled rules that are not valid count as invalid, each once. */
  lemma {:induction false} InvalidOneByOne(a: seq<Rule>, rule: Rule, b: seq<Rule>)
    ensures CountInvalid(a + [rule] + b) == CountInvalid(a) + (if rule.enabled && !ValidRule(rule) then 1 else 0) + CountInvalid(b)
    decreases |b|
  {
    if b == [] {
      assert a + [rule] + b == a + [rule];
      InvalidOneMore(a, rule);
    } else {
      var init, last := b[..|b| - 1], b[|b| - 1];
      assert b == init + [last] && a + [rule] + b == a + [rule] + init + [last];
      InvalidOneMore(a + [rule] + init, last);
      InvalidOneMore(init, last);
      InvalidOneByOne(a, rule, init);
    }
  }

  lemma InvalidOneMore(rules: seq<Rule>, rule: Rule)
    ensures CountInvalid(rules + [rule]) == CountInvalid(rules) + if rule.enabled && !ValidRule(rule) then 1 else 0
  {
    assert (rules + [rule])[..|rules|] == rules;
  }

  // ----- Which rule decides -----

  /** The first rule of each kind that covers the destination, told by its place. */
  predicate FirstNaming(rules: seq<Rule>, host: string, k: int) {
    0 <= k < |rules| && CoversHost(rules[k], host) && forall i :: 0 <= i < k ==> !CoversHost(rules[i], host)
  }

  predicate FirstRanging(rules: seq<Rule>, ip: Ip, number: NumberReader, k: int) {
    0 <= k < |rules| && CoversIp(rules[k], ip, number) && forall i :: 0 <= i < k ==> !CoversIp(rules[i], ip, number)
  }

  predicate FirstRunning(rules: seq<Rule>, name: string, k: int) {
    0 <= k < |rules| && CoversProcess(rules[k], name) && forall i :: 0 <= i < k ==> !CoversProcess(rules[i], name)
  }

  predicate NamesNone(rules: seq<Rule>, host: string) { forall i :: 0 <= i < |rules| ==> !CoversHost(rules[i], host) }

  predicate RangesNone(rules: seq<Rule>, ip: Option<Ip>, number: NumberReader) {
    ip.Some? ==> forall i :: 0 <= i < |rules| ==> !CoversIp(rules[i], ip.value, number)
  }

  predicate RunsNone(rules: seq<Rule>, name: string) { forall i :: 0 <= i < |rules| ==> !CoversProcess(rules[i], name) }

  lemma NamingDecides(rules: seq<Rule>, host: string, ip: Option<Ip>, number: NumberReader)
    ensures forall k :: FirstNaming(rules, host, k) ==> LinearFor(rules, host, ip, number) == Some(ByDomain(rules[k].id))
    ensures NamesNone(rules, host) ==> FirstForHost(rules, host).None?
  {
    forall k | FirstNaming(rules, host, k) ensures LinearFor(rules, host, ip, number) == Some(ByDomain(rules[k].id)) {
      KeyIsNotEmpty(rules[k]);
      FirstForHostAt(rules, host, k);
    }
    if NamesNone(rules, host) { FirstForHostAt(rules, host, |rules|); }
  }

  lemma RangingDecides(rules: seq<Rule>, host: string, ip: Ip, number: NumberReader)
    requires NamesNone(rules, host)
    ensures forall k :: FirstRanging(rules, ip, number, k) ==> LinearFor(rules, host, Some(ip), number) == Some(ByIp(rules[k].id))
    ensures RangesNone(rules, Some(ip), number) ==> FirstForIp(rules, ip, number).None?
  {
    NamingDecides(rules, host, Some(ip), number);
    forall k | FirstRanging(rules, ip, number, k) ensures LinearFor(rules, host, Some(ip), number) == Some(ByIp(rules[k].id)) {
      FirstForIpAt(rules, ip, number, k);
    }
    if RangesNone(rules, Some(ip), number) { FirstForIpAt(rules, ip, number, |rules|); }
  }

  lemma NeitherDecides(rules: seq<Rule>, host: string, ip: Option<Ip>, number: NumberReader)
    requires NamesNone(rules, host) && RangesNone(rules, ip, number)
    ensures LinearFor(rules, host, ip, number).None?
  {
    NamingDecides(rules, host, ip, number);
    if ip.Some? { RangingDecides(rules, host, ip.value, number); }
  }

  lemma RunningDecides(rules: seq<Rule>, d: Destination)
    ensures var name := Cleaned(d.process);
      && (forall k :: FirstRunning(rules, name, k) ==> LinearProcess(rules, d) == Some(ByProcess(rules[k].id)))
      && (RunsNone(rules, name) ==> LinearProcess(rules, d).None?)
  {
    var name := Cleaned(d.process);
    forall k | FirstRunning(rules, name, k) ensures LinearProcess(rules, d) == Some(ByProcess(rules[k].id)) {
      ProcessRulesExactly(rules[k], name);
      FirstForProcessAt(rules, name, k);
    }
    if RunsNone(rules, name) { FirstForProcessAt(rules, name, |rules|); }
  }

  /** The first domain rule that covers the name decides; without one, the first IP rule that covers the address; without
      one, the first process rule; without one, the mode, and whether any rule is in force at all. */
  lemma FirstRuleDecides(mode: Mode, rules: seq<Rule>, d: Destination, number: NumberReader)
    ensures var host, name := if d.domain.Some? then ToLower(Trim(d.domain.value)) else "", if d.process.Some? then ToLower(Trim(d.process.value)) else "";
      var ip := if d.ip.Some? then UnmappedIpOf(d.ip.value) else None;
      var reason := LinearMatch(mode, rules, d, number);
      && (forall k :: FirstNaming(rules, host, k) ==> reason == ByDomain(rules[k].id))
      && (NamesNone(rules, host) && ip.Some? ==> forall k :: FirstRanging(rules, ip.value, number, k) ==> reason == ByIp(rules[k].id))
      && (NamesNone(rules, host) && RangesNone(rules, ip, number) ==>
            forall k :: FirstRunning(rules, name, k) ==> reason == ByProcess(rules[k].id))
      && (NamesNone(rules, host) && RangesNone(rules, ip, number) && RunsNone(rules, name) ==>
            reason == if mode == ProxyAll then ByProxyAll
                      else if exists i :: 0 <= i < |rules| && rules[i].enabled && ValidRule(rules[i]) then NoMatch else NoEnabledRules)
  {
    AddressReads(d);
    AnyActiveAt(rules);
    RunningDecides(rules, d);
    var host, ip := Cleaned(d.domain), AddressOf(d);
    NamingDecides(rules, host, ip, number);
    if NamesNone(rules, host) && ip.Some? { RangingDecides(rules, host, ip.value, number); }
    if NamesNone(rules, host) && RangesNone(rules, ip, number) { NeitherDecides(rules, host, ip, number); }
  }
}
