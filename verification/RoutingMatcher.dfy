/**
 The user's routing rules. `LinearMatch` is what the rules mean: the earliest
 enabled, valid rule that covers the destination. `RoutingMatcher` is the
 source's index over them - first-wins maps and a walk over the host's labels -
 and every answer it gives is proved to be the linear one.
 */
module RoutingRules {
  import opened Prelude
  import opened Text
  import opened IpAddress
  import opened IpAddressText
  import opened CidrRanges

  datatype RuleType = Domain | IpRange | Process

  datatype Rule = Rule(id: string, kind: RuleType, value: string, enabled: bool)

  datatype Mode = ProxyAll | Selected

  datatype Reason = ByProxyAll | ByDomain(ruleId: string) | ByIp(ruleId: string) | ByProcess(ruleId: string) | NoMatch | NoEnabledRules

  datatype Destination = Destination(domain: Option<string>, ip: Option<string>, process: Option<string>)

  // ----- Valid rules -----

  predicate IsLabelChar(c: char) { 'a' <= c <= 'z' || '0' <= c <= '9' || c == '-' }

  /** `/^[a-z0-9](?:[a-z0-9-]{0,61}[a-z0-9])?$/i`, on lower-cased text. */
  predicate IsLabel(part: string) {
    1 <= |part| <= 63 && (forall c :: c in part ==> IsLabelChar(c)) && part[0] != '-' && part[|part| - 1] != '-'
  }

  predicate IsWildcard(pattern: string) { |pattern| >= 2 && pattern[0] == '*' && pattern[1] == '.' }

  function Bare(pattern: string): string { if IsWildcard(pattern) then pattern[2..] else pattern }

  predicate ValidDomainPattern(value: string) {
    var name := Bare(ToLower(Trim(value)));
    var labels := Split(name, '.');
    |name| <= 253 && |labels| >= 2 && forall part :: part in labels ==> IsLabel(part)
  }

  predicate IsProcessChar(c: char) {
    'a' <= c <= 'z' || 'A' <= c <= 'Z' || '0' <= c <= '9' || c == '.' || c == '_' || c == '+' || c == '-' || c == ' '
  }

  predicate ValidProcessName(value: string) {
    var name := Trim(value);
    1 <= |name| <= 260 && forall c :: c in name ==> IsProcessChar(c)
  }

  predicate ValidRule(rule: Rule) {
    match rule.kind
    case Domain => ValidDomainPattern(rule.value)
    case IpRange => ValidIpOrCidr(rule.value)
    case Process => ValidProcessName(rule.value)
  }

  function Normalized(rule: Rule): string {
    if rule.kind == IpRange then Trim(rule.value) else ToLower(Trim(rule.value))
  }

  predicate Active(rule: Rule, kind: RuleType) { rule.enabled && rule.kind == kind && ValidRule(rule) }

  // ----- What the rules mean -----

  predicate IsSubdomain(host: string, name: string) {
    |host| > |name| && host[|host| - |name|..] == name && host[|host| - |name| - 1] == '.'
  }

  /** What an active domain rule names: a name, and whether it stood behind a `*.`. */
  datatype DomainKey = DomainKey(wildcard: bool, name: string)

  function KeyOf(rule: Rule): Option<DomainKey> {
    var pattern := Normalized(rule);
    if Active(rule, Domain) then Some(DomainKey(IsWildcard(pattern), Bare(pattern))) else None
  }

  /** A plain name covers itself and every subdomain, one behind `*.` strict subdomains only. */
  predicate KeyCovers(key: DomainKey, host: string) {
    (!key.wildcard && host == key.name) || IsSubdomain(host, key.name)
  }

  predicate CoversHost(rule: Rule, host: string) { KeyOf(rule).Some? && KeyCovers(KeyOf(rule).value, host) }

  /** The range of an active IP rule. */
  function IpRangeOf(rule: Rule, number: NumberReader): Option<Range> {
    if Active(rule, IpRange) then RangeOf(Normalized(rule), number) else None
  }

  predicate InRange(ip: Ip, range: Option<Range>) { range.Some? && Matches(ip, range.value) }

  predicate CoversIp(rule: Rule, ip: Ip, number: NumberReader) { InRange(ip, IpRangeOf(rule, number)) }

  predicate CoversProcess(rule: Rule, name: string) { Active(rule, Process) && Normalized(rule) == name }

  predicate AnyActive(rules: seq<Rule>) { exists rule :: rule in rules && rule.enabled && ValidRule(rule) }

  /** The earliest rule that covers the host, if any. */
  function FirstForHost(rules: seq<Rule>, host: string): Option<Rule> {
    if rules == [] then None
    else
      var earlier, last := FirstForHost(rules[..|rules| - 1], host), rules[|rules| - 1];
      if earlier.Some? then earlier else if CoversHost(last, host) then Some(last) else None
  }

  function FirstForIp(rules: seq<Rule>, ip: Ip, number: NumberReader): Option<Rule> {
    if rules == [] then None
    else
      var earlier, last := FirstForIp(rules[..|rules| - 1], ip, number), rules[|rules| - 1];
      if earlier.Some? then earlier else if CoversIp(last, ip, number) then Some(last) else None
  }

  function FirstForProcess(rules: seq<Rule>, name: string): Option<Rule> {
    if rules == [] then None
    else
      var earlier, last := FirstForProcess(rules[..|rules| - 1], name), rules[|rules| - 1];
      if earlier.Some? then earlier else if CoversProcess(last, name) then Some(last) else None
  }

  function Cleaned(text: Option<string>): string { if text.Some? then ToLower(Trim(text.value)) else "" }

  function AddressOf(d: Destination): Option<Ip> {
    if d.ip.Some? && d.ip.value != "" then UnmappedIpOf(d.ip.value) else None
  }

  function LinearFor(rules: seq<Rule>, host: string, ip: Option<Ip>, number: NumberReader): Option<Reason> {
    var byHost := if host != "" then FirstForHost(rules, host) else None;
    var byIp := if ip.Some? then FirstForIp(rules, ip.value, number) else None;
    if byHost.Some? then Some(ByDomain(byHost.value.id)) else if byIp.Some? then Some(ByIp(byIp.value.id)) else None
  }

  /** A domain rule that covers the name, or else an IP rule that covers the address. */
  function LinearDestination(rules: seq<Rule>, d: Destination, number: NumberReader): Option<Reason> {
    LinearFor(rules, Cleaned(d.domain), AddressOf(d), number)
  }

  function LinearProcess(rules: seq<Rule>, d: Destination): Option<Reason> {
    var name := Cleaned(d.process);
    var first := if name != "" then FirstForProcess(rules, name) else None;
    if first.Some? then Some(ByProcess(first.value.id)) else None
  }

  function LinearMatch(mode: Mode, rules: seq<Rule>, d: Destination, number: NumberReader): Reason {
    var byDestination := LinearDestination(rules, d, number);
    if byDestination.Some? then byDestination.value
    else
      var byProcess := LinearProcess(rules, d);
      if byProcess.Some? then byProcess.value
      else if mode == ProxyAll then ByProxyAll
      else if AnyActive(rules) then NoMatch
      else NoEnabledRules
  }

  /** An empty address is none. */
  lemma AddressReads(d: Destination)
    ensures AddressOf(d) == if d.ip.Some? then UnmappedIpOf(d.ip.value) else None
  {
    if d.ip == Some("") {
      assert Split("", '.') == [""];
      assert UnmappedIpOf("").None?;
    }
  }

  lemma AnyActiveAt(rules: seq<Rule>)
    ensures AnyActive(rules) <==> exists i :: 0 <= i < |rules| && rules[i].enabled && ValidRule(rules[i])
  {
    if AnyActive(rules) { var rule :| rule in rules && rule.enabled && ValidRule(rule); }
    if i :| 0 <= i < |rules| && rules[i].enabled && ValidRule(rules[i]) { assert rules[i] in rules; }
  }

  // ----- The index -----

  datatype Entry = Entry(id: string, order: nat)

  function Keys(rules: seq<Rule>): (keys: seq<Option<DomainKey>>)
    ensures |keys| == |rules|
  {
    seq(|rules|, i requires 0 <= i < |rules| => KeyOf(rules[i]))
  }

  function Lookup(index: map<string, Entry>, name: string): Option<Entry> { if name in index then Some(index[name]) else None }

  /** The entry is the rule with the least index among the given ones. */
  ghost predicate Least(rules: seq<Rule>, hits: set<nat>, found: Option<Entry>) {
    match found
    case None => hits == {}
    case Some(entry) =>
      entry.order in hits && entry.order < |rules| && rules[entry.order].id == entry.id && forall i :: i in hits ==> entry.order <= i
  }

  lemma LeastOfBoth(rules: seq<Rule>, a: set<nat>, b: set<nat>, first: Option<Entry>, second: Option<Entry>)
    requires Least(rules, a, first) && Least(rules, b, second)
    ensures Least(rules, a + b, Earlier(first, second))
  {}

  ghost function Naming(keys: seq<Option<DomainKey>>, key: DomainKey): set<nat> { set i: nat | i < |keys| && keys[i] == Some(key) }

  /** The entry is the earliest rule with that key. */
  ghost predicate Hit(rules: seq<Rule>, keys: seq<Option<DomainKey>>, key: DomainKey, found: Option<Entry>) {
    Least(rules, Naming(keys, key), found)
  }

  /** The map holds, for each name, the earliest rule that names it. */
  ghost predicate FirstWins(rules: seq<Rule>, keys: seq<Option<DomainKey>>, index: map<string, Entry>, wildcard: bool) {
    forall name :: Hit(rules, keys, DomainKey(wildcard, name), Lookup(index, name))
  }

  ghost predicate FirstProcessWins(rules: seq<Rule>, index: map<string, string>) {
    && (forall name :: name in index ==> FirstForProcess(rules, name).Some? && FirstForProcess(rules, name).value.id == index[name])
    && (forall name :: FirstForProcess(rules, name).Some? ==> name in index)
  }

  /** `/\./` from `from` on. */
  function IndexOfDot(s: string, from: nat): (i: int)
    requires from <= |s|
    ensures i == -1 || from <= i < |s|
    ensures i >= 0 ==> s[i] == '.' && forall j :: from <= j < i ==> s[j] != '.'
    ensures i == -1 ==> forall j :: from <= j < |s| ==> s[j] != '.'
    decreases |s| - from
  {
    if from == |s| then -1 else if s[from] == '.' then from else IndexOfDot(s, from + 1)
  }

  /** Covered exactly, or by a name after one of the dots before position `n`. */
  predicate CoversVia(key: DomainKey, host: string, n: nat) {
    || key == DomainKey(false, host)
    || exists i :: 0 <= i < n && i < |host| - 1 && host[i] == '.' && key.name == host[i + 1..]
  }

  ghost function Covering(keys: seq<Option<DomainKey>>, host: string, n: nat): set<nat> {
    set i: nat | i < |keys| && keys[i].Some? && CoversVia(keys[i].value, host, n)
  }

  /** The entry is the earliest rule covered so far. */
  ghost predicate Earliest(rules: seq<Rule>, keys: seq<Option<DomainKey>>, host: string, n: nat, matched: Option<Entry>) {
    Least(rules, Covering(keys, host, n), matched)
  }

  /** Walking every dot finds exactly the names that cover the host. */
  lemma ViaAllDots(key: DomainKey, host: string, n: nat)
    requires key.name != "" && forall j :: n <= j < |host| - 1 ==> host[j] != '.'
    ensures CoversVia(key, host, n) <==> KeyCovers(key, host)
  {
    if IsSubdomain(host, key.name) {
      var i := |host| - |key.name| - 1;
      assert host[i] == '.' && host[i + 1..] == key.name && i < n;
    }
    if CoversVia(key, host, n) && key != DomainKey(false, host) {
      var i :| 0 <= i < n && i < |host| - 1 && host[i] == '.' && key.name == host[i + 1..];
      assert |host| - |host[i + 1..]| == i + 1;
    }
  }

  lemma KeyIsNotEmpty(rule: Rule)
    requires KeyOf(rule).Some?
    ensures KeyOf(rule).value.name != ""
  {
    assert Split("", '.') == [""];
  }

  lemma {:induction false} FirstForHostAt(rules: seq<Rule>, host: string, k: nat)
    requires forall i :: 0 <= i < k && i < |rules| ==> !CoversHost(rules[i], host)
    requires k <= |rules| && (k < |rules| ==> CoversHost(rules[k], host))
    ensures FirstForHost(rules, host) == if k < |rules| then Some(rules[k]) else None
    decreases |rules|
  {
    if rules != [] {
      var init := rules[..|rules| - 1];
      FirstForHostAt(init, host, if k < |rules| then k else |init|);
    }
  }

  /** The entry is the earliest rule up to `n`, and no name begins after that. */
  ghost predicate WalkedTo(rules: seq<Rule>, keys: seq<Option<DomainKey>>, host: string, n: nat, matched: Option<Entry>) {
    Earliest(rules, keys, host, n, matched) && forall j :: n <= j < |host| - 1 ==> host[j] != '.'
  }

  lemma EarliestIsFirst(rules: seq<Rule>, host: string, n: nat, matched: Option<Entry>)
    requires WalkedTo(rules, Keys(rules), host, n, matched)
    ensures FirstForHost(rules, host).Some? == matched.Some?
    ensures matched.Some? ==> FirstForHost(rules, host).value.id == matched.value.id
  {
    forall i | 0 <= i < |rules| ensures i in Covering(Keys(rules), host, n) <==> CoversHost(rules[i], host) {
      if KeyOf(rules[i]).Some? {
        KeyIsNotEmpty(rules[i]);
        ViaAllDots(KeyOf(rules[i]).value, host, n);
      }
    }
    FirstForHostAt(rules, host, if matched.Some? then matched.value.order else |rules|);
  }

  function Earlier(a: Option<Entry>, b: Option<Entry>): Option<Entry> {
    if b.Some? && (a.None? || b.value.order < a.value.order) then b else a
  }

  lemma StartEarliest(rules: seq<Rule>, keys: seq<Option<DomainKey>>, host: string, found: Option<Entry>)
    requires Hit(rules, keys, DomainKey(false, host), found)
    ensures Earliest(rules, keys, host, 0, found)
  {
    assert Covering(keys, host, 0) == Naming(keys, DomainKey(false, host));
  }

  lemma ViaOneMore(key: DomainKey, host: string, n: nat, dot: nat)
    requires n <= dot < |host| - 1 && host[dot] == '.' && forall j :: n <= j < dot ==> host[j] != '.'
    ensures CoversVia(key, host, dot + 1) <==> CoversVia(key, host, n) || key.name == host[dot + 1..]
  {}

  /** One more dot: the two lookups of the name after it. */
  lemma OneMoreDot(rules: seq<Rule>, keys: seq<Option<DomainKey>>, host: string, n: nat, dot: nat,
                   matched: Option<Entry>, plain: Option<Entry>, wild: Option<Entry>)
    requires Earliest(rules, keys, host, n, matched) && n <= dot < |host| - 1 && host[dot] == '.'
    requires forall j :: n <= j < dot ==> host[j] != '.'
    requires Hit(rules, keys, DomainKey(false, host[dot + 1..]), plain) && Hit(rules, keys, DomainKey(true, host[dot + 1..]), wild)
    ensures Earliest(rules, keys, host, dot + 1, Earlier(Earlier(matched, plain), wild))
  {
    var parent := host[dot + 1..];
    var via := Covering(keys, host, n);
    var plainly, wildly := Naming(keys, DomainKey(false, parent)), Naming(keys, DomainKey(true, parent));
    forall i: nat | i < |keys| ensures i in Covering(keys, host, dot + 1) <==> i in via + plainly + wildly {
      if keys[i].Some? { ViaOneMore(keys[i].value, host, n, dot); }
    }
    assert Covering(keys, host, dot + 1) == via + plainly + wildly;
    LeastOfBoth(rules, via, plainly, matched, plain);
    LeastOfBoth(rules, via + plainly, wildly, Earlier(matched, plain), wild);
  }

  // ----- Filling the index -----

  lemma HitGrows(rules: seq<Rule>, keys: seq<Option<DomainKey>>, key: DomainKey, found: Option<Entry>, rule: Rule, own: Option<DomainKey>)
    requires Hit(rules, keys, key, found) && |keys| == |rules|
    ensures Hit(rules + [rule], keys + [own], key,
                if found.None? && own == Some(key) then Some(Entry(rule.id, |rules|)) else found)
  {
    var hits, all := Naming(keys, key), Naming(keys + [own], key);
    assert all == if own == Some(key) then hits + {|rules|} else hits;
  }

  /** A further rule is entered under its name if none is there yet. */
  lemma FirstWinsGrows(rules: seq<Rule>, index: map<string, Entry>, wildcard: bool, rule: Rule)
    requires FirstWins(rules, Keys(rules), index, wildcard)
    ensures FirstWins(rules + [rule], Keys(rules + [rule]), EntryAdded(index, wildcard, KeyOf(rule), rule.id, |rules|), wildcard)
  {
    var own, keys := KeyOf(rule), Keys(rules);
    assert Keys(rules + [rule]) == keys + [own];
    WinsWithKey(rules, keys, index, wildcard, rule, own);
  }

  function EntryAdded(index: map<string, Entry>, wildcard: bool, own: Option<DomainKey>, id: string, order: nat): map<string, Entry> {
    if own.Some? && own.value.wildcard == wildcard && own.value.name !in index then index[own.value.name := Entry(id, order)] else index
  }

  lemma WinsWithKey(rules: seq<Rule>, keys: seq<Option<DomainKey>>, index: map<string, Entry>, wildcard: bool, rule: Rule, own: Option<DomainKey>)
    requires FirstWins(rules, keys, index, wildcard) && |keys| == |rules|
    ensures FirstWins(rules + [rule], keys + [own], EntryAdded(index, wildcard, own, rule.id, |rules|), wildcard)
  {
    var index' := EntryAdded(index, wildcard, own, rule.id, |rules|);
    forall name ensures Hit(rules + [rule], keys + [own], DomainKey(wildcard, name), Lookup(index', name)) {
      assert Hit(rules, keys, DomainKey(wildcard, name), Lookup(index, name));
      HitGrows(rules, keys, DomainKey(wildcard, name), Lookup(index, name), rule, own);
    }
  }

  lemma FirstProcessGrows(rules: seq<Rule>, index: map<string, string>, rule: Rule)
    requires FirstProcessWins(rules, index)
    ensures var name := Normalized(rule);
      FirstProcessWins(rules + [rule],
                       if Active(rule, Process) && name !in index then index[name := rule.id] else index)
  {
    var all := rules + [rule];
    assert all[..|all| - 1] == rules;
  }

  function CountActive(rules: seq<Rule>, kind: RuleType): nat {
    if rules == [] then 0
    else CountActive(rules[..|rules| - 1], kind) + if Active(rules[|rules| - 1], kind) then 1 else 0
  }

  function CountInvalid(rules: seq<Rule>): nat {
    if rules == [] then 0
    else
      var last := rules[|rules| - 1];
      CountInvalid(rules[..|rules| - 1]) + if last.enabled && !ValidRule(last) then 1 else 0
  }

  lemma {:induction false} CountsFindAny(rules: seq<Rule>)
    ensures AnyActive(rules) <==> CountActive(rules, Domain) + CountActive(rules, IpRange) + CountActive(rules, Process) > 0
  {
    if rules != [] {
      var init, last := rules[..|rules| - 1], rules[|rules| - 1];
      CountsFindAny(init);
      assert rules == init + [last] && last in rules;
      assert Active(last, last.kind) <==> last.enabled && ValidRule(last);
      if AnyActive(init) {
        var rule :| rule in init && rule.enabled && ValidRule(rule);
        assert rule in rules;
      }
    }
  }

  datatype CompiledIp = CompiledIp(id: string, range: Range)

  function IpList(rules: seq<Rule>, number: NumberReader): seq<CompiledIp> {
    if rules == [] then []
    else
      WithIp(IpList(rules[..|rules| - 1], number), rules[|rules| - 1].id, IpRangeOf(rules[|rules| - 1], number))
  }

  function WithIp(ips: seq<CompiledIp>, id: string, range: Option<Range>): seq<CompiledIp> {
    if range.Some? then ips + [CompiledIp(id, range.value)] else ips
  }

  function FindIp(ips: seq<CompiledIp>, ip: Ip): Option<CompiledIp> {
    if ips == [] then None
    else
      var earlier, last := FindIp(ips[..|ips| - 1], ip), ips[|ips| - 1];
      if earlier.Some? then earlier else if Matches(ip, last.range) then Some(last) else None
  }

  lemma {:induction false} FindIpIsFirst(rules: seq<Rule>, ip: Ip, number: NumberReader)
    ensures var found, first := FindIp(IpList(rules, number), ip), FirstForIp(rules, ip, number);
      found.Some? == first.Some? && (found.Some? ==> found.value.id == first.value.id)
  {
    if rules != [] {
      var init, last := rules[..|rules| - 1], rules[|rules| - 1];
      FindIpIsFirst(init, ip, number);
      FindInOneMore(IpList(init, number), last.id, IpRangeOf(last, number), ip);
    }
  }

  lemma FindInOneMore(ips: seq<CompiledIp>, id: string, range: Option<Range>, ip: Ip)
    ensures FindIp(WithIp(ips, id, range), ip) ==
      if FindIp(ips, ip).Some? then FindIp(ips, ip) else if InRange(ip, range) then Some(CompiledIp(id, range.value)) else None
  {
    var more := WithIp(ips, id, range);
    if range.Some? { assert more[..|more| - 1] == ips; }
  }

  lemma {:induction false} FoundEarly(ips: seq<CompiledIp>, ip: Ip, i: nat)
    requires i <= |ips| && FindIp(ips[..i], ip).Some?
    ensures FindIp(ips, ip) == FindIp(ips[..i], ip)
    decreases |ips|
  {
    if i < |ips| {
      assert ips[..|ips| - 1][..i] == ips[..i];
      FoundEarly(ips[..|ips| - 1], ip, i);
    } else {
      assert ips[..i] == ips;
    }
  }

  lemma {:induction false} TrimEndTwice(s: string)
    ensures TrimEnd(TrimEnd(s)) == TrimEnd(s)
    ensures s != "" && !IsSpace(s[0]) ==> TrimEnd(s) != "" && TrimEnd(s)[0] == s[0]
    decreases |s|
  {
    if s != "" && IsSpace(s[|s| - 1]) { TrimEndTwice(s[..|s| - 1]); }
  }

  lemma {:induction false} TrimStartEnds(s: string)
    ensures TrimStart(s) == "" || !IsSpace(TrimStart(s)[0])
    decreases |s|
  {
    if s != "" && IsSpace(s[0]) { TrimStartEnds(s[1..]); }
  }

  lemma TrimTwice(s: string)
    ensures Trim(Trim(s)) == Trim(s)
  {
    TrimStartEnds(s);
    TrimEndTwice(TrimStart(s));
  }

  /** A valid IP rule always parses, so the source's second look at it never finds it wanting. */
  lemma ActiveIpParses(rule: Rule, number: NumberReader)
    requires Active(rule, IpRange) && ReadsNumerals(number)
    ensures RangeOf(Normalized(rule), number).Some?
  {
    TrimTwice(rule.value);
    AcceptedRulesParse(rule.value, number);
  }

  // ----- The class -----

  class RoutingMatcher {
    const mode: Mode
    const number: NumberReader
    var domains: map<string, Entry>
    var wildcardDomains: map<string, Entry>
    var ips: seq<CompiledIp>
    var processes: map<string, string>
    var domainRules: nat
    var processRules: nat
    var invalidRules: nat

    /** The fields index exactly these rules. */
    ghost predicate Compiled(rules: seq<Rule>)
      reads this
    {
      && ReadsNumerals(number)
      && FirstWins(rules, Keys(rules), domains, false) && FirstWins(rules, Keys(rules), wildcardDomains, true)
      && ips == IpList(rules, number) && |ips| == CountActive(rules, IpRange)
      && FirstProcessWins(rules, processes)
      && domainRules == CountActive(rules, Domain) && processRules == CountActive(rules, Process)
      && invalidRules == CountInvalid(rules)
    }

    constructor (mode: Mode, rules: seq<Rule>, number: NumberReader)
      requires ReadsNumerals(number)
      ensures this.mode == mode && this.number == number && Compiled(rules)
    {
      this.mode, this.number := mode, number;
      domains, wildcardDomains, ips, processes := map[], map[], [], map[];
      domainRules, processRules, invalidRules := 0, 0, 0;
      new;
      for order := 0 to |rules|
        invariant Compiled(rules[..order])
      {
        AddRule(rules[..order], rules[order]);
        assert rules[..order + 1] == rules[..order] + [rules[order]];
      }
      assert rules[..|rules|] == rules;
    }

    method AddRule(before: seq<Rule>, rule: Rule)
      requires Compiled(before)
      modifies this
      ensures Compiled(before + [rule])
    {
      ghost var all := before + [rule];
      assert all[..|all| - 1] == before;
      AddDomain(before, rule);
      AddIp(before, rule);
      AddProcess(before, rule);
      if rule.enabled && !ValidRule(rule) { invalidRules := invalidRules + 1; }
    }

    method AddDomain(before: seq<Rule>, rule: Rule)
      requires FirstWins(before, Keys(before), domains, false) && FirstWins(before, Keys(before), wildcardDomains, true)
      modifies this`domains, this`wildcardDomains, this`domainRules
      ensures FirstWins(before + [rule], Keys(before + [rule]), domains, false)
      ensures FirstWins(before + [rule], Keys(before + [rule]), wildcardDomains, true)
      ensures domainRules == old(domainRules) + if Active(rule, Domain) then 1 else 0
    {
      FirstWinsGrows(before, domains, false, rule);
      FirstWinsGrows(before, wildcardDomains, true, rule);
      if !Active(rule, Domain) { return; }
      var normalized := Normalized(rule);
      var pattern, entry := Bare(normalized), Entry(rule.id, |before|);
      if IsWildcard(normalized) {
        if pattern !in wildcardDomains { wildcardDomains := wildcardDomains[pattern := entry]; }
      } else {
        if pattern !in domains { domains := domains[pattern := entry]; }
      }
      domainRules := domainRules + 1;
    }

    method AddIp(before: seq<Rule>, rule: Rule)
      requires ReadsNumerals(number) && ips == IpList(before, number)
      modifies this`ips
      ensures ips == IpList(before + [rule], number)
      ensures |ips| == |old(ips)| + if Active(rule, IpRange) then 1 else 0
    {
      ghost var all := before + [rule];
      assert all[..|all| - 1] == before;
      if Active(rule, IpRange) {
        ActiveIpParses(rule, number);
        var range := RangeOf(Normalized(rule), number);
        ips := ips + [CompiledIp(rule.id, range.value)];
      }
    }

    method AddProcess(before: seq<Rule>, rule: Rule)
      requires FirstProcessWins(before, processes)
      modifies this`processes, this`processRules
      ensures FirstProcessWins(before + [rule], processes)
      ensures processRules == old(processRules) + if Active(rule, Process) then 1 else 0
    {
      FirstProcessGrows(before, processes, rule);
      if Active(rule, Process) {
        var normalized := Normalized(rule);
        if normalized !in processes { processes := processes[normalized := rule.id]; }
        processRules := processRules + 1;
      }
    }

    /** The earliest enabled, valid domain rule that covers the host. */
    method MatchDomain(host: string, ghost rules: seq<Rule>) returns (matched: Option<Entry>)
      requires FirstWins(rules, Keys(rules), domains, false) && FirstWins(rules, Keys(rules), wildcardDomains, true)
      ensures FirstForHost(rules, host).Some? == matched.Some?
      ensures matched.Some? ==> FirstForHost(rules, host).value.id == matched.value.id
    {
      matched := WalkLabels(domains, wildcardDomains, host, rules, Keys(rules));
      ghost var seen :| WalkedTo(rules, Keys(rules), host, seen, matched);
      EarliestIsFirst(rules, host, seen, matched);
    }

    method MatchIp(ip: Ip, ghost rules: seq<Rule>) returns (matched: Option<CompiledIp>)
      requires ips == IpList(rules, number)
      ensures FirstForIp(rules, ip, number).Some? == matched.Some?
      ensures matched.Some? ==> FirstForIp(rules, ip, number).value.id == matched.value.id
    {
      FindIpIsFirst(rules, ip, number);
      matched := FindFirstIp(ips, ip);
    }

    method MatchDestination(d: Destination, ghost rules: seq<Rule>) returns (reason: Option<Reason>)
      requires Compiled(rules)
      ensures reason == LinearDestination(rules, d, number)
    {
      var host := Cleaned(d.domain);
      if host != "" {
        var matched := MatchDomain(host, rules);
        if matched.Some? { return Some(ByDomain(matched.value.id)); }
      }
      var ip := AddressOf(d);
      if ip.Some? {
        var matched := MatchIp(ip.value, rules);
        if matched.Some? { return Some(ByIp(matched.value.id)); }
      }
      return None;
    }

    method MatchProcess(d: Destination, ghost rules: seq<Rule>) returns (reason: Option<Reason>)
      requires Compiled(rules)
      ensures reason == LinearProcess(rules, d)
    {
      var name := Cleaned(d.process);
      return if name != "" && name in processes then Some(ByProcess(processes[name])) else None;
    }

    /** Every answer of the index is the answer of the linear scan. */
    method Match(d: Destination, ghost rules: seq<Rule>) returns (reason: Reason)
      requires Compiled(rules)
      ensures reason == LinearMatch(mode, rules, d, number)
    {
      CountsFindAny(rules);
      if mode != ProxyAll && domainRules + |ips| + processRules == 0 {
        NothingMatches(rules, d, number);
        return NoEnabledRules;
      }
      var byDestination := MatchDestination(d, rules);
      if byDestination.Some? { return byDestination.value; }
      var byProcess := MatchProcess(d, rules);
      if byProcess.Some? { return byProcess.value; }
      return if mode == ProxyAll then ByProxyAll else if domainRules + |ips| + processRules == 0 then NoEnabledRules else NoMatch;
    }
  }

  /** The lookups of the host itself and of the name after each of its dots. */
  method WalkLabels(domains: map<string, Entry>, wildcardDomains: map<string, Entry>, host: string,
                    ghost rules: seq<Rule>, ghost keys: seq<Option<DomainKey>>)
    returns (matched: Option<Entry>)
    requires FirstWins(rules, keys, domains, false) && FirstWins(rules, keys, wildcardDomains, true)
    ensures exists seen :: WalkedTo(rules, keys, host, seen, matched)
  {
    matched := Lookup(domains, host);
    StartEarliest(rules, keys, host, matched);
    var separator := IndexOfDot(host, 0);
    ghost var seen := 0;
    while separator >= 0 && separator + 1 < |host|
      invariant 0 <= seen <= |host| && Earliest(rules, keys, host, seen, matched)
      invariant separator >= 0 ==> seen <= separator < |host| && host[separator] == '.'
      invariant forall j :: seen <= j < (if separator >= 0 then separator else |host|) ==> host[j] != '.'
      decreases |host| - seen
    {
      var parent := host[separator + 1..];
      var plain, wildcard := Lookup(domains, parent), Lookup(wildcardDomains, parent);
      OneMoreDot(rules, keys, host, seen, separator, matched, plain, wildcard);
      matched := Earlier(Earlier(matched, plain), wildcard);
      seen := separator + 1;
      separator := IndexOfDot(host, separator + 1);
    }
    assert WalkedTo(rules, keys, host, seen, matched);
  }

  method FindFirstIp(ips: seq<CompiledIp>, ip: Ip) returns (matched: Option<CompiledIp>)
    ensures matched == FindIp(ips, ip)
  {
    for i := 0 to |ips|
      invariant FindIp(ips[..i], ip) == None
    {
      assert ips[..i + 1][..i] == ips[..i];
      if Matches(ip, ips[i].range) {
        FoundEarly(ips, ip, i + 1);
        return Some(ips[i]);
      }
    }
    assert ips[..|ips|] == ips;
    return None;
  }

  /** Without an active rule the scan finds nothing, so asking for it first changes no answer. */
  lemma NothingMatches(rules: seq<Rule>, d: Destination, number: NumberReader)
    requires !AnyActive(rules)
    ensures LinearDestination(rules, d, number).None? && LinearProcess(rules, d).None?
  {
    NothingFound(rules, Cleaned(d.domain), Cleaned(d.process));
    NothingFor(rules, Cleaned(d.domain), AddressOf(d), number);
  }

  lemma NothingFor(rules: seq<Rule>, host: string, ip: Option<Ip>, number: NumberReader)
    requires !AnyActive(rules)
    ensures LinearFor(rules, host, ip, number).None?
  {
    NothingFound(rules, host, "");
    if ip.Some? { NoIpFound(rules, ip.value, number); }
  }

  lemma {:induction false} NothingFound(rules: seq<Rule>, host: string, name: string)
    requires !AnyActive(rules)
    ensures FirstForHost(rules, host).None? && FirstForProcess(rules, name).None?
  {
    if rules != [] {
      assert forall rule :: rule in rules[..|rules| - 1] ==> rule in rules;
      assert rules[|rules| - 1] in rules;
      NothingFound(rules[..|rules| - 1], host, name);
    }
  }

  lemma {:induction false} NoIpFound(rules: seq<Rule>, ip: Ip, number: NumberReader)
    requires !AnyActive(rules)
    ensures FirstForIp(rules, ip, number).None?
  {
    if rules != [] {
      assert forall rule :: rule in rules[..|rules| - 1] ==> rule in rules;
      assert rules[|rules| - 1] in rules;
      NoIpFound(rules[..|rules| - 1], ip, number);
    }
  }
}
