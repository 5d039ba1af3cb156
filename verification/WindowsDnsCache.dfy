/**
 Windows DNS cache rows to the names an address is known by.

 The specification is about alias chains: a chain starts at a cached address
 record and follows CNAME edges from a canonical name to its aliases, and is
 worth the smallest TTL on it. `Resolve` is the source's bounded breadth-first
 loop; its contract says that each entry is worth the best chain of at most
 eight edges, and exactly when the size caps leave room for all of them.
 */
module WindowsDnsCache {
  import opened Prelude

  const MAX_ROWS_SCANNED := 16384
  const MAX_ENTRIES := 4096
  const MAX_DOMAINS_PER_ADDRESS := 64
  const MAX_CNAME_DEPTH := 8
  const MAX_ALIASES_PER_TARGET := 64
  const MAX_TTL_SECONDS := 7 * 24 * 60 * 60

  /** The only TTLs a row is read with. */
  type Ttl = seconds: int | 0 < seconds <= MAX_TTL_SECONDS witness 1

  /** A normalised address and a normalised name. */
  datatype Key = Key(address: string, domain: string)

  /** One CNAME edge: `alias` is an alias of `canonical`. */
  datatype Link = Link(canonical: string, alias: string, ttl: Ttl)

  /** A decoded row; rows with a bad name or TTL, or with both or neither target, are `Unusable`. */
  datatype Row = Unusable | AddressRow(key: Key, ttl: Ttl) | AliasRow(alias: string, canonical: string, ttl: Ttl)

  // ----- Chains -----

  datatype Chain = Record(key: Key) | Via(shorter: Chain, link: Link)

  function Length(c: Chain): nat { if c.Record? then 0 else Length(c.shorter) + 1 }

  function End(c: Chain): Key { if c.Record? then c.key else Key(End(c.shorter).address, c.link.alias) }

  predicate ValidChain(direct: map<Key, Ttl>, links: set<Link>, c: Chain) {
    match c
    case Record(key) => key in direct
    case Via(shorter, link) => ValidChain(direct, links, shorter) && link in links && link.canonical == End(shorter).domain
  }

  function Worth(direct: map<Key, Ttl>, links: set<Link>, c: Chain): Ttl
    requires ValidChain(direct, links, c)
  {
    match c
    case Record(key) => direct[key]
    case Via(shorter, link) => Min(Worth(direct, links, shorter), link.ttl)
  }

  ghost predicate Witness(direct: map<Key, Ttl>, links: set<Link>, c: Chain, key: Key, ttl: Ttl, depth: nat) {
    ValidChain(direct, links, c) && Length(c) <= depth && End(c) == key && Worth(direct, links, c) == ttl
  }

  /** Some chain of at most `depth` edges ends at `key` and is worth exactly `ttl`. */
  ghost predicate Witnessed(direct: map<Key, Ttl>, links: set<Link>, key: Key, ttl: Ttl, depth: nat) {
    exists c :: Witness(direct, links, c, key, ttl, depth)
  }

  /** Every chain of at most `depth` edges ends at an entry worth at least as much. */
  ghost predicate Complete(direct: map<Key, Ttl>, links: set<Link>, entries: map<Key, Ttl>, depth: nat) {
    forall c :: ValidChain(direct, links, c) && Length(c) <= depth ==>
      End(c) in entries && Worth(direct, links, c) <= entries[End(c)]
  }

  // ----- What can be reached at all -----

  function Step(keys: set<Key>, links: set<Link>): set<Key> {
    set key, link | key in keys && link in links && link.canonical == key.domain :: Key(key.address, link.alias)
  }

  function Reach(direct: map<Key, Ttl>, links: set<Link>, depth: nat): set<Key> {
    if depth == 0 then direct.Keys
    else Reach(direct, links, depth - 1) + Step(Reach(direct, links, depth - 1), links)
  }

  function Of(address: string, keys: set<Key>): set<Key> { set key | key in keys && key.address == address }

  ghost predicate UnderCaps(keys: set<Key>) {
    |keys| <= MAX_ENTRIES && forall address :: |Of(address, keys)| <= MAX_DOMAINS_PER_ADDRESS
  }

  /** Room for every reachable name under both caps. */
  ghost predicate Fits(direct: map<Key, Ttl>, links: set<Link>, limit: nat) { UnderCaps(Reach(direct, links, limit)) }

  lemma ReachGrows(direct: map<Key, Ttl>, links: set<Link>, key: Key, depth: nat)
    requires depth > 0 && key in Reach(direct, links, depth - 1)
    ensures key in Reach(direct, links, depth)
  {}

  lemma ReachesOneMore(direct: map<Key, Ttl>, links: set<Link>, key: Key, link: Link, depth: nat)
    requires depth > 0 && key in Reach(direct, links, depth - 1) && link in links && link.canonical == key.domain
    ensures Key(key.address, link.alias) in Reach(direct, links, depth)
  {
    assert Key(key.address, link.alias) in Step(Reach(direct, links, depth - 1), links);
  }

  lemma {:induction false} ChainReaches(direct: map<Key, Ttl>, links: set<Link>, c: Chain, depth: nat)
    requires ValidChain(direct, links, c) && Length(c) <= depth
    ensures End(c) in Reach(direct, links, depth)
    decreases depth
  {
    if c.Via? {
      ChainReaches(direct, links, c.shorter, depth - 1);
      ReachesOneMore(direct, links, End(c.shorter), c.link, depth);
    } else if depth > 0 {
      ChainReaches(direct, links, c, depth - 1);
      ReachGrows(direct, links, c.key, depth);
    }
  }

  ghost predicate ChainTo(direct: map<Key, Ttl>, links: set<Link>, c: Chain, key: Key, depth: nat) {
    ValidChain(direct, links, c) && Length(c) <= depth && End(c) == key
  }

  ghost predicate HasChain(direct: map<Key, Ttl>, links: set<Link>, key: Key, depth: nat) {
    exists c :: ChainTo(direct, links, c, key, depth)
  }

  lemma LongerChain(direct: map<Key, Ttl>, links: set<Link>, key: Key, link: Link, depth: nat)
    requires HasChain(direct, links, key, depth) && link in links && link.canonical == key.domain
    ensures HasChain(direct, links, Key(key.address, link.alias), depth + 1)
  {
    var c :| ChainTo(direct, links, c, key, depth);
    assert ChainTo(direct, links, Via(c, link), Key(key.address, link.alias), depth + 1);
  }

  lemma KeptChain(direct: map<Key, Ttl>, links: set<Link>, key: Key, depth: nat)
    requires HasChain(direct, links, key, depth)
    ensures HasChain(direct, links, key, depth + 1)
  {
    var c :| ChainTo(direct, links, c, key, depth);
    assert ChainTo(direct, links, c, key, depth + 1);
  }

  /** One more edge from names that have chains leads to names that have chains. */
  lemma StepHasChains(direct: map<Key, Ttl>, links: set<Link>, keys: set<Key>, depth: nat)
    requires forall key :: key in keys ==> HasChain(direct, links, key, depth)
    ensures forall key :: key in keys + Step(keys, links) ==> HasChain(direct, links, key, depth + 1)
  {
    forall key | key in keys + Step(keys, links) ensures HasChain(direct, links, key, depth + 1) {
      if key in keys {
        KeptChain(direct, links, key, depth);
      } else {
        var before, link :| before in keys && link in links && link.canonical == before.domain && key == Key(before.address, link.alias);
        LongerChain(direct, links, before, link, depth);
      }
    }
  }

  lemma {:induction false} ReachHasChains(direct: map<Key, Ttl>, links: set<Link>, depth: nat)
    ensures forall key :: key in Reach(direct, links, depth) ==> HasChain(direct, links, key, depth)
    decreases depth
  {
    if depth == 0 {
      forall key | key in direct ensures HasChain(direct, links, key, 0) {
        assert ChainTo(direct, links, Record(key), key, 0);
      }
    } else {
      ReachHasChains(direct, links, depth - 1);
      StepHasChains(direct, links, Reach(direct, links, depth - 1), depth - 1);
    }
  }

  lemma SmallerSet<T>(a: set<T>, b: set<T>)
    requires a <= b
    ensures |a| <= |b| && (a != b ==> |a| < |b|)
  {
    assert b == a + (b - a);
    if a != b { assert |b - a| > 0; }
  }

  // ----- Reading the rows -----

  function Raise<K>(m: map<K, Ttl>, key: K, ttl: Ttl): map<K, Ttl> {
    if key in m && ttl <= m[key] then m else m[key := ttl]
  }

  /** The best TTL of each requested address record. */
  function DirectOf(rows: seq<Row>, requested: set<string>): map<Key, Ttl> {
    if rows == [] then map[]
    else
      var earlier, row := DirectOf(rows[..|rows| - 1], requested), rows[|rows| - 1];
      if row.AddressRow? && row.key.address in requested then Raise(earlier, row.key, row.ttl) else earlier
  }

  /** The best TTL of each (canonical, alias) pair. */
  function EdgesOf(rows: seq<Row>): map<(string, string), Ttl> {
    if rows == [] then map[]
    else
      var earlier, row := EdgesOf(rows[..|rows| - 1]), rows[|rows| - 1];
      if row.AliasRow? && row.canonical != row.alias then Raise(earlier, (row.canonical, row.alias), row.ttl) else earlier
  }

  function LinksOf(edges: map<(string, string), Ttl>): set<Link> {
    set pair | pair in edges :: Link(pair.0, pair.1, edges[pair])
  }

  function Scanned(rows: seq<Row>): seq<Row> { rows[..Min(|rows|, MAX_ROWS_SCANNED)] }

  predicate RecordsKey(row: Row, key: Key) { row.AddressRow? && row.key == key }

  predicate RecordsAlias(row: Row, canonical: string, alias: string) {
    row.AliasRow? && row.canonical == canonical && row.alias == alias
  }

  /** A requested address record is kept if and only if a row has it, and then with the greatest TTL of its rows. */
  lemma {:induction false} DirectIsBest(rows: seq<Row>, requested: set<string>, key: Key)
    ensures key in DirectOf(rows, requested) <==> key.address in requested && exists i :: 0 <= i < |rows| && RecordsKey(rows[i], key)
    ensures key in DirectOf(rows, requested) ==> AddressRow(key, DirectOf(rows, requested)[key]) in rows
    ensures forall i :: 0 <= i < |rows| && RecordsKey(rows[i], key) && key.address in requested ==>
      rows[i].ttl <= DirectOf(rows, requested)[key]
  {
    if rows != [] {
      var init, last := rows[..|rows| - 1], rows[|rows| - 1];
      DirectIsBest(init, requested, key);
      assert rows == init + [last];
      if i :| 0 <= i < |init| && RecordsKey(init[i], key) { assert RecordsKey(rows[i], key); }
      if RecordsKey(last, key) { assert RecordsKey(rows[|rows| - 1], key); }
      if i :| 0 <= i < |rows| && RecordsKey(rows[i], key) { assert i < |init| ==> RecordsKey(init[i], key); }
      forall i | 0 <= i < |rows| && RecordsKey(rows[i], key) && key.address in requested
        ensures key in DirectOf(rows, requested) && rows[i].ttl <= DirectOf(rows, requested)[key]
      {
        if i < |init| { assert RecordsKey(init[i], key); }
      }
    }
  }

  /** The same for the edges. */
  lemma {:induction false} EdgesAreBest(rows: seq<Row>, canonical: string, alias: string)
    ensures (canonical, alias) in EdgesOf(rows) <==>
      canonical != alias && exists i :: 0 <= i < |rows| && RecordsAlias(rows[i], canonical, alias)
    ensures (canonical, alias) in EdgesOf(rows) ==> AliasRow(alias, canonical, EdgesOf(rows)[(canonical, alias)]) in rows
    ensures forall i :: 0 <= i < |rows| && RecordsAlias(rows[i], canonical, alias) && canonical != alias ==>
      rows[i].ttl <= EdgesOf(rows)[(canonical, alias)]
  {
    if rows != [] {
      var init, last := rows[..|rows| - 1], rows[|rows| - 1];
      EdgesAreBest(init, canonical, alias);
      assert rows == init + [last];
      if i :| 0 <= i < |init| && RecordsAlias(init[i], canonical, alias) { assert RecordsAlias(rows[i], canonical, alias); }
      if RecordsAlias(last, canonical, alias) { assert RecordsAlias(rows[|rows| - 1], canonical, alias); }
      if i :| 0 <= i < |rows| && RecordsAlias(rows[i], canonical, alias) { assert i < |init| ==> RecordsAlias(init[i], canonical, alias); }
      forall i | 0 <= i < |rows| && RecordsAlias(rows[i], canonical, alias) && canonical != alias
        ensures (canonical, alias) in EdgesOf(rows) && rows[i].ttl <= EdgesOf(rows)[(canonical, alias)]
      {
        if i < |init| { assert RecordsAlias(init[i], canonical, alias); }
      }
    }
  }

  // ----- The reverse index -----

  /** The first `MAX_ALIASES_PER_TARGET` aliases of a name, in the order given. */
  function AliasesOf(ordered: seq<Link>, canonical: string): seq<Link> {
    if ordered == [] then []
    else
      var earlier, link := AliasesOf(ordered[..|ordered| - 1], canonical), ordered[|ordered| - 1];
      if link.canonical == canonical && |earlier| < MAX_ALIASES_PER_TARGET then earlier + [link] else earlier
  }

  function Aliases(reverse: map<string, seq<Link>>, canonical: string): seq<Link> {
    if canonical in reverse then reverse[canonical] else []
  }

  function Kept(reverse: map<string, seq<Link>>): set<Link> {
    set canonical, link | canonical in reverse && link in reverse[canonical] :: link
  }

  predicate Indexed(reverse: map<string, seq<Link>>) {
    forall canonical :: canonical in reverse ==> forall link :: link in reverse[canonical] ==> link.canonical == canonical
  }

  /** `reverse` lists the first aliases of every name among the edges seen. */
  ghost predicate Indexes(reverse: map<string, seq<Link>>, seen: seq<Link>) {
    forall canonical :: Aliases(reverse, canonical) == AliasesOf(seen, canonical)
  }

  lemma {:induction false} IndexOne(reverse: map<string, seq<Link>>, ordered: seq<Link>, i: nat)
    requires i < |ordered| && Indexes(reverse, ordered[..i])
    ensures var edge := ordered[i]; var aliases := Aliases(reverse, edge.canonical);
      Indexes(if |aliases| < MAX_ALIASES_PER_TARGET then reverse[edge.canonical := aliases + [edge]] else reverse, ordered[..i + 1])
  {
    var edge := ordered[i];
    var aliases := Aliases(reverse, edge.canonical);
    var reverse' := if |aliases| < MAX_ALIASES_PER_TARGET then reverse[edge.canonical := aliases + [edge]] else reverse;
    assert ordered[..i + 1][..i] == ordered[..i];
    forall canonical ensures Aliases(reverse', canonical) == AliasesOf(ordered[..i + 1], canonical) {
      assert Aliases(reverse, canonical) == AliasesOf(ordered[..i], canonical);
    }
  }

  method BuildReverseCnameEdges(ordered: seq<Link>) returns (reverse: map<string, seq<Link>>)
    ensures Indexed(reverse) && Indexes(reverse, ordered)
  {
    reverse := map[];
    for i := 0 to |ordered|
      invariant Indexed(reverse)
      invariant Indexes(reverse, ordered[..i])
    {
      IndexOne(reverse, ordered, i);
      var edge := ordered[i];
      var aliases := Aliases(reverse, edge.canonical);
      if |aliases| < MAX_ALIASES_PER_TARGET {
        reverse := reverse[edge.canonical := aliases + [edge]];
      }
    }
    assert ordered[..|ordered|] == ordered;
  }

  /** The aliases the rows give a name. */
  function Fan(ordered: seq<Link>, canonical: string): set<Link> { set link | link in ordered && link.canonical == canonical }

  predicate Once(ordered: seq<Link>) { forall i, j :: 0 <= i < j < |ordered| ==> ordered[i] != ordered[j] }

  lemma FanGrows(ordered: seq<Link>, canonical: string)
    requires Once(ordered) && ordered != []
    ensures var init, last := ordered[..|ordered| - 1], ordered[|ordered| - 1];
      && last !in Fan(init, canonical) && Once(init)
      && Fan(ordered, canonical) == if last.canonical == canonical then Fan(init, canonical) + {last} else Fan(init, canonical)
  {
    var init, last := ordered[..|ordered| - 1], ordered[|ordered| - 1];
    forall link ensures link in ordered <==> link in init || link == last {
      assert ordered == init + [last];
    }
  }

  /** Only links of the name are kept, as many as there are up to 64. */
  lemma {:induction false} AliasesWithinCap(ordered: seq<Link>, canonical: string)
    requires Once(ordered)
    ensures |AliasesOf(ordered, canonical)| == Min(MAX_ALIASES_PER_TARGET, |Fan(ordered, canonical)|)
    ensures forall link :: link in AliasesOf(ordered, canonical) ==> link in Fan(ordered, canonical)
  {
    if ordered != [] {
      FanGrows(ordered, canonical);
      AliasesWithinCap(ordered[..|ordered| - 1], canonical);
    }
  }

  /** Every alias is kept where there are at most 64 of them. */
  lemma {:induction false} AllAliasesKept(ordered: seq<Link>, canonical: string)
    requires Once(ordered) && |Fan(ordered, canonical)| <= MAX_ALIASES_PER_TARGET
    ensures forall link :: link in Fan(ordered, canonical) ==> link in AliasesOf(ordered, canonical)
  {
    if ordered != [] {
      FanGrows(ordered, canonical);
      AliasesWithinCap(ordered[..|ordered| - 1], canonical);
      AllAliasesKept(ordered[..|ordered| - 1], canonical);
    }
  }

  /** An edge is kept if and only if fewer than 64 aliases of its name come before it. */
  lemma {:induction false} KeptIfAmongFirst(ordered: seq<Link>, i: nat)
    requires Once(ordered) && i < |ordered|
    ensures ordered[i] in AliasesOf(ordered, ordered[i].canonical) <==>
      |Fan(ordered[..i], ordered[i].canonical)| < MAX_ALIASES_PER_TARGET
    decreases |ordered|
  {
    var init, last := ordered[..|ordered| - 1], ordered[|ordered| - 1];
    FanGrows(ordered, ordered[i].canonical);
    AliasesWithinCap(init, ordered[i].canonical);
    if i < |init| {
      assert init[..i] == ordered[..i] && init[i] == ordered[i] && last != ordered[i];
      KeptIfAmongFirst(init, i);
    } else {
      assert init == ordered[..i];
    }
  }

  /** The edges the index keeps of these. */
  function FirstAliases(ordered: seq<Link>): set<Link> {
    set link | link in ordered && link in AliasesOf(ordered, link.canonical)
  }

  // ----- Recording under the caps -----

  /** The `entries` and `domainsPerAddress` maps that every record goes through. */
  class ResolvedEntries {
    var entries: map<Key, Ttl>
    var domainsPerAddress: map<string, nat>

    ghost predicate Valid()
      reads this
    {
      && |entries| <= MAX_ENTRIES
      && forall address ::
           && Count(address) == |Of(address, entries.Keys)|
           && Count(address) <= MAX_DOMAINS_PER_ADDRESS
    }

    function Count(address: string): nat
      reads this
    {
      if address in domainsPerAddress then domainsPerAddress[address] else 0
    }

    constructor ()
      ensures Valid() && entries == map[]
    {
      entries, domainsPerAddress := map[], map[];
    }

    /** Raises a known entry, or adds a new one where both caps leave room. */
    method RecordResolved(key: Key, ttl: Ttl) returns (kept: bool)
      requires Valid()
      modifies this
      ensures Valid()
      ensures kept == (key in old(entries)
                       || (|old(entries)| < MAX_ENTRIES && |Of(key.address, old(entries).Keys)| < MAX_DOMAINS_PER_ADDRESS))
      ensures entries == if kept then Raise(old(entries), key, ttl) else old(entries)
    {
      if key in entries {
        if ttl > entries[key] {
          KnownKey(entries, key, ttl);
          entries := entries[key := ttl];
        }
        return true;
      }
      if |entries| >= MAX_ENTRIES { return false; }
      var count := Count(key.address);
      if count >= MAX_DOMAINS_PER_ADDRESS { return false; }
      NewKey(entries, key, ttl);
      domainsPerAddress := domainsPerAddress[key.address := count + 1];
      entries := entries[key := ttl];
      forall address
        ensures Count(address) == |Of(address, entries.Keys)| && Count(address) <= MAX_DOMAINS_PER_ADDRESS
      {
        assert old(Count(address)) == |Of(address, old(entries).Keys)|;
      }
      return true;
    }
  }

  lemma KnownKey(entries: map<Key, Ttl>, key: Key, ttl: Ttl)
    requires key in entries
    ensures |entries[key := ttl]| == |entries| && entries[key := ttl].Keys == entries.Keys
  {
    var raised := entries[key := ttl];
    assert raised.Keys == entries.Keys;
    assert |raised| == |raised.Keys| && |entries| == |entries.Keys|;
  }

  lemma NewKey(entries: map<Key, Ttl>, key: Key, ttl: Ttl)
    requires key !in entries
    ensures |entries[key := ttl]| == |entries| + 1
    ensures |Of(key.address, entries[key := ttl].Keys)| == |Of(key.address, entries.Keys)| + 1
    ensures forall address :: address != key.address ==> Of(address, entries[key := ttl].Keys) == Of(address, entries.Keys)
  {
    assert entries[key := ttl].Keys == entries.Keys + {key};
    assert |entries[key := ttl].Keys| == |entries[key := ttl]|;
    assert Of(key.address, entries[key := ttl].Keys) == Of(key.address, entries.Keys) + {key};
  }

  // ----- One round of the search -----

  ghost predicate Sound(direct: map<Key, Ttl>, links: set<Link>, best: map<Key, Ttl>, depth: nat) {
    forall key :: key in best ==> Witnessed(direct, links, key, best[key], depth)
  }

  predicate Grows(before: map<Key, Ttl>, best: map<Key, Ttl>) {
    forall key :: key in before ==> key in best && before[key] <= best[key]
  }

  /** Whatever changed since `before` is queued with its new worth. */
  predicate Queued(before: map<Key, Ttl>, best: map<Key, Ttl>, next: map<Key, Ttl>) {
    && (forall key :: key in best ==> key in next || (key in before && before[key] == best[key]))
    && (forall key :: key in next ==> key in best && next[key] == best[key])
  }

  /** No alias of the key's name could be improved from it. */
  predicate Relaxed(best: map<Key, Ttl>, key: Key, ttl: Ttl, aliases: seq<Link>) {
    forall i :: 0 <= i < |aliases| ==>
      Key(key.address, aliases[i].alias) in best && Min(ttl, aliases[i].ttl) <= best[Key(key.address, aliases[i].alias)]
  }

  lemma Extend(direct: map<Key, Ttl>, links: set<Link>, key: Key, ttl: Ttl, link: Link, depth: nat)
    requires Witnessed(direct, links, key, ttl, depth) && link in links && link.canonical == key.domain
    ensures Witnessed(direct, links, Key(key.address, link.alias), Min(ttl, link.ttl), depth + 1)
  {
    var c :| Witness(direct, links, c, key, ttl, depth);
    assert Witness(direct, links, Via(c, link), Key(key.address, link.alias), Min(ttl, link.ttl), depth + 1);
  }

  lemma Longer(direct: map<Key, Ttl>, links: set<Link>, key: Key, ttl: Ttl, depth: nat, longer: nat)
    requires Witnessed(direct, links, key, ttl, depth) && depth <= longer
    ensures Witnessed(direct, links, key, ttl, longer)
  {
    var c :| Witness(direct, links, c, key, ttl, depth);
    assert Witness(direct, links, c, key, ttl, longer);
  }

  lemma SoundLonger(direct: map<Key, Ttl>, links: set<Link>, best: map<Key, Ttl>, depth: nat, longer: nat)
    requires Sound(direct, links, best, depth) && depth <= longer
    ensures Sound(direct, links, best, longer)
  {
    forall key | key in best ensures Witnessed(direct, links, key, best[key], longer) {
      Longer(direct, links, key, best[key], depth, longer);
    }
  }

  lemma WitnessedReaches(direct: map<Key, Ttl>, links: set<Link>, key: Key, ttl: Ttl, depth: nat)
    requires Witnessed(direct, links, key, ttl, depth)
    ensures key in Reach(direct, links, depth)
  {
    var c :| Witness(direct, links, c, key, ttl, depth);
    ChainReaches(direct, links, c, depth);
  }

  lemma SoundReaches(direct: map<Key, Ttl>, links: set<Link>, best: map<Key, Ttl>, depth: nat)
    requires Sound(direct, links, best, depth)
    ensures best.Keys <= Reach(direct, links, depth)
  {
    forall key | key in best ensures key in Reach(direct, links, depth) {
      WitnessedReaches(direct, links, key, best[key], depth);
    }
  }

  /** Where everything reachable is under the caps, there is room for one more reachable name. */
  lemma Room(reachable: set<Key>, best: map<Key, Ttl>, key: Key)
    requires UnderCaps(reachable) && best.Keys <= reachable && key in reachable && key !in best
    ensures |best| < MAX_ENTRIES && |Of(key.address, best.Keys)| < MAX_DOMAINS_PER_ADDRESS
  {
    SmallerSet(best.Keys, reachable);
    assert |best| == |best.Keys|;
    assert key in Of(key.address, reachable) && key !in Of(key.address, best.Keys);
    SmallerSet(Of(key.address, best.Keys), Of(key.address, reachable));
    assert |Of(key.address, reachable)| <= MAX_DOMAINS_PER_ADDRESS;
  }

  /** Every entry is one of the allowed (key, TTL) pairs. */
  ghost predicate Within(best: map<Key, Ttl>, allowed: iset<(Key, Ttl)>) {
    forall key :: key in best ==> (key, best[key]) in allowed
  }

  ghost predicate KeysWithin(allowed: iset<(Key, Ttl)>, reachable: set<Key>) {
    forall key, ttl :: (key, ttl) in allowed ==> key in reachable
  }

  /** One alias: improved, refused by a cap, or already at least as good. */
  method Improve(out: ResolvedEntries, key: Key, ttl: Ttl, best0: map<Key, Ttl>, next0: map<Key, Ttl>,
                 ghost before: map<Key, Ttl>, ghost allowed: iset<(Key, Ttl)>, ghost reachable: set<Key>)
    returns (best: map<Key, Ttl>, next: map<Key, Ttl>)
    requires out.Valid() && out.entries == best0
    requires Within(best0, allowed) && (key, ttl) in allowed && KeysWithin(allowed, reachable)
    requires Queued(before, best0, next0)
    modifies out
    ensures out.Valid() && out.entries == best
    ensures Within(best, allowed) && Grows(best0, best) && Queued(before, best, next)
    ensures UnderCaps(reachable) ==> key in best && ttl <= best[key]
  {
    best, next := best0, next0;
    if ttl > (if key in best then best[key] else 0) {
      var kept := out.RecordResolved(key, ttl);
      if kept {
        best := best[key := ttl];
        if key !in next || ttl > next[key] { next := next[key := ttl]; }
      } else if UnderCaps(reachable) {
        Room(reachable, best, key);
        assert false;
      }
    }
  }

  lemma OneMoreRelaxed(was: map<Key, Ttl>, best: map<Key, Ttl>, current: Key, ttl: Ttl, aliases: seq<Link>, i: nat)
    requires i < |aliases| && Relaxed(was, current, ttl, aliases[..i]) && Grows(was, best)
    requires Key(current.address, aliases[i].alias) in best
    requires Min(ttl, aliases[i].ttl) <= best[Key(current.address, aliases[i].alias)]
    ensures Relaxed(best, current, ttl, aliases[..i + 1])
  {
    forall j | 0 <= j < i + 1
      ensures Key(current.address, aliases[j].alias) in best
      ensures Min(ttl, aliases[j].ttl) <= best[Key(current.address, aliases[j].alias)]
    {
      if j < i { assert aliases[..i][j] == aliases[j]; }
    }
  }

  /** Every alias followed from the entry makes an allowed pair. */
  ghost predicate Leads(key: Key, ttl: Ttl, aliases: seq<Link>, allowed: iset<(Key, Ttl)>) {
    forall i :: 0 <= i < |aliases| ==>
      (Key(key.address, aliases[i].alias), Min(ttl, aliases[i].ttl)) in allowed
  }

  /** One entry of the frontier: its name's aliases are improved where they can be. */
  method Visit(out: ResolvedEntries, current: Key, ttl: Ttl, aliases: seq<Link>, best0: map<Key, Ttl>, next0: map<Key, Ttl>,
               ghost before: map<Key, Ttl>, ghost allowed: iset<(Key, Ttl)>, ghost reachable: set<Key>)
    returns (best: map<Key, Ttl>, next: map<Key, Ttl>)
    requires out.Valid() && out.entries == best0
    requires Within(best0, allowed) && KeysWithin(allowed, reachable) && Queued(before, best0, next0)
    requires Leads(current, ttl, aliases, allowed)
    modifies out
    ensures out.Valid() && out.entries == best
    ensures Within(best, allowed) && Grows(best0, best) && Queued(before, best, next)
    ensures UnderCaps(reachable) ==> Relaxed(best, current, ttl, aliases)
  {
    best, next := best0, next0;
    ghost var fits := UnderCaps(reachable);
    for i := 0 to |aliases|
      invariant out.Valid() && out.entries == best
      invariant Within(best, allowed) && Grows(best0, best) && Queued(before, best, next)
      invariant fits ==> Relaxed(best, current, ttl, aliases[..i])
    {
      var edge := aliases[i];
      ghost var was := best;
      best, next := Improve(out, Key(current.address, edge.alias), Min(ttl, edge.ttl), best, next, before, allowed, reachable);
      if fits { OneMoreRelaxed(was, best, current, ttl, aliases, i); }
    }
    assert aliases[..|aliases|] == aliases;
  }

  ghost predicate AllRelaxed(best: map<Key, Ttl>, done: map<Key, Ttl>, reverse: map<string, seq<Link>>) {
    forall key :: key in done ==> Relaxed(best, key, done[key], Aliases(reverse, key.domain))
  }

  lemma RelaxedGrows(was: map<Key, Ttl>, best: map<Key, Ttl>, done: map<Key, Ttl>, reverse: map<string, seq<Link>>)
    requires AllRelaxed(was, done, reverse) && Grows(was, best)
    ensures AllRelaxed(best, done, reverse)
  {
    forall key | key in done ensures Relaxed(best, key, done[key], Aliases(reverse, key.domain)) {
      assert Relaxed(was, key, done[key], Aliases(reverse, key.domain));
    }
  }

  ghost predicate RelaxedExcept(best: map<Key, Ttl>, frontier: map<Key, Ttl>, todo: set<Key>, reverse: map<string, seq<Link>>) {
    forall key :: key in frontier && key !in todo ==> Relaxed(best, key, frontier[key], Aliases(reverse, key.domain))
  }

  lemma OneMoreDone(was: map<Key, Ttl>, best: map<Key, Ttl>, frontier: map<Key, Ttl>, todo: set<Key>, key: Key, reverse: map<string, seq<Link>>)
    requires RelaxedExcept(was, frontier, todo, reverse) && Grows(was, best) && key in frontier
    requires Relaxed(best, key, frontier[key], Aliases(reverse, key.domain))
    ensures RelaxedExcept(best, frontier, todo - {key}, reverse)
  {
    forall other | other in frontier && other !in todo - {key}
      ensures Relaxed(best, other, frontier[other], Aliases(reverse, other.domain))
    {
      if other != key { assert Relaxed(was, other, frontier[other], Aliases(reverse, other.domain)); }
    }
  }

  ghost predicate AllLead(frontier: map<Key, Ttl>, reverse: map<string, seq<Link>>, allowed: iset<(Key, Ttl)>) {
    forall key :: key in frontier ==> Leads(key, frontier[key], Aliases(reverse, key.domain), allowed)
  }

  /** One level of the search: every entry of the frontier is visited, in any order. */
  method Round(out: ResolvedEntries, frontier: map<Key, Ttl>, reverse: map<string, seq<Link>>, best0: map<Key, Ttl>,
               ghost allowed: iset<(Key, Ttl)>, ghost reachable: set<Key>)
    returns (best: map<Key, Ttl>, next: map<Key, Ttl>)
    requires out.Valid() && out.entries == best0
    requires Within(best0, allowed) && KeysWithin(allowed, reachable) && AllLead(frontier, reverse, allowed)
    modifies out
    ensures out.Valid() && out.entries == best
    ensures Within(best, allowed) && Grows(best0, best) && Queued(best0, best, next)
    ensures UnderCaps(reachable) ==> AllRelaxed(best, frontier, reverse)
  {
    best, next := best0, map[];
    var todo := frontier.Keys;
    ghost var fits := UnderCaps(reachable);
    while todo != {}
      invariant out.Valid() && out.entries == best && todo <= frontier.Keys
      invariant Within(best, allowed) && Grows(best0, best) && Queued(best0, best, next)
      invariant fits ==> RelaxedExcept(best, frontier, todo, reverse)
      decreases todo
    {
      var current :| current in todo;
      ghost var was := best;
      best, next := Visit(out, current, frontier[current], Aliases(reverse, current.domain), best, next, best0, allowed, reachable);
      if fits { OneMoreDone(was, best, frontier, todo, current, reverse); }
      todo := todo - {current};
    }
  }

  // ----- The search -----

  ghost function Chains(direct: map<Key, Ttl>, links: set<Link>, depth: nat): iset<(Key, Ttl)> {
    iset key: Key, ttl: Ttl | Witnessed(direct, links, key, ttl, depth) :: (key, ttl)
  }

  lemma ChainsReach(direct: map<Key, Ttl>, links: set<Link>, depth: nat, limit: nat)
    requires depth <= limit
    ensures KeysWithin(Chains(direct, links, depth), Reach(direct, links, limit))
  {
    forall key, ttl | (key, ttl) in Chains(direct, links, depth) ensures key in Reach(direct, links, limit) {
      Longer(direct, links, key, ttl, depth, limit);
      WitnessedReaches(direct, links, key, ttl, limit);
    }
  }

  lemma FrontierLeads(direct: map<Key, Ttl>, reverse: map<string, seq<Link>>, frontier: map<Key, Ttl>, depth: nat)
    requires Indexed(reverse) && Sound(direct, Kept(reverse), frontier, depth)
    ensures AllLead(frontier, reverse, Chains(direct, Kept(reverse), depth + 1))
  {
    var links := Kept(reverse);
    forall key, i | key in frontier && 0 <= i < |Aliases(reverse, key.domain)|
      ensures var link := Aliases(reverse, key.domain)[i];
        (Key(key.address, link.alias), Min(frontier[key], link.ttl)) in Chains(direct, links, depth + 1)
    {
      var link := Aliases(reverse, key.domain)[i];
      assert link in reverse[key.domain] && link in links;
      Extend(direct, links, key, frontier[key], link, depth);
    }
  }

  /** Chains one edge longer are covered once no entry can improve an alias any more. */
  lemma CompleteStep(direct: map<Key, Ttl>, reverse: map<string, seq<Link>>, before: map<Key, Ttl>, best: map<Key, Ttl>, depth: nat)
    requires Indexed(reverse) && Complete(direct, Kept(reverse), before, depth) && Grows(before, best)
    requires AllRelaxed(best, before, reverse)
    ensures Complete(direct, Kept(reverse), best, depth + 1)
  {
    var links := Kept(reverse);
    forall c | ValidChain(direct, links, c) && Length(c) <= depth + 1
      ensures End(c) in best && Worth(direct, links, c) <= best[End(c)]
    {
      if c.Via? {
        var key, link := End(c.shorter), c.link;
        assert key in before && Worth(direct, links, c.shorter) <= before[key];
        var i :| 0 <= i < |Aliases(reverse, key.domain)| && Aliases(reverse, key.domain)[i] == link;
        assert Relaxed(best, key, before[key], Aliases(reverse, key.domain));
      }
    }
  }

  /** Where nothing is left to improve, the entries cover chains of any length. */
  lemma {:induction false} CompleteForever(direct: map<Key, Ttl>, reverse: map<string, seq<Link>>, best: map<Key, Ttl>, depth: nat, longer: nat)
    requires Indexed(reverse) && Complete(direct, Kept(reverse), best, depth) && AllRelaxed(best, best, reverse) && depth <= longer
    ensures Complete(direct, Kept(reverse), best, longer)
    decreases longer
  {
    if depth < longer {
      CompleteForever(direct, reverse, best, depth, longer - 1);
      CompleteStep(direct, reverse, best, best, longer - 1);
    }
  }

  /** What is settled stays settled, what was queued is now settled, and what changed is queued. */
  lemma SettledStep(before: map<Key, Ttl>, best: map<Key, Ttl>, settled: map<Key, Ttl>, frontier: map<Key, Ttl>,
                    reverse: map<string, seq<Link>>)
    requires AllRelaxed(before, settled, reverse) && AllRelaxed(best, frontier, reverse) && Grows(before, best)
    requires forall key :: key in before ==> (key in settled && settled[key] == before[key]) || (key in frontier && frontier[key] == before[key])
    ensures AllRelaxed(best, before, reverse)
  {
    RelaxedGrows(before, best, settled, reverse);
  }

  /** The address records, in any order, as far as the caps allow. */
  method RecordDirect(out: ResolvedEntries, direct: map<Key, Ttl>, ghost reachable: set<Key>) returns (recorded: map<Key, Ttl>)
    requires out.Valid() && out.entries == map[] && direct.Keys <= reachable
    modifies out
    ensures out.Valid() && out.entries == recorded
    ensures forall key :: key in recorded ==> key in direct && recorded[key] == direct[key]
    ensures UnderCaps(reachable) ==> recorded == direct
  {
    recorded := map[];
    var todo := direct.Keys;
    ghost var fits := UnderCaps(reachable);
    while todo != {}
      invariant out.Valid() && out.entries == recorded && todo <= direct.Keys
      invariant forall key :: key in recorded ==> key in direct && recorded[key] == direct[key] && key !in todo
      invariant fits ==> forall key :: key in direct && key !in todo ==> key in recorded
      decreases todo
    {
      var key :| key in todo;
      if fits { Room(reachable, recorded, key); }
      var kept := out.RecordResolved(key, direct[key]);
      if kept { recorded := recorded[key := direct[key]]; }
      todo := todo - {key};
    }
  }

  lemma DirectSound(direct: map<Key, Ttl>, links: set<Link>, recorded: map<Key, Ttl>)
    requires forall key :: key in recorded ==> key in direct && recorded[key] == direct[key]
    ensures Sound(direct, links, recorded, 0)
    ensures recorded == direct ==> Complete(direct, links, recorded, 0)
  {
    forall key | key in recorded ensures Witnessed(direct, links, key, recorded[key], 0) {
      assert Witness(direct, links, Record(key), key, recorded[key], 0);
    }
  }

  lemma DirectReaches(direct: map<Key, Ttl>, links: set<Link>, depth: nat)
    ensures direct.Keys <= Reach(direct, links, depth)
    decreases depth
  {
    if depth > 0 { DirectReaches(direct, links, depth - 1); }
  }

  lemma CompleteReaches(direct: map<Key, Ttl>, links: set<Link>, entries: map<Key, Ttl>, depth: nat)
    requires Complete(direct, links, entries, depth)
    ensures Reach(direct, links, depth) <= entries.Keys
  {
    ReachHasChains(direct, links, depth);
    forall key | key in Reach(direct, links, depth) ensures key in entries {
      assert HasChain(direct, links, key, depth);
      var c :| ChainTo(direct, links, c, key, depth);
      assert End(c) in entries;
    }
  }

  /** Everything the search keeps between two levels. */
  ghost predicate Searched(direct: map<Key, Ttl>, reverse: map<string, seq<Link>>, best: map<Key, Ttl>, frontier: map<Key, Ttl>,
                           settled: map<Key, Ttl>, depth: nat) {
    && Complete(direct, Kept(reverse), best, depth)
    && AllRelaxed(best, settled, reverse)
    && forall key :: key in best ==> (key in settled && settled[key] == best[key]) || (key in frontier && frontier[key] == best[key])
  }

  lemma SearchedStep(direct: map<Key, Ttl>, reverse: map<string, seq<Link>>, before: map<Key, Ttl>, frontier: map<Key, Ttl>,
                     settled: map<Key, Ttl>, best: map<Key, Ttl>, next: map<Key, Ttl>, depth: nat)
    requires Indexed(reverse) && Searched(direct, reverse, before, frontier, settled, depth)
    requires Grows(before, best) && Queued(before, best, next) && AllRelaxed(best, frontier, reverse)
    ensures Searched(direct, reverse, best, next, before, depth + 1)
  {
    SettledStep(before, best, settled, frontier, reverse);
    CompleteStep(direct, reverse, before, best, depth);
  }

  lemma SearchedToTheEnd(direct: map<Key, Ttl>, reverse: map<string, seq<Link>>, best: map<Key, Ttl>, frontier: map<Key, Ttl>,
                         settled: map<Key, Ttl>, depth: nat, limit: nat)
    requires Indexed(reverse) && Searched(direct, reverse, best, frontier, settled, depth)
    requires depth <= limit && (depth == limit || frontier == map[])
    ensures Complete(direct, Kept(reverse), best, limit)
  {
    if frontier == map[] {
      forall key | key in best ensures Relaxed(best, key, best[key], Aliases(reverse, key.domain)) {
        assert Relaxed(best, key, settled[key], Aliases(reverse, key.domain));
      }
      CompleteForever(direct, reverse, best, depth, limit);
    }
  }

  /** One level, with what the search keeps. */
  method Level(out: ResolvedEntries, direct: map<Key, Ttl>, reverse: map<string, seq<Link>>, best0: map<Key, Ttl>, frontier: map<Key, Ttl>,
               ghost depth: nat, ghost settled: map<Key, Ttl>, ghost fits: bool, ghost limit: nat)
    returns (best: map<Key, Ttl>, next: map<Key, Ttl>)
    requires out.Valid() && out.entries == best0 && Indexed(reverse) && depth < limit
    requires Sound(direct, Kept(reverse), best0, depth) && Sound(direct, Kept(reverse), frontier, depth)
    requires fits == Fits(direct, Kept(reverse), limit) && (fits ==> Searched(direct, reverse, best0, frontier, settled, depth))
    modifies out
    ensures out.Valid() && out.entries == best
    ensures Sound(direct, Kept(reverse), best, depth + 1) && Sound(direct, Kept(reverse), next, depth + 1)
    ensures fits ==> Searched(direct, reverse, best, next, best0, depth + 1)
  {
    ghost var links := Kept(reverse);
    ghost var allowed := Chains(direct, links, depth + 1);
    SoundLonger(direct, links, best0, depth, depth + 1);
    ChainsReach(direct, links, depth + 1, limit);
    FrontierLeads(direct, reverse, frontier, depth);
    best, next := Round(out, frontier, reverse, best0, allowed, Reach(direct, links, limit));
    WithinIsSound(direct, links, best, next, depth + 1);
    if fits { SearchedStep(direct, reverse, best0, frontier, settled, best, next, depth); }
  }

  lemma WithinIsSound(direct: map<Key, Ttl>, links: set<Link>, best: map<Key, Ttl>, next: map<Key, Ttl>, depth: nat)
    requires Within(best, Chains(direct, links, depth)) && forall key :: key in next ==> key in best && next[key] == best[key]
    ensures Sound(direct, links, best, depth) && Sound(direct, links, next, depth)
  {
    forall key | key in best ensures Witnessed(direct, links, key, best[key], depth) {
      assert (key, best[key]) in Chains(direct, links, depth);
    }
  }

  /**
   Every entry is worth a chain of at most `limit` edges and both caps hold. All
   reachable names are present exactly when they fit, and then each entry is
   worth the best of its chains, cycles included.
   */
  method Resolve(direct: map<Key, Ttl>, reverse: map<string, seq<Link>>, limit: nat) returns (entries: map<Key, Ttl>)
    requires Indexed(reverse)
    ensures Sound(direct, Kept(reverse), entries, limit) && UnderCaps(entries.Keys)
    ensures Fits(direct, Kept(reverse), limit) <==> entries.Keys == Reach(direct, Kept(reverse), limit)
    ensures Fits(direct, Kept(reverse), limit) ==> Complete(direct, Kept(reverse), entries, limit)
  {
    ghost var links := Kept(reverse);
    ghost var fits := Fits(direct, links, limit);
    var out := new ResolvedEntries();
    DirectReaches(direct, links, limit);
    var best := RecordDirect(out, direct, Reach(direct, links, limit));
    DirectSound(direct, links, best);
    var frontier, depth := best, 0;
    ghost var settled: map<Key, Ttl> := map[];
    while depth < limit && frontier != map[]
      invariant depth <= limit && fresh(out) && out.Valid() && out.entries == best
      invariant Sound(direct, links, best, depth) && Sound(direct, links, frontier, depth)
      invariant fits ==> Searched(direct, reverse, best, frontier, settled, depth)
      decreases limit - depth
    {
      var raised, next := Level(out, direct, reverse, best, frontier, depth, settled, fits, limit);
      settled := best;
      best, frontier, depth := raised, next, depth + 1;
    }
    if fits { SearchedToTheEnd(direct, reverse, best, frontier, settled, depth, limit); }
    Conclude(direct, links, best, depth, limit, fits);
    entries := best;
  }

  lemma Conclude(direct: map<Key, Ttl>, links: set<Link>, best: map<Key, Ttl>, depth: nat, limit: nat, fits: bool)
    requires Sound(direct, links, best, depth) && depth <= limit && fits == Fits(direct, links, limit)
    requires |best| <= MAX_ENTRIES && forall address :: |Of(address, best.Keys)| <= MAX_DOMAINS_PER_ADDRESS
    requires fits ==> Complete(direct, links, best, limit)
    ensures Sound(direct, links, best, limit) && UnderCaps(best.Keys)
    ensures fits <==> best.Keys == Reach(direct, links, limit)
  {
    assert |best| == |best.Keys|;
    SoundLonger(direct, links, best, depth, limit);
    SoundReaches(direct, links, best, limit);
    if fits { CompleteReaches(direct, links, best, limit); }
  }

  // ----- From the rows to the entries -----

  /** No name has more aliases than the reverse index keeps. */
  ghost predicate NarrowFans(links: set<Link>) {
    forall canonical :: |FanOf(links, canonical)| <= MAX_ALIASES_PER_TARGET
  }

  function FanOf(links: set<Link>, canonical: string): set<Link> { set link | link in links && link.canonical == canonical }

  /** Each entry is worth a chain of these links, and both caps hold; all names the links reach are present exactly when
      they fit under the caps, and then each is worth the best of its chains. */
  ghost predicate BestChains(direct: map<Key, Ttl>, links: set<Link>, entries: map<Key, Ttl>, limit: nat) {
    && Sound(direct, links, entries, limit)
    && UnderCaps(entries.Keys)
    && (Fits(direct, links, limit) <==> entries.Keys == Reach(direct, links, limit))
    && (Fits(direct, links, limit) ==> Complete(direct, links, entries, limit))
  }

  lemma {:induction false} ChainWithMoreLinks(direct: map<Key, Ttl>, kept: set<Link>, links: set<Link>, c: Chain)
    requires ValidChain(direct, kept, c) && kept <= links
    ensures ValidChain(direct, links, c) && Worth(direct, links, c) == Worth(direct, kept, c)
    decreases c
  {
    if c.Via? { ChainWithMoreLinks(direct, kept, links, c.shorter); }
  }

  lemma SoundWithMoreLinks(direct: map<Key, Ttl>, kept: set<Link>, links: set<Link>, entries: map<Key, Ttl>, limit: nat)
    requires Sound(direct, kept, entries, limit) && kept <= links
    ensures Sound(direct, links, entries, limit)
  {
    forall key | key in entries ensures Witnessed(direct, links, key, entries[key], limit) {
      var c :| Witness(direct, kept, c, key, entries[key], limit);
      ChainWithMoreLinks(direct, kept, links, c);
      assert Witness(direct, links, c, key, entries[key], limit);
    }
  }

  /** The edges, each once, in whatever order they were sorted into. */
  ghost predicate Sorted(ordered: seq<Link>, edges: map<(string, string), Ttl>) {
    Once(ordered) && forall link :: link in ordered <==> link in LinksOf(edges)
  }

  /** The index keeps the first aliases of every name, and all of them where no name has more than it can keep. */
  lemma KeptLinks(ordered: seq<Link>, links: set<Link>, reverse: map<string, seq<Link>>)
    requires Once(ordered) && Indexes(reverse, ordered) && Indexed(reverse) && forall link :: link in ordered <==> link in links
    ensures Kept(reverse) == FirstAliases(ordered) <= links && (NarrowFans(links) ==> Kept(reverse) == links)
  {
    forall link ensures link in Kept(reverse) <==> link in FirstAliases(ordered) {
      assert Aliases(reverse, link.canonical) == AliasesOf(ordered, link.canonical);
      AliasesWithinCap(ordered, link.canonical);
    }
    if NarrowFans(links) {
      forall link | link in links ensures link in Kept(reverse) {
        assert Fan(ordered, link.canonical) == FanOf(links, link.canonical);
        AllAliasesKept(ordered, link.canonical);
        assert link in Aliases(reverse, link.canonical);
      }
    }
  }

  method ReadRows(rows: seq<Row>, requested: set<string>) returns (direct: map<Key, Ttl>, edges: map<(string, string), Ttl>)
    ensures direct == DirectOf(Scanned(rows), requested) && edges == EdgesOf(Scanned(rows))
  {
    direct, edges := map[], map[];
    var rowsToScan := Min(|rows|, MAX_ROWS_SCANNED);
    for i := 0 to rowsToScan
      invariant direct == DirectOf(rows[..i], requested) && edges == EdgesOf(rows[..i])
    {
      assert rows[..i + 1][..i] == rows[..i];
      match rows[i]
      case Unusable =>
      case AddressRow(key, ttl) =>
        if key.address in requested && (key !in direct || ttl > direct[key]) { direct := direct[key := ttl]; }
      case AliasRow(alias, canonical, ttl) =>
        var pair := (canonical, alias);
        if canonical != alias && (pair !in edges || ttl > edges[pair]) { edges := edges[pair := ttl]; }
    }
  }

  /** The edges of the rows in the order the sort gives them. */
  function Ordered(rows: seq<Row>, sort: map<(string, string), Ttl> -> seq<Link>): seq<Link> { sort(EdgesOf(Scanned(rows))) }

  /**
   The entries of the decoded rows, the comparison of names being the
   locale's: each is worth a real chain of cached records, and the entries are
   the best chains of the first 64 aliases of every name - of all aliases,
   where no name has more.
   */
  method ParseWindowsDnsCacheEntries(rows: seq<Row>, requested: set<string>, limit: nat, sort: map<(string, string), Ttl> -> seq<Link>)
    returns (entries: map<Key, Ttl>)
    requires Sorted(Ordered(rows, sort), EdgesOf(Scanned(rows)))
    ensures BestChains(DirectOf(Scanned(rows), requested), FirstAliases(Ordered(rows, sort)), entries, limit)
    ensures Sound(DirectOf(Scanned(rows), requested), LinksOf(EdgesOf(Scanned(rows))), entries, limit)
    ensures NarrowFans(LinksOf(EdgesOf(Scanned(rows)))) ==> FirstAliases(Ordered(rows, sort)) == LinksOf(EdgesOf(Scanned(rows)))
  {
    var direct, edges := ReadRows(rows, requested);
    var ordered := sort(edges);
    var reverse := BuildReverseCnameEdges(ordered);
    KeptLinks(ordered, LinksOf(edges), reverse);
    entries := Resolve(direct, reverse, limit);
    SoundWithMoreLinks(direct, Kept(reverse), LinksOf(edges), entries, limit);
  }

  /** Eight edges, as the source has it. */
  method ListEntries(rows: seq<Row>, requested: set<string>, sort: map<(string, string), Ttl> -> seq<Link>) returns (entries: map<Key, Ttl>)
    requires Sorted(Ordered(rows, sort), EdgesOf(Scanned(rows)))
    ensures BestChains(DirectOf(Scanned(rows), requested), FirstAliases(Ordered(rows, sort)), entries, MAX_CNAME_DEPTH)
    ensures NarrowFans(LinksOf(EdgesOf(Scanned(rows)))) ==>
      BestChains(DirectOf(Scanned(rows), requested), LinksOf(EdgesOf(Scanned(rows))), entries, MAX_CNAME_DEPTH)
  {
    entries := ParseWindowsDnsCacheEntries(rows, requested, MAX_CNAME_DEPTH, sort);
  }

  /** `ttl` is the most any chain to `key` is worth. */
  ghost predicate Best(direct: map<Key, Ttl>, links: set<Link>, key: Key, ttl: Ttl, limit: nat) {
    && Witnessed(direct, links, key, ttl, limit)
    && forall c :: ValidChain(direct, links, c) && Length(c) <= limit && End(c) == key ==> Worth(direct, links, c) <= ttl
  }

  /** Where everything fits, an entry's TTL is the most any of its chains is worth, and nothing else. */
  lemma EntriesAreBestChains(direct: map<Key, Ttl>, links: set<Link>, entries: map<Key, Ttl>, limit: nat, key: Key, ttl: Ttl)
    requires BestChains(direct, links, entries, limit) && Fits(direct, links, limit)
    ensures key in entries && entries[key] == ttl <==> Best(direct, links, key, ttl, limit)
  {
    if Best(direct, links, key, ttl, limit) {
      var c :| Witness(direct, links, c, key, ttl, limit);
      assert key in entries && ttl <= entries[key];
      var best :| Witness(direct, links, best, key, entries[key], limit);
      assert Worth(direct, links, best) <= ttl;
    }
  }
}
