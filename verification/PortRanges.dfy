/**
 Hysteria 2 port lists: reading, merging and writing them. Merging is a normal
 form: it depends on the set of ports only, not on how the list was written.
 */
module PortRanges {
  import opened Prelude
  import opened Text

  const MAX_HOP_RANGES := 64

  datatype PortRange = PortRange(from: nat, to: nat)

  /** The source answers every bad list with one error. */
  datatype PortList = Ranges(ranges: seq<PortRange>) | BadPorts

  predicate InOrder(ranges: seq<PortRange>) { forall r :: r in ranges ==> r.from <= r.to }

  ghost predicate Covers(ranges: seq<PortRange>, port: int) { exists r :: r in ranges && r.from <= port <= r.to }

  /** Ascending, with at least one port missing between neighbours. */
  predicate Normal(ranges: seq<PortRange>) {
    InOrder(ranges) && forall i, j :: 0 <= i < j < |ranges| ==> ranges[i].to + 1 < ranges[j].from
  }

  // ----- Merging -----

  predicate Ascending(ranges: seq<PortRange>) { forall i, j :: 0 <= i < j < |ranges| ==> ranges[i].from <= ranges[j].from }

  /** After every range that does not start later: the sort is stable. */
  function Insert(sorted: seq<PortRange>, range: PortRange): seq<PortRange> {
    if sorted == [] || sorted[|sorted| - 1].from <= range.from then sorted + [range]
    else Insert(sorted[..|sorted| - 1], range) + [sorted[|sorted| - 1]]
  }

  /** `[...ranges].sort((left, right) => left.from - right.from)` */
  function Sorted(ranges: seq<PortRange>): seq<PortRange> {
    if ranges == [] then [] else Insert(Sorted(ranges[..|ranges| - 1]), ranges[|ranges| - 1])
  }

  lemma InLast<T>(s: seq<T>, x: T)
    requires s != []
    ensures x in s <==> x in s[..|s| - 1] || x == s[|s| - 1]
  {
    assert s == s[..|s| - 1] + [s[|s| - 1]];
  }

  lemma {:induction false} InsertKeeps(sorted: seq<PortRange>, range: PortRange, x: PortRange)
    ensures x in Insert(sorted, range) <==> x in sorted || x == range
    ensures multiset(Insert(sorted, range)) == multiset(sorted) + multiset{range}
  {
    if sorted != [] && sorted[|sorted| - 1].from > range.from {
      InsertKeeps(sorted[..|sorted| - 1], range, x);
      InLast(sorted, x);
      assert sorted == sorted[..|sorted| - 1] + [sorted[|sorted| - 1]];
    }
  }

  lemma {:induction false} InsertAscends(sorted: seq<PortRange>, range: PortRange)
    requires Ascending(sorted)
    ensures Ascending(Insert(sorted, range))
  {
    if sorted != [] && sorted[|sorted| - 1].from > range.from {
      var init, last := sorted[..|sorted| - 1], sorted[|sorted| - 1];
      InsertAscends(init, range);
      var inner := Insert(init, range);
      forall i | 0 <= i < |inner| ensures inner[i].from <= last.from {
        InsertKeeps(init, range, inner[i]);
        assert inner[i] in inner;
      }
    }
  }

  /** The sorted copy has the same ranges, in ascending order of where they start. */
  lemma {:induction false} SortedIsAscending(ranges: seq<PortRange>, x: PortRange)
    ensures Ascending(Sorted(ranges)) && (x in Sorted(ranges) <==> x in ranges) && multiset(Sorted(ranges)) == multiset(ranges)
  {
    if ranges != [] {
      SortedIsAscending(ranges[..|ranges| - 1], x);
      InsertAscends(Sorted(ranges[..|ranges| - 1]), ranges[|ranges| - 1]);
      InsertKeeps(Sorted(ranges[..|ranges| - 1]), ranges[|ranges| - 1], x);
      InLast(ranges, x);
      assert ranges == ranges[..|ranges| - 1] + [ranges[|ranges| - 1]];
    }
  }

  /** Joins a range to the last one if they overlap or touch. */
  function Absorb(merged: seq<PortRange>, range: PortRange): seq<PortRange> {
    if merged == [] then [range]
    else
      var last := merged[|merged| - 1];
      if range.from <= last.to + 1 then merged[..|merged| - 1] + [last.(to := Max(last.to, range.to))] else merged + [range]
  }

  function AbsorbAll(ranges: seq<PortRange>): seq<PortRange> {
    if ranges == [] then [] else Absorb(AbsorbAll(ranges[..|ranges| - 1]), ranges[|ranges| - 1])
  }

  /** The merged list, whatever its length. */
  function Merged(ranges: seq<PortRange>): seq<PortRange> { AbsorbAll(Sorted(ranges)) }

  lemma ReplaceLast(s: seq<PortRange>, x: PortRange)
    requires s != []
    ensures s[|s| - 1 := x] == s[..|s| - 1] + [x]
  {}

  method MergePortRanges(ranges: seq<PortRange>) returns (r: PortList)
    requires InOrder(ranges)
    ensures r == if |Merged(ranges)| > MAX_HOP_RANGES then BadPorts else Ranges(Merged(ranges))
  {
    var sorted := Sorted(ranges);
    var merged: seq<PortRange> := [];
    for i := 0 to |sorted|
      invariant merged == AbsorbAll(sorted[..i])
    {
      var range := sorted[i];
      assert sorted[..i + 1][..i] == sorted[..i];
      if |merged| > 0 && range.from <= merged[|merged| - 1].to + 1 {
        var last := merged[|merged| - 1];
        ReplaceLast(merged, last.(to := Max(last.to, range.to)));
        merged := merged[|merged| - 1 := last.(to := Max(last.to, range.to))];
      } else {
        merged := merged + [range];
      }
    }
    assert sorted[..|sorted|] == sorted;
    if |merged| > MAX_HOP_RANGES { return BadPorts; }
    return Ranges(merged);
  }

  /** One join or append keeps the normal form and adds exactly the range's ports. */
  lemma AbsorbKeeps(merged: seq<PortRange>, range: PortRange, port: int)
    requires Normal(merged) && range.from <= range.to
    requires merged != [] ==> merged[|merged| - 1].from <= range.from
    ensures var r := Absorb(merged, range); Normal(r) && r != [] && r[|r| - 1].from <= range.from
    ensures Covers(Absorb(merged, range), port) <==> Covers(merged, port) || range.from <= port <= range.to
  {
    var r := Absorb(merged, range);
    if merged != [] {
      var init, last := merged[..|merged| - 1], merged[|merged| - 1];
      assert merged == init + [last];
      if range.from <= last.to + 1 {
        var joined := last.(to := Max(last.to, range.to));
        assert r == init + [joined];
        assert forall x :: x in r <==> x in init || x == joined;
        assert forall x :: x in merged <==> x in init || x == last;
        CoversLast(init, joined, port);
        CoversLast(init, last, port);
      } else {
        CoversLast(merged, range, port);
      }
    } else {
      assert range in r;
    }
  }

  lemma CoversLast(init: seq<PortRange>, last: PortRange, port: int)
    ensures Covers(init + [last], port) <==> Covers(init, port) || last.from <= port <= last.to
  {
    assert last in init + [last];
    if Covers(init, port) {
      var r :| r in init && r.from <= port <= r.to;
      assert r in init + [last];
    }
  }

  lemma {:induction false} AbsorbAllIsNormal(ranges: seq<PortRange>)
    requires Ascending(ranges) && InOrder(ranges)
    ensures var r := AbsorbAll(ranges); Normal(r) && (r == [] <==> ranges == [])
    ensures var r := AbsorbAll(ranges); r != [] ==> r[|r| - 1].from <= ranges[|ranges| - 1].from
  {
    if ranges != [] {
      var init, last := ranges[..|ranges| - 1], ranges[|ranges| - 1];
      assert forall r :: r in init ==> r in ranges;
      AbsorbAllIsNormal(init);
      assert init != [] ==> ranges[|init| - 1].from <= last.from;
      assert last in ranges;
      AbsorbKeeps(AbsorbAll(init), last, 0);
    }
  }

  lemma CoversInit(ranges: seq<PortRange>, port: int)
    requires ranges != []
    ensures var last := ranges[|ranges| - 1];
      Covers(ranges, port) <==> Covers(ranges[..|ranges| - 1], port) || last.from <= port <= last.to
  {
    CoversLast(ranges[..|ranges| - 1], ranges[|ranges| - 1], port);
    assert ranges == ranges[..|ranges| - 1] + [ranges[|ranges| - 1]];
  }

  lemma InitIsGood(ranges: seq<PortRange>)
    requires Ascending(ranges) && InOrder(ranges) && ranges != []
    ensures var init, last := ranges[..|ranges| - 1], ranges[|ranges| - 1];
      && Ascending(init) && InOrder(init) && last.from <= last.to
      && Normal(AbsorbAll(init))
      && (AbsorbAll(init) != [] ==> AbsorbAll(init)[|AbsorbAll(init)| - 1].from <= last.from)
  {
    var init, last := ranges[..|ranges| - 1], ranges[|ranges| - 1];
    assert last in ranges;
    assert forall r :: r in init ==> r in ranges;
    AbsorbAllIsNormal(init);
    assert init != [] ==> ranges[|init| - 1].from <= last.from;
  }

  lemma {:induction false} AbsorbAllCovers(ranges: seq<PortRange>, port: int)
    requires Ascending(ranges) && InOrder(ranges)
    ensures Covers(AbsorbAll(ranges), port) <==> Covers(ranges, port)
  {
    if ranges != [] {
      InitIsGood(ranges);
      AbsorbAllCovers(ranges[..|ranges| - 1], port);
      AbsorbKeeps(AbsorbAll(ranges[..|ranges| - 1]), ranges[|ranges| - 1], port);
      CoversInit(ranges, port);
    }
  }

  /** Merging loses no port, adds none, and lists none twice. */
  lemma MergedCoversTheSame(ranges: seq<PortRange>, port: int)
    requires InOrder(ranges)
    ensures Normal(Merged(ranges))
    ensures Covers(Merged(ranges), port) <==> Covers(ranges, port)
  {
    var sorted := Sorted(ranges);
    SortedIsAscending(ranges, PortRange(0, 0));
    forall x ensures x in sorted <==> x in ranges { SortedIsAscending(ranges, x); }
    AbsorbAllIsNormal(sorted);
    AbsorbAllCovers(sorted, port);
  }

  lemma FirstIsLeast(ranges: seq<PortRange>, port: int)
    requires Normal(ranges) && ranges != [] && Covers(ranges, port)
    ensures ranges[0].from <= port
  {
    var r :| r in ranges && r.from <= port <= r.to;
    var i :| 0 <= i < |ranges| && ranges[i] == r;
    assert ranges[0] in ranges;
  }

  lemma WhichRange(ranges: seq<PortRange>, port: int) returns (i: nat)
    requires Covers(ranges, port)
    ensures i < |ranges| && ranges[i].from <= port <= ranges[i].to
  {
    var r :| r in ranges && r.from <= port <= r.to;
    i :| 0 <= i < |ranges| && ranges[i] == r;
  }

  lemma CoveredBy(ranges: seq<PortRange>, i: nat, port: int)
    requires i < |ranges| && ranges[i].from <= port <= ranges[i].to
    ensures Covers(ranges, port)
  {
    assert ranges[i] in ranges;
  }

  lemma RestIsNormal(ranges: seq<PortRange>)
    requires Normal(ranges) && ranges != []
    ensures Normal(ranges[1..]) && forall r :: r in ranges[1..] ==> r.from > ranges[0].to + 1
  {
    var rest := ranges[1..];
    assert forall i :: 0 <= i < |rest| ==> rest[i] == ranges[i + 1];
    assert forall r :: r in rest ==> r in ranges;
  }

  /** The ports after the first range are those of the others; the one right after it is missing. */
  lemma AfterFirst(ranges: seq<PortRange>, port: int)
    requires Normal(ranges) && ranges != []
    ensures Normal(ranges[1..])
    ensures Covers(ranges[1..], port) <==> Covers(ranges, port) && port > ranges[0].to + 1
    ensures Covers(ranges, port) && !Covers(ranges[1..], port) ==> ranges[0].from <= port <= ranges[0].to
  {
    var rest := ranges[1..];
    RestIsNormal(ranges);
    if Covers(ranges, port) {
      var i := WhichRange(ranges, port);
      if i > 0 { CoveredBy(rest, i - 1, port); }
    }
    if Covers(rest, port) {
      var i := WhichRange(rest, port);
      CoveredBy(ranges, i + 1, port);
    }
  }

  lemma FirstCovers(ranges: seq<PortRange>, port: int)
    requires Normal(ranges) && ranges != [] && ranges[0].from <= port <= ranges[0].to
    ensures Covers(ranges, port)
  {
    assert ranges[0] in ranges;
  }

  /** Two normal forms of the same ports start with the same range. */
  lemma SameFirst(a: seq<PortRange>, b: seq<PortRange>)
    requires Normal(a) && Normal(b) && a != [] && b != []
    requires forall port: int :: Covers(a, port) <==> Covers(b, port)
    ensures a[0] == b[0]
  {
    assert a[0] in a && b[0] in b;
    FirstCovers(a, a[0].from);
    FirstCovers(b, b[0].from);
    FirstIsLeast(b, a[0].from);
    FirstIsLeast(a, b[0].from);
    FirstEndsAtOrAfter(a, b);
    FirstEndsAtOrAfter(b, a);
  }

  lemma FirstEndsAtOrAfter(a: seq<PortRange>, b: seq<PortRange>)
    requires Normal(a) && Normal(b) && a != [] && b != [] && a[0].from == b[0].from
    requires forall port: int :: Covers(a, port) <==> Covers(b, port)
    ensures a[0].to <= b[0].to
  {
    assert a[0] in a && b[0] in b;
    if b[0].to < a[0].to {
      FirstCovers(a, b[0].to + 1);
      AfterFirst(b, b[0].to + 1);
    }
  }

  /** A set of ports has one normal form. */
  lemma {:induction false} NormalFormIsUnique(a: seq<PortRange>, b: seq<PortRange>)
    requires Normal(a) && Normal(b)
    requires forall port: int :: Covers(a, port) <==> Covers(b, port)
    ensures a == b
    decreases |a|
  {
    if a != [] && b != [] {
      SameFirst(a, b);
      forall port: int ensures Covers(a[1..], port) <==> Covers(b[1..], port) {
        AfterFirst(a, port);
        AfterFirst(b, port);
      }
      AfterFirst(a, 0);
      AfterFirst(b, 0);
      NormalFormIsUnique(a[1..], b[1..]);
      assert a == [a[0]] + a[1..] && b == [b[0]] + b[1..];
    } else if a != [] {
      assert a[0] in a;
      FirstCovers(a, a[0].from);
    } else if b != [] {
      assert b[0] in b;
      FirstCovers(b, b[0].from);
    }
  }

  /** Lists of the same ports merge alike, whatever their order, overlaps and repetitions. */
  lemma MergingDependsOnPortsOnly(a: seq<PortRange>, b: seq<PortRange>)
    requires InOrder(a) && InOrder(b)
    ensures (forall port: int :: Covers(a, port) <==> Covers(b, port)) <==> Merged(a) == Merged(b)
  {
    MergedCoversTheSame(a, 0);
    MergedCoversTheSame(b, 0);
    forall port: int ensures Covers(Merged(a), port) <==> Covers(a, port) { MergedCoversTheSame(a, port); }
    forall port: int ensures Covers(Merged(b), port) <==> Covers(b, port) { MergedCoversTheSame(b, port); }
    if forall port: int :: Covers(a, port) <==> Covers(b, port) {
      NormalFormIsUnique(Merged(a), Merged(b));
    }
  }

  /** A merged list is left as it is. */
  lemma MergedIsFixed(ranges: seq<PortRange>)
    requires Normal(ranges)
    ensures Merged(ranges) == ranges
  {
    MergedCoversTheSame(ranges, 0);
    forall port: int ensures Covers(Merged(ranges), port) <==> Covers(ranges, port) { MergedCoversTheSame(ranges, port); }
    NormalFormIsUnique(Merged(ranges), ranges);
  }

  // ----- Several ports -----

  predicate CoversSeveralPorts(ranges: seq<PortRange>)
    requires ranges != []
  {
    |ranges| > 1 || ranges[0].from != ranges[0].to
  }

  /** On a merged list, the length test tells whether there are two different ports. */
  lemma SeveralPorts(ranges: seq<PortRange>)
    requires Normal(ranges) && ranges != []
    ensures CoversSeveralPorts(ranges) <==> exists p: int, q: int :: p != q && Covers(ranges, p) && Covers(ranges, q)
  {
    assert ranges[0] in ranges;
    FirstCovers(ranges, ranges[0].from);
    if |ranges| > 1 {
      assert ranges[1] in ranges;
      assert Covers(ranges, ranges[1].from);
    } else {
      FirstCovers(ranges, ranges[0].to);
    }
  }

  // ----- Writing and reading -----

  function RangeText(range: PortRange): string {
    if range.from == range.to then Decimal(range.from) else Decimal(range.from) + "-" + Decimal(range.to)
  }

  function RangeTexts(ranges: seq<PortRange>): seq<string> {
    seq(|ranges|, i requires 0 <= i < |ranges| => RangeText(ranges[i]))
  }

  function FormatPortList(ranges: seq<PortRange>): string { Join(RangeTexts(ranges), ",") }

  predicate IsPortNumeral(s: string) { AllDigits(s) && |s| <= 5 }

  /** One item: a port, or two with a hyphen between them and spaces around it. */
  function ReadItem(item: string): Option<PortRange> {
    var parts := Split(Trim(item), '-');
    if |parts| > 2 then None
    else
      var left := if |parts| == 1 then parts[0] else TrimEnd(parts[0]);
      var right := if |parts| == 1 then left else TrimStart(parts[1]);
      if !IsPortNumeral(left) || !IsPortNumeral(right) then None
      else
        var from, to := Min(DecimalValue(left), DecimalValue(right)), Max(DecimalValue(left), DecimalValue(right));
        if from < 1 || to > 65535 then None else Some(PortRange(from, to))
  }

  /** One or two ports of one to five digits, blanks around the hyphen and around it all. */
  datatype Item = Item(before: string, left: string, beforeHyphen: string, afterHyphen: string, right: Option<string>, after: string)

  predicate IsItem(i: Item) {
    && IsBlank(i.before) && IsBlank(i.after) && IsBlank(i.beforeHyphen) && IsBlank(i.afterHyphen)
    && IsPortNumeral(i.left) && (i.right.Some? ==> IsPortNumeral(i.right.value))
  }

  function InnerText(i: Item): string {
    if i.right.None? then i.left else i.left + i.beforeHyphen + "-" + i.afterHyphen + i.right.value
  }

  function ItemText(i: Item): string { i.before + InnerText(i) + i.after }

  function First(i: Item): nat
    requires IsItem(i)
  {
    DecimalValue(i.left)
  }

  function Last(i: Item): nat
    requires IsItem(i)
  {
    if i.right.None? then DecimalValue(i.left) else DecimalValue(i.right.value)
  }

  predicate Says(i: Item, item: string, range: PortRange) {
    && IsItem(i) && ItemText(i) == item && 1 <= range.from <= range.to <= 65535
    && {First(i), Last(i)} == {range.from, range.to}
  }

  lemma NumeralEnds(s: string)
    requires IsPortNumeral(s)
    ensures Trimmed(s) && '-' !in s
  {
    assert s[0] in s && s[|s| - 1] in s;
  }

  lemma BlankHasNoHyphen(s: string)
    requires IsBlank(s)
    ensures '-' !in s
  {}

  /** An item that is written so is read so, whichever end comes first. */
  lemma SaidIsRead(i: Item, item: string, range: PortRange)
    requires Says(i, item, range)
    ensures ReadItem(item) == Some(range)
  {
    NumeralEnds(i.left);
    if i.right.None? {
      TrimOf(i.before, i.left, i.after);
      SplitPart(i.left, '-');
    } else {
      HyphenSplits(i);
      TrimOf(i.before, InnerText(i), i.after);
      TrimEndOf(i.left, i.beforeHyphen);
      NumeralEnds(i.right.value);
      TrimStartOf(i.afterHyphen, i.right.value);
    }
  }

  lemma HyphenSplits(i: Item)
    requires IsItem(i) && i.right.Some?
    ensures Trimmed(InnerText(i)) && Split(InnerText(i), '-') == [i.left + i.beforeHyphen, i.afterHyphen + i.right.value]
  {
    var a, b := i.left + i.beforeHyphen, i.afterHyphen + i.right.value;
    NumeralEnds(i.left);
    NumeralEnds(i.right.value);
    BlankHasNoHyphen(i.beforeHyphen);
    BlankHasNoHyphen(i.afterHyphen);
    assert InnerText(i) == a + ['-'] + b;
    SplitFirst(a, b, '-');
    SplitPart(b, '-');
  }

  lemma ReadIsSaid(item: string) returns (i: Item)
    requires ReadItem(item).Some?
    ensures Says(i, item, ReadItem(item).value)
  {
    var before, after := TrimTakes(item);
    var inner := Trim(item);
    var parts := Split(inner, '-');
    JoinSplit(inner, '-');
    if |parts| == 1 {
      i := Item(before, parts[0], "", "", None, after);
    } else {
      var beforeHyphen := TrimEndDrops(parts[0]);
      var afterHyphen := TrimStartDrops(parts[1]);
      i := Item(before, TrimEnd(parts[0]), beforeHyphen, afterHyphen, Some(TrimStart(parts[1])), after);
      assert Join(parts, ['-']) == parts[0] + ['-'] + parts[1] by { assert parts[1..] == [parts[1]]; }
      assert InnerText(i) == inner;
    }
  }

  /** An item is read as a range if and only if it is written as one: one port, or its two ends in either order. */
  lemma ReadItemExactly(item: string, range: PortRange)
    ensures ReadItem(item) == Some(range) <==> exists i :: Says(i, item, range)
  {
    if ReadItem(item) == Some(range) { var i := ReadIsSaid(item); }
    if i :| Says(i, item, range) { SaidIsRead(i, item, range); }
  }

  function ReadItems(items: seq<string>): Option<seq<PortRange>> {
    if items == [] then Some([])
    else
      var before, range := ReadItems(items[..|items| - 1]), ReadItem(items[|items| - 1]);
      if before.None? || range.None? then None else Some(before.value + [range.value])
  }

  function ReadPortList(spec: string): PortList {
    var items := Split(spec, ',');
    if |items| > MAX_HOP_RANGES * 4 then BadPorts
    else
      match ReadItems(items)
      case None => BadPorts
      case Some(ranges) => Ranges(ranges)
  }

  /** A list of at most 256 items is read item by item, in the order written; it is bad if any item is. */
  lemma ReadListExactly(spec: string, ranges: seq<PortRange>)
    ensures var items := Split(spec, ',');
      ReadPortList(spec) == Ranges(ranges) <==>
        |items| <= 256 && |ranges| == |items| && forall i :: 0 <= i < |items| ==> ReadItem(items[i]) == Some(ranges[i])
  {
    ReadItemsExactly(Split(spec, ','), ranges);
  }

  predicate ReadEach(items: seq<string>, ranges: seq<PortRange>) {
    |ranges| == |items| && forall i :: 0 <= i < |items| ==> ReadItem(items[i]) == Some(ranges[i])
  }

  lemma {:induction false} ReadItemsReadEach(items: seq<string>)
    ensures ReadItems(items).Some? ==> ReadEach(items, ReadItems(items).value)
    decreases |items|
  {
    if items != [] && ReadItems(items).Some? {
      var init := items[..|items| - 1];
      ReadItemsReadEach(init);
      forall i | 0 <= i < |items| ensures ReadItem(items[i]) == Some(ReadItems(items).value[i]) {
        if i < |init| { assert items[i] == init[i]; }
      }
    }
  }

  lemma OneMoreItem(items: seq<string>, item: string)
    ensures ReadItems(items + [item]) ==
      if ReadItems(items).None? || ReadItem(item).None? then None else Some(ReadItems(items).value + [ReadItem(item).value])
  {
    assert (items + [item])[..|items|] == items;
  }

  lemma ReadEachInit(items: seq<string>, ranges: seq<PortRange>)
    requires ReadEach(items, ranges) && items != []
    ensures ReadEach(items[..|items| - 1], ranges[..|items| - 1])
    ensures ReadItem(items[|items| - 1]) == Some(ranges[|items| - 1])
  {
    var init := items[..|items| - 1];
    forall i | 0 <= i < |init| ensures ReadItem(init[i]) == Some(ranges[i]) { assert init[i] == items[i]; }
  }

  lemma {:induction false} ReadEachReadsItems(items: seq<string>, ranges: seq<PortRange>)
    requires ReadEach(items, ranges)
    ensures ReadItems(items) == Some(ranges)
    decreases |items|
  {
    if items != [] {
      var init, earlier := items[..|items| - 1], ranges[..|items| - 1];
      ReadEachInit(items, ranges);
      ReadEachReadsItems(init, earlier);
      OneMoreItem(init, items[|items| - 1]);
      assert items == init + [items[|items| - 1]] && ranges == earlier + [ranges[|items| - 1]];
    }
  }

  lemma ReadItemsExactly(items: seq<string>, ranges: seq<PortRange>)
    ensures ReadItems(items) == Some(ranges) <==> ReadEach(items, ranges)
  {
    ReadItemsReadEach(items);
    if ReadEach(items, ranges) { ReadEachReadsItems(items, ranges); }
  }

  predicate InPortRange(ranges: seq<PortRange>) { forall r :: r in ranges ==> 1 <= r.from && r.to <= 65535 }

  /** Whatever is read is in order and made of ports. */
  lemma {:induction false} ReadRangesAreGood(items: seq<string>)
    requires ReadItems(items).Some?
    ensures InOrder(ReadItems(items).value) && InPortRange(ReadItems(items).value) && |ReadItems(items).value| == |items|
  {
    if items != [] { ReadRangesAreGood(items[..|items| - 1]); }
  }

  lemma PortNumeral(port: nat)
    requires port <= 65535
    ensures IsPortNumeral(Decimal(port)) && DecimalValue(Decimal(port)) == port
    ensures forall c :: c in Decimal(port) ==> c != '-' && c != ',' && !IsSpace(c)
  {
    NumeralRoundTrip(port, 10);
    DecimalLength(port);
  }

  lemma DecimalLength(n: nat)
    requires n <= 99999
    ensures |Decimal(n)| <= 5
  {
    assert n / 10 / 10 / 10 / 10 / 10 == 0;
    assert |Numeral(n / 10 / 10 / 10 / 10, 10)| == 1;
    assert |Numeral(n / 10 / 10 / 10, 10)| <= 2;
    assert |Numeral(n / 10 / 10, 10)| <= 3;
    assert |Numeral(n / 10, 10)| <= 4;
  }

  lemma ReadRangeText(range: PortRange)
    requires 1 <= range.from <= range.to <= 65535
    ensures ReadItem(RangeText(range)) == Some(range) && ',' !in RangeText(range)
  {
    var a, b := Decimal(range.from), Decimal(range.to);
    PortNumeral(range.from);
    PortNumeral(range.to);
    TrimNothing(RangeText(range));
    TrimNothing(a);
    TrimNothing(b);
    if range.from == range.to {
      SplitPart(a, '-');
    } else {
      assert RangeText(range) == a + ['-'] + b;
      SplitFirst(a, b, '-');
      SplitPart(b, '-');
      assert a[|a| - 1] in a && b[0] in b;
    }
  }

  lemma {:induction false} ReadRangeTexts(ranges: seq<PortRange>)
    requires InOrder(ranges) && InPortRange(ranges)
    ensures ReadItems(RangeTexts(ranges)) == Some(ranges)
  {
    if ranges != [] {
      var init, last := ranges[..|ranges| - 1], ranges[|ranges| - 1];
      assert ranges == init + [last];
      ReadRangeTexts(init);
      ReadRangeText(last);
      OneMoreItem(RangeTexts(init), RangeText(last));
      assert RangeTexts(ranges) == RangeTexts(init) + [RangeText(last)];
    }
  }

  /** A merged list within the cap is read back from its text, and stays what it is when merged again. */
  lemma ReadFormatted(ranges: seq<PortRange>)
    requires Normal(ranges) && InPortRange(ranges) && 0 < |ranges| <= MAX_HOP_RANGES
    ensures ReadPortList(FormatPortList(ranges)) == Ranges(ranges)
    ensures Merged(ranges) == ranges
  {
    var texts := RangeTexts(ranges);
    forall text | text in texts ensures ',' !in text {
      var i :| 0 <= i < |texts| && texts[i] == text;
      assert ranges[i] in ranges;
      ReadRangeText(ranges[i]);
    }
    SplitJoin(texts, ',');
    ReadRangeTexts(ranges);
    MergedIsFixed(ranges);
  }
}
