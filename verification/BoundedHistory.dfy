/**
 The bounded histories of terminal lines and diagnostics. `Kept` says what a
 history is: the longest suffix under both caps. The loops that trim from
 either end, and the cache of byte totals they keep, are proved against it.
 */
module BoundedHistory {
  import opened Prelude
  import opened Utf8

  // ----- The longest suffix -----

  function Total<T>(items: seq<T>, size: T -> nat): nat {
    if items == [] then 0 else size(items[0]) + Total(items[1..], size)
  }

  predicate Fits<T>(items: seq<T>, size: T -> nat, maxCount: nat, maxBytes: nat) {
    |items| <= maxCount && Total(items, size) <= maxBytes
  }

  function Kept<T>(items: seq<T>, size: T -> nat, maxCount: nat, maxBytes: nat): seq<T> {
    if items == [] || Fits(items, size, maxCount, maxBytes) then items else Kept(items[1..], size, maxCount, maxBytes)
  }

  function Accepted<T>(items: seq<T>, size: T -> nat, maxBytes: nat): seq<T> {
    if items == [] then []
    else
      var earlier, last := Accepted(items[..|items| - 1], size, maxBytes), items[|items| - 1];
      if size(last) <= maxBytes then earlier + [last] else earlier
  }

  /** Exactly the items of at most `maxBytes` pass, each as often as it comes and in the order they come: one by one, and
      before or after whatever else passes. */
  lemma {:induction false} AcceptedExactly<T>(a: seq<T>, x: T, b: seq<T>, size: T -> nat, maxBytes: nat)
    ensures Accepted(a + [x] + b, size, maxBytes) ==
      Accepted(a, size, maxBytes) + (if size(x) <= maxBytes then [x] else []) + Accepted(b, size, maxBytes)
  {
    AcceptedConcat(a + [x], b, size, maxBytes);
    AcceptedConcat(a, [x], size, maxBytes);
    assert [x][..0] == [] && Accepted([x][..0], size, maxBytes) == [];
  }

  lemma {:induction false} TotalConcat<T>(a: seq<T>, b: seq<T>, size: T -> nat)
    ensures Total(a + b, size) == Total(a, size) + Total(b, size)
  {
    if a == [] {
      assert a + b == b;
    } else {
      assert (a + b)[1..] == a[1..] + b;
      TotalConcat(a[1..], b, size);
    }
  }

  lemma TotalFrom<T>(items: seq<T>, size: T -> nat, start: nat)
    requires start < |items|
    ensures Total(items[start..], size) == size(items[start]) + Total(items[start + 1..], size)
  {
    assert items[start..][1..] == items[start + 1..];
  }

  /** The newest of the items: a suffix under both caps, and any longer one breaks one of them. */
  ghost predicate Newest<T>(kept: seq<T>, items: seq<T>, size: T -> nat, maxCount: nat, maxBytes: nat) {
    && |kept| <= |items| && kept == items[|items| - |kept|..]
    && |kept| <= maxCount && Total(kept, size) <= maxBytes
    && forall start :: 0 <= start < |items| - |kept| ==> |items| - start > maxCount || Total(items[start..], size) > maxBytes
  }

  /** What is kept is the longest suffix under both caps. */
  lemma {:induction false} KeptIsLongestSuffix<T>(items: seq<T>, size: T -> nat, maxCount: nat, maxBytes: nat)
    ensures Newest(Kept(items, size, maxCount, maxBytes), items, size, maxCount, maxBytes)
    decreases |items|
  {
    if items != [] && !Fits(items, size, maxCount, maxBytes) {
      KeptIsLongestSuffix(items[1..], size, maxCount, maxBytes);
      var kept := Kept(items, size, maxCount, maxBytes);
      assert items[1..][|items| - 1 - |kept|..] == items[|items| - |kept|..];
      forall start | 0 <= start < |items| - |kept| ensures |items| - start > maxCount || Total(items[start..], size) > maxBytes {
        if start == 0 { assert items[0..] == items; } else { assert items[1..][start - 1..] == items[start..]; }
      }
    }
  }

  /** A start that fits where the one before does not is where the kept suffix begins. */
  lemma {:induction false} KeptFrom<T>(items: seq<T>, size: T -> nat, maxCount: nat, maxBytes: nat, start: nat)
    requires start <= |items| && Fits(items[start..], size, maxCount, maxBytes)
    requires start > 0 ==> !Fits(items[start - 1..], size, maxCount, maxBytes)
    ensures Kept(items, size, maxCount, maxBytes) == items[start..]
    decreases |items|
  {
    if start == 0 {
      assert items[0..] == items;
    } else {
      SuffixFitsToo(items, size, maxCount, maxBytes, start - 1);
      assert items[1..][start - 1..] == items[start..];
      if start > 1 { assert items[1..][start - 2..] == items[start - 1..]; }
      KeptFrom(items[1..], size, maxCount, maxBytes, start - 1);
    }
  }

  /** Dropping from the front only helps, so a suffix that does not fit rules the whole out. */
  lemma SuffixFitsToo<T>(items: seq<T>, size: T -> nat, maxCount: nat, maxBytes: nat, start: nat)
    requires start <= |items| && !Fits(items[start..], size, maxCount, maxBytes)
    ensures !Fits(items, size, maxCount, maxBytes)
  {
    TotalConcat(items[..start], items[start..], size);
    assert items == items[..start] + items[start..];
  }

  /** Trimming before appending makes no difference to what is kept after. */
  lemma {:induction false} KeptThenAppend<T>(a: seq<T>, b: seq<T>, size: T -> nat, maxCount: nat, maxBytes: nat)
    ensures Kept(Kept(a, size, maxCount, maxBytes) + b, size, maxCount, maxBytes) == Kept(a + b, size, maxCount, maxBytes)
    decreases |a|
  {
    if a != [] && !Fits(a, size, maxCount, maxBytes) {
      KeptThenAppend(a[1..], b, size, maxCount, maxBytes);
      TotalConcat(a, b, size);
      assert (a + b)[1..] == a[1..] + b;
    }
  }

  lemma {:induction false} AcceptedConcat<T>(a: seq<T>, b: seq<T>, size: T -> nat, maxBytes: nat)
    ensures Accepted(a + b, size, maxBytes) == Accepted(a, size, maxBytes) + Accepted(b, size, maxBytes)
    decreases |b|
  {
    if b == [] {
      assert a + b == a;
    } else {
      assert (a + b)[..|a + b| - 1] == a + b[..|b| - 1];
      AcceptedConcat(a, b[..|b| - 1], size, maxBytes);
    }
  }

  /** Keeping after each of two batches is keeping after both. */
  lemma KeptInBatches<T>(history: seq<T>, a: seq<T>, b: seq<T>, size: T -> nat, maxCount: nat, maxBytes: nat)
    ensures Kept(Kept(history + Accepted(a, size, maxBytes), size, maxCount, maxBytes) + Accepted(b, size, maxBytes), size, maxCount, maxBytes)
         == Kept(history + Accepted(a + b, size, maxBytes), size, maxCount, maxBytes)
  {
    var x, y := Accepted(a, size, maxBytes), Accepted(b, size, maxBytes);
    AcceptedConcat(a, b, size, maxBytes);
    KeptThenAppend(history + x, y, size, maxCount, maxBytes);
    assert history + x + y == history + (x + y);
  }

  // ----- Appending -----

  /** The history after a batch; an empty one leaves it untrimmed. */
  function Appended<T>(history: seq<T>, batch: seq<T>, size: T -> nat, maxCount: int, maxBytes: int): seq<T> {
    if maxCount <= 0 || maxBytes <= 0 then []
    else if batch == [] then history
    else Kept(history + Accepted(batch, size, maxBytes), size, maxCount, maxBytes)
  }

  /** Caps with no room leave nothing, an empty batch leaves the history, and any other the newest of the history and what
      passes of the batch. */
  lemma AppendedExactly<T>(history: seq<T>, batch: seq<T>, size: T -> nat, maxCount: int, maxBytes: int)
    ensures var after := Appended(history, batch, size, maxCount, maxBytes);
      if maxCount <= 0 || maxBytes <= 0 then after == []
      else if |batch| == 0 then after == history
      else Newest(after, history + Accepted(batch, size, maxBytes), size, maxCount, maxBytes)
  {
    if maxCount > 0 && maxBytes > 0 { KeptIsLongestSuffix(history + Accepted(batch, size, maxBytes), size, maxCount, maxBytes); }
  }

  function OneByOne<T>(history: seq<T>, batch: seq<T>, size: T -> nat, maxCount: int, maxBytes: int): seq<T>
    decreases |batch|
  {
    if batch == [] then history
    else OneByOne(Appended(history, [batch[0]], size, maxCount, maxBytes), batch[1..], size, maxCount, maxBytes)
  }

  /** A batch is appended as its items would be one at a time, items too large to keep included. */
  lemma {:induction false} BatchIsOneByOne<T>(history: seq<T>, batch: seq<T>, size: T -> nat, maxCount: int, maxBytes: int)
    requires batch != []
    ensures Appended(history, batch, size, maxCount, maxBytes) == OneByOne(history, batch, size, maxCount, maxBytes)
    decreases |batch|
  {
    var first, rest := [batch[0]], batch[1..];
    assert batch == first + rest;
    var once := Appended(history, first, size, maxCount, maxBytes);
    if rest != [] {
      BatchIsOneByOne(once, rest, size, maxCount, maxBytes);
      if maxCount > 0 && maxBytes > 0 { KeptInBatches(history, first, rest, size, maxCount, maxBytes); }
    } else {
      assert first == batch;
    }
  }

  // ----- Arrays and the cache of their totals -----

  /** A history array: it is never changed once made, and the cache knows it by identity. */
  class Lines<T> {
    const items: seq<T>

    constructor (items: seq<T>)
      ensures this.items == items
    {
      this.items := items;
    }
  }

  class BoundedLog<T> {
    const size: T -> nat
    var byteLengthCache: map<Lines<T>, nat>

    /** Every cached total is the sum it stands for. */
    ghost predicate Valid()
      reads this
    {
      forall lines :: lines in byteLengthCache ==> byteLengthCache[lines] == Total(lines.items, size)
    }

    constructor (size: T -> nat)
      ensures Valid() && this.size == size && byteLengthCache == map[]
    {
      this.size, byteLengthCache := size, map[];
    }

    /** A new array whose total is remembered. */
    method Remember(items: seq<T>, bytes: nat) returns (lines: Lines<T>)
      requires Valid() && bytes == Total(items, size)
      modifies this
      ensures Valid() && fresh(lines) && lines.items == items
      ensures byteLengthCache == old(byteLengthCache)[lines := bytes]
    {
      lines := new Lines(items);
      byteLengthCache := byteLengthCache[lines := bytes];
    }

    method TotalOf(lines: Lines<T>) returns (bytes: nat)
      requires Valid()
      ensures bytes == Total(lines.items, size)
    {
      if lines in byteLengthCache { return byteLengthCache[lines]; }
      bytes := 0;
      for i := 0 to |lines.items|
        invariant bytes == Total(lines.items[..i], size)
      {
        assert lines.items[..i + 1] == lines.items[..i] + [lines.items[i]];
        TotalConcat(lines.items[..i], [lines.items[i]], size);
        bytes := bytes + size(lines.items[i]);
      }
      assert lines.items[..|lines.items|] == lines.items;
    }

    method Accept(batch: seq<T>, maxBytes: nat) returns (accepted: seq<T>, bytes: nat)
      ensures accepted == Accepted(batch, size, maxBytes) && bytes == Total(accepted, size)
    {
      accepted, bytes := [], 0;
      for i := 0 to |batch|
        invariant accepted == Accepted(batch[..i], size, maxBytes) && bytes == Total(accepted, size)
      {
        assert batch[..i + 1][..i] == batch[..i];
        if size(batch[i]) <= maxBytes {
          TotalConcat(accepted, [batch[i]], size);
          accepted := accepted + [batch[i]];
          bytes := bytes + size(batch[i]);
        }
      }
      assert batch[..|batch|] == batch;
    }

    /** Drops from the front until both caps hold. */
    method TrimFront(next: seq<T>, total: nat, maxCount: nat, maxBytes: nat) returns (bounded: seq<T>, bytes: nat)
      requires total == Total(next, size)
      ensures bounded == Kept(next, size, maxCount, maxBytes) && bytes == Total(bounded, size)
    {
      bytes := total;
      var start := 0;
      assert next[0..] == next;
      while |next| - start > maxCount || bytes > maxBytes
        invariant 0 <= start <= |next| && bytes == Total(next[start..], size)
        invariant start > 0 ==> !Fits(next[start - 1..], size, maxCount, maxBytes)
        decreases |next| - start
      {
        TotalFrom(next, size, start);
        bytes := bytes - size(next[start]);
        start := start + 1;
      }
      bounded := next[start..];
      KeptFrom(next, size, maxCount, maxBytes, start);
    }

    /** Collects from the back as long as both caps hold. */
    method TrimExistingHistory(lines: Lines<T>, maxCount: nat, maxBytes: nat) returns (bounded: Lines<T>)
      requires Valid()
      modifies this
      ensures Valid() && fresh(bounded) && bounded.items == Kept(lines.items, size, maxCount, maxBytes)
      ensures bounded in byteLengthCache
    {
      var items := lines.items;
      var start, bytes := |items|, 0;
      while start > 0 && |items| - start < maxCount
        invariant 0 <= start <= |items| && bytes == Total(items[start..], size)
        invariant Fits(items[start..], size, maxCount, maxBytes) && byteLengthCache == old(byteLengthCache)
        decreases start
      {
        TotalFrom(items, size, start - 1);
        var nextBytes := size(items[start - 1]);
        if bytes + nextBytes > maxBytes { break; }
        bytes := bytes + nextBytes;
        start := start - 1;
      }
      KeptFrom(items, size, maxCount, maxBytes, start);
      bounded := Remember(items[start..], bytes);
    }

    /** `appendBoundedTerminalLines` */
    method AppendLines(lines: Lines<T>, appended: seq<T>, maxCount: int, maxBytes: int) returns (bounded: Lines<T>)
      requires Valid()
      modifies this
      ensures Valid() && fresh(bounded) && bounded.items == Appended(lines.items, appended, size, maxCount, maxBytes)
    {
      if maxCount <= 0 || maxBytes <= 0 {
        bounded := Remember([], 0);
        return;
      }
      if appended == [] {
        bounded := new Lines(lines.items);
        return;
      }
      var accepted, appendedBytes := Accept(appended, maxBytes);
      if accepted == [] {
        assert lines.items + accepted == lines.items;
        bounded := TrimExistingHistory(lines, maxCount, maxBytes);
        return;
      }
      var totalBytes := TotalOf(lines);
      TotalConcat(lines.items, accepted, size);
      var kept, bytes := TrimFront(lines.items + accepted, totalBytes + appendedBytes, maxCount, maxBytes);
      bounded := Remember(kept, bytes);
    }

    /** `appendBoundedDiagnosticEntries`, its entries normalised: it trims on an empty batch too. */
    method AppendEntries(entries: Lines<T>, appended: seq<T>, maxCount: int, maxBytes: int) returns (bounded: Lines<T>)
      requires Valid()
      modifies this
      ensures Valid() && fresh(bounded) && bounded in byteLengthCache
      ensures bounded.items ==
              if maxCount <= 0 || maxBytes <= 0 then []
              else Kept(entries.items + Accepted(appended, size, maxBytes), size, maxCount, maxBytes)
    {
      if maxCount <= 0 || maxBytes <= 0 {
        bounded := Remember([], 0);
        return;
      }
      var accepted, appendedBytes := Accept(appended, maxBytes);
      var totalBytes := TotalOf(entries);
      TotalConcat(entries.items, accepted, size);
      var kept, bytes := TrimFront(entries.items + accepted, totalBytes + appendedBytes, maxCount, maxBytes);
      bounded := Remember(kept, bytes);
    }
  }
}
