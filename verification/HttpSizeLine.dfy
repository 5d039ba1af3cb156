/**
 The size line of a chunk: the gate splits it at a semicolon, trims what is
 before and parses the rest; the grammar of bodies says what it looks like.
 `SizeOfExactly` says that these agree on every line, refusals included.
 */
module HttpSizeLine {
  import opened HttpBody
  import Text

  lemma {:induction false} BeforeSemicolonOf(text: seq<Byte>, extension: seq<Byte>)
    requires SEMICOLON !in text && (extension == [] || extension[0] == SEMICOLON)
    ensures BeforeSemicolon(text + extension) == text
    decreases |text|
  {
    if text == [] {
      assert text + extension == extension;
    } else {
      assert (text + extension)[1..] == text[1..] + extension;
      BeforeSemicolonOf(text[1..], extension);
    }
  }

  lemma {:induction false} SplitAtSemicolon(line: seq<Byte>)
    ensures var text := BeforeSemicolon(line); text <= line && SEMICOLON !in text
    ensures var rest := line[|BeforeSemicolon(line)|..]; rest == [] || rest[0] == SEMICOLON
    decreases |line|
  {
    if line != [] && line[0] != SEMICOLON { SplitAtSemicolon(line[1..]); }
  }

  lemma {:induction false} TrimStartOf(padding: seq<Byte>, text: seq<Byte>)
    requires IsPadding(padding) && text != [] && !IsSpace(text[0])
    ensures TrimStart(padding + text) == text
    decreases |padding|
  {
    if padding == [] {
      assert padding + text == text;
    } else {
      assert padding[0] in padding && (padding + text)[1..] == padding[1..] + text;
      TrimStartOf(padding[1..], text);
    }
  }

  lemma {:induction false} TrimEndOf(text: seq<Byte>, padding: seq<Byte>)
    requires IsPadding(padding) && text != [] && !IsSpace(text[|text| - 1])
    ensures TrimEnd(text + padding) == text
    decreases |padding|
  {
    var n := |padding|;
    if n == 0 {
      assert text + padding == text;
    } else {
      assert padding[n - 1] in padding && (text + padding)[..|text| + n - 1] == text + padding[..n - 1];
      TrimEndOf(text, padding[..n - 1]);
    }
  }

  lemma {:induction false} TrimStartDrops(s: seq<Byte>) returns (padding: seq<Byte>)
    ensures IsPadding(padding) && s == padding + TrimStart(s)
    decreases |s|
  {
    padding := [];
    if s != [] && IsSpace(s[0]) {
      var rest := TrimStartDrops(s[1..]);
      padding := [s[0]] + rest;
    }
  }

  lemma {:induction false} TrimEndDrops(s: seq<Byte>) returns (padding: seq<Byte>)
    ensures IsPadding(padding) && s == TrimEnd(s) + padding
    decreases |s|
  {
    padding := [];
    if s != [] && IsSpace(s[|s| - 1]) {
      var rest := TrimEndDrops(s[..|s| - 1]);
      padding := rest + [s[|s| - 1]];
    }
  }

  /** A line of the grammar has its digits as its size token. */
  lemma TokenOf(l: SizeLine)
    requires IsSizeLine(l)
    ensures SizeToken(RenderSizeLine(l)) == l.digits
  {
    var padded := l.digits + l.after;
    assert IsHex(l.digits[0]) && IsHex(l.digits[|l.digits| - 1]);
    assert RenderSizeLine(l) == l.before + padded + l.extension;
    BeforeSemicolonOf(l.before + padded, l.extension);
    TrimStartOf(l.before, padded);
    TrimEndOf(l.digits, l.after);
  }

  /** A line whose size token is a hex number is a line of the grammar, with that number as its digits. */
  lemma FormOf(line: seq<Byte>) returns (l: SizeLine)
    requires IsHexNumber(SizeToken(line))
    ensures ReadsAs(line, l) && l.digits == SizeToken(line)
  {
    var text := BeforeSemicolon(line);
    SplitAtSemicolon(line);
    var before := TrimStartDrops(text);
    var after := TrimEndDrops(TrimStart(text));
    l := SizeLine(before, SizeToken(line), after, line[|text|..]);
    assert before + (SizeToken(line) + after) == text;
  }

  /** The gate reads a size off a line if and only if the line announces it; it calls a line malformed if and only if
      it is no size line, and its size too large if and only if it says more than can be counted. */
  lemma SizeOfExactly(line: seq<Byte>, size: nat)
    ensures SizeOf(line) == Size(size) <==> Announces(line, size)
    ensures SizeOf(line) == BadLine(BadSize) <==> !exists l :: ReadsAs(line, l)
    ensures SizeOf(line) == BadLine(SizeTooLarge) <==> exists l :: ReadsAs(line, l) && HexValue(l.digits) > MAX_SAFE_INTEGER
  {
    forall l | ReadsAs(line, l) ensures l.digits == SizeToken(line) { TokenOf(l); }
    if IsHexNumber(SizeToken(line)) { var l := FormOf(line); }
  }

  // ----- Digits and white space -----

  const DIGITS := "0123456789abcdef"
  const CAPITAL_DIGITS := "0123456789ABCDEF"

  predicate IsCode(b: Byte, c: char) { b == c as int }

  /** The hex digits are those of ASCII in either case, each worth its place among them. */
  lemma HexDigitsExactly(b: Byte)
    ensures IsHex(b) <==> exists d :: 0 <= d < 16 && (IsCode(b, DIGITS[d]) || IsCode(b, CAPITAL_DIGITS[d]))
    ensures IsHex(b) ==> IsCode(b, DIGITS[HexDigit(b)]) || IsCode(b, CAPITAL_DIGITS[HexDigit(b)])
  {
    if IsHex(b) {
      var d := HexDigit(b);
      assert IsCode(b, DIGITS[d]) || IsCode(b, CAPITAL_DIGITS[d]);
    }
  }

  /** What the gate trims is what trimming text removes. */
  lemma SpacesAreTrimmed(b: Byte)
    ensures IsSpace(b) <==> Text.IsSpace(b as char)
  {}

  function Code(c: char): Byte { if c <= '\U{FF}' then c as int else 0 }

  /** The bytes of a numeral. */
  function Printed(s: string): seq<Byte>
  {
    seq(|s|, i requires 0 <= i < |s| => Code(s[i]))
  }

  lemma {:induction false} PrintedValue(s: string)
    requires forall c :: c in s ==> Text.IsHexDigit(c)
    ensures forall b :: b in Printed(s) ==> IsHex(b)
    ensures HexValue(Printed(s)) == Text.NumeralValue(s, 16)
    decreases |s|
  {
    if s != "" {
      var init, last := s[..|s| - 1], s[|s| - 1];
      PrintedValue(init);
      assert Text.IsHexDigit(last) by { assert last in s; }
      assert Printed(s) == Printed(init) + [Code(last)];
      assert (Printed(init) + [Code(last)])[..|s| - 1] == Printed(init);
    }
  }

  /** A size printed in base sixteen is read as it was. */
  lemma SizeReadsBack(size: nat)
    requires size <= MAX_SAFE_INTEGER
    ensures SizeOf(Printed(Text.Numeral(size, 16))) == Size(size)
  {
    var digits := Printed(Text.Numeral(size, 16));
    PrintedValue(Text.Numeral(size, 16));
    Text.NumeralRoundTrip(size, 16);
    assert ReadsAs(digits, SizeLine([], digits, [], []));
    SizeOfExactly(digits, size);
  }
}
