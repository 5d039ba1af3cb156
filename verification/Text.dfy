/** Splitting, joining and numerals: the string operations the address code is written in. */
module Text {
  import opened Prelude

  // ----- Splitting and joining -----

  function Split(s: string, sep: char): (parts: seq<string>)
    ensures parts != []
  {
    if s == "" then [""]
    else
      var rest := Split(s[1..], sep);
      if s[0] == sep then [""] + rest else [[s[0]] + rest[0]] + rest[1..]
  }

  function Join(parts: seq<string>, sep: string): string {
    if parts == [] then "" else if |parts| == 1 then parts[0] else parts[0] + sep + Join(parts[1..], sep)
  }

  predicate Without(parts: seq<string>, sep: char) { forall part :: part in parts ==> sep !in part }

  lemma {:induction false} SplitPart(part: string, sep: char)
    requires sep !in part
    ensures Split(part, sep) == [part]
  {
    if part != "" {
      assert part[0] in part && part == [part[0]] + part[1..];
      SplitPart(part[1..], sep);
    }
  }

  lemma {:induction false} SplitFirst(part: string, rest: string, sep: char)
    requires sep !in part
    ensures Split(part + [sep] + rest, sep) == [part] + Split(rest, sep)
  {
    var s := part + [sep] + rest;
    if part == "" {
      assert s[1..] == rest;
    } else {
      assert s[1..] == part[1..] + [sep] + rest && s[0] == part[0] && part[0] in part;
      assert part == [part[0]] + part[1..];
      SplitFirst(part[1..], rest, sep);
    }
  }

  lemma {:induction false} SplitJoin(parts: seq<string>, sep: char)
    requires parts != [] && Without(parts, sep)
    ensures Split(Join(parts, [sep]), sep) == parts
  {
    if |parts| == 1 {
      SplitPart(parts[0], sep);
    } else {
      SplitJoin(parts[1..], sep);
      SplitFirst(parts[0], Join(parts[1..], [sep]), sep);
    }
  }

  lemma {:induction false} JoinSplit(s: string, sep: char)
    ensures Join(Split(s, sep), [sep]) == s && Without(Split(s, sep), sep)
  {
    if s != "" {
      JoinSplit(s[1..], sep);
      var rest := Split(s[1..], sep);
      if s[0] == sep {
        assert ([""] + rest)[1..] == rest;
        assert "" + [sep] + s[1..] == s;
      } else if |rest| > 1 {
        var parts := [[s[0]] + rest[0]] + rest[1..];
        assert parts[1..] == rest[1..];
        assert s == [s[0]] + s[1..];
      } else {
        assert s == [s[0]] + s[1..];
      }
    }
  }

  // ----- Trimming and case -----

  /** The characters `String.prototype.trim` removes. */
  predicate IsSpace(c: char) {
    || '\t' <= c <= '\r' || c == ' ' || c == '\U{A0}' || c == '\U{1680}' || '\U{2000}' <= c <= '\U{200A}'
    || c == '\U{2028}' || c == '\U{2029}' || c == '\U{202F}' || c == '\U{205F}' || c == '\U{3000}' || c == '\U{FEFF}'
  }

  /** What `.` in a regular expression does not match. */
  predicate IsLineTerminator(c: char) { c == '\n' || c == '\r' || c == '\U{2028}' || c == '\U{2029}' }

  function TrimStart(s: string): string { if s != "" && IsSpace(s[0]) then TrimStart(s[1..]) else s }

  function TrimEnd(s: string): string { if s != "" && IsSpace(s[|s| - 1]) then TrimEnd(s[..|s| - 1]) else s }

  function Trim(s: string): string { TrimEnd(TrimStart(s)) }

  predicate NoSpace(s: string) { forall c :: c in s ==> !IsSpace(c) }

  lemma TrimNothing(s: string)
    requires NoSpace(s)
    ensures Trim(s) == s
  {
    assert s != "" ==> s[0] in s && s[|s| - 1] in s;
  }

  predicate IsBlank(s: string) { forall c :: c in s ==> IsSpace(c) }

  /** Nothing to trim at either end. */
  predicate Trimmed(s: string) { s != "" ==> !IsSpace(s[0]) && !IsSpace(s[|s| - 1]) }

  lemma {:induction false} TrimStartDrops(s: string) returns (before: string)
    ensures IsBlank(before) && s == before + TrimStart(s) && (TrimStart(s) != "" ==> !IsSpace(TrimStart(s)[0]))
  {
    before := "";
    if s != "" && IsSpace(s[0]) {
      var rest := TrimStartDrops(s[1..]);
      before := [s[0]] + rest;
    }
  }

  lemma {:induction false} TrimEndDrops(s: string) returns (after: string)
    ensures IsBlank(after) && s == TrimEnd(s) + after && (TrimEnd(s) != "" ==> !IsSpace(TrimEnd(s)[|TrimEnd(s)| - 1]))
    decreases |s|
  {
    after := "";
    if s != "" && IsSpace(s[|s| - 1]) {
      var rest := TrimEndDrops(s[..|s| - 1]);
      after := rest + [s[|s| - 1]];
    }
  }

  lemma {:induction false} TrimStartOf(before: string, s: string)
    requires IsBlank(before) && (s != "" ==> !IsSpace(s[0]))
    ensures TrimStart(before + s) == s
  {
    if before == "" {
      assert before + s == s;
    } else {
      assert before[0] in before && (before + s)[1..] == before[1..] + s;
      TrimStartOf(before[1..], s);
    }
  }

  lemma {:induction false} TrimEndOf(s: string, after: string)
    requires IsBlank(after) && (s != "" ==> !IsSpace(s[|s| - 1]))
    ensures TrimEnd(s + after) == s
    decreases |after|
  {
    var n := |after|;
    if n == 0 {
      assert s + after == s;
    } else {
      assert after[n - 1] in after && (s + after)[..|s| + n - 1] == s + after[..n - 1];
      TrimEndOf(s, after[..n - 1]);
    }
  }

  /** Trimming takes exactly the white space at both ends. */
  lemma TrimTakes(s: string) returns (before: string, after: string)
    ensures IsBlank(before) && IsBlank(after) && s == before + Trim(s) + after && Trimmed(Trim(s))
  {
    before := TrimStartDrops(s);
    after := TrimEndDrops(TrimStart(s));
    assert Trim(s) != "" ==> Trim(s)[0] == TrimStart(s)[0];
  }

  lemma TrimOf(before: string, s: string, after: string)
    requires IsBlank(before) && IsBlank(after) && Trimmed(s)
    ensures Trim(before + s + after) == s
  {
    if s == "" {
      assert forall c :: c in before + s + after ==> IsSpace(c);
      assert before + s + after + "" == before + s + after;
      TrimStartOf(before + s + after, "");
    } else {
      assert before + s + after == before + (s + after);
      TrimStartOf(before, s + after);
      TrimEndOf(s, after);
    }
  }

  /** The capitals and the Kelvin sign, which is a k in lower case. */
  const UPPER_LETTERS := "ABCDEFGHIJKLMNOPQRSTUVWXYZ\U{212A}"
  const LOWER_LETTERS := "abcdefghijklmnopqrstuvwxyzk"

  lemma IsUpperLetter(c: char)
    ensures c in UPPER_LETTERS <==> IsUpper(c)
  {
    if IsUpper(c) { var k := LowerAtPlace(c); }
  }

  /** The place of an upper-case letter among them is that of its lower-case one among those. */
  lemma LowerAtPlace(c: char) returns (k: nat)
    requires IsUpper(c)
    ensures k < 27 && UPPER_LETTERS[k] == c && LOWER_LETTERS[k] == LowerChar(c)
  {
    k := if c == KELVIN_SIGN then 26 else c as int - 'A' as int;
  }

  /** Lower-casing puts the lower-case letter in the place of every upper-case one, and leaves the rest. */
  lemma LowerCaseLetters(s: string, i: nat)
    requires i < |s|
    ensures s[i] in UPPER_LETTERS ==> exists k :: 0 <= k < 27 && UPPER_LETTERS[k] == s[i] && LOWER_LETTERS[k] == ToLower(s)[i]
    ensures s[i] !in UPPER_LETTERS ==> ToLower(s)[i] == s[i]
  {
    IsUpperLetter(s[i]);
    if IsUpper(s[i]) { var k := LowerAtPlace(s[i]); }
  }

  const KELVIN_SIGN := '\U{212A}'

  /** A character that is an ASCII letter in lower case and not in this one. */
  predicate IsUpper(c: char) { 'A' <= c <= 'Z' || c == KELVIN_SIGN }

  function LowerChar(c: char): char {
    if 'A' <= c <= 'Z' then (c as int + 32) as char else if c == KELVIN_SIGN then 'k' else c
  }

  /** The letters that are ASCII in lower case; no other character is lower-cased into what an address or a name may contain. */
  function ToLower(s: string): (r: string)
    ensures |r| == |s|
  {
    seq(|s|, i requires 0 <= i < |s| => LowerChar(s[i]))
  }

  predicate IsLowerCase(s: string) { forall c :: c in s ==> !IsUpper(c) }

  lemma LowerNothing(s: string)
    requires IsLowerCase(s)
    ensures ToLower(s) == s
  {
    assert forall i :: 0 <= i < |s| ==> s[i] in s;
  }

  // ----- Numerals -----

  predicate IsDigit(c: char) { '0' <= c <= '9' }

  predicate IsHexDigit(c: char) { '0' <= c <= '9' || 'a' <= c <= 'f' || 'A' <= c <= 'F' }

  /** `/^\d+$/` */
  predicate AllDigits(s: string) { s != "" && forall c :: c in s ==> IsDigit(c) }

  predicate AllHex(s: string) { s != "" && forall c :: c in s ==> IsHexDigit(c) }

  function DigitValue(c: char): (d: nat)
    requires IsHexDigit(c)
    ensures d < 16 && (IsDigit(c) ==> d < 10)
  {
    if c <= '9' then c as int - '0' as int else if c <= 'F' then c as int - 'A' as int + 10 else c as int - 'a' as int + 10
  }

  function DigitOf(d: nat): (c: char)
    requires d < 16
    ensures IsHexDigit(c) && DigitValue(c) == d && (d < 10 <==> IsDigit(c)) && !IsUpper(c)
  {
    if d < 10 then ('0' as int + d) as char else ('a' as int + d - 10) as char
  }

  const HEX_DIGITS := "0123456789abcdef"

  /** A digit's value is its place among the digits, in either case. */
  lemma DigitIsItsPlace(c: char)
    requires IsHexDigit(c)
    ensures HEX_DIGITS[DigitValue(c)] == ToLower([c])[0]
  {}

  /** The value of a numeral in base 10 or 16. */
  function NumeralValue(s: string, base: nat): nat
    requires forall c :: c in s ==> IsHexDigit(c)
  {
    if s == "" then 0 else base * NumeralValue(s[..|s| - 1], base) + DigitValue(s[|s| - 1])
  }

  function DecimalValue(s: string): nat
    requires AllDigits(s)
  {
    assert forall c :: c in s ==> IsHexDigit(c);
    NumeralValue(s, 10)
  }

  function HexValue(s: string): nat
    requires AllHex(s)
  {
    NumeralValue(s, 16)
  }

  /** `n.toString(base)` */
  function Numeral(n: nat, base: nat): (s: string)
    requires base == 10 || base == 16
    ensures s != "" && forall c :: c in s ==> IsHexDigit(c) && !('A' <= c <= 'Z') && (base == 10 ==> IsDigit(c))
  {
    if n < base then [DigitOf(n)] else Numeral(n / base, base) + [DigitOf(n % base)]
  }

  function Decimal(n: nat): (s: string)
    ensures AllDigits(s)
  {
    Numeral(n, 10)
  }

  function Hex(n: nat): (s: string)
    ensures AllHex(s) && IsLowerCase(s)
  {
    Numeral(n, 16)
  }

  /** No numeral but "0" itself starts with a zero. */
  predicate NoLeadingZero(s: string) { |s| > 1 ==> s[0] != '0' }

  lemma {:induction false} NumeralRoundTrip(n: nat, base: nat)
    requires base == 10 || base == 16
    ensures NumeralValue(Numeral(n, base), base) == n && NoLeadingZero(Numeral(n, base))
    ensures n > 0 ==> Numeral(n, base)[0] != '0'
    decreases n
  {
    if n < base {
      assert Numeral(n, base)[..0] == "";
    } else {
      NumeralRoundTrip(n / base, base);
      var s := Numeral(n, base);
      assert s[..|s| - 1] == Numeral(n / base, base);
    }
  }

  lemma DivideBack(base: nat, n: nat, d: nat)
    requires (base == 10 || base == 16) && d < base
    ensures (base * n + d) / base == n && (base * n + d) % base == d && (n > 0 ==> base * n + d >= base)
  {
    if base == 10 { assert (10 * n + d) / 10 == n; } else { assert (16 * n + d) / 16 == n; }
  }

  lemma NumeralStep(base: nat, m: nat, d: nat, n: nat)
    requires (base == 10 || base == 16) && d < base && m > 0 && n == base * m + d
    ensures Numeral(n, base) == Numeral(m, base) + [DigitOf(d)]
  {
    DivideBack(base, m, d);
  }

  lemma ValueStep(s: string, base: nat)
    requires s != "" && forall c :: c in s ==> IsHexDigit(c)
    ensures forall c :: c in s[..|s| - 1] ==> IsHexDigit(c)
    ensures NumeralValue(s, base) == base * NumeralValue(s[..|s| - 1], base) + DigitValue(s[|s| - 1])
  {}

  /** A numeral without leading zeros is the one its value is written as; upper case aside. */
  lemma {:induction false} ValueRoundTrip(s: string, base: nat)
    requires base == 10 || base == 16
    requires s != "" && NoLeadingZero(s) && forall c :: c in s ==> IsHexDigit(c) && !('A' <= c <= 'Z') && (base == 10 ==> IsDigit(c))
    ensures Numeral(NumeralValue(s, base), base) == s
    ensures s[0] != '0' ==> NumeralValue(s, base) > 0
    decreases |s|
  {
    var init, last := s[..|s| - 1], s[|s| - 1];
    assert last in s && DigitValue(last) < base && DigitOf(DigitValue(last)) == last;
    assert s == init + [last];
    ValueStep(s, base);
    if init != "" {
      assert init[0] == s[0] && forall c :: c in init ==> c in s;
      ValueRoundTrip(init, base);
      NumeralStep(base, NumeralValue(init, base), DigitValue(last), NumeralValue(s, base));
    } else {
      assert NumeralValue(init, base) == 0;
    }
  }

  /** A numeral of `k` digits is below base to the k. */
  lemma {:induction false} HexLength(n: nat, k: nat)
    requires n < Power(16, k) && k > 0
    ensures |Hex(n)| <= k
    decreases k
  {
    if n >= 16 {
      assert k > 1;
      HexLength(n / 16, k - 1);
    }
  }

  lemma {:induction false} HexValueBound(s: string)
    requires forall c :: c in s ==> IsHexDigit(c)
    ensures NumeralValue(s, 16) < Power(16, |s|)
    decreases |s|
  {
    if s != "" {
      HexValueBound(s[..|s| - 1]);
      assert s[|s| - 1] in s;
    }
  }

  function Power(base: nat, k: nat): (p: nat)
    ensures base > 0 ==> p > 0
  {
    if k == 0 then 1 else base * Power(base, k - 1)
  }
}
