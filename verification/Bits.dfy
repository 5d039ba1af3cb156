/** The bigint operators of the address code, bit by bit, and what they come to. */
module Bits {
  import opened Text

  function Shl(v: nat, k: nat): nat { if k == 0 then v else 2 * Shl(v, k - 1) }

  function Shr(v: nat, k: nat): nat { if k == 0 then v else Shr(v / 2, k - 1) }

  function And(a: nat, b: nat): nat {
    if a == 0 || b == 0 then 0
    else 2 * And(a / 2, b / 2) + if a % 2 == 1 && b % 2 == 1 then 1 else 0
  }

  function Or(a: nat, b: nat): nat
    decreases a + b
  {
    if a == 0 then b
    else if b == 0 then a
    else 2 * Or(a / 2, b / 2) + if a % 2 == 1 || b % 2 == 1 then 1 else 0
  }

  /** The number with its lowest `k` bits cleared. */
  function Clear(v: nat, k: nat): nat { if k == 0 then v else 2 * Clear(v / 2, k - 1) }

  /** `k` one bits. */
  function Ones(k: nat): nat { if k == 0 then 0 else 2 * Ones(k - 1) + 1 }

  lemma {:induction false} OnesIsPower(k: nat)
    ensures Ones(k) == Power(2, k) - 1
  {
    if k > 0 { OnesIsPower(k - 1); }
  }

  lemma {:induction false} ShlOne(k: nat)
    ensures Shl(1, k) == Power(2, k)
  {
    if k > 0 { ShlOne(k - 1); }
  }

  /** Appending `k` low bits to a number shifted to make room for them. */
  lemma {:induction false} OrFillsShift(v: nat, k: nat, low: nat)
    requires low < Power(2, k)
    ensures Or(Shl(v, k), low) == Shl(v, k) + low
    decreases k
  {
    if k > 0 {
      OrFillsShift(v, k - 1, low / 2);
      assert Shl(v, k) / 2 == Shl(v, k - 1) && Shl(v, k) % 2 == 0;
    }
  }

  lemma {:induction false} AndOnes(v: nat, k: nat)
    requires v < Power(2, k)
    ensures And(v, Ones(k)) == v
    decreases k
  {
    if k > 0 { AndOnes(v / 2, k - 1); }
  }

  /** A prefix mask clears the bits after the prefix. */
  lemma {:induction false} AndMaskClears(v: nat, ones: nat, k: nat)
    requires v < Power(2, ones + k)
    ensures And(v, Shl(Ones(ones), k)) == Clear(v, k)
    decreases k
  {
    if k == 0 {
      AndOnes(v, ones);
    } else {
      AndMaskClears(v / 2, ones, k - 1);
      var mask := Shl(Ones(ones), k);
      assert mask / 2 == Shl(Ones(ones), k - 1) && mask % 2 == 0;
      if mask == 0 { ClearAll(v, k - 1 + 1, ones); }
    }
  }

  lemma {:induction false} ClearAll(v: nat, k: nat, ones: nat)
    requires v < Power(2, ones + k) && Shl(Ones(ones), k) == 0
    ensures Clear(v, k) == 0
    decreases k
  {
    if k > 0 {
      ClearAll(v / 2, k - 1, ones);
    } else {
      OnesIsPower(ones);
    }
  }

  /** Clearing more bits makes the clearing of fewer irrelevant, whichever comes first. */
  lemma {:induction false} ClearTwice(v: nat, j: nat, k: nat)
    requires j <= k
    ensures Clear(Clear(v, j), k) == Clear(v, k)
    ensures Clear(Clear(v, k), j) == Clear(v, k)
    decreases k
  {
    if j > 0 {
      ClearTwice(v / 2, j - 1, k - 1);
    } else if k > 0 {
      assert Clear(v, 0) == v;
    }
  }

  lemma {:induction false} ClearBound(v: nat, k: nat)
    ensures Clear(v, k) <= v
    decreases k
  {
    if k > 0 { ClearBound(v / 2, k - 1); }
  }

  lemma {:induction false} ShrShr(v: nat, j: nat, k: nat)
    ensures Shr(Shr(v, j), k) == Shr(v, j + k)
    decreases j
  {
    if j > 0 { ShrShr(v / 2, j - 1, k); }
  }

  lemma {:induction false} LowBits(v: nat, k: nat)
    ensures And(v, Ones(k)) == v % Power(2, k)
    decreases k
  {
    if k > 0 {
      LowBits(v / 2, k - 1);
      HalfRemainder(v, Power(2, k - 1));
    } else {
      assert Ones(0) == 0 && Power(2, 0) == 1;
    }
  }

  lemma HalfRemainder(v: nat, p: nat)
    requires p > 0
    ensures 2 * ((v / 2) % p) + v % 2 == v % (2 * p)
  {
    var q, r := (v / 2) / p, (v / 2) % p;
    assert v / 2 == p * q + r;
    var low := 2 * r + v % 2;
    assert v == (2 * p) * q + low && 0 <= low < 2 * p;
    DivisionIsUnique(v, 2 * p, q, low);
  }

  lemma Apart(d: nat, a: nat, b: nat)
    requires a < b
    ensures d * a + d <= d * b
  {
    assert d * b == d * a + d * (b - a);
    assert d * (b - a) == d + d * (b - a - 1);
  }

  lemma DivisionIsUnique(v: nat, d: nat, q: nat, r: nat)
    requires d > 0 && v == d * q + r && r < d
    ensures v / d == q && v % d == r
  {
    var q', r' := v / d, v % d;
    if q < q' { Apart(d, q, q'); }
    if q' < q { Apart(d, q', q); }
  }

  lemma {:induction false} ShrIsDivision(v: nat, k: nat)
    ensures Power(2, k) > 0 && Shr(v, k) == v / Power(2, k)
    decreases k
  {
    if k > 0 {
      ShrIsDivision(v / 2, k - 1);
      HalfQuotient(v, Power(2, k - 1));
    }
  }

  lemma HalfQuotient(v: nat, p: nat)
    requires p > 0
    ensures (v / 2) / p == v / (2 * p)
  {
    var q, r := (v / 2) / p, (v / 2) % p;
    assert v / 2 == p * q + r;
    assert v == (2 * p) * q + (2 * r + v % 2);
    DivisionIsUnique(v, 2 * p, q, 2 * r + v % 2);
  }

  lemma Associate(a: nat, b: nat, c: nat)
    ensures a * (b * c) == a * b * c
  {}

  lemma {:induction false} PowerAdds(base: nat, j: nat, k: nat)
    ensures Power(base, j + k) == Power(base, j) * Power(base, k)
  {
    if j > 0 {
      PowerAdds(base, j - 1, k);
      Associate(base, Power(base, j - 1), Power(base, k));
    }
  }

  lemma OctetBits()
    ensures Power(2, 8) == 256 && Power(2, 16) == 65536 && Ones(8) == 0xff && Ones(16) == 0xffff
  {
    assert Power(2, 4) == 16;
    PowerAdds(2, 4, 4);
    PowerAdds(2, 8, 8);
    OnesIsPower(8);
    OnesIsPower(16);
  }

  lemma Octet(v: nat)
    ensures Shr(v, 8) == v / 256 && And(v, 0xff) == v % 256
  {
    OctetBits();
    ShrIsDivision(v, 8);
    LowBits(v, 8);
  }

  lemma Group(v: nat)
    ensures Shr(v, 16) == v / 65536 && And(v, 0xffff) == v % 65536
  {
    OctetBits();
    ShrIsDivision(v, 16);
    LowBits(v, 16);
  }
}
