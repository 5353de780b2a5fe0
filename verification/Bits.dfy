/** Word arithmetic of the queue on 64-bit values: `ceilToPow2` and the index mask. */
module Bits {

  // ---------- words as numbers ----------

  function Half(x: bv64): bv64 { x >> 1 }

  function Inc(x: bv64): bv64 { x + 1 }

  predicate Odd(x: bv64) { x & 1 == 1 }

  function Digit(x: bv64): nat { if Odd(x) then 1 else 0 }

  lemma HalfSmaller(x: bv64)
    requires x != 0
    ensures Half(x) < x && (Half(x) == 0 ==> Odd(x))
  {}

  /** The number a word denotes in binary. */
  function Value(x: bv64): (r: nat)
    ensures x != 0 ==> r > 0
    decreases x
  {
    if x == 0 then 0 else (HalfSmaller(x); 2 * Value(Half(x))) + Digit(x)
  }

  lemma ValueUnfolds(x: bv64)
    ensures Value(x) == 2 * Value(Half(x)) + Digit(x)
  {}

  lemma ZeroValue()
    ensures Value(0) == 0
  {}

  lemma EvenNext(x: bv64)
    requires !Odd(x)
    ensures Half(Inc(x)) == Half(x) && Odd(Inc(x))
  {}

  lemma OddNext(x: bv64)
    requires Odd(x) && Inc(x) != 0
    ensures Half(Inc(x)) == Inc(Half(x)) && !Odd(Inc(x)) && x != 0 && Inc(Half(x)) != 0
  {}

  lemma {:induction false} ValueNext(x: bv64)
    requires Inc(x) != 0
    ensures Value(Inc(x)) == Value(x) + 1
    decreases Value(x)
  {
    hide Half, Odd, Value, Inc;
    ValueUnfolds(x);
    ValueUnfolds(Inc(x));
    if Odd(x) {
      OddNext(x);
      ValueNext(Half(x));
    } else {
      EvenNext(x);
    }
  }

  predicate Part(x: bv64, m: bv64) { x & m == x }

  lemma PartHalves(x: bv64, m: bv64)
    requires Part(x, m)
    ensures Part(Half(x), Half(m)) && (Odd(x) ==> Odd(m))
  {}

  /** The value grows with the set of bits. */
  lemma {:induction false} ValueOfPart(x: bv64, m: bv64)
    requires Part(x, m)
    ensures Value(x) <= Value(m)
    decreases Value(x)
  {
    hide Half, Odd, Value, Part;
    if Value(x) > 0 {
      ValueUnfolds(x);
      ValueUnfolds(m);
      PartHalves(x, m);
      ValueOfPart(Half(x), Half(m));
    }
  }

  // ---------- powers of two ----------

  predicate IsPower(n: nat) { n == 1 || (n > 1 && n % 2 == 0 && IsPower(n / 2)) }

  /** The least power of two that is at least `n`. */
  function CeilPow2(n: nat): (r: nat)
    ensures r >= n && r >= 1 && (n > 1 ==> r < 2 * n)
  {
    if n <= 1 then 1 else 2 * CeilPow2((n + 1) / 2)
  }

  /** `CeilPow2` is the least power of two that is not below its argument. */
  lemma {:induction false} CeilIsPower(n: nat)
    ensures IsPower(CeilPow2(n))
  {
    if n > 1 { CeilIsPower((n + 1) / 2); }
  }

  lemma {:induction false} LeastPower(n: nat, p: nat)
    requires IsPower(p) && n <= p
    ensures CeilPow2(n) <= p
  {
    if n > 1 { LeastPower((n + 1) / 2, p / 2); }
  }

  lemma {:induction false} PowersApart(p: nat, q: nat)
    requires IsPower(p) && IsPower(q) && p < q
    ensures 2 * p <= q
  {
    if p > 1 { PowersApart(p / 2, q / 2); }
  }

  // ---------- rounding up ----------

  predicate IsPow2(x: bv64) { x != 0 && x & (x - 1) == 0 }

  predicate Small(y: bv64) { y < 0x8000_0000_0000_0000 }

  /** `r` is the power of two with `r / 2 < x <= r`. */
  predicate IsCeil(x: bv64, r: bv64) { IsPow2(r) && r >> 1 < x <= r }

  lemma CeilIsLeast(x: bv64, r: bv64, p: bv64)
    requires IsCeil(x, r) && IsPow2(p) && x <= p
    ensures r <= p
  {}

  /** `x | (x >> (i << 3))` for the values 1, 2 and 4 that the loop variable takes. */
  function Spread(x: bv64, i: nat): bv64
    requires i == 1 || i == 2 || i == 4
  {
    if i == 1 then x | (x >> 8) else if i == 2 then x | (x >> 16) else x | (x >> 32)
  }

  /** `x` with every bit below its highest one set. */
  function Smear(x: bv64): bv64 {
    var a := x | (x >> 1);
    var b := a | (a >> 2);
    Spread(Spread(Spread(b | (b >> 4), 1), 2), 4)
  }

  /** The bit test finds the powers of two. */
  lemma {:induction false} PowerWord(x: bv64)
    ensures IsPow2(x) <==> IsPower(Value(x))
    decreases Value(x)
  {
    hide IsPow2, Half, Odd, Value;
    ValueUnfolds(x);
    if Half(x) == 0 {
      SmallPowers(x);
    } else {
      HalfNotZero(x);
      if IsPow2(x) { PowIsEven(x); }
      if !Odd(x) { PowHalves(x); }
      PowerWord(Half(x));
    }
  }

  lemma SmallPowers(x: bv64)
    requires Half(x) == 0
    ensures Value(x) < 2 && (IsPow2(x) <==> Value(x) == 1)
  {
    ZeroValue();
    if x != 0 { OneLeft(x); }
    ValueUnfolds(x);
  }

  lemma HalfNotZero(x: bv64)
    requires Half(x) != 0
    ensures x != 0
  {}

  lemma PowIsEven(x: bv64)
    requires Half(x) != 0 && IsPow2(x)
    ensures !Odd(x)
  {}

  function Dec(x: bv64): bv64 { x - 1 }

  predicate Apart(x: bv64, y: bv64) { x & y == 0 }

  lemma PowApart(x: bv64)
    ensures IsPow2(x) <==> x != 0 && Apart(x, Dec(x))
  {}

  lemma PowHalves(x: bv64)
    requires x != 0 && !Odd(x)
    ensures IsPow2(x) <==> IsPow2(Half(x))
  {
    hide *;
    PowApart(x);
    PowApart(Half(x));
    HalfBefore(x);
    HalvesApart(x, Dec(x));
  }

  lemma HalfBefore(x: bv64)
    requires !Odd(x) && x != 0
    ensures Half(Dec(x)) == Dec(Half(x)) && Half(x) != 0
  {}

  lemma HalvesApart(x: bv64, y: bv64)
    requires !Odd(x)
    ensures Apart(x, y) <==> Apart(Half(x), Half(y))
  {}

  lemma SmearRoundsUp(y: bv64)
    requires Small(y)
    ensures IsCeil(Inc(y), Inc(Smear(y)))
  {
    hide *;
    SmearCovers(y);
    OnesCeil(Smear(y), y);
  }

  /** `m` is a run of ones just long enough for `y`. */
  predicate Covers(m: bv64, y: bv64) {
    y <= m < 0x8000_0000_0000_0000 && m & (m + 1) == 0 && (m == 0 || m >> 1 < y)
  }

  lemma SmearCovers(y: bv64)
    requires Small(y)
    ensures Covers(Smear(y), y)
  {
    SmearRange(y);
    hide Smear;
  }

  lemma OnesCeil(m: bv64, y: bv64)
    requires Covers(m, y)
    ensures IsCeil(Inc(y), Inc(m))
  {
    OnesRoundUp(m, y);
    hide IsCeil;
  }

  lemma SmearRange(y: bv64)
    requires y < 0x8000_0000_0000_0000
    ensures var m := Smear(y); y <= m < 0x8000_0000_0000_0000 && m & (m + 1) == 0 && (m == 0 || m >> 1 < y)
  {}

  /** A word of ones just above `y` is one less than the power of two for `y + 1`. */
  lemma OnesRoundUp(m: bv64, y: bv64)
    requires y <= m < 0x8000_0000_0000_0000 && m & (m + 1) == 0 && (m == 0 || m >> 1 < y)
    ensures IsCeil(y + 1, m + 1)
  {}

  lemma SmearOverflows(y: bv64)
    requires !Small(y)
    ensures Inc(Smear(y)) == 0
  {}

  /** The source's loop over the byte shifts. */
  method SpreadBytes(c: bv64) returns (r: bv64)
    ensures r == Spread(Spread(Spread(c, 1), 2), 4)
  {
    r := c;
    var i := 1;
    while i < 8
      invariant i == 1 || i == 2 || i == 4 || i == 8
      invariant i == 1 ==> r == c
      invariant i == 2 ==> r == Spread(c, 1)
      invariant i == 4 ==> r == Spread(Spread(c, 1), 2)
      invariant i == 8 ==> r == Spread(Spread(Spread(c, 1), 2), 4)
    {
      r := Spread(r, i);
      i := 2 * i;
    }
  }

  method SmearBelow(y: bv64) returns (r: bv64)
    ensures r == Smear(y)
  {
    hide Spread;
    r := y | (y >> 1);
    r := r | (r >> 2);
    r := r | (r >> 4);
    r := SpreadBytes(r);
  }

  lemma SmearHalves(y: bv64)
    requires y != 0
    ensures Half(Smear(y)) == Smear(Half(y)) && Odd(Smear(y))
  {}

  /** Smearing the bits of `y` gives one less than the power of two above it. */
  lemma {:induction false} SmearValue(y: bv64)
    ensures Value(Smear(y)) + 1 == CeilPow2(Value(y) + 1)
    decreases Value(y)
  {
    if y == 0 {
      assert Smear(y) == 0;
    } else {
      SmearHalves(y);
      hide Half, Odd, Value, Smear;
      ValueUnfolds(y);
      ValueUnfolds(Smear(y));
      SmearValue(Half(y));
    }
  }

  lemma CeilValue(y: bv64)
    requires Small(y)
    ensures Value(Inc(Smear(y))) == CeilPow2(Value(Inc(y)))
  {
    SmearStaysSmall(y);
    hide *;
    NextIsPositive(y);
    NextIsPositive(Smear(y));
    ValueNext(y);
    ValueNext(Smear(y));
    SmearValue(y);
  }

  lemma SmearStaysSmall(y: bv64)
    requires Small(y)
    ensures Small(Smear(y))
  {
    hide Smear;
    SmearRange(y);
  }

  lemma NextIsPositive(y: bv64)
    requires Small(y)
    ensures Inc(y) != 0
  {}

  /** The bit-smearing round-up yields the least power of two at or above `x` exactly when there is
      one, and 0 otherwise (for 0 and above 2^63). */
  method CeilToPow2(x: bv64) returns (r: bv64)
    ensures if 1 <= x <= 0x8000_0000_0000_0000 then IsCeil(x, r) && Value(r) == CeilPow2(Value(x)) else r == 0
  {
    Reach(x);
    hide *;
    r := SmearBelow(Dec(x));
    if Small(Dec(x)) {
      SmearRoundsUp(Dec(x));
      CeilValue(Dec(x));
    } else {
      SmearOverflows(Dec(x));
    }
    r := Inc(r);
  }

  lemma Reach(x: bv64)
    ensures 1 <= x <= 0x8000_0000_0000_0000 <==> Small(Dec(x))
    ensures Inc(Dec(x)) == x
  {}

  // ---------- the index mask ----------

  function Masked(x: bv64, size: bv64): bv64 { x & (size - 1) }

  lemma MaskHalves(x: bv64, size: bv64)
    requires !Odd(size) && size != 0
    ensures Half(Masked(x, size)) == Masked(Half(x), Half(size))
    ensures Odd(Masked(x, size)) == Odd(x)
  {}

  /** Masking a word of at most `size` leaves it alone, except that `size` itself becomes 0. */
  lemma {:induction false} MaskedValue(x: bv64, size: bv64)
    requires IsPower(Value(size)) && Value(x) <= Value(size)
    ensures Value(Masked(x, size)) == if Value(x) == Value(size) then 0 else Value(x)
    decreases Value(size)
  {
    hide Half, Odd, Value, Masked;
    ValueUnfolds(size);
    ValueUnfolds(x);
    ValueUnfolds(Masked(x, size));
    if Value(size) == 1 {
      MaskedByOne(x, size);
    } else {
      ZeroValue();
      MaskHalves(x, size);
      MaskedValue(Half(x), Half(size));
    }
  }

  lemma MaskedByOne(x: bv64, size: bv64)
    requires Value(size) == 1
    ensures Value(Masked(x, size)) == 0
  {
    ValueUnfolds(size);
    ZeroValue();
    OneLeft(size);
  }

  lemma OneLeft(x: bv64)
    requires x != 0 && Half(x) == 0
    ensures x == 1
  {}

  /** For a block whose size is a power of two, `(i + 1) & sizeMask` is the next index round. */
  lemma MaskIsBump(i: bv64, size: bv64)
    requires IsPower(Value(size)) && Value(i) < Value(size)
    ensures Value(Masked(Inc(i), size)) == if Value(i) + 1 == Value(size) then 0 else Value(i) + 1
  {
    AllOnes(i, size);
    hide Value, IsPower, Half, Odd, Inc, Masked;
    ValueNext(i);
    MaskedValue(Inc(i), size);
  }

  lemma AllOnes(i: bv64, size: bv64)
    requires Value(i) < Value(size)
    ensures Inc(i) != 0
  {
    if Inc(i) == 0 { NothingAbove(i, size); ValueOfPart(size, i); }
  }

  lemma NothingAbove(i: bv64, size: bv64)
    requires Inc(i) == 0
    ensures Part(size, i)
  {}
}
