/**
 Bytes and 64-bit words as bounded numbers, with the bitwise operations the code
 uses written out bit by bit: `Bit(w, d)` is bit d of w.
 */
module Words {
  type byte = n: nat | n < 256
  type bytes = seq<byte>

  const UINT32_LIMIT: nat := 0x1_0000_0000
  const UINT64_LIMIT: nat := 0x1_0000_0000_0000_0000
  const UINT64_MAX: nat := 0xFFFF_FFFF_FFFF_FFFF

  type uint64 = n: nat | n < UINT64_LIMIT

  function Bit(w: nat, d: nat): bool {
    if d == 0 then w % 2 == 1 else Bit(w / 2, d - 1)
  }

  function Or(a: nat, b: nat): nat {
    if a == 0 && b == 0 then 0
    else (if a % 2 == 1 || b % 2 == 1 then 1 else 0) + 2 * Or(a / 2, b / 2)
  }

  function And(a: nat, b: nat): nat {
    if a == 0 || b == 0 then 0
    else (if a % 2 == 1 && b % 2 == 1 then 1 else 0) + 2 * And(a / 2, b / 2)
  }

  function Xor(a: nat, b: nat): nat {
    if a == 0 && b == 0 then 0
    else (if a % 2 != b % 2 then 1 else 0) + 2 * Xor(a / 2, b / 2)
  }

  /** The 64-bit shift: each place doubles the word and drops what no longer fits. */
  function ShiftLeft(w: uint64, places: nat): uint64 {
    if places == 0 then w else 2 * ShiftLeft(w, places - 1) % UINT64_LIMIT
  }

  lemma {:induction false} OrIsZero(a: nat, b: nat)
    ensures Or(a, b) == 0 <==> (a == 0 && b == 0)
  {
    if a != 0 || b != 0 { OrIsZero(a / 2, b / 2); }
  }

  lemma {:induction false} XorIsZero(a: nat, b: nat)
    ensures Xor(a, b) == 0 <==> a == b
  {
    if a != 0 || b != 0 { XorIsZero(a / 2, b / 2); }
  }

  lemma {:induction false} BitOfZero(d: nat)
    ensures !Bit(0, d)
  {
    if d > 0 { BitOfZero(d - 1); }
  }

  lemma BitOfOne(d: nat)
    ensures Bit(1, d) <==> d == 0
  {
    if d > 0 { BitOfZero(d - 1); }
  }

  /** Or works bit by bit: its lowest bit, and what is above it. */
  lemma OrHalves(a: nat, b: nat)
    ensures Or(a, b) / 2 == Or(a / 2, b / 2)
    ensures Or(a, b) % 2 == if a % 2 == 1 || b % 2 == 1 then 1 else 0
  {
    var above := Or(a / 2, b / 2);
    var lowest := if a % 2 == 1 || b % 2 == 1 then 1 else 0;
    if a == 0 && b == 0 {
      assert Or(a, b) == 0;
    } else {
      assert Or(a, b) == lowest + 2 * above;
    }
  }

  lemma {:induction false} BitOfOr(a: nat, b: nat, d: nat)
    ensures Bit(Or(a, b), d) <==> (Bit(a, d) || Bit(b, d))
    decreases d
  {
    OrHalves(a, b);
    if d > 0 { BitOfOr(a / 2, b / 2, d - 1); }
  }

  /** Or does not leave the word: it stays below any power of two that bounds both sides. */
  lemma {:induction false} OrBounded(a: nat, b: nat, k: nat)
    requires a < Power2(k) && b < Power2(k)
    ensures Or(a, b) < Power2(k)
    decreases k
  {
    if k > 0 && (a != 0 || b != 0) { OrBounded(a / 2, b / 2, k - 1); }
  }

  function Power2(k: nat): (p: nat)
    ensures p > 0
  {
    if k == 0 then 1 else 2 * Power2(k - 1)
  }

  lemma {:induction false} PowerSum(a: nat, b: nat)
    ensures Power2(a + b) == Power2(a) * Power2(b)
    decreases a
  {
    if a > 0 {
      PowerSum(a - 1, b);
      assert Power2(a + b) == 2 * Power2(a - 1 + b);
    }
  }

  lemma PowerDoubles(k: nat, p: nat)
    requires Power2(k) == p
    ensures Power2(2 * k) == p * p
  {
    PowerSum(k, k);
  }

  lemma Power16()
    ensures Power2(16) == 65536
  {
    assert Power2(4) == 16;
    PowerDoubles(4, 16);
    PowerDoubles(8, 256);
  }

  lemma Power32()
    ensures Power2(32) == UINT32_LIMIT
  {
    Power16();
    PowerDoubles(16, 65536);
  }

  lemma Power64()
    ensures Power2(64) == UINT64_LIMIT
  {
    Power32();
    PowerDoubles(32, UINT32_LIMIT);
  }

  lemma TwiceTimes(w: nat, q: nat)
    ensures w * (2 * q) == 2 * (w * q) >= w * q
  {}

  lemma {:induction false} MultiplesApart(p: nat, a: nat, c: nat)
    requires a > c
    ensures p * a >= p * c + p
    decreases a
  {
    assert p * a == p * (a - 1) + p;
    if a - 1 > c { MultiplesApart(p, a - 1, c); }
  }

  /** Quotient and remainder are unique. */
  lemma Division(p: nat, a: nat, b: nat, c: nat, e: nat)
    requires p * a + b == p * c + e && b < p && e < p
    ensures a == c && b == e
  {
    if a > c { MultiplesApart(p, a, c); }
    if c > a { MultiplesApart(p, c, a); }
  }

  lemma Remainder(w: nat, m: nat, q: nat, r: nat)
    requires w == m * q + r && r < m
    ensures w % m == r
  {
    Division(m, w / m, w % m, q, r);
  }

  lemma Doubled(p: nat, q: nat, s: nat, h: nat)
    requires h == p * q + s
    ensures 2 * h == (2 * p) * q + 2 * s
  {
    TwiceTimes(q, p);
  }

  lemma HalfOfRemainder(w: nat, p: nat)
    requires p > 0
    ensures w % (2 * p) == 2 * (w / 2 % p) + w % 2
  {
    var h := w / 2;
    Doubled(p, h / p, h % p, h);
    Remainder(w, 2 * p, h / p, 2 * (h % p) + w % 2);
  }

  lemma {:induction false} BitOfTruncation(w: nat, k: nat, d: nat)
    requires d < k
    ensures Bit(w % Power2(k), d) <==> Bit(w, d)
    decreases k
  {
    HalfOfRemainder(w, Power2(k - 1));
    var half := w / 2 % Power2(k - 1);
    assert (2 * half + w % 2) / 2 == half;
    if d > 0 {
      BitOfTruncation(w / 2, k - 1, d - 1);
    }
  }

  lemma {:induction false} BitOfShift(w: uint64, places: nat, d: nat)
    requires d < 64
    ensures Bit(ShiftLeft(w, places), d) <==> (d >= places && Bit(w, d - places))
    decreases places
  {
    if places > 0 {
      var x: nat := ShiftLeft(w, places - 1);
      Power64();
      BitOfTruncation(2 * x, 64, d);
      if d > 0 {
        assert (2 * x) / 2 == x;
        BitOfShift(w, places - 1, d - 1);
      }
    }
  }

  lemma {:induction false} PowerMonotone(j: nat, k: nat)
    requires j <= k
    ensures Power2(j) <= Power2(k)
    decreases k
  {
    if j < k { PowerMonotone(j, k - 1); }
  }

  lemma {:induction false} ShiftOfOne(d: nat)
    requires d < 64
    ensures ShiftLeft(1, d) == Power2(d)
  {
    if d > 0 {
      ShiftOfOne(d - 1);
      Power64();
      PowerMonotone(d + 1, 64);
      ShiftOnce(1, d, Power2(d - 1));
    }
  }

  lemma {:induction false} AndPower(w: nat, d: nat)
    ensures And(w, Power2(d)) != 0 <==> Bit(w, d)
    decreases d
  {
    if w == 0 {
      BitOfZero(d);
    } else if d > 0 {
      AndPower(w / 2, d - 1);
    }
  }

  /** Testing a word against a one-bit mask asks for that bit. */
  lemma BitOfMask(w: nat, d: nat)
    requires d < 64
    ensures And(w, ShiftLeft(1, d)) != 0 <==> Bit(w, d)
  {
    ShiftOfOne(d);
    AndPower(w, d);
  }

  /** A word is determined by its bits. */
  lemma {:induction false} SameBits(a: nat, b: nat, k: nat)
    requires a < Power2(k) && b < Power2(k)
    requires forall d :: 0 <= d < k ==> (Bit(a, d) <==> Bit(b, d))
    ensures a == b
    decreases k
  {
    if k > 0 {
      forall d | 0 <= d < k - 1
        ensures Bit(a / 2, d) <==> Bit(b / 2, d)
      {
        assert Bit(a, d + 1) <==> Bit(b, d + 1);
      }
      SameBits(a / 2, b / 2, k - 1);
      assert Bit(a, 0) <==> Bit(b, 0);
    }
  }

  /** A shift that loses nothing multiplies. */
  lemma {:induction false} ShiftIsProduct(w: uint64, places: nat)
    requires w * Power2(places) < UINT64_LIMIT
    ensures ShiftLeft(w, places) == w * Power2(places)
  {
    if places > 0 {
      TwiceTimes(w, Power2(places - 1));
      ShiftIsProduct(w, places - 1);
      ShiftOnce(w, places, w * Power2(places - 1));
    }
  }

  lemma ShiftOnce(w: uint64, places: nat, shifted: nat)
    requires places > 0 && ShiftLeft(w, places - 1) == shifted && 2 * shifted < UINT64_LIMIT
    ensures ShiftLeft(w, places) == 2 * shifted
  {}

  lemma {:induction false} OrWithZero(a: nat)
    ensures Or(a, 0) == a
  {
    if a != 0 { OrWithZero(a / 2); }
  }

  /** Joining a shifted number with one that fits below it adds them. */
  lemma {:induction false} OrOfParts(high: nat, low: nat, places: nat)
    requires low < Power2(places)
    ensures Or(high * Power2(places), low) == high * Power2(places) + low
    decreases places
  {
    if places == 0 {
      OrWithZero(high);
    } else {
      TwiceTimes(high, Power2(places - 1));
      OrOfParts(high, low / 2, places - 1);
      OrOfEven(high * Power2(places - 1), low);
    }
  }

  lemma OrOfEven(half: nat, low: nat)
    ensures Or(2 * half, low) == low % 2 + 2 * Or(half, low / 2)
  {
    OrHalves(2 * half, low);
    assert (2 * half) / 2 == half;
  }
}
