// Unsigned 64-bit words and their bitwise exclusive or, the arithmetic of
// the Zobrist keys (`u64` and `^` in the hashing code).

module Bits {

  function Pow2(k: nat): nat {
    if k == 0 then 1 else 2 * Pow2(k - 1)
  }

  lemma {:induction false} Pow2Add(m: nat, n: nat)
    ensures Pow2(m + n) == Pow2(m) * Pow2(n)
    decreases m
  {
    if m > 0 {
      Pow2Add(m - 1, n);
      assert Pow2(m + n) == 2 * Pow2(m - 1 + n);
    }
  }

  lemma Pow2At64()
    ensures Pow2(64) == 0x1_0000_0000_0000_0000
  {
    assert Pow2(8) == 256;
    Pow2Add(8, 8);
    assert Pow2(16) == 0x1_0000;
    Pow2Add(16, 16);
    assert Pow2(32) == 0x1_0000_0000;
    Pow2Add(32, 32);
  }

  /** `u64`: the integers representable in 64 bits. */
  type u64 = x: int | 0 <= x < 0x1_0000_0000_0000_0000

  /** Bitwise exclusive or of two naturals, lowest binary digit first. */
  function XorNat(a: nat, b: nat): nat
    decreases a + b
  {
    if a == 0 && b == 0 then 0
    else 2 * XorNat(a / 2, b / 2) + (if a % 2 == b % 2 then 0 else 1)
  }

  lemma XorSplit(a: nat, b: nat)
    ensures XorNat(a, b) / 2 == XorNat(a / 2, b / 2)
    ensures XorNat(a, b) % 2 == if a % 2 == b % 2 then 0 else 1
  {
  }

  /** Two naturals with the same half and the same parity are equal. */
  lemma HalvesEqual(x: nat, y: nat)
    requires x / 2 == y / 2 && x % 2 == y % 2
    ensures x == y
  {
  }

  /** The exclusive or of two `k`-bit numbers has `k` bits. */
  lemma {:induction false} XorBound(a: nat, b: nat, k: nat)
    requires a < Pow2(k) && b < Pow2(k)
    ensures XorNat(a, b) < Pow2(k)
    decreases k
  {
    if k > 0 && !(a == 0 && b == 0) {
      XorBound(a / 2, b / 2, k - 1);
    }
  }

  /** `^` on `u64`. */
  function Xor(a: u64, b: u64): u64 {
    Pow2At64();
    XorBound(a, b, 64);
    XorNat(a, b)
  }

  lemma {:induction false} XorNatComm(a: nat, b: nat)
    ensures XorNat(a, b) == XorNat(b, a)
    decreases a + b
  {
    if !(a == 0 && b == 0) {
      XorNatComm(a / 2, b / 2);
    }
  }

  lemma {:induction false} XorNatZero(a: nat)
    ensures XorNat(a, 0) == a
    decreases a
  {
    if a != 0 {
      XorNatZero(a / 2);
    }
  }

  lemma {:induction false} XorNatSelf(a: nat)
    ensures XorNat(a, a) == 0
    decreases a
  {
    if a != 0 {
      XorNatSelf(a / 2);
    }
  }

  lemma {:induction false} XorNatAssoc(a: nat, b: nat, c: nat)
    ensures XorNat(XorNat(a, b), c) == XorNat(a, XorNat(b, c))
    decreases a + b + c
  {
    if !(a == 0 && b == 0 && c == 0) {
      var ab := XorNat(a, b);
      var bc := XorNat(b, c);
      var l := XorNat(ab, c);
      var r := XorNat(a, bc);
      XorSplit(a, b);
      XorSplit(b, c);
      XorSplit(ab, c);
      XorSplit(a, bc);
      XorNatAssoc(a / 2, b / 2, c / 2);
      assert l / 2 == r / 2;
      assert l % 2 == r % 2;
      HalvesEqual(l, r);
    }
  }

  // The group laws of `^` on `u64`.

  lemma XorComm(a: u64, b: u64)
    ensures Xor(a, b) == Xor(b, a)
  {
    XorNatComm(a, b);
  }

  lemma XorZero(a: u64)
    ensures Xor(a, 0) == a && Xor(0, a) == a
  {
    XorNatZero(a);
    XorNatComm(a, 0);
  }

  lemma XorSelf(a: u64)
    ensures Xor(a, a) == 0
  {
    XorNatSelf(a);
  }

  lemma XorAssoc(a: u64, b: u64, c: u64)
    ensures Xor(Xor(a, b), c) == Xor(a, Xor(b, c))
  {
    XorNatAssoc(a, b, c);
  }

  /** Exclusive or with the same key twice cancels. */
  lemma XorCancel(x: u64, a: u64, k: u64)
    ensures Xor(x, k) == Xor(Xor(Xor(x, a), a), k)
  {
    XorAssoc(x, a, a);
    XorSelf(a);
    XorZero(x);
  }

  /** A key may be moved past two others. */
  lemma XorSwap(y: u64, a: u64, k: u64, l: u64)
    ensures Xor(Xor(Xor(y, a), k), l) == Xor(Xor(Xor(y, l), a), k)
  {
    var ya := Xor(y, a);
    XorAssoc(ya, k, l);
    XorComm(k, l);
    XorAssoc(ya, l, k);
    XorAssoc(y, a, l);
    XorComm(a, l);
    XorAssoc(y, l, a);
  }
}
