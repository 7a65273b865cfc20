/** What the bitwise operators of `Bits` do to single binary digits, and the
    algebra that follows. */
module BitLemmas {
  import opened Bits

  function Bit(a: nat, i: nat): (b: nat)
    ensures b <= 1
  {
    Shr(a, i) % 2
  }

  /* Shifts */

  lemma {:induction false} ShrShr(a: nat, i: nat, j: nat)
    ensures Shr(Shr(a, i), j) == Shr(a, i + j)
  {
    if i != 0 {
      ShrShr(a / 2, i - 1, j);
    }
  }

  lemma {:induction false} ShrAbove(a: nat, k: nat)
    requires a < Pow2(k)
    ensures Shr(a, k) == 0
  {
    if k != 0 {
      ShrAbove(a / 2, k - 1);
    }
  }

  lemma {:induction false} ShrShrinks(a: nat, k: nat)
    requires k > 0 && a > 0
    ensures Shr(a, k) < a
  {
  }

  /** Adding a multiple of 2^n leaves the digits below n alone. */
  lemma {:induction false} ShrOfSum(low: nat, high: nat, n: nat, i: nat)
    requires i <= n
    ensures Shr(low + Shl(high, n), i) == Shr(low, i) + Shl(high, n - i)
  {
    if i != 0 {
      var s := Shl(high, n - 1);
      assert (low + Shl(high, n)) / 2 == low / 2 + s;
      ShrOfSum(low / 2, high, n - 1, i - 1);
    }
  }

  lemma {:induction false} ShlByPow(a: nat, k: nat)
    ensures Shl(a, k) == a * Pow2(k)
  {
    if k != 0 {
      ShlByPow(a, k - 1);
    }
  }

  /** The digits below k are what `a >> k` discards. */
  lemma {:induction false} ShrSplit(a: nat, k: nat)
    ensures 0 <= a - Shl(Shr(a, k), k) < Pow2(k)
  {
    if k != 0 {
      ShrSplit(a / 2, k - 1);
    }
  }

  lemma {:induction false} ShrShl(a: nat, k: nat, i: nat)
    ensures Shr(Shl(a, k), i) == if i < k then Shl(a, k - i) else Shr(a, i - k)
  {
    if i != 0 && k != 0 {
      ShrShl(a, k - 1, i - 1);
    }
  }

  /* Digits of each operator */

  lemma {:induction false} ShrXor(a: nat, b: nat, k: nat)
    ensures Shr(Xor(a, b), k) == Xor(Shr(a, k), Shr(b, k))
  {
    if k != 0 {
      ShrXor(a / 2, b / 2, k - 1);
    }
  }

  lemma {:induction false} ShrOr(a: nat, b: nat, k: nat)
    ensures Shr(Or(a, b), k) == Or(Shr(a, k), Shr(b, k))
  {
    if k != 0 {
      ShrOr(a / 2, b / 2, k - 1);
    }
  }

  lemma BitXor(a: nat, b: nat, i: nat)
    ensures Bit(Xor(a, b), i) == if Bit(a, i) == Bit(b, i) then 0 else 1
  {
    ShrXor(a, b, i);
    XorStep(Shr(a, i), Shr(b, i));
  }

  lemma BitOr(a: nat, b: nat, i: nat)
    ensures Bit(Or(a, b), i) == if Bit(a, i) == 1 || Bit(b, i) == 1 then 1 else 0
  {
    ShrOr(a, b, i);
  }

  lemma BitMod64(a: nat, i: nat)
    requires i < 64
    ensures Bit(a % 0x1_0000_0000_0000_0000, i) == Bit(a, i)
  {
    var m, q := a % 0x1_0000_0000_0000_0000, a / 0x1_0000_0000_0000_0000;
    ShlOfQuotient(a, q);
    ShrOfSum(m, q, 64, i);
    ShlTwice(q, 63 - i);
    hide Shr, Shl;
    EvenAdded(Shr(m, i), Shl(q, 63 - i));
  }

  lemma ShlOfQuotient(a: nat, q: nat)
    requires q == a / 0x1_0000_0000_0000_0000
    ensures a == a % 0x1_0000_0000_0000_0000 + Shl(q, 64)
  {
    hide Shl, Pow2;
    Pow2Values();
    ShlByPow(q, 64);
  }

  lemma ShlTwice(a: nat, k: nat)
    ensures Shl(a, k + 1) == 2 * Shl(a, k)
  {
  }

  lemma EvenAdded(x: nat, h: nat)
    ensures (x + 2 * h) % 2 == x % 2
  {
  }

  lemma BitShl(a: nat, r: nat, i: nat)
    ensures Bit(Shl(a, r), i) == if i >= r then Bit(a, i - r) else 0
  {
    hide Shr;
    ShrShl(a, r, i);
    if i < r {
      Doubled(Shl(a, r - i - 1));
    }
  }

  lemma Doubled(h: nat)
    ensures (2 * h) % 2 == 0 && (2 * h) / 2 == h
  {
  }

  lemma BitShl64(a: u64, r: nat, i: nat)
    requires i < 64
    ensures Bit(Shl64(a, r), i) == if i >= r then Bit(a, i - r) else 0
  {
    hide Bit;
    var wide := Shl(a, r);
    BitMod64(wide, i);
    BitShl(a, r, i);
  }

  lemma BitAbove(a: u64, i: nat)
    requires i >= 64
    ensures Bit(a, i) == 0
  {
    Pow2Values();
    ShrAbove(a, 64);
    ShrShr(a, 64, i - 64);
    ShrAboveZero(i - 64);
  }

  /** Rotation moves digit i - r to digit i, modulo the word size. */
  lemma BitRotl64(a: u64, r: nat, i: nat)
    requires 0 < r < 64 && i < 64
    ensures Bit(Rotl64(a, r), i) == Bit(a, (i + 64 - r) % 64)
  {
    hide Bit, Shr, Shl, Or;
    BitOr(Shl64(a, r), Shr64(a, 64 - r), i);
    BitShl64(a, r, i);
    BitShr(a, 64 - r, i);
    if i >= r {
      BitAbove(a, i + 64 - r);
    }
  }

  lemma BitShr(a: nat, k: nat, i: nat)
    ensures Bit(Shr(a, k), i) == Bit(a, k + i)
  {
    ShrShr(a, k, i);
  }

  lemma {:induction false} ShrAboveZero(k: nat)
    ensures Shr(0, k) == 0
  {
  }

  /** Two words with the same digits are the same word. */
  lemma {:induction false} SameDigits(a: nat, b: nat, n: nat)
    requires a < Pow2(n) && b < Pow2(n)
    requires forall i :: 0 <= i < n ==> Bit(a, i) == Bit(b, i)
    ensures a == b
  {
    if n != 0 {
      assert Bit(a, 0) == Bit(b, 0);
      forall i | 0 <= i < n - 1 ensures Bit(a / 2, i) == Bit(b / 2, i) {
        assert Bit(a, i + 1) == Bit(b, i + 1);
      }
      SameDigits(a / 2, b / 2, n - 1);
    }
  }

  /* Algebra of exclusive or */

  lemma {:induction false} XorZero(a: nat)
    ensures Xor(a, 0) == a && Xor(0, a) == a
  {
    if a != 0 {
      XorZero(a / 2);
    }
  }

  lemma {:induction false} XorSelf(a: nat)
    ensures Xor(a, a) == 0
  {
    if a != 0 {
      XorSelf(a / 2);
    }
  }

  lemma {:induction false} XorComm(a: nat, b: nat)
    ensures Xor(a, b) == Xor(b, a)
    decreases a + b
  {
    if a != 0 || b != 0 {
      XorComm(a / 2, b / 2);
    }
  }

  lemma {:induction false} XorAssoc(a: nat, b: nat, c: nat)
    ensures Xor(Xor(a, b), c) == Xor(a, Xor(b, c))
    decreases a + b + c
  {
    if a != 0 || b != 0 || c != 0 {
      XorAssoc(a / 2, b / 2, c / 2);
      XorStep(a, b);
      XorStep(b, c);
      XorStep(Xor(a, b), c);
      XorStep(a, Xor(b, c));
    }
  }

  lemma {:induction false} OrComm(a: nat, b: nat)
    ensures Or(a, b) == Or(b, a)
    decreases a + b
  {
    if a != 0 || b != 0 {
      OrComm(a / 2, b / 2);
    }
  }

  lemma {:induction false} OrAssoc(a: nat, b: nat, c: nat)
    ensures Or(Or(a, b), c) == Or(a, Or(b, c))
    decreases a + b + c
  {
    if a != 0 || b != 0 || c != 0 {
      OrAssoc(a / 2, b / 2, c / 2);
      OrStep(a, b);
      OrStep(b, c);
      OrStep(Or(a, b), c);
      OrStep(a, Or(b, c));
    }
  }

  lemma OrStep(a: nat, b: nat)
    ensures Or(a, b) / 2 == Or(a / 2, b / 2)
    ensures Or(a, b) % 2 == if a % 2 == 1 || b % 2 == 1 then 1 else 0
  {
  }

  lemma {:induction false} XorStep(a: nat, b: nat)
    ensures Xor(a, b) / 2 == Xor(a / 2, b / 2)
    ensures Xor(a, b) % 2 == if a % 2 == b % 2 then 0 else 1
  {
  }

  lemma XorCancel(a: nat, b: nat, c: nat)
    requires Xor(a, c) == Xor(b, c)
    ensures a == b
  {
    XorAssoc(a, c, c);
    XorAssoc(b, c, c);
    XorSelf(c);
    XorZero(a);
    XorZero(b);
  }

  /** `x ^ (x >> k)` loses nothing: the top k digits are copied and each lower
      digit can then be recovered from a higher one. */
  lemma {:induction false} XorShiftInjective(a: nat, b: nat, k: nat)
    requires k > 0
    requires Xor(a, Shr(a, k)) == Xor(b, Shr(b, k))
    ensures a == b
    decreases a + b
  {
    if a != 0 || b != 0 {
      ShrXor(a, Shr(a, k), k);
      ShrXor(b, Shr(b, k), k);
      ShrAboveZero(k);
      if a != 0 { ShrShrinks(a, k); }
      if b != 0 { ShrShrinks(b, k); }
      XorShiftInjective(Shr(a, k), Shr(b, k), k);
      XorCancel(a, b, Shr(a, k));
    }
  }
}
