/** Natural numbers as bits. */
module Bits {

  predicate BitAt(n: nat, k: nat) {
    if k == 0 then n % 2 == 1 else BitAt(n / 2, k - 1)
  }

  function Power(width: nat): (p: nat)
    ensures p > 0
  {
    if width == 0 then 1 else 2 * Power(width - 1)
  }

  lemma {:induction false} SameBits(a: nat, b: nat, width: nat)
    requires forall k | 0 <= k < width :: BitAt(a, k) == BitAt(b, k)
    requires a < Power(width) && b < Power(width)
    ensures a == b
  {
    if width > 0 {
      assert BitAt(a, 0) == BitAt(b, 0);
      forall k | 0 <= k < width - 1 ensures BitAt(a / 2, k) == BitAt(b / 2, k) {
        assert BitAt(a, k + 1) == BitAt(b, k + 1);
      }
      SameBits(a / 2, b / 2, width - 1);
    }
  }

  lemma HalfOfSum(n: nat, high: nat)
    ensures (n + 2 * high) / 2 == n / 2 + high && (n + 2 * high) % 2 == n % 2
  {
  }

  /** Setting a clear bit is adding its weight; no other bit changes. */
  lemma {:induction false} BitSet(n: nat, bit: nat, k: nat)
    requires !BitAt(n, bit)
    ensures BitAt(n + Power(bit), k) <==> k == bit || BitAt(n, k)
    decreases bit
  {
    if bit == 0 {
      assert (n + 1) / 2 == n / 2 && (n + 1) % 2 == 1;
    } else {
      HalfOfSum(n, Power(bit - 1));
      if k > 0 {
        BitSet(n / 2, bit - 1, k - 1);
      }
    }
  }

  lemma {:induction false} BitSetBound(n: nat, bit: nat, width: nat)
    requires !BitAt(n, bit) && bit < width && n < Power(width)
    ensures n + Power(bit) < Power(width)
    decreases bit
  {
    if bit > 0 {
      HalfOfSum(n, Power(bit - 1));
      BitSetBound(n / 2, bit - 1, width - 1);
    }
  }

  lemma {:induction false} HighBitsClear(n: nat, width: nat, k: nat)
    requires n < Power(width) && k >= width
    ensures !BitAt(n, k)
    decreases k
  {
    if k > 0 {
      if width == 0 {
        HighBitsClear(n / 2, 0, k - 1);
      } else {
        HighBitsClear(n / 2, width - 1, k - 1);
      }
    }
  }
}
