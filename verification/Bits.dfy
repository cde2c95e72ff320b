/** Unsigned machine arithmetic on unbounded naturals: powers of two, bitwise AND and prefix masks. */
module Bits {
  function Pow2(n: nat): (r: nat)
    ensures r >= 1
  {
    if n == 0 then 1 else 2 * Pow2(n - 1)
  }

  /** Bitwise AND of two naturals. */
  function And(a: nat, b: nat): nat {
    if a == 0 || b == 0 then 0
    else 2 * And(a / 2, b / 2) + (if a % 2 == 1 && b % 2 == 1 then 1 else 0)
  }

  /** The word of `width` ones shifted left by `shift`, truncated to `width` bits. */
  function ShiftedOnes(width: nat, shift: nat): nat {
    (Pow2(width) - 1) * Pow2(shift) % Pow2(width)
  }

  lemma {:induction false} PowerSum(m: nat, n: nat)
    ensures Pow2(m + n) == Pow2(m) * Pow2(n)
  {
    if n > 0 {
      PowerSum(m, n - 1);
      assert Pow2(m + n) == 2 * Pow2(m + (n - 1));
    }
  }

  lemma PowerMonotone(m: nat, n: nat)
    requires m <= n
    ensures Pow2(m) <= Pow2(n)
  {
    PowerSum(m, n - m);
    var low, rest := Pow2(m), Pow2(n - m);
    assert low * 1 <= low * rest;
  }

  lemma ShiftedOnesValue(width: nat, shift: nat)
    requires shift < width
    ensures Pow2(shift) < Pow2(width)
    ensures ShiftedOnes(width, shift) == Pow2(width) - Pow2(shift)
  {
    PowerMonotone(shift + 1, width);
    AllOnesTimes(Pow2(width), Pow2(shift));
  }

  lemma AllOnesTimes(m: nat, p: nat)
    requires 1 <= p < m
    ensures (m - 1) * p % m == m - p
  {
    Distribute(m, -1, p);
    Distribute(p, -1, m);
    RemainderOf(m, p - 1, m - p);
  }

  lemma Distribute(a: int, b: int, c: int)
    ensures (a + b) * c == a * c + b * c
  {
  }

  lemma RemainderOf(m: nat, q: int, r: int)
    requires m > 0 && 0 <= r < m
    ensures (m * q + r) % m == r
  {
    var v := m * q + r;
    var q', r' := v / m, v % m;
    assert m * q + r == m * q' + r';
    SameQuotient(m, q, r, q', r');
  }

  lemma SameQuotient(m: int, q: int, r: int, q': int, r': int)
    requires 0 <= r < m && 0 <= r' < m
    requires m * q + r == m * q' + r'
    ensures q == q' && r == r'
  {
    if q < q' {
      Distribute(q', -q, m);
      ProductAtLeast(m, q' - q);
    } else if q' < q {
      Distribute(q, -q', m);
      ProductAtLeast(m, q - q');
    }
  }

  lemma ProductAtLeast(m: int, k: int)
    requires m >= 0 && k >= 1
    ensures m * k >= m
  {
  }

  lemma {:induction false} AndAllOnes(x: nat, width: nat)
    requires x < Pow2(width)
    ensures And(x, Pow2(width) - 1) == x
  {
    if width > 0 {
      AndAllOnes(x / 2, width - 1);
      AndWithOdd(x, Pow2(width - 1) - 1);
    }
  }

  /** The mask leaves of a number all but its remainder by `size`. */
  predicate Clears(x: nat, mask: nat, size: nat)
    requires size > 0
  {
    And(x, mask) == x - x % size
  }

  lemma {:induction false} MaskClears(x: nat, width: nat, shift: nat)
    requires shift <= width && x < Pow2(width)
    ensures Pow2(shift) <= Pow2(width) && Clears(x, Pow2(width) - Pow2(shift), Pow2(shift))
  {
    hide Pow2, And, Clears;
    PowerMonotone(shift, width);
    if shift == 0 {
      AndAllOnes(x, width);
      PowerOfZero();
      OneClears(x, Pow2(width) - 1);
    } else {
      PowerDoubles(width - 1);
      PowerDoubles(shift - 1);
      HalfFits(x, Pow2(width - 1));
      MaskClears(x / 2, width - 1, shift - 1);
      HalfMask(x, Pow2(width - 1), Pow2(shift - 1), Pow2(width), Pow2(shift));
    }
  }

  lemma PowerOfZero()
    ensures Pow2(0) == 1
  {
  }

  lemma OneClears(x: nat, mask: nat)
    requires And(x, mask) == x
    ensures Clears(x, mask, 1)
  {
    hide And;
  }

  lemma PowerDoubles(n: nat)
    ensures Pow2(n + 1) == 2 * Pow2(n)
  {
  }

  lemma HalfFits(x: nat, high: nat)
    requires x < 2 * high
    ensures x / 2 < high
  {
  }

  /** A mask that clears the low bits of the half clears those of the whole. */
  lemma HalfMask(x: nat, high: nat, low: nat, whole: nat, size: nat)
    requires 0 < low <= high && Clears(x / 2, high - low, low)
    requires whole == 2 * high && size == 2 * low
    ensures Clears(x, whole - size, size)
  {
    hide And;
    AndWithEven(x, high - low);
    HalfRemainder(x, low);
  }

  /** Masking with the top bits of a word clears exactly the low `shift` bits. */
  lemma MaskClearsLowBits(x: nat, width: nat, shift: nat)
    requires shift <= width && x < Pow2(width)
    ensures Pow2(shift) <= Pow2(width)
    ensures And(x, Pow2(width) - Pow2(shift)) == x - x % Pow2(shift)
  {
    hide Pow2, And;
    MaskClears(x, width, shift);
  }

  lemma AndWithEven(a: nat, b: nat)
    ensures And(a, 2 * b) == 2 * And(a / 2, b)
  {
    assert 2 * b / 2 == b;
  }

  lemma AndWithOdd(a: nat, b: nat)
    ensures And(a, 2 * b + 1) == 2 * And(a / 2, b) + a % 2
  {
    assert (2 * b + 1) / 2 == b;
  }

  lemma HalfRemainder(x: nat, p: nat)
    requires p > 0
    ensures x % (2 * p) == 2 * (x / 2 % p) + x % 2
  {
    var h := x / 2;
    assert h == p * (h / p) + h % p;
    assert x == 2 * p * (h / p) + (2 * (h % p) + x % 2) by {
      assert 2 * (p * (h / p)) == 2 * p * (h / p);
    }
    RemainderOf(2 * p, h / p, 2 * (h % p) + x % 2);
  }

  /** Equal masked words are exactly the words of the network's interval. */
  lemma MaskedEqualityIsInterval(x: nat, network: nat, width: nat, shift: nat)
    requires shift < width && x < Pow2(width) && network < Pow2(width)
    requires network % Pow2(shift) == 0
    ensures And(x, ShiftedOnes(width, shift)) == And(network, ShiftedOnes(width, shift))
      <==> network <= x < network + Pow2(shift)
  {
    var p := Pow2(shift);
    ShiftedOnesValue(width, shift);
    MaskClearsLowBits(x, width, shift);
    MaskClearsLowBits(network, width, shift);
    AlignedInterval(x, network, p);
  }

  lemma AlignedInterval(x: nat, network: nat, p: nat)
    requires p > 0 && network % p == 0
    ensures x - x % p == network <==> network <= x < network + p
  {
    if network <= x < network + p {
      assert network == p * (network / p);
      RemainderOf(p, network / p, x - network);
    }
  }

  /** A number has one quotient and one remainder. */
  lemma SameDigits(x: nat, r: nat, y: nat, s: nat, radix: nat)
    requires r < radix && s < radix && x * radix + r == y * radix + s
    ensures x == y && r == s
  {
    SameQuotient(radix, x, r, y, s);
  }
}
