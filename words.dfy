/** Machine words of the 64-bit kernel: `word_t`, `MASK` and the wrap-around
    arithmetic the capability classifier relies on. */
module Words {

  const WORD_BITS: nat := 64
  const WORD_MODULUS: nat := 0x1_0000_0000_0000_0000

  /** `word_t`: an unsigned 64-bit value. */
  type Word = x: nat | x < WORD_MODULUS

  /** Pointers into the model's object arenas; 0 is `NULL`. */
  type Ptr = Word

  const NULL: Ptr := 0

  /** An optional value: a slot reference that may be `NULL`. */
  datatype Option<T> = None | Some(value: T)

  function Pow2(n: nat): (r: nat)
    ensures r >= 1
  {
    if n == 0 then 1 else 2 * Pow2(n - 1)
  }

  /** `MASK(n)`, the word whose low `n` bits are set. A shift by 64 or more,
      undefined in C, yields the all-ones word here. */
  function Mask(n: nat): Word
  {
    (Pow2(n) - 1) % WORD_MODULUS
  }

  /** Unsigned addition with wrap-around, as `word_t` addition behaves. */
  function WordAdd(a: Word, b: Word): (r: Word)
    ensures a + b < WORD_MODULUS ==> r == a + b
    ensures a + b >= WORD_MODULUS ==> r == a + b - WORD_MODULUS
  {
    (a + b) % WORD_MODULUS
  }

  /** Bitwise or of two words. */
  function WordOr(a: Word, b: Word): Word
  {
    ((a as bv64) | (b as bv64)) as nat
  }

  lemma ModBounds(p: nat, d: nat)
    requires d >= 1
    ensures 0 <= p % d < d && p % d <= p
  {
    if p < d {
      assert p % d == p;
    }
  }

  lemma MulAtLeast(a: int, d: int)
    requires a >= 1 && d >= 1
    ensures a * d >= d
  {
  }

  /** Euclidean remainder of a multiple of `d` by `d` is 0. */
  lemma MultipleModZero(q: nat, d: nat)
    requires d >= 1
    ensures (q * d) % d == 0
  {
    var t, m := (q * d) / d, (q * d) % d;
    assert q * d == t * d + m && 0 <= m < d;
    assert (q - t) * d == m;
    if q - t >= 1 {
      MulAtLeast(q - t, d);
    } else if q - t <= -1 {
      MulAtLeast(t - q, d);
    }
  }

  /** `p & ~MASK(bits)`: the start of the `2^bits`-aligned block holding `p`,
      that is the multiple of `2^bits` at or below `p` and less than one
      block away from it (the only such multiple: `AlignDownUnique`). */
  function AlignDown(p: Word, bits: nat): (r: Word)
    ensures r % Pow2(bits) == 0
    ensures r <= p && (p - r) < Pow2(bits)
  {
    var d := Pow2(bits);
    var m := p % d;
    assert 0 <= m < d && m <= p by { ModBounds(p, d); }
    assert (p - m) % d == 0 by {
      assert p - m == (p / d) * d;
      MultipleModZero(p / d, d);
    }
    p - m
  }

  /** Two multiples of `d` less than `d` apart are equal. */
  lemma CloseMultiplesEqual(x: nat, y: nat, d: nat)
    requires d >= 1 && x % d == 0 && y % d == 0 && y <= x < y + d
    ensures x == y
  {
    var qx, qy := x / d, y / d;
    assert x == qx * d && y == qy * d;
    assert (qx - qy) * d == x - y;
    if qx - qy >= 1 {
      MulAtLeast(qx - qy, d);
    } else if qx - qy <= -1 {
      MulAtLeast(qy - qx, d);
    }
  }

  /** Any `2^bits`-aligned address at or below `p` and less than one block
      away from it is `AlignDown(p, bits)`. */
  lemma AlignDownUnique(p: Word, bits: nat, a: Word)
    requires a % Pow2(bits) == 0 && a <= p && p - a < Pow2(bits)
    ensures a == AlignDown(p, bits)
  {
    var r := AlignDown(p, bits);
    if a <= r {
      CloseMultiplesEqual(r, a, Pow2(bits));
    } else {
      CloseMultiplesEqual(a, r, Pow2(bits));
    }
  }
}
