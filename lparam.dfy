/**
 * The mouse-message coordinate word `lParam = (y << 16) | x`, computed with Python's
 * operators on unbounded integers: `<<` is multiplication by a power of two and `|` acts
 * on the infinite two's-complement representation (negative numbers have all high bits set).
 */
module LParam {

  function Abs(a: int): nat { if a < 0 then -a else a }

  /** Python's `a | b` on unbounded integers. */
  function BitOr(a: int, b: int): int
    decreases Abs(a) + Abs(b)
  {
    if a == 0 then b
    else if b == 0 then a
    else if a == -1 || b == -1 then -1
    else 2 * BitOr(a / 2, b / 2) + (if a % 2 == 1 || b % 2 == 1 then 1 else 0)
  }

  function Pow2(k: nat): (r: nat)
    ensures r >= 1
  {
    if k == 0 then 1 else 2 * Pow2(k - 1)
  }

  /** `(y << 16) | x`, as `_send_click_message` and `send_mouse_message` build it. */
  function Pack(x: int, y: int): int
  {
    BitOr(y * 65536, x)
  }

  /** When x fits in the low k bits, or-ing it onto a multiple of 2^k is addition. */
  lemma {:induction false} OrLowBits(y: int, x: int, k: nat)
    requires 0 <= x < Pow2(k)
    ensures BitOr(y * Pow2(k), x) == y * Pow2(k) + x
    decreases k
  {
    var a := y * Pow2(k);
    if k == 0 {
      assert x == 0;
    } else if a != 0 && x != 0 {
      var m := y * Pow2(k - 1);
      assert a == 2 * m;
      assert a / 2 == m && a % 2 == 0;
      OrLowBits(y, x / 2, k - 1);
    }
  }

  /** A negative x (at least -2^k) already has every bit from k upwards set: or-ing
      anything that lives above bit k onto it leaves x. */
  lemma {:induction false} OrNegativeLow(y: int, x: int, k: nat)
    requires -(Pow2(k) as int) <= x < 0
    ensures BitOr(y * Pow2(k), x) == x
    decreases k
  {
    var a := y * Pow2(k);
    if k == 0 {
      assert x == -1;
    } else if a != 0 && x != -1 {
      var m := y * Pow2(k - 1);
      assert a == 2 * m;
      assert a / 2 == m && a % 2 == 0;
      OrNegativeLow(y, x / 2, k - 1);
    }
  }

  lemma Pow2Is65536()
    ensures Pow2(16) == 65536
  {
    assert Pow2(2) == 4;
    assert Pow2(4) == 16;
    assert Pow2(6) == 64;
    assert Pow2(8) == 256;
    assert Pow2(10) == 1024;
    assert Pow2(12) == 4096;
    assert Pow2(14) == 16384;
  }

  /**
   * Round trip of the packing: for 0 <= x < 65536 the receiver's `LOWORD`
   * (`lParam & 0xFFFF`) gives back x and `lParam >> 16` gives back y.
   */
  lemma PackRoundTrip(x: int, y: int)
    requires 0 <= x < 65536
    ensures Pack(x, y) == y * 65536 + x
    ensures Pack(x, y) % 65536 == x && Pack(x, y) / 65536 == y
  {
    Pow2Is65536();
    OrLowBits(y, x, 16);
  }

  /** A negative x in [-65536, 0) swallows y: the packed word is x itself. */
  lemma PackNegativeX(x: int, y: int)
    requires -65536 <= x < 0
    ensures Pack(x, y) == x
  {
    Pow2Is65536();
    OrNegativeLow(y, x, 16);
  }
}
