/** The baud-rate divisor of the serial driver (src/serial.rs:17-20): 64-bit
    unsigned arithmetic truncated to the 16-bit UBRR0 register. */
module Baud {
  import opened Registers

  /** Rust's u64. */
  newtype u64 = x: int | 0 <= x < 0x1_0000_0000_0000_0000

  /** The data sheet's divisor for normal-speed asynchronous mode (16 samples
      per bit), rounded to the nearest integer, halves rounding up. */
  function NearestDivisor(frqHz: nat, baudRate: nat): int
    requires baudRate > 0
  {
    (frqHz + 8 * baudRate) / (16 * baudRate) - 1
  }

  /** The divisor for the clock frequency `frqHz` and the bit rate
      `baudRate`.  The division by zero and the subtraction that would wrap
      below zero are excluded, since both stop the program; the cast to
      16 bits is kept.  The result is the nearest 16-sample divisor, modulo
      2^16. */
  function UbrrWith(frqHz: u64, baudRate: u64): (r: u16)
    requires baudRate > 0
    requires frqHz / 8 / baudRate >= 1
    ensures r as int == NearestDivisor(frqHz as int, baudRate as int) % 0x1_0000
  {
    // every intermediate value lies between 0 and frqHz, so the 64-bit
    // operations are the integer ones
    var f, b := frqHz as int, baudRate as int;
    HalfRoundedDivisor(f, b);
    ((f / 8 / b - 1) / 2 % 0x1_0000) as u16
  }

  /** The divisor for a 16 MHz clock and 9600 baud is 103, and for
      115200 baud it is 8, the values of the ATmega328P data sheet. */
  lemma UbrrWithExamples()
    ensures UbrrWith(16_000_000, 9600) == 103
    ensures UbrrWith(16_000_000, 115200) == 8
  {
  }

  /** Below 2^16 the cast to 16 bits loses nothing. */
  lemma UbrrWithExact(frqHz: u64, baudRate: u64)
    requires baudRate > 0
    requires frqHz / 8 / baudRate >= 1
    requires NearestDivisor(frqHz as int, baudRate as int) < 0x1_0000
    ensures UbrrWith(frqHz, baudRate) as int == NearestDivisor(frqHz as int, baudRate as int)
  {
    HalfRoundedDivisor(frqHz as int, baudRate as int);
  }

  /** Halving the 8-sample quotient, less one, rounds the 16-sample quotient
      to the nearest integer. */
  lemma HalfRoundedDivisor(f: nat, b: nat)
    requires b > 0
    requires f / 8 / b >= 1
    ensures (f / 8 / b - 1) / 2 == NearestDivisor(f, b)
  {
    NestedDivision(f, 8, b);
    var q := f / (8 * b);
    var r0 := f % (8 * b);
    var k := (q + 1) / 2;
    var e := (q + 1) % 2;
    assert f == 8 * b * q + r0;
    assert q + 1 == 2 * k + e;
    assert 8 * b * (q + 1) == 16 * b * k + 8 * b * e;
    assert f + 8 * b == 16 * b * k + (8 * b * e + r0);
    assert 0 <= 8 * b * e <= 8 * b;
    DivisionUnique(f + 8 * b, 16 * b, k, 8 * b * e + r0);
  }

  /** Dividing by `a` and then by `b` is dividing by `a * b`. */
  lemma NestedDivision(f: nat, a: nat, b: nat)
    requires a > 0 && b > 0
    ensures f / a / b == f / (a * b)
  {
    var q := f / a;
    var s := q % b;
    var k := q / b;
    assert f == a * q + f % a;
    assert q == b * k + s;
    calc {
      a * q;
      a * (b * k + s);
      { Distribute(a, b * k, s); }
      a * (b * k) + a * s;
      { assert a * (b * k) == (a * b) * k; }
      (a * b) * k + a * s;
    }
    assert a * s <= a * (b - 1) by {
      MultiplyMonotone(a, s, b - 1);
    }
    Distribute(a, b - 1, 1);
    DivisionUnique(f, a * b, k, a * s + f % a);
  }

  /** Quotient and remainder are unique. */
  lemma DivisionUnique(n: int, d: int, k: int, r: int)
    requires d > 0 && 0 <= r < d
    requires n == d * k + r
    ensures n / d == k
  {
    var q, m := n / d, n % d;
    assert n == d * q + m && 0 <= m < d;
    if q < k {
      MultiplyMonotone(d, q + 1, k);
      assert false;
    } else if q > k {
      MultiplyMonotone(d, k + 1, q);
      assert false;
    }
  }

  lemma Distribute(a: int, x: int, y: int)
    ensures a * (x + y) == a * x + a * y
  {
  }

  lemma MultiplyMonotone(d: int, x: int, y: int)
    requires d > 0 && x <= y
    ensures d * x <= d * y
  {
    assert d * y - d * x == d * (y - x);
  }
}
