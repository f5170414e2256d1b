/**
  Fixed-width integers, and the Option and Result wrappers that stand in for
  the C++ code's null pointers and thrown std::runtime_error exceptions.
 */
module Basics {

  type byte = x: int | 0 <= x < 0x100
  type u8 = x: int | 0 <= x < 0x100
  type u16 = x: int | 0 <= x < 0x1_0000
  type u32 = x: int | 0 <= x < 0x1_0000_0000

  /** `x++` on a uint32_t: wraps to 0 after 2^32 - 1. */
  function Inc32(x: u32): (y: u32)
    ensures y == (x + 1) % 0x1_0000_0000
  {
    if x == 0xFFFF_FFFF then 0 else x + 1
  }

  /** Conversion of an int to an unsigned char: keeps the low 8 bits. */
  function ToU8(x: int): (y: u8)
    ensures (y - x) % 0x100 == 0
  {
    x % 0x100
  }

  /** A positive multiple of `n` is at least `n`. */
  lemma MulAtLeast(n: int, d: int)
    requires n > 0 && d >= 1
    ensures n * d >= n
  {
    if d > 1 {
      MulAtLeast(n, d - 1);
      assert n * d == n * (d - 1) + n;
    }
  }

  /** Euclidean remainders are unique: any quotient/remainder split of `a`
      by `n` is the one `/` and `%` compute. */
  lemma ModUnique(a: int, n: int, q: int, r: int)
    requires n > 0 && 0 <= r < n && a == n * q + r
    ensures a % n == r
  {
    var q', r' := a / n, a % n;
    assert a == n * q' + r';
    if q > q' {
      MulAtLeast(n, q - q');
    } else if q < q' {
      MulAtLeast(n, q' - q);
    }
  }

  /** Adding the modulus does not change the remainder. */
  lemma ModShift(x: nat, n: nat)
    requires n > 0
    ensures (x + n) % n == x % n
  {
    ModUnique(x + n, n, x / n + 1, x % n);
  }

  datatype Option<+T> = None | Some(value: T)

  /** The runtime errors the source throws. */
  datatype Error =
    | AllPopped    // ringbuf::pop on an empty buffer
    | ReadFailed   // tun_eread: read(2) returned <= 0
    | WriteFailed  // tun_ewrite: write(2) returned < 0
    | RecvFailed   // MPUDPTunnel::RecvFrom: recvfrom(2) returned < 0

  datatype Result<+T> = Ok(value: T) | Err(error: Error)
}
