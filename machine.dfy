/**
 * Machine-level types of the 64-bit RISC-V target the kernel is built for:
 * Rust's `usize`, `isize` and `i32`, its `Option`, and the `usize as isize`
 * cast, written out explicitly because Dafny's integers are unbounded.
 */
module Machine {

  /** 2^64: the number of distinct 64-bit words. */
  const WORD_MODULUS: int := 0x1_0000_0000_0000_0000
  const USIZE_MAX: int := 0xFFFF_FFFF_FFFF_FFFF
  const ISIZE_MIN: int := -0x8000_0000_0000_0000
  const ISIZE_MAX: int := 0x7FFF_FFFF_FFFF_FFFF

  /** Rust `usize` on a 64-bit target. */
  type usize = x: int | 0 <= x <= USIZE_MAX

  /** Rust `isize` on a 64-bit target (two's complement range). */
  type isize = x: int | ISIZE_MIN <= x <= ISIZE_MAX

  /** Rust `i32`. */
  type i32 = x: int | -0x8000_0000 <= x <= 0x7FFF_FFFF

  /** Rust's `Option`. */
  datatype Option<T> = None | Some(value: T)

  /**
   * The Rust cast `u as isize` for `u: usize`: the bit pattern is kept and
   * reread as a two's complement number, so values above `isize::MAX` wrap
   * around to negative numbers.
   */
  function AsIsize(u: usize): (r: isize)
    ensures r % WORD_MODULUS == u
    ensures u <= ISIZE_MAX <==> r >= 0
    ensures u <= ISIZE_MAX ==> r == u
  {
    if u <= ISIZE_MAX then u else u - WORD_MODULUS
  }
}
