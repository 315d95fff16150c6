/** The machine's integers. */
module Words {
  const WORD32: nat := 0x1_0000_0000

  /** The range of `std::atomic<size_t>` and of a message id. */
  const WORD: nat := 0x1_0000_0000_0000_0000

  const INT_MAX: int := 0x7fff_ffff

  /** C++ `int`; a value outside this range cannot be assigned to it. */
  type Int32 = x: int | -0x8000_0000 <= x <= 0x7fff_ffff

  type UInt32 = x: int | 0 <= x < 0x1_0000_0000 witness 0

  type UInt64 = x: nat | x < 0x1_0000_0000_0000_0000
}
