/** The widths the queue computes with: std::size_t of 64 bits and int of 32 bits. */
module MachineInts {
  const SIZE_RANGE: int := 0x1_0000_0000_0000_0000
  const INT_MAX: int := 0x7FFF_FFFF
  const INT_MIN: int := -0x8000_0000

  /** An int used beside a size_t becomes a size_t, wrapping when negative. */
  function ToSize(n: int): (r: nat)
    ensures r < SIZE_RANGE
    ensures 0 <= n < SIZE_RANGE ==> r == n
  {
    n % SIZE_RANGE
  }

  function AddSize(a: nat, b: nat): nat {
    ToSize(a + b)
  }

  /** Unsigned subtraction: a larger right operand wraps around. */
  function SubSize(a: nat, b: nat): nat {
    ToSize(a - b)
  }

  function MinSize(a: nat, b: nat): nat {
    if b < a then b else a
  }
}
