/** The integer widths of the orchestrator's arithmetic. */
module Integers {
  const U16_MAX := 0xffff
  const U32: nat := 0x1_0000_0000
  const I64_MAX := 0x7fff_ffff_ffff_ffff

  predicate InI64(n: int) {
    -I64_MAX - 1 <= n <= I64_MAX
  }
}
