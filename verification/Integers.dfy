/** The machine integers the program counts with. */
module Integers {
  const U32_MAX: nat := 0xFFFF_FFFF
  const U64_MAX: nat := 0xFFFF_FFFF_FFFF_FFFF

  type u32 = n: nat | n <= U32_MAX
  type u64 = n: nat | n <= U64_MAX

  /** What `saturating_add` makes of an exact sum. */
  function Saturated(n: nat): (r: u64)
    ensures r <= n && (n <= U64_MAX ==> r == n)
  {
    if n > U64_MAX then U64_MAX else n
  }
}
