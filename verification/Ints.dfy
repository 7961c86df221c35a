/** The width of the source's unsigned integers. */
module Ints {
  const UINT32: nat := 0x1_0000_0000
}
