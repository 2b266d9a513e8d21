/** The limits of the C integer types the code computes in. */
module MachineInts {
  const UINT16_MAX: nat := 0xffff
  const INT32_MAX: nat := 0x7fff_ffff
  const UINT32: nat := 0x1_0000_0000               // one more than the largest
  const UINT64: nat := 0x1_0000_0000_0000_0000
  const WAIT_FOREVER: nat := UINT32 - 1            // the timeout that never ends
}
