/**
 Arithmetic of the uint32_t counters.
 */
module UInt32 {
  const UINT32_RANGE: nat := 0x1_0000_0000

  function Plus(a: nat, b: nat): nat {
    (a + b) % UINT32_RANGE
  }

  function Minus(a: nat, b: nat): nat {
    (a - b) % UINT32_RANGE
  }
}
