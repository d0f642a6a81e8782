/** The register and BRAM sequence that `main` of vitis-example.c runs. */
module Example {
  import opened AddressMap
  import opened GateTrace
  import opened Packing
  import opened Driver

  /** The payload `main` writes: high half 1, low half 2. */
  const PAYLOAD: bv128 := 0x0000_0000_0000_0001_0000_0000_0000_0002

  /** The payload is the 128-bit word with high half 1 and low half 2, and its value is 2^64 + 2. */
  lemma PayloadHalves()
    ensures CreateUint128(1, 2) == PAYLOAD
    ensures PAYLOAD as int == HALF_WEIGHT + 2
  {
    PackedValue(1, 2);
  }

  /**
   * Writing a word and reading the same word straight back returns it; the
   * other words are left as they were and the gate ends closed.
   */
  method WriteThenRead(acc: Accelerator, value: bv128, bramAddr: Uint32) returns (r: bv128)
    requires acc.Valid()
    requires bramAddr < acc.bram.Length
    modifies acc, acc.regs, acc.bram
    ensures acc.Valid()
    ensures r == value
    ensures acc.bram[..] == old(acc.bram[..])[bramAddr := value]
    ensures acc.regs[..] == old(acc.regs[..])[GATE_SLOT := 0]
    ensures acc.trace == old(acc.trace) + Transfer(BramStore(BramAddress(bramAddr), value))
                                        + Transfer(BramLoad(BramAddress(bramAddr), value))
  {
    acc.BramWrite(value, bramAddr);
    r := acc.BramRead(bramAddr);
  }

  /**
   * `main` without the platform set-up and console output: store 42 to
   * SLV_REG0, load SLV_REG0, then write createUint128_t(1, 2) to BRAM word 0
   * and read it back. Registers are plain storage here, so the load of
   * SLV_REG0 returns the 42 just stored.
   */
  method RunMain(acc: Accelerator) returns (value1: bv32, value2: bv128, value3: bv128)
    requires acc.Valid()
    requires acc.bram.Length > 0
    modifies acc, acc.regs, acc.bram
    ensures acc.Valid()
    ensures value2 == PAYLOAD && value3 == value2
    ensures acc.bram[..] == old(acc.bram[..])[0 := PAYLOAD]
    ensures acc.regs[..] == old(acc.regs[..])[0 := 42][GATE_SLOT := 0]
    ensures value1 == 42
    ensures acc.trace == old(acc.trace) + [RegStore(SLV_REG0, 42), RegLoad(SLV_REG0, value1)]
                                        + Transfer(BramStore(BRAM_BASE, PAYLOAD))
                                        + Transfer(BramLoad(BRAM_BASE, PAYLOAD))
  {
    ghost var before := acc.trace;
    acc.WriteReg(0, 42);
    value1 := acc.ReadReg(0);
    ghost var registers := [RegStore(SLV_REG0, 42), RegLoad(SLV_REG0, value1)];
    assert acc.trace == before + registers;
    value2 := CreateUint128(0x0000000000000001, 0x0000000000000002);
    PayloadHalves();
    acc.BramWrite(value2, 0);
    assert acc.trace == before + registers + Transfer(BramStore(BRAM_BASE, PAYLOAD));
    value3 := acc.BramRead(0);
  }
}
