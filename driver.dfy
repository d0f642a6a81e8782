/**
 * The driver's view of the accelerator: the control register bank, the BRAM
 * window, and the gated BRAM accessors `bram_write` and `bram_read` of
 * vitis-example.c. The hardware is abstracted as storage: a register or BRAM
 * word holds the last value stored to it. Every bus transaction the driver
 * issues is recorded, in order, in a ghost trace.
 */
module Driver {
  import opened AddressMap
  import opened GateTrace

  class Accelerator {
    /** The four control registers SLV_REG0..SLV_REG3. */
    const regs: array<bv32>
    /** The BRAM window: word `a` lives at byte address BramAddress(a). */
    const bram: array<bv128>
    /** Every bus transaction issued so far, oldest first. */
    ghost var trace: seq<Event>

    /**
     * The register bank has four slots, every BRAM access so far was made
     * with the gate open, and the gate register holds the value of the last
     * gate store, if there was one.
     */
    ghost predicate Valid()
      reads this, regs
    {
      && regs.Length == 4
      && Gated(trace)
      && (LastGate(trace).Some? ==> regs[GATE_SLOT] == LastGate(trace).value)
    }

    /** The peripheral as found at start-up, with whatever the hardware holds. */
    constructor (initRegs: seq<bv32>, initBram: seq<bv128>)
      requires |initRegs| == 4
      ensures Valid() && fresh(regs) && fresh(bram)
      ensures regs[..] == initRegs && bram[..] == initBram
      ensures trace == []
    {
      regs := new bv32[4](i requires 0 <= i < 4 => initRegs[i]);
      bram := new bv128[|initBram|](i requires 0 <= i < |initBram| => initBram[i]);
      trace := [];
    }

    /** A raw store to a control register, as `*((int *)SLV_REGn) = value`. */
    method WriteReg(slot: Slot, value: bv32)
      requires Valid()
      modifies this, regs
      ensures Valid()
      ensures regs[..] == old(regs[..])[slot := value]
      ensures trace == old(trace) + [RegStore(RegAddress(slot), value)]
    {
      regs[slot] := value;
      trace := trace + [RegStore(RegAddress(slot), value)];
      GatedConcat(old(trace), [RegStore(RegAddress(slot), value)]);
    }

    /** A raw load from a control register, as `*((int *)SLV_REGn)`. */
    method ReadReg(slot: Slot) returns (value: bv32)
      requires Valid()
      modifies this
      ensures Valid()
      ensures value == regs[slot]
      ensures trace == old(trace) + [RegLoad(RegAddress(slot), value)]
    {
      value := regs[slot];
      trace := trace + [RegLoad(RegAddress(slot), value)];
      GatedConcat(old(trace), [RegLoad(RegAddress(slot), value)]);
    }

    /**
     * `bram_write`: open the gate, store `value` into BRAM word `bramAddr`,
     * close the gate. Only that word and the gate register change.
     */
    method BramWrite(value: bv128, bramAddr: Uint32)
      requires Valid()
      requires bramAddr < bram.Length
      modifies this, regs, bram
      ensures Valid()
      ensures bram[..] == old(bram[..])[bramAddr := value]
      ensures regs[..] == old(regs[..])[GATE_SLOT := 0]
      ensures trace == old(trace) + Transfer(BramStore(BramAddress(bramAddr), value))
    {
      regs[GATE_SLOT] := 1;
      trace := trace + [RegStore(SLV_REG3, 1)];
      bram[bramAddr] := value;
      trace := trace + [BramStore(BramAddress(bramAddr), value)];
      regs[GATE_SLOT] := 0;
      trace := trace + [RegStore(SLV_REG3, 0)];
      ghost var access := BramStore(BramAddress(bramAddr), value);
      assert trace == old(trace) + Transfer(access);
      GatedConcat(old(trace), Transfer(access));
      LastGateAppend(old(trace), Transfer(access));
    }

    /**
     * `bram_read`: open the gate, load BRAM word `bramAddr`, close the gate,
     * and return the loaded word. The BRAM is left as it was.
     */
    method BramRead(bramAddr: Uint32) returns (value: bv128)
      requires Valid()
      requires bramAddr < bram.Length
      modifies this, regs
      ensures Valid()
      ensures value == bram[bramAddr]
      ensures unchanged(bram)
      ensures regs[..] == old(regs[..])[GATE_SLOT := 0]
      ensures trace == old(trace) + Transfer(BramLoad(BramAddress(bramAddr), value))
    {
      regs[GATE_SLOT] := 1;
      trace := trace + [RegStore(SLV_REG3, 1)];
      value := bram[bramAddr];
      trace := trace + [BramLoad(BramAddress(bramAddr), value)];
      regs[GATE_SLOT] := 0;
      trace := trace + [RegStore(SLV_REG3, 0)];
      ghost var access := BramLoad(BramAddress(bramAddr), value);
      assert trace == old(trace) + Transfer(access);
      GatedConcat(old(trace), Transfer(access));
      LastGateAppend(old(trace), Transfer(access));
    }
  }
}
