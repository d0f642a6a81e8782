/**
 * The fixed memory map the driver uses: a bank of four 32-bit control
 * registers at SLV_REG0..SLV_REG3 and a window of 128-bit BRAM words at
 * BRAM_BASE. Addresses are byte addresses; the target is a 64-bit processor
 * (the source uses `unsigned __int128`), so no address arithmetic here wraps.
 */
module AddressMap {
  import opened Optional

  /** Byte addresses of the four control registers. */
  const SLV_REG0: nat := 0xA000_0000
  const SLV_REG1: nat := SLV_REG0 + 4
  const SLV_REG2: nat := SLV_REG0 + 8
  const SLV_REG3: nat := SLV_REG0 + 12

  /** Byte address of BRAM word 0. */
  const BRAM_BASE: nat := 0xB000_0000

  /** Size of one register slot (`int`) and of one BRAM word (`uint128_t`), in bytes. */
  const REG_BYTES: nat := 4
  const WORD_BYTES: nat := 16

  /** One past the largest 64-bit pointer value. */
  const POINTER_LIMIT: nat := 0x1_0000_0000_0000_0000

  /** Index of a control register in the bank. */
  type Slot = s: nat | s < 4

  /** The register that opens (1) and closes (0) access to the BRAM. */
  const GATE_SLOT: Slot := 3

  /** An `unsigned int` value. */
  type Uint32 = x: nat | x < 0x1_0000_0000

  /** The byte address of a register slot, as the SLV_REG constants lay them out. */
  function RegAddress(slot: Slot): (addr: nat)
    ensures addr == SLV_REG0 + REG_BYTES * slot
    ensures addr % REG_BYTES == 0
  {
    [SLV_REG0, SLV_REG1, SLV_REG2, SLV_REG3][slot]
  }

  /** The register slot found at a byte address, if any: the inverse of RegAddress. */
  function SlotAt(addr: nat): (s: Option<Slot>)
    ensures s.Some? ==> RegAddress(s.value) == addr
    ensures s.None? ==> forall slot: Slot :: RegAddress(slot) != addr
  {
    if SLV_REG0 <= addr < SLV_REG0 + 4 * REG_BYTES && (addr - SLV_REG0) % REG_BYTES == 0
    then Some((addr - SLV_REG0) / REG_BYTES)
    else None
  }

  /** Every slot is found again at its own address, so the four addresses are pairwise distinct. */
  lemma RegAddressesDistinct(i: Slot, j: Slot)
    ensures SlotAt(RegAddress(i)) == Some(i)
    ensures i != j ==> RegAddress(i) != RegAddress(j)
  {
  }

  /**
   * The byte address of BRAM word `wordIndex`: the window is an array of
   * `uint128_t`, so consecutive words are 16 bytes apart.
   */
  function BramAddress(wordIndex: Uint32): (addr: nat)
    ensures BRAM_BASE <= addr < POINTER_LIMIT
    ensures addr % WORD_BYTES == 0
    ensures (addr - BRAM_BASE) / WORD_BYTES == wordIndex
    ensures forall slot: Slot :: RegAddress(slot) < addr
  {
    BRAM_BASE + WORD_BYTES * wordIndex
  }

  /** The BRAM word found at a byte address, if any: the inverse of BramAddress. */
  function WordAt(addr: nat): (w: Option<Uint32>)
    ensures w.Some? ==> BramAddress(w.value) == addr
    ensures w.None? ==> forall i: Uint32 :: BramAddress(i) != addr
  {
    if BRAM_BASE <= addr && (addr - BRAM_BASE) % WORD_BYTES == 0
       && (addr - BRAM_BASE) / WORD_BYTES < 0x1_0000_0000
    then Some((addr - BRAM_BASE) / WORD_BYTES)
    else None
  }
}
