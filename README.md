# Gated BRAM driver for a custom ZYNQ accelerator — a Dafny model

The repository's software is one bare-metal C program, `vitis-example.c`. It
talks to a custom accelerator through two memory-mapped regions:

- a bank of four 32-bit control registers, `SLV_REG0`..`SLV_REG3`, at
  `0xA0000000` + 0, 4, 8 and 12;
- a window of 128-bit BRAM words at `BRAM_BASE` = `0xB0000000`, indexed as an
  array of `uint128_t`, so word `a` sits at byte `0xB0000000 + 16 * a`.

Register 3 is a gate. `bram_write` and `bram_read` set it to 1, make exactly
one 128-bit store or load at the given word index, then set it back to 0.
`createUint128_t` packs two 64-bit halves into one 128-bit word. `main`
stores 42 to register 0 and loads it back. It then writes
`createUint128_t(1, 2)` to BRAM word 0 and reads it back.

The model has five modules:

- `Packing` (`packing.dfy`): `createUint128_t` as a pure bit-vector
  function. Its inverse `Halves` splits a word. A lemma gives the word's value
  as an unsigned integer.
- `AddressMap` (`address_map.dfy`): the C constants, the byte address of each
  register slot and of each BRAM word, and their inverses.
- `GateTrace` (`gate_trace.dfy`): bus transactions as `Event`s, plus the gate
  discipline over a sequence of them (`Gated`). Every BRAM access must be
  preceded by a store of 1 to `SLV_REG3` and followed by a store of 0, with no
  other gate store in between. `Gated` is preserved by concatenation.
- `Driver` (`driver.dfy`): class `Accelerator` with a `regs` array (4 slots of
  32 bits) and a `bram` array (128-bit words). A ghost `trace` records every
  transaction in order. `BramWrite` and `BramRead` are the two C functions as
  in-place methods. Each states its whole new state, and the invariant
  `Valid()` keeps the trace gated. The invariant also says the gate register
  holds the last gate value written.
- `Example` (`example.dfy`): the write-then-read round trip, and `main`'s
  register and BRAM sequence.

The hardware is modelled as storage: a register or BRAM word holds the last
value stored to it. The C code does no bounds check on the BRAM index and the
window has no size in the source. The model gives the BRAM some length and
requires `bramAddr < bram.Length`: an out-of-range index is the caller's
error, not a run-time failure. The index is an `unsigned int` (`Uint32`).
Register contents are `int` in C; the model keeps their 32-bit patterns as
`bv32`.

A fuller driver for this peripheral would add:

- addresses passed in as configuration;
- typed start, mode and status accessors;
- status-code decoding;
- a `run_and_wait` polling loop with a timeout;
- a mutex around gated transfers;
- an error taxonomy.

None of these exists in the C source. The model follows the code and leaves
them out (see below).

## Model

| member | source | states |
|---|---|---|
| `Packing.CreateUint128` | vitis-example.c:70 | the top 64 bits of the packed word are `high` and the bottom 64 bits are `low` |
| `Packing.Halves` | vitis-example.c:70 | splitting a word into halves and packing them again gives back the word, so packing is onto and splitting is its inverse |
| `Packing.PackedValue` | vitis-example.c:70 | read as an unsigned integer, the packed word is `high * 2^64 + low`, and that sum is below 2^128 |
| `AddressMap.RegAddress` | vitis-example.c:39-42 | slot `s` sits at `SLV_REG0 + 4 * s` and every register address is 4-byte aligned |
| `AddressMap.SlotAt` | vitis-example.c:39-42 | decoding a byte address finds the slot located there, or reports that no slot sits at that address |
| `AddressMap.RegAddressesDistinct` | vitis-example.c:39-42 | each slot is decoded back from its own address, so the four register addresses are pairwise distinct |
| `AddressMap.BramAddress` | vitis-example.c:45-54 | word `a` sits at a 16-byte-aligned byte address at or above `BRAM_BASE`, that address is `a` words past the base and fits a 64-bit pointer, and it lies above every register address |
| `AddressMap.WordAt` | vitis-example.c:45-54 | decoding a byte address finds the BRAM word located there, or reports that no word sits at that address |
| `GateTrace.LastGateSpec` | vitis-example.c:53-55 | `LastGate` returns the value of the gate store that no later gate store overrides, and returns nothing exactly when the trace has no gate store |
| `GateTrace.NextGateSpec` | vitis-example.c:53-55 | `NextGate` returns the value of the gate store that no earlier gate store precedes, and returns nothing exactly when the trace has no gate store |
| `GateTrace.Transfer` | vitis-example.c:53-55 | a BRAM access bracketed by gate := 1 and gate := 0 is a gated trace, it leaves the gate at 0, and the access sits between the two gate stores |
| `GateTrace.LastGateAppend` | vitis-example.c:50-67 | after a trace that stores to the gate, what ran before it no longer decides the gate value |
| `GateTrace.NextGatePrepend` | vitis-example.c:50-67 | once a trace has stored to the gate, what runs after it does not change which gate store comes next |
| `GateTrace.GatedConcat` | vitis-example.c:50-67 | running one gated trace after another gives a gated trace, so any sequence of driver calls keeps the discipline |
| `GateTrace.GatedAccessBracketed` | vitis-example.c:53-64 | in a gated trace every BRAM access is preceded by gate := 1 and followed by gate := 0, with no other gate store in between |
| `Driver.Accelerator.constructor` | vitis-example.c:39-47 | the peripheral starts with whatever four register values and BRAM words the hardware holds, with an empty trace |
| `Driver.Accelerator.WriteReg` | vitis-example.c:79 | a raw register store changes only that slot and appends one register-store event at the slot's address |
| `Driver.Accelerator.ReadReg` | vitis-example.c:82 | a raw register load returns the slot's contents, changes no register or BRAM word, and appends one register-load event |
| `Driver.Accelerator.BramWrite` | vitis-example.c:50-56 | `bram_write` changes only BRAM word `a`, which becomes `value`, and the gate register, which ends at 0. It appends gate := 1, the store at `BRAM_BASE + 16a`, and gate := 0, and the trace stays gated |
| `Driver.Accelerator.BramRead` | vitis-example.c:59-67 | `bram_read` returns BRAM word `a` and leaves the BRAM unchanged. Only the gate register changes, and it ends at 0. It appends gate := 1, the load, and gate := 0, and the trace stays gated |
| `Example.PayloadHalves` | vitis-example.c:85 | `createUint128_t(1, 2)` is `0x00000000000000010000000000000002`, whose value is 2^64 + 2 |
| `Example.WriteThenRead` | vitis-example.c:85-89 | `bram_write(v, a)` followed by `bram_read(a)` returns `v`. Only BRAM word `a` and the gate register change: the other words and registers 0-2 keep their values, and the gate ends at 0 |
| `Example.RunMain` | vitis-example.c:73-95 | `main`'s sequence writes `createUint128_t(1, 2)` to word 0 and reads the same word back. Its bus transactions come in source order and every BRAM access is gated. Register 0 ends at 42 and the load of it returns 42, the gate ends at 0, and registers 1-2 keep their values |

## Left out

- `init_platform`, `cleanup_platform` and `print` (vitis-example.c:74-76, 91-93): board support and console I/O behind headers that are not part of this model.
- `volatile` semantics, caching and bus ordering are not modelled. The ghost trace records the order in which the code issues its transactions, not what the memory system guarantees. The gate stores go through a plain, non-volatile `int *`. A C compiler may legally merge or drop the store of 1 in favour of the later store of 0, since nothing reads that location in between. The model follows the order as written.
- What the accelerator does behind its registers is not modelled: the start effect of storing 42 to register 0, and the garbage returned by an access with the gate closed. Registers and BRAM words are plain storage here: a load returns the last store. So register 0 reads back 42 in the model (`RunMain` states it), and the hardware-written status slot 2 never changes by itself. The real hardware need not honour either.
- Status-code decoding, a start-then-poll loop with a timeout, mutex serialisation of concurrent callers, and error/result types have no code in the source. They would be invented behaviour, and they involve concurrency and timing.
- The BRAM's size is not fixed by the source. The model keeps it as the length of the `bram` array, and both BRAM methods require the index to be below it, because the C code does no bounds check.
- Vivado/Vitis GUI steps, IP packaging and bitstream generation are operator procedure, not code.
