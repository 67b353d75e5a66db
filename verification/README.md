# NDSE-Core in Dafny

NDSE-Core is an emulator of the Nintendo DS: a just-in-time compiler from ARM to x86, a paged
memory map for each of the two CPUs, and the machinery around them. This project models its
core and proves what the core is for.

## The models

**The JIT** (`X86`, `Arm`, `Compiler`, `CodeEffects`, `Tracking`, `OperationEffects`, `Lowering`,
`DeadFlags`, `StoredFlags`, `CarryParity`, `SbcCarry`, `LogicalCode`, `RegisterShift`). Emitted
bytes are symbolic x86 operations with an interpreter that has the four flags, the host registers
the code uses, a stack and arbitrary values (`Noise`) wherever the processor leaves a flag
undefined. ARM has semantics of its own, written from the ARM Architecture Reference Manual (DDI
0100, sections A3.2, A4.1 and A5.1). The compiler keeps flags live in the host after an S-form
instruction, drops flag stores the next instruction makes useless, and for some opcodes leaves a
carry or overflow that is not ARM's. `Tracking` says statically, instruction by instruction, which
flags the host and the saved word really hold; `Lowering.CodeRefines` proves that this is sound
for every program that reads no flag the tracking does not vouch for, a predicate on the list of
instructions (`Admissible`). `DeadFlags` and `LogicalCode` read off what it means: dead-flag
elimination, conditional and logical code. For conditional arithmetic `StoredFlags` says which
flags the saved word and the host hold at every instruction and exactly when the code does what
ARM does, dropped stores included; `CarryParity` is the case without the lookahead, `SbcCarry` the
carry of SBC. The compiler itself is the class `Emitter` and the loop `CompilePage`.

**LDM and STM** (`Memory`, `ArrayAccess`, `BlockTransfer`, `BlockTransferProof`). The emitted
sequences run on a small machine with a host stack; the array accesses they call walk pages
through the page table. Block transfers are compared with section A5.4 of DDI 0100.

**LZ77** (`Lz77`). The ring decoder against decoding on an unbounded history, and that against
an encoder.

**The memory map and VRAM** (`Arith`, `Overlay`, `MemMap`, `Vram`). The interval map from the
itl library, which is not part of this model, is an ordered partition of the pages into
segments with sorted region lists; splitting, adding, subtracting and intersecting are written
out. The page table is an array.

**The code cache** (`CodeCache`). Both CPUs and both instruction sets over shared pages, as
atomic steps; compilation is an arbitrary function of the page's bytes.

**Modes and interrupts** (`CpuMode`, `Interrupt`). One context per mode with copying, against a
banked register file (sections A2.2 to A2.4 of DDI 0100). Interrupt handlers are arbitrary
lists of actions that may depend on the state they start in, and other threads may fire between
any two turns of the poll loop.

**FIFOs, DMA and CRC** (`Ipc`, `Dma`, `Crc16`, `ProcessMemory`).

**Breakpoints** (`Breakpoint`, `BreakpointProof`, `BreakpointRecompile`, `BreakpointRuns`,
`BreakpointCases`, `BreakpointView`, `BreakpointPlaces`). A breakpoint patches a byte of compiled
code and keeps the byte that was there. What the tables are for is `BreakpointProof.Claims`:
patched exactly if used and placed, the lookup table right, and the compiled code recoverable. For
each operation, and for runs of them, it is proved exactly when the claims are kept. `Types` holds
what several models share.

Each object of the source that changes step by step is a class whose methods are proved to
compute a function of the old state; the properties are lemmas about those functions and runs
of them. Variables such as `pushed`, `fired`, `log` and `pristine` record history that the
source does not keep.

## Where the code departs from what it means to do

These are results, each with the exact condition under which the code is right.

- An S-form instruction under HI or LS that is skipped complements the live carry. A condition
  is decided as ARM does if and only if an even number of them was skipped since the last executed
  writer, or the other flags decide it (`CarryParity.DecidedExactly`, `CarryParity.PathExactly`).
- SBC with live flags, and SBC under a condition, takes for ARM's carry what the shifter's last
  rotate left in the host: bit 31 of ESI as the instruction found it. It is right if and only if
  that bit is ARM's carry (`SbcCarry.SbcExactly`); `SbcCarry.TakesOldBit` is a page on which it
  is not.
- The lookahead ignores the condition of the next instruction, so a dropped store can be lost and
  stale flags be read. A list of conditional arithmetic is right at every instruction and at its
  end if and only if none finds a stale flag that matters and the last store was not lost
  (`StoredFlags.CorrectExactly`); `StoredFlags.LosesStore` and `StoredFlags.LosesCarry` are pages
  on which it is not.
- SUB and RSB leave the carry inverted (`OperationEffects.SubRsb`).
- Register shifts agree with the interpreter on a range of amounts only
  (`RegisterShift.AgreesExactlyInRange`); the comment at `Core/Compiler.cpp:391-397` describes
  carries for an amount of 32 that the code below it does not produce.
- Block numbering restarts with each segment of a window (`MemMap.NumberingExact`).
- A VRAM bank given to the other CPU stays in the map of the first (`Vram.RegisterMaps`).
- A CPSR write that masks some flags writes back stale values of the others unless they are in step
  (`CpuMode.MaskedReadBack`).
- FIQ must be left to the mode it was entered from (`CpuMode.LeavingFiq`); bit 27 of the CPSR is
  not kept (`CpuMode.ReadBack`).
- Before the first transfer the receiver's bits 8 and 9 do not show an empty FIFO
  (`Ipc.LinkIsSafe`), and a push into a full FIFO overwrites the oldest word
  (`Ipc.OverflowLoses`).
- No two used breakpoints on one byte is not enough for breakpoints to be undoable
  (`BreakpointRuns.StepParts` has the exact condition). A line keeps the patch byte for its original
  if it is decoded while another breakpoint is patched there (`BreakpointProof.CapturesExactly`),
  and a single step decodes nothing again while its address stays, so the line can be enabled
  later and restore the wrong byte (`BreakpointCases.RestoresPatchByte`). Code compiled again at the
  same host address can lose table entries (`BreakpointCases.ReuseLosesEntry`). The comment at
  `Core/Breakpoint.h:430-431` is not right about `lower_bound`; the model follows the code.

## Model

| member | source | states |
|---|---|---|
| `X86.ShiftByClosed` | Core/Compiler.cpp:101-153 | an x86 shift by n done one bit at a time, as the host defines it, is the closed shift ARM uses, with the last bit shifted out as carry, for every kind and amount up to 31 |
| `CodeEffects.RorRecoversOf` | Core/Compiler.cpp:180-184 | rotating AL by one puts the overflow flag back as it was saved, because the low byte of the saved word is only ever 0 or 1 |
| `CodeEffects.LoadFlagsEffect` | Core/Compiler.cpp:180-188 | loading restores all four flags from the saved word |
| `CodeEffects.StoreFlagsEffect` | Core/Compiler.cpp:166-178 | storing leaves a saved word whose four bits are the host flags and whose low byte is 0 or 1 again |
| `CodeEffects.ShifterEffect` | Core/Compiler.cpp:101-163 | the immediate shifter leaves ARM's operand in EAX and, unless the shift is LSL #0, ARM's shifter carry in bit 0 of ESI; ARM registers, saved flags, stack, EBX, ECX and EDX stay, the host flags may change |
| `OperationEffects.OperationEffect` | Core/Compiler.cpp:1248-1290 | what the code of each of the fifteen register opcodes computes, for SBC with the flags loaded: ARM's result and register file, and the flags that opcode gets right |
| `SbcCarry.ShifterLeaves` | Core/Compiler.cpp:156-163 | the shifter's code leaves bit 31 of the ESI it found in the host carry, whatever is shifted, and bit 30 in its place |
| `SbcCarry.SbcLoadedExactly` | Core/Compiler.cpp:1499-1522 | an SBC with loaded flags has ARM's registers and flags if and only if bit 31 of ESI was ARM's carry |
| `SbcCarry.SbcExactly` | Core/Compiler.cpp:799-831 | the whole instruction, after a flag writer or under any condition: it does what ARM does if and only if ARM skips it or bit 31 of ESI in front of it is ARM's carry |
| `SbcCarry.TakesOldBit` | Core/Compiler.cpp:1499-1522 | a page CMP R0, R0; SBC R1, R1, R0 ends with ARM's registers if and only if bit 30 of ESI was set where the page was entered |
| `OperationEffects.SubRsb` | Core/Compiler.cpp:1520-1560 | SUB and RSB compute ARM's result with N, Z and V right and the carry exactly inverted |
| `Lowering.GuardEffect` | Core/Compiler.cpp:799-823 | before the skip jump the host flags are those of the place the code takes them from, with the carry complemented under HI and LS and nothing else changed |
| `Lowering.SkipExactly` | Core/Compiler.cpp:799-831 | from there the jump is taken exactly when ARM's condition fails, for each of the fourteen conditions |
| `Lowering.InstRefines` | Core/Compiler.cpp:799-831 | the code of one instruction under any condition takes a host state that agrees with ARM on the vouched-for flags to one that agrees on the flags vouched for next |
| `Lowering.CodeRefines` | Core/Compiler.h:194-226 | for every program, start state and setting of the lookahead: as long as no instruction reads a flag that is not vouched for, the code of the whole page computes ARM's registers and every vouched-for flag |
| `DeadFlags.StraightLineAdmissible` | Core/Compiler.h:201-218 | on straight-line ADD, ADC, CMP and CMN the saved flags are stale only where the next instruction overwrites all of them without reading them |
| `DeadFlags.StraightLineCorrect` | Core/Compiler.h:194-226 | such code, compiled with or without the lookahead, ends with ARM's registers and all four saved flags |
| `DeadFlags.DeadFlagElimination` | Core/Compiler.h:201-218 | code that drops flag stores ends with the same registers and saved flags as code that always stores them |
| `DeadFlags.CleanIsAdmissible` | Core/Compiler.cpp:799-831 | conditional arithmetic without the lookahead is vouched for if and only if no condition reads a live carry that a skipped HI or LS may have complemented |
| `DeadFlags.ConditionalCorrect` | Core/Compiler.cpp:799-831 | such code does what ARM does, registers and all flags |
| `CarryParity.LiveCarry` | Core/Compiler.cpp:799-831 | for every list of ADD, ADC, CMP and CMN under any conditions, without the lookahead: while all conditions were decided as ARM does, registers, saved flags and the live N, Z and V are ARM's, and the live carry is ARM's complemented once for each HI or LS writer skipped since the last executed writer |
| `CarryParity.DecidedExactly` | Core/Compiler.cpp:799-831 | the next condition is decided as ARM does if and only if that number is even or the other flags decide the condition |
| `CarryParity.PathExactly` | Core/Compiler.cpp:799-831 | the whole code skips exactly the instructions ARM skips if and only if that holds at every instruction |
| `CarryParity.DecidedCorrect` | Core/Compiler.cpp:799-831 | if it does, the code ends with ARM's registers and saved flags |
| `CarryParity.CleanDecides` | Core/Compiler.cpp:799-831 | clean lists decide every condition as ARM does from every state |
| `CarryParity.FlippedCarry` | Core/Compiler.cpp:820-821 | the smallest instance: a carry test right after an S-form instruction under HI or LS is decided rightly if that instruction was executed and the wrong way round if it was skipped |
| `StoredFlags.FlagsHeld` | Core/Compiler.h:194-226 | for every list of ADD, ADC, CMP and CMN under any conditions, with or without the lookahead: while every instruction found the right flags, registers are ARM's, the saved flags are those of the last executed writer whose store was not dropped, and the live flags are the ones computed along ARM's run |
| `StoredFlags.NextExactly` | Core/Compiler.h:194-226 | the next instruction is skipped or fed with a carry as ARM does if and only if, on ARM's run, the flags it sees decide its condition alike and the saved carry it takes is ARM's |
| `StoredFlags.RunExactly` | Core/Compiler.h:194-226 | the code does so at every instruction if and only if every instruction would find those flags |
| `StoredFlags.EndExactly` | Core/Compiler.h:194-226 | then it ends with ARM's registers, and with ARM's saved flags if and only if the last store that was not dropped was of ARM's last flags |
| `StoredFlags.CorrectExactly` | Core/Compiler.h:194-226 | both together: right at every instruction and at the end, if and only if |
| `StoredFlags.LostStore` | Core/Compiler.h:201-218 | two instructions: a store dropped in front of an overwriter under any condition is lost if and only if that instruction is skipped and the flags differ from those saved before |
| `StoredFlags.LosesStore` | Core/Compiler.h:201-218 | CMP R0, R0; CMPNE R0, R0 leaves the saved flags of the page's entry, which are ARM's only if they were the comparison's already |
| `StoredFlags.LosesCarry` | Core/Compiler.h:201-218 | with ADC R1, R1, R1 behind it the registers are ARM's if and only if the carry was set where the page was entered |
| `LogicalCode.FreshIsAdmissible` | Core/Compiler.cpp:1248-1290 | arithmetic and AND, EOR, ORR, BIC mixed under any conditions, no conditional right after a flag writer: vouched for if and only if no instruction reads a V left by a logical S form or a C left by one with LSL #0 |
| `LogicalCode.MixedCorrect` | Core/Compiler.cpp:1248-1290 | such a list leaves ARM's registers, N and Z, and C and V unless they are stale at its end |
| `Compiler.Emitter.CompileInstruction` | Core/Compiler.cpp:799-831 | the emitter appends exactly the code the proofs are about and updates its lookahead state |
| `Compiler.CompilePage` | Core/Compiler.h:194-226 | the page loop emits the code of the instructions in order with the right lookahead for each, and a remap entry per instruction |
| `Compiler.RemapSplits` | Core/Compiler.h:198-224 | code entered at a remap entry is the code of the page from that instruction on |
| `RegisterShift.GeneratedEffect` | Core/Compiler.cpp:380-455 | what the emitted register shift leaves in EAX and ESI for every kind, operand, 32-bit amount and carry |
| `RegisterShift.AgreesExactlyInRange` | Core/HLCore.cpp:52-121 | for each kind and amount, generated code and interpreter agree on value and carry for every operand if and only if the amount is in the stated range |
| `RegisterShift.CodeMatchesInterpreter` | Core/Compiler.cpp:380-455 | running the emitted code on an amount in range gives the interpreter's value and carry |
| `ArrayAccess.Bus.Store32Array` | Core/HLE.cpp:223-255 | the pointer walk over pages is the word-by-word store, also when it stops at a page that cannot be written |
| `ArrayAccess.Bus.Load32Array` | Core/HLE.cpp:146-175 | the pointer walk is the word-by-word load, also when it stops early |
| `ArrayAccess.StoreFromCorrect` | Core/HLE.cpp:223-255 | on writable pages without aliases the words are where they should be, every other word is untouched and every page come to is dirty, across page boundaries and the top of the address space |
| `ArrayAccess.LoadFromCorrect` | Core/HLE.cpp:146-175 | the words loaded are those at the successive addresses |
| `ArrayAccess.StoreStops` | Core/HLE.cpp:223-255 | a store that comes to a page it cannot write leaves exactly the words in front of that page, their blocks dirty, and reports it |
| `ArrayAccess.LoadStops` | Core/HLE.cpp:146-175 | a load that comes to a page it cannot read gets exactly the words in front of it |
| `Memory.LittleEndian` | Core/HLE.cpp:146-255 | four bytes are a word in memory if and only if it is their value with the lowest byte first |
| `Memory.BytesInPlace` | Core/HLE.cpp:146-255 | which byte of which physical block a store changes and a load gets, through the page table |
| `ArrayAccess.StoreThenLoad` | Core/HLE.cpp:146-255 | a multi-word load gets back what a multi-word store put there |
| `BlockTransfer.Count` | Core/Compiler.cpp:209-241 | the loop returns how many registers a mask lists, the first and the last, and whether they are neighbours |
| `BlockTransfer.RegionByCount` | Core/Compiler.cpp:240 | in an ascending list, as many registers as numbers between the ends means no gaps |
| `BlockTransfer.MaskBits` | Core/Compiler.cpp:2066-2075 | a mask bit is a listed register, and no bits below it make it the first of the list |
| `BlockTransfer.TransferEmitter.CompileStm` | Core/Compiler.cpp:1987-2055 | the emitter's STM code for lists without R15, single, contiguous and scattered |
| `BlockTransfer.TransferEmitter.CompileLdm` | Core/Compiler.cpp:2056-2162 | the emitter's LDM code without bank switch and jump, with the base kept on the stack when it is the first of the list |
| `BlockTransferProof.StmEffect` | Core/Compiler.cpp:1987-2055 | an STM in any mode stores the listed registers, lowest register at ARM's start address, and updates the base; nothing else changes |
| `BlockTransferProof.LdmEffect` | Core/Compiler.cpp:2056-2162 | an LDM in any mode loads the listed registers from ARM's start address; with writeback the base is updated if it is not listed or listed first, and holds what was loaded if it is listed elsewhere; nothing else changes |
| `BlockTransferProof.StmThenLdm` | Core/Compiler.cpp:1987-2162 | STM with writeback followed by the matching LDM with writeback restores every listed register and the base, whatever happened in between to anything but the window and the base |
| `Lz77.RingBack` | Core/lz77.h:63-66 | cell (r - d) masked holds the byte written d bytes ago, for every d up to 4096 |
| `Lz77.RingPut` | Core/lz77.h:48-52 | writing a byte at r and moving on keeps the ring a picture of the history |
| `Lz77.Overshoot` | Core/lz77.h:37-70 | the loop stops at the declared size or up to 17 bytes beyond it |
| `Lz77.DecodedSize` | Core/lz77.h:13-71 | nothing is written for a declared size of zero, otherwise at least that many and at most 17 bytes more |
| `Lz77.Lz77Decoder.Decode` | Core/lz77.h:13-71 | the ring decoder writes what decoding on an unbounded history writes, from the window the source starts with |
| `Lz77.RoundTrip` | Core/lz77.h:13-71 | decoding the serialised form of any well-formed token list gives its expansion, whatever the ring held before |
| `Overlay.TopIsTop` | Core/MemMap.h:27-46 | the recomputed priority region is the region of highest priority on the list |
| `Overlay.NoClash` | Core/MemMap.h:37-41 | lists of distinct priorities never reach the clash stop |
| `Overlay.MergeSorted` | Core/MemMap.h:49-61 | merging a region in keeps a list sorted |
| `Overlay.DifferenceOne` | Core/MemMap.h:62-69 | subtracting a region removes it and only it, and keeps the list in order |
| `Overlay.AddAt` | Core/MemMap.h:190-202 | adding a region over a window adds it to the list of exactly the pages of the window, cuts segments at the ends of the window and nowhere else, and keeps a partition |
| `Overlay.SubtractAt` | Core/MemMap.h:161-182 | subtracting a region takes it off the list of every page and keeps the cuts |
| `Overlay.IntervalsAt` | Core/MemMap.h:172-179 | the collected intervals are exactly the pages the region was on top of |
| `MemMap.InitNullGood` | Core/MemMap.h:142-154 | the initial table is a cache of the overlay of the null region |
| `MemMap.MapRegionGood` | Core/MemMap.h:190-210 | mapping keeps every page-table entry a block of the top region of its page and adds the region to the cover of exactly its window; each page of the window shows the top region in blocks counted from the start of its segment or of the window, all others keep their entry |
| `MemMap.UnmapGood` | Core/MemMap.h:161-188 | unmapping does the same and takes the region out of every cover; pages it was on top of show the top of what is left, in blocks counted from the start of their segment, all others keep their entry |
| `MemMap.OwnerIsTop` | Core/MemMap.h:109-138 | a good page's entry belongs to the highest-priority region that covers it |
| `MemMap.RunOwner` | Core/MemMap.h:142-210 | over every run of mappings and removals the entry of every page is a block of the highest-priority region put over it, computed from the commands alone |
| `MemMap.OrderIndependent` | Core/MemMap.h:190-210 | the same map commands in any order give every page the same owner |
| `MemMap.MapThenUnmap` | Core/MemMap.h:161-210 | mapping a fresh region and unmapping it gives every page back to its owner, and the whole entry, block included, if and only if the page is outside the window or its block was numbered from the start of its segment or of the window |
| `MemMap.NumberingExact` | Core/MemMap.h:109-119 | the pages won hold the region's blocks in order if and only if every segment won on begins a whole number of region sizes into the window |
| `MemMap.SingleSegment` | Core/MemMap.h:109-119 | a window inside one segment is numbered in order |
| `MemMap.PageTable.MapWindow` | Core/MemMap.h:190-210 | the map method computes the specified table and overlay |
| `MemMap.PageTable.UnmapRegion` | Core/MemMap.h:161-188 | the unmap method computes the specified table and overlay |
| `Overlay.RecalcPrio` | Core/MemMap.h:27-46 | the loop returns the top region and reports a clash exactly when the running maximum meets its own priority |
| `Vram.RunBooked` | Core/vram.cpp:19-41 | over every run of bank operations a non-zero record means the bank lies over exactly the recorded window and zero means it is absent |
| `Vram.InitRunBooked` | Core/vram.cpp:19-41 | the same from the initial mapping, with nothing recorded, for every run |
| `Vram.MapBankBooked` | Core/vram.cpp:30-41 | mapping a bank keeps the records true |
| `Vram.UnmapBankBooked` | Core/vram.cpp:19-28 | unmapping a bank keeps the records true |
| `Vram.RemapTwice` | Core/vram.cpp:172-179 | a second remap of banks A to E with unchanged registers changes neither records nor maps, for all register values |
| `Vram.RemapBooked` | Core/vram.cpp:52-111 | remapping keeps the records of both CPUs true |
| `Vram.DecodeIsWindow` | Core/vram.cpp:52-111 | bits 7, 3-4 and 0-2 of the register of banks A to E give CPU and window in closed form |
| `Vram.RegisterMaps` | Core/vram.cpp:52-111 | a register write puts the bank over exactly that window of that CPU and leaves the other CPU's map alone; clearing bit 7 takes it off both, a value without a use changes nothing |
| `Vram.CurMaps.DoMap` | Core/vram.cpp:30-41 | the map method on records and page table |
| `Vram.VideoRam.RemapBanks` | Core/vram.cpp:172-179 | the remap loop over banks A to E |
| `CodeCache.StepCoherent` | Core/HLE.cpp:179-255 | every atomic step of either CPU keeps the rule that a compiled block whose dirty bit is clear was compiled from the bytes there now |
| `CodeCache.StoreFromMarks` | Core/HLE.cpp:223-255 | an array store leaves every page it changed dirty, also when it stops early |
| `CodeCache.TransferMarks` | Core/dma.cpp:14-118 | a DMA transfer leaves every page it changed dirty |
| `CodeCache.RunCoherent` | Core/HLE.cpp:364-398 | coherence over every run |
| `CodeCache.BranchReturnsFreshCode` | Core/HLE.cpp:364-398 | after any run of both CPUs, a branch of either finds code compiled from the bytes its page has at that moment: as Thumb code if bit 0 of the target is set, as ARM code if not |
| `CodeCache.BranchCompilesOnly` | Core/HLE.cpp:374-397 | a branch brings only that CPU's code of that instruction set into the cache, only in the page its own page table names |
| `CodeCache.RemapIsOwn` | Core/MemMap.h:85-119 | a new page table is that CPU's alone |
| `CodeCache.StorePlaces` | Core/HLE.cpp:179-219 | a store of 1, 2 or 4 bytes changes exactly the bytes from the multiple of its size at or below the address, marks the page dirty, and does nothing on a page protected against it |
| `CodeCache.EntersInstruction` | Core/HLE.cpp:391-397 | the remap index of an ARM branch target is that of the instruction the target lies in: the code entered is the page's code from that instruction on |
| `CodeCache.FlushRecompiles` | Core/Mem.cpp:64-83 | a flush clears both CPUs' dirty bits and compiles again exactly the blocks that were there of a CPU that was dirty |
| `CodeCache.BranchLeavesOther` | Core/HLE.cpp:374-382 | a branch of one CPU leaves the other's dirty bits and compiled blocks, all other dirty bits and all memory |
| `CodeCache.SecondBranchCompilesNothing` | Core/HLE.cpp:383-397 | a second branch into an unchanged page changes nothing |
| `CodeCache.MemoryBlock.Flush` | Core/Mem.cpp:64-83 | clears each set dirty bit and compiles again what was there for that CPU |
| `CodeCache.MemoryBlock.Enter` | Core/HLE.cpp:374-397 | the branch on the page object: the new state, Thumb code for an odd target and ARM code for an even one, the halfword or word index, and freshness if the page was coherent |
| `CodeCache.MemoryBlock.Store` | Core/HLE.cpp:179-219 | stores of 1, 2 and 4 bytes on a plain page: where they go, when they are refused, and that they mark the page dirty |
| `CodeCache.MemoryBlock.React` | Core/Mem.cpp:85-93 | tests and clears the reactor bit only |
| `CpuMode.SwitchHolds` | Core/HLE.cpp:330-349 | copying the shared registers on a mode change shows the new mode's banked registers and keeps every other bank |
| `CpuMode.LoadCpsrHolds` | Core/HLE.cpp:297-356 | a CPSR write to a valid mode changes nothing of the banked file but the mode, and the mode matches the CPSR afterwards |
| `CpuMode.CopyingIsBanking` | Core/HLE.cpp:286-356 | over every run of register and CPSR writes that leave FIQ to the mode it was entered from, the current context shows what a truly banked file holds |
| `CpuMode.ModeNumbers` | Core/HLE.cpp:322-347 | which five mode bits there are and the number of the context each selects; nothing else is a mode |
| `CpuMode.SameModeBits` | Core/HLE.cpp:322-347 | two valid CPSRs select one context if and only if their mode bits are equal or both are user or system |
| `CpuMode.ReadsLastWritten` | Core/HLE.cpp:286-356 | over every allowed run each register reads as last written while the mode bits of the CPSR named the same register: r13 and r14 per bank, r8 to r12 for fast interrupts or not, the others always |
| `CpuMode.MergedBits` | Core/HLE.cpp:302-304 | a masked CPSR write takes the bits of the mask from the value and leaves the others |
| `CpuMode.EveryStateHolds` | Core/CPUMode.h:5-14 | every state stands for a banked file, so runs can start anywhere |
| `CpuMode.LeavingFiq` | Core/HLE.cpp:339-344 | FIQ left to another mode shows the right registers if and only if that mode's context happens to hold the r8-r12 of the mode FIQ was entered from |
| `CpuMode.ReadBack` | Core/HLE.cpp:275-314 | within one mode a CPSR write followed by a read returns the value written but for bit 27, so exactly when that bit is clear |
| `CpuMode.FlagsAfterModeChange` | Core/HLE.cpp:306-345 | a mode change does not carry the saved flags over |
| `CpuMode.FlagsForCode` | Core/HLE.cpp:272-312 | N, Z, C and V of a CPSR are exactly the bits the compiled code finds in the saved word, and back |
| `CpuMode.MaskedReadBack` | Core/HLE.cpp:296-314 | under any mask without mode bits, reading back differs from before in just the masked bits, as written, if and only if no flag bit is masked or the unmasked flags are in step and bit 27 is not written as one |
| `CpuMode.Processor.LoadCpsr` | Core/HLE.cpp:296-356 | the method computes the specified contexts and mode |
| `CpuMode.Processor.Switch` | Core/HLE.cpp:336-347 | the loop copies the registers neither mode has for itself, the program counter and the CPSR, and nothing else |
| `Interrupt.PollDispatches` | Core/Interrupt.h:157-240 | every bit a poll takes is dispatched exactly once, in ascending order and with the handler address of its turn, if it is enabled at its turn, and dropped if not; what is signalled afterwards is exactly what was fired meanwhile |
| `Interrupt.NoNesting` | Core/Interrupt.h:170-173 | a poll inside a handler does nothing and the log does not grow until the handler returns |
| `Interrupt.RestoredExactlyWhenConsistent` | Core/Interrupt.h:137-152 | context and mode come back, whatever the handler left, if and only if the interrupted CPSR names the interrupted mode |
| `Interrupt.PollRestores` | Core/Interrupt.h:137-152 | a whole poll gives a consistent processor back its context and mode |
| `Interrupt.HandlerStarts` | Core/Interrupt.h:137-148 | a handler is called in interrupt mode, by mode number and CPSR bits, with r15 the handler word, r0 to r12 of the interrupted mode (r0 to r7 from fast interrupts), r13 and r14 of the interrupt bank and only its bit flagged; a dispatch is what it does from there, with the context put back |
| `Interrupt.HandlersStartNowhereElse` | Core/Interrupt.h:137-152 | what handlers would do in any other state makes no difference to a whole poll of a consistent processor |
| `Interrupt.FiredBits` | Core/Interrupt.h:73-93 | fires leave exactly their bits signalled, and the vertical-blank bit noted if bit 0 is among them |
| `Interrupt.Dispatcher.Poll` | Core/Interrupt.h:157-240 | the loop over the mask, with the extra masking of the ARM7 |
| `Interrupt.Dispatcher.SwitchAndInvoke` | Core/Interrupt.h:137-152 | one dispatch: interrupt mode, handler address read at that moment, handler run with polls off, context put back |
| `Interrupt.Dispatcher.Fire` | Core/Interrupt.h:74-92 | signals the bit, and sets the vertical-blank status bit for bit 0 |
| `Ipc.WriteAppends` | Core/fifo.h:26-30 | a write into a ring that is not full appends to its contents, also when the counter wraps |
| `Ipc.ReadTakes` | Core/fifo.h:37-42 | a read takes the first word of the contents |
| `Ipc.StateMeansLag` | Core/fifo.h:11-24 | while the writer is at most 16 ahead, empty and full mean a lag of 0 and of 16 |
| `Ipc.OverflowLoses` | Core/fifo.h:26-30 | a write into a full ring overwrites the oldest word: the reader gets the words written if and only if the new word equals the one it replaced |
| `Ipc.PushGood` | Core/IORegs.cpp:282-288 | a push with room keeps the invariant of a direction and tells the receiver the state |
| `Ipc.PopGood` | Core/IORegs.cpp:771-790 | a pop, also of an empty ring, keeps the invariant |
| `Ipc.LinkIsSafe` | Core/IORegs.cpp:51-88 | after any run in which pushes find room, in both directions: words popped are a prefix of words pushed, at most 16 are on their way; each CPU reads in bits 0 and 1 whether none or 16 of its own words are on their way, and in bits 8 and 9 the same of the other's if and only if it was told anything |
| `Ipc.ReadBits` | Core/IORegs.cpp:69-72 | the count register read back shows the own ring in bits 0 and 1 and what was last told in bits 8 and 9 |
| `Ipc.StepHistory` | Core/IORegs.cpp:771-790 | a push reaches the other CPU and raises its 18; a pop takes the oldest word on its way and raises 17 at the sender if and only if none is left |
| `Ipc.Fifo.Write` | Core/fifo.h:26-30 | stores at the counter modulo 16 and counts on modulo 2^32 |
| `Ipc.Fifo.Read` | Core/fifo.h:37-42 | returns the word at the counter modulo 16 and counts on modulo 2^32 |
| `Ipc.Fifo.IsFull` | Core/fifo.h:21-24 | full means not empty with a lag that is a multiple of 16 |
| `Ipc.IoRegs.Send` | Core/IORegs.cpp:602-608 | a store to the send register writes the own ring and tells the other CPU its state, full ring or not |
| `Ipc.IoRegs.Receive` | Core/IORegs.cpp:837-856 | a load from the receive register takes the next word of the other ring if there is one, notes its state and fires when it is left empty |
| `Ipc.IoRegs.GetFifoState` | Core/IORegs.cpp:51-59 | bit 0 is empty and bit 1 is full |
| `Dma.TransferIsRun` | Core/dma.cpp:16-118 | the loop is the sequential copy of exactly as many elements as the low 21 control bits say; the upper control bits stay fixed, addresses end past the last element |
| `Dma.TransferByFields` | Core/dma.cpp:14-118 | element width, both address steps and the count from bits 0-26 and 31 of the control word, and where the addresses end |
| `Dma.PassedOver` | Core/dma.cpp:27-45 | elements with an unreadable source page or an unwritable destination page are passed over |
| `Dma.AlignedThroughout` | Core/dma.cpp:51-75 | every element is as aligned as the first |
| `Dma.Unaligned` | Core/dma.cpp:51-75 | a transfer with a misaligned address copies nothing at all |
| `Dma.CopyIsExact` | Core/dma.cpp:46-83 | disjoint ranges without doubly written elements: every destination element holds its source element, everything else is untouched, everything written is dirty |
| `Dma.FixedDestination` | Core/dma.cpp:84-97 | a destination that does not move ends with the last source element |
| `Dma.Engine.Start` | Core/dma.cpp:6-118 | the loop on the three registers and the memory, ending with a control word of 0 |
| `Crc16.TableEntry` | Core/Util.cpp:27-61 | every one of the 256 table entries is eight bit steps of its index |
| `Crc16.StepIsFeed` | Core/Util.cpp:23 | one table step is one byte of the bit-by-bit CRC |
| `Crc16.GetCrc16` | Core/Util.cpp:18-25 | the table loop computes the bit-by-bit CRC, for every message and seed |
| `Crc16.CrcOfSealed` | Core/Util.cpp:18-25 | a message followed by its CRC, low byte first, has CRC zero |
| `Crc16.NoCollision` | Core/Util.cpp:18-25 | messages that differ only inside a window of at most two bytes have different CRCs |
| `ProcessMemory.ProcessMemory` | Core/MemMap.h:223-247 | the page walk calls the functor on the specified chunks in order |
| `ProcessMemory.ChunksAreRange` | Core/MemMap.h:223-247 | the chunks put together are the range seen through the page table, every byte once, also across the top of the address space |
| `ProcessMemory.ChunkShape` | Core/MemMap.h:223-247 | only the first chunk can start inside a page or be empty, only the last can end inside one, and how many there are |
| `ProcessMemory.Crc16Direct` | Core/HLE.cpp:664-689 | the CRC of the flat byte sequence seen through the page table |
| `BreakpointProof.ToggleExactly` | Core/Breakpoint.h:172-184 | toggling one line keeps the claims of the tables if and only if it does not enable a line whose byte is patched already or is not the one the line has kept |
| `BreakpointProof.CapturesExactly` | Core/Breakpoint.h:401-410 | a line placed by a decode keeps the compiler's byte if and only if that byte was not patched then, or is the patch byte anyway |
| `BreakpointProof.UpdateExactly` | Core/Breakpoint.h:378-424 | bringing the breakpoints of an instruction up to date keeps the invariant if and only if no used line is decoded onto a byte another owner has patched; other patches in the instruction do no harm |
| `BreakpointProof.ToggleAtExactly` | Core/Breakpoint.h:514-532 | a toggle from outside, the first one and the last one of an address included, keeps the claims if and only if the line it enables can be |
| `BreakpointRuns.OnetimeExactly` | Core/Breakpoint.h:315-365 | setting one or two single-step breakpoints anywhere, on an instruction with breakpoints of its own too, keeps the claims if and only if the lines it enables can be |
| `BreakpointRecompile.RecompiledExactly` | Core/Mem.cpp:50-61 | deleting a page's code, compiling it anywhere, its old bytes included, and placing its breakpoints again keeps the claims if and only if, by the state before, no turn puts a patch on another new one or on an old one of an owner whose turn is still to come; and that is so if and only if the second holds and no two used breakpoints end on one byte |
| `BreakpointRuns.StepExactly` | Core/Breakpoint.h:315-532 | each of the four operations keeps the claims if and only if it may be taken in the state before it |
| `BreakpointRuns.StepParts` | Core/Breakpoint.h:315-532 | it may be taken if and only if no two used breakpoints end on one byte, a line enabled where it was placed before has kept the right byte, and no new patch is put where another owner still has an old one to forget |
| `BreakpointRuns.RunExactly` | Core/Breakpoint.h:130-184 | a run keeps the claims throughout if and only if each of its steps may be taken, and if and only if no two used breakpoints are ever on one byte and each step finds what else it needs |
| `BreakpointRuns.PatchingIsUndoable` | Core/Breakpoint.h:130-184 | from the start, over every run of toggles, single steps and recompiles, exactly under that condition: patched if and only if used and placed, the lookup table holds exactly the patched bytes, those break, and undoing the patches gives the code as compiled |
| `BreakpointCases.RestoresPatchByte` | Core/Breakpoint.h:335-342 | a run from the start in which no two used breakpoints share a byte and undoing writes the patch byte for good: a single step over a breakpoint, both removed, and a single step back |
| `BreakpointCases.KeepsPatchByte` | Core/Breakpoint.h:335-342 | the same five steps from every state that has nothing in use on the instruction |
| `BreakpointCases.ReuseLosesEntry` | Core/Breakpoint.h:161-170 | a run from the start in which no two used breakpoints share a byte and a recompile onto the old bytes leaves a patched breakpoint that the table does not lead to |
| `BreakpointView.GetJitExactly` | Core/Breakpoint.h:463-512 | the code shown for any address with a compiled page is the code as compiled if and only if no patch of another breakpoint that changed a byte is in it |
| `BreakpointPlaces.RangesTile` | Core/Breakpoint.h:386-392 | the code of instruction i starts at entry i of the remap table and ends at the next entry, the last one at the end of the block |
| `BreakpointPlaces.EachByteOnce` | Core/Breakpoint.h:386-392 | every byte of a block from its first instruction on is in the code of exactly one instruction |
| `BreakpointPlaces.DecodedLines` | Core/Breakpoint.h:378-424 | after a decode line k is at the block, plus the remap entry of the instruction, plus the sizes of the k host instructions in front of it, and patched if and only if used; other lines have no place |
| `BreakpointPlaces.BytesThere` | Core/Breakpoint.h:378-392 | every instruction of a compiled page has such bytes, and without a compiled page there is no place |
| `BreakpointPlaces.ShownFrom` | Core/Breakpoint.h:463-512 | the code shown starts at the instruction's remap entry and is as long as the table says |
| `BreakpointPlaces.ToggleAtUses` | Core/Breakpoint.h:514-532 | a toggle flips exactly the named line of the named address, which has an entry afterwards if and only if one of its lines is used |
| `BreakpointPlaces.OnetimeUses` | Core/Breakpoint.h:315-365 | exactly the named lines of the single-step owners are used afterwards, pointed at the named addresses, and breakpoints are as before |
| `BreakpointPlaces.RecompileUses` | Core/Mem.cpp:50-61 | a recompile changes no line's use |
| `Breakpoint.Breakpoints.PatchBi` | Core/Breakpoint.h:130-142 | writes the break byte, enters the breakpoint in the lookup table and marks it, unless it is patched already |
| `Breakpoint.Breakpoints.UnpatchBi` | Core/Breakpoint.h:145-157 | writes the original byte back and takes the table entry out, if it was patched |
| `Breakpoint.Breakpoints.ToggleSub` | Core/Breakpoint.h:173-184 | flips used, and patches or unpatches exactly if there is code to patch |
| `Breakpoint.Breakpoints.UpdateBreakdata` | Core/Breakpoint.h:378-424 | forgets the places of all forty lines, then decodes the instruction and places a line per host instruction, patching the used ones |
| `Breakpoint.Breakpoints.SetOnetime` | Core/Breakpoint.h:315-365 | takes old single-step breakpoints off, points the one or two owners at their addresses and enables their lines, in the order and with the early exits of the source |
| `Breakpoint.Breakpoints.UnsetOnetime` | Core/Breakpoint.h:367-376 | both single-step breakpoints off |
| `Breakpoint.Breakpoints.ToggleBreak` | Core/Breakpoint.h:186-200 | a toggle, with a new entry for the first breakpoint of an address and the entry erased after the last |

## Left out

- x86 byte encodings, relocation of the remap table, cycle counting and the epilogue: operations
  are symbolic and a code position is an index.
- R15 as an operand, the NV condition, MOV_R, and the immediate and register-shifted forms of
  the data-processing instructions other than the shifter code itself.
- The flags ARM would give for RSC, TST, TEQ, MVN and for logical instructions with LSL #0 where
  the emitted code gives others: they are tracked as not ARM's.
- LDM and STM with the S bit or R15 in the list, and the jump after loading R15.
- Memory blocks are values indexed by number, not objects with addresses; two pages of one
  block are two equal table entries. The class `CodeCache.MemoryBlock` is the exception.
- Access-handler pages: I/O registers, SPI and the touchscreen.
- `invalid_read`, `invalid_write` and `DebugBreak_`: reported as a result or skipped over.
- VRAM banks F to I, texture slots, and the WRAM control.
- `runner::get_entry`, fibers, signals and the single-step control of the host.
- The ARM callbacks behind the decompressor's input and output: bytes in, bytes out, for
  destinations that are page-aligned.
- Register writes to the IPC sync register and to the FIFO control register.
- CodeCache.StepCoherent: does not model compilation that depends on anything but the page's
  bytes, such as breakpoints patched into the code.
- CpuMode.CopyingIsBanking: does not cover saved flags across a mode change, which the source
  does not carry over, nor writes of invalid modes.
- Interrupt.PollDispatches: does not cover enable bits changed by another thread between two
  turns; handlers may change them.
- Dma.CopyIsExact: is about pages that are usable throughout; other pages are skipped element
  by element, which `Dma.TransferIsRun` covers.
- OperationEffects.OperationEffect: does not cover an SBC that finds loaded host flags; that is
  `SbcCarry.SbcExactly`, and `Tracking.Readable` rejects it.
- StoredFlags.CorrectExactly: is about ADD, ADC, CMP and CMN; lists with other opcodes are covered
  as far as `Lowering.CodeRefines` admits them.
- BlockTransfer.TransferEmitter.CompileStm: does not cover lists with R15.
- BlockTransfer.TransferEmitter.CompileLdm: does not cover the bank switch of the S bit and the
  jump after R15.
- BlockTransferProof.StmThenLdm: is about a base that is not listed; for LDM alone
  `BlockTransferProof.LdmEffect` covers a listed base.
- BreakpointRuns.PatchingIsUndoable: fixes one CPU, one instruction set and the memory map, so that
  a breakpoint's page does not change under it; the decoder is any function that stays inside
  the bytes it is given.
- Data races between the CPU threads: every memory operation, branch, FIFO access and fire is
  one atomic step.
- Loaders, debug information, disassembler output and the interpreter except its shifter.
