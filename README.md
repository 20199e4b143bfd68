# CHIP-8 emulator core, modelled in Dafny

This project models `Emu`, the CHIP-8 virtual machine of the `chip_8_core` crate
(`chip_8_core/src/lib.rs`), and proves properties of it. The machine has:

- 4095 bytes of RAM. The code sets `MEMORY_SIZE` to 4095, not 4096.
- a 16-entry stack of `u16` return addresses with a stack pointer.
- a 64×32 monochrome screen.
- sixteen byte registers `V0..VF`, the index register `I`, the program counter, and
  the delay and sound timers.

It is constructed with the 80-byte hex-digit font at `ram[0..80)` and PC = 0x200. A ROM
is copied to `ram[0x200..]`. `tick` fetches the big-endian word at PC and executes it.
`tick_timers` counts both timers down.

The project has three files:

- `chip8.dfy`, module `Chip8`: the machine as a value (`Machine`, a record of
  sequences). It has one function per operation of `Emu`. Every operation yields a
  `Step`, which is either `Done(value, m)` or `Panicked(fault, m)`. Here `m` is the
  state when the operation finished or when the Rust code panicked. Each case of
  `Fault` is one of the panics the code can reach.
- `emu.dfy`, module `Emulator`: the class `Emu`. Its RAM, screen, stack and registers
  are arrays that the methods change in place. `copy_from_slice` and the `[x; N]`
  re-assignments are loops. Every method is proved to report exactly the outcome, and
  leave exactly the state, given by the matching function of `Chip8`.
- `chip8_properties.dfy`, module `Chip8Properties`: lemmas about the decoder, the
  stack, the timers, each implemented opcode, and short programs run from the initial
  state.

How the model reads the code:

- Panics follow a debug build. `u8 +=` in `7XNN` fails past 255, `p_counter += 2`
  fails past 0xFFFF, and `s_pointer -= 1` fails below 0. Each of these is a `Fault`,
  not a precondition.
- The PC overflow can only arise when `execute` is called directly on a machine whose
  public `p_counter` is 0xFFFE or 0xFFFF. Through `tick` it cannot happen: a
  successful fetch means PC ≤ 4093, so the only add that panics in a tick is the one
  of `7XNN` (`TickAddPanicIsRegisterAdd`).
- An indexing or slicing panic happens before anything is written, and so does an
  overflow in `7XNN` or `pop`. In those cases the state is unchanged.
- `p_counter += 2` comes last in `00E0`, `6XNN`, `7XNN` and `ANNN`. If it overflows,
  the write made earlier in that branch is kept. The model does the same.
- `fetch` leaves PC alone, because its increment is commented out. So each match arm
  decides how PC moves, exactly as the code has it:
  - `0000` changes nothing.
  - `1NNN` sets PC.
  - `2NNN` pushes `NNN` and does not jump.
  - `00EE` pops and discards the address.
  - Every other implemented arm adds 2.
  - As a consequence, a zero word at PC is a fixed point of `tick`
    (`TickOnZeroWordStays`).
- `(op & 0xF000) >> 12` and the other nibble extractions are written as division and
  remainder on the unsigned 16-bit value. They are equal for every `u16`.
- The `byteorder` read is written as `hi * 256 + lo`.
- The desktop driver keeps ticking while `p_counter < MEMORY_SIZE - 1`. That is
  exactly the condition under which `fetch` does not panic (`Chip8.Fetch`).

Where the usual CHIP-8 behaviour and this code differ, the model follows the code:

- memory is 4095 bytes, so a 3584-byte ROM already panics;
- call and return do not move PC;
- `DXYN` draws nothing;
- the ROM `60 0A 61 05 80 14` (set V0, set V1, then `8014`) panics on its third tick,
  because `8XY4` is not implemented (`AddRegistersProgramPanics`).

## Model

| member | source | states |
|---|---|---|
| Chip8.Wf | chip_8_core/src/lib.rs:33-45 | the array sizes of the struct (4095 bytes of RAM, 2048 pixels, 16 stack slots, 16 registers) and a stack pointer of at most 16, which `push` and `pop` keep |
| Chip8.Init | chip_8_core/src/lib.rs:49-66 | the constructed state: PC 0x200, stack pointer, registers, `I` and timers 0, `ram[0..80)` is the font, the rest of RAM 0, every pixel off |
| Emulator.Emu.constructor | chip_8_core/src/lib.rs:49-66 | `new` builds fresh arrays holding exactly the state `Init` describes |
| Emulator.Emu.Reset | chip_8_core/src/lib.rs:88-100 | whatever the prior state, `reset` leaves exactly the state `new` builds (so a second reset changes nothing) |
| Emulator.Fill | chip_8_core/src/lib.rs:91-95 | overwriting an array with `[x; N]` makes every element `x` |
| Chip8.Overwrite | chip_8_core/src/lib.rs:72 | `copy_from_slice` into `dst[at..at+len)`: those positions hold the source, all others are unchanged, the length is kept |
| Emulator.CopyInto | chip_8_core/src/lib.rs:72 | the in-place copy loop leaves the array equal to `Overwrite` of its old contents |
| Chip8.Load | chip_8_core/src/lib.rs:69-73 | succeeds iff 0x200 + len ≤ 4095; then `ram[0x200+k] == data[k]`, every other byte and every other field unchanged; otherwise the slice panic with the machine unchanged |
| Emulator.Emu.Load | chip_8_core/src/lib.rs:69-73 | the in-place `load` has exactly the outcome and new state of `Chip8.Load` |
| Chip8.Push | chip_8_core/src/lib.rs:76-79 | succeeds iff the stack pointer is below 16; then the slot at the old pointer holds the value, the pointer is one more, nothing else changes; otherwise an index panic, state unchanged |
| Emulator.Emu.Push | chip_8_core/src/lib.rs:76-79 | the in-place `push` matches `Chip8.Push` |
| Chip8.Pop | chip_8_core/src/lib.rs:82-85 | succeeds iff the stack pointer is positive; then returns the slot below it and decrements it; otherwise the `u16` underflow panic, state unchanged |
| Emulator.Emu.Pop | chip_8_core/src/lib.rs:82-85 | the in-place `pop` matches `Chip8.Pop`, returned value included |
| Chip8Properties.PushThenPop | chip_8_core/src/lib.rs:76-85 | a push followed by a pop returns the pushed value and restores the stack pointer |
| Chip8.Fetch | chip_8_core/src/lib.rs:111-135 | succeeds iff PC + 1 < 4095; the word's high byte is `ram[PC]` and its low byte `ram[PC+1]`; the state, PC included, is unchanged |
| Emulator.Emu.Fetch | chip_8_core/src/lib.rs:111-135 | reads `ram[PC] * 256 + ram[PC+1]` without changing anything, and matches `Chip8.Fetch` |
| Chip8.Tick | chip_8_core/src/lib.rs:102-108 | a tick is a fetch panic, or the execution of the fetched word on the unchanged machine |
| Emulator.Emu.Tick | chip_8_core/src/lib.rs:102-108 | the in-place `tick` matches `Chip8.Tick` |
| Chip8.TickTimers | chip_8_core/src/lib.rs:137-149 | each timer above 0 goes down by exactly 1, a timer at 0 stays 0, nothing else changes |
| Emulator.Emu.TickTimers | chip_8_core/src/lib.rs:137-149 | the in-place countdown matches `Chip8.TickTimers` |
| Chip8Properties.TimersCountDown | chip_8_core/src/lib.rs:137-149 | after n timer ticks each timer is max(t − n, 0) and nothing else has changed |
| Chip8.Nibbles | chip_8_core/src/lib.rs:152-155 | the four fields are each below 16 and put back together give the word |
| Chip8Properties.NibblesOf | chip_8_core/src/lib.rs:152-155 | a word built from four nibbles splits back into exactly those nibbles |
| Chip8Properties.SplitAddrWord | chip_8_core/src/lib.rs:152-155 | a word built from a leading nibble and a 12-bit field has that leading nibble, and `op & 0xFFF` gives back the field |
| Chip8Properties.SplitByteWord | chip_8_core/src/lib.rs:152-155 | a word built from two leading nibbles and an 8-bit field has those nibbles as `digit1` and `digit2`, and `op & 0xFF` gives back the field |
| Chip8.Decode | chip_8_core/src/lib.rs:157-214 | the arm the match selects, in the code's order, with its operand fields: `NNN` is `op & 0xFFF`, `NN` is `op & 0xFF`, `X`, `Y` and `N` are `digit2`, `digit3` and `digit4`, and the fallback keeps the whole word |
| Chip8Properties.DecodeEncode | chip_8_core/src/lib.rs:157-214 | every instruction `Decode` can produce is decoded back from its word: each implemented one with any operands, and every unmatched word |
| Chip8Properties.EncodeDecode | chip_8_core/src/lib.rs:157-214 | the decoded instruction determines the word, so no two words decode alike |
| Chip8Properties.UnknownExactly | chip_8_core/src/lib.rs:157-214 | a word falls to the `unimplemented!` arm iff its nibbles match none of the nine implemented patterns |
| Chip8.AdvancePc | chip_8_core/src/lib.rs:163 | `p_counter += 2`: PC + 2 when it fits in 16 bits, otherwise the overflow panic with the state unchanged |
| Emulator.Emu.AdvancePc | chip_8_core/src/lib.rs:163 | the in-place increment matches `Chip8.AdvancePc` |
| Chip8.Execute | chip_8_core/src/lib.rs:151-216 | executing any word keeps the stack pointer within [0, 16] and the array sizes fixed |
| Emulator.Emu.Execute | chip_8_core/src/lib.rs:151-216 | the in-place `execute` matches `Chip8.Execute` for every word |
| Chip8Properties.ExecuteNop | chip_8_core/src/lib.rs:158 | `0000` changes nothing at all, PC included |
| Chip8Properties.ExecuteClearScreen | chip_8_core/src/lib.rs:160-164 | `00E0` turns every pixel off and then advances PC by 2, nothing else |
| Chip8Properties.ExecuteReturn | chip_8_core/src/lib.rs:166-169 | `00EE` only decrements the stack pointer, discarding the address and leaving PC; on an empty stack it panics with the state unchanged |
| Chip8Properties.ExecuteJump | chip_8_core/src/lib.rs:171-175 | `1NNN` sets PC to `op & 0xFFF` and changes nothing else |
| Chip8Properties.ExecuteCall | chip_8_core/src/lib.rs:177-181 | `2NNN` pushes `NNN` and leaves PC unchanged; on a full stack it panics with the state unchanged |
| Chip8Properties.ExecuteSetReg | chip_8_core/src/lib.rs:183-189 | `6XNN` sets `V[X] = NN` and then advances PC by 2, nothing else |
| Chip8Properties.ExecuteAddReg | chip_8_core/src/lib.rs:191-197 | `7XNN` sets `V[X] = V[X] + NN` and then advances PC by 2 when the sum is below 256; otherwise the add panics before any write |
| Chip8Properties.ExecuteSetIndex | chip_8_core/src/lib.rs:199-204 | `ANNN` sets `I = NNN` and then advances PC by 2, nothing else |
| Chip8Properties.ExecuteDraw | chip_8_core/src/lib.rs:206-209 | `DXYN` only advances PC by 2 |
| Chip8Properties.ExecuteUnknown | chip_8_core/src/lib.rs:211-214 | every other word panics with `unimplemented!` carrying the word, state unchanged |
| Chip8Properties.TickOnZeroWordStays | chip_8_core/src/lib.rs:102-135 | since `fetch` does not advance PC and `0000` is `return`, a tick on a zero word leaves the machine exactly as it was |
| Chip8Properties.TickAddPanicIsRegisterAdd | chip_8_core/src/lib.rs:102-216 | if a tick panics on an add overflow, the fetch succeeded and the word is a `7XNN`: the `p_counter += 2` overflow cannot happen through `tick` |
| Chip8Properties.Run | chip_8_core/src/lib.rs:102-108 | repeated ticks, stopping at the first panic, keep the machine well-formed |
| Chip8Properties.AddRegistersProgramPanics | chip_8_core/src/lib.rs:183-214 | from a fresh machine loaded with `60 0A 61 05 80 14`, two ticks give `V0 = 10`, `V1 = 5`, PC 0x204; the third panics on `8014` |
| Chip8Properties.EmptyRomSpins | chip_8_core/src/lib.rs:158 | a fresh machine with an empty ROM is unchanged by a tick |
| Chip8Properties.RomSizeLimit | chip_8_core/src/lib.rs:69-73 | the largest ROM that loads is 3583 bytes; a 3584-byte ROM panics |

## Left out

- `desktop/src/main.rs` is not part of this model. It parses the command line, reads
  the ROM file and runs the outer loop, which is all I/O.
- The `println!`/`print!` logging in `execute` has no effect on the state.
- The `// BEEP` placeholder in `tick_timers` produces no sound.
- The `opcode` field is only ever set to 0 and nothing reads it.
- The opcodes the code does not implement are only panics here: skips, `8XY*`
  arithmetic and flags, sprite XOR and collision, BCD, register store/load, key-wait
  and random. Beyond the `unimplemented!` panic there is no behaviour to model.
- Release builds wrap around on overflow instead of panicking. The model follows
  debug-build semantics only.
- Chip8.Execute: its own contract only states well-formedness. What each opcode does
  is stated by the `Execute*` lemmas.
- Unwinding after a panic is not modelled. The model records the state at the moment
  of the panic.
