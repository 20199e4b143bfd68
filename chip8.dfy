/** The CHIP-8 machine of `chip_8_core` as values: its constants, its state as a
    record of sequences, and one function per operation of `Emu`. Every operation
    yields a `Step`: either it finished, or it hit one of the panics of the Rust code,
    and in both cases the state as it stands at that moment. */
module Chip8 {

  type u8 = x: int | 0 <= x < 0x100
  type u16 = x: int | 0 <= x < 0x1_0000
  /** A four-bit field of an instruction word. */
  type Nibble = x: int | 0 <= x < 0x10
  /** A twelve-bit address field of an instruction word. */
  type Addr = x: int | 0 <= x < 0x1000

  const MEMORY_SIZE: nat := 4095  // one byte short of the usual 4 KiB, as in the code
  const ROM_OFFSET: u16 := 0x200
  const STACK_SIZE: nat := 16
  const SCREEN_WIDTH: nat := 64
  const SCREEN_HEIGHT: nat := 32
  const SCREEN_SIZE: nat := SCREEN_WIDTH * SCREEN_HEIGHT
  const NUM_REGS: nat := 16
  const FONTSET_SIZE: nat := 80

  /** Bitmaps of the hexadecimal digits 0..F, five rows each. */
  const FONTSET: seq<u8> := [
    0xF0, 0x90, 0x90, 0x90, 0xF0, // 0
    0x20, 0x60, 0x20, 0x20, 0x70, // 1
    0xF0, 0x10, 0xF0, 0x80, 0xF0, // 2
    0xF0, 0x10, 0xF0, 0x10, 0xF0, // 3
    0x90, 0x90, 0xF0, 0x10, 0x10, // 4
    0xF0, 0x80, 0xF0, 0x10, 0xF0, // 5
    0xF0, 0x80, 0xF0, 0x90, 0xF0, // 6
    0xF0, 0x10, 0x20, 0x40, 0x40, // 7
    0xF0, 0x90, 0xF0, 0x90, 0xF0, // 8
    0xF0, 0x90, 0xF0, 0x10, 0xF0, // 9
    0xF0, 0x90, 0xF0, 0x90, 0x90, // A
    0xE0, 0x90, 0xE0, 0x90, 0xE0, // B
    0xF0, 0x80, 0x80, 0x80, 0xF0, // C
    0xE0, 0x90, 0x90, 0x90, 0xE0, // D
    0xF0, 0x80, 0xF0, 0x80, 0xF0, // E
    0xF0, 0x80, 0xF0, 0x80, 0x80  // F
  ]

  /** The panics the Rust code can reach (debug build: integer overflow panics). */
  datatype Fault =
    | IndexOutOfBounds        // an array index past the end
    | SliceEndOutOfRange      // `ram[start..end]` with `end` past the end
    | SubtractWithOverflow    // `u16 -= 1` below zero
    | AddWithOverflow         // `u8 +=` or `u16 +=` past the maximum
    | NotImplemented(op: u16) // `unimplemented!` for an opcode the match does not handle

  /** The fields of `Emu` (the never-used `opcode` field is left out). */
  datatype Machine = Machine(
    pc: u16,           // p_counter
    sp: u16,           // s_pointer
    ram: seq<u8>,
    screen: seq<bool>,
    stack: seq<u16>,
    v: seq<u8>,        // v_reg
    i: u16,            // i_reg
    delay: u8,         // d_timer
    sound: u8          // s_timer
  )

  /** What the Rust types guarantee (array sizes) and what `push`/`pop` keep (the
      stack pointer never passes the stack's capacity). */
  predicate Wf(m: Machine) {
    |m.ram| == MEMORY_SIZE && |m.screen| == SCREEN_SIZE && |m.stack| == STACK_SIZE &&
    |m.v| == NUM_REGS && m.sp as int <= STACK_SIZE
  }

  /** The end of an operation: finished with a value, or panicked. `m` is the state
      when it finished or when it panicked. */
  datatype Step<T> = Done(value: T, m: Machine) | Panicked(fault: Fault, m: Machine) {
    /** What the caller sees, without the state. */
    function Result(): Result<T> {
      match this
      case Done(x, _) => Ok(x)
      case Panicked(f, _) => Err(f)
    }
  }

  datatype Result<T> = Ok(value: T) | Err(fault: Fault)

  /** `dst[at..at+|src|].copy_from_slice(src)` on a copy of `dst`. */
  function Overwrite<T>(dst: seq<T>, at: nat, src: seq<T>): (r: seq<T>)
    requires at + |src| <= |dst|
    ensures |r| == |dst|
    ensures forall k :: 0 <= k < |src| ==> r[at + k] == src[k]
    ensures forall a :: 0 <= a < |dst| && !(at <= a < at + |src|) ==> r[a] == dst[a]
  {
    dst[..at] + src + dst[at + |src|..]
  }

  function Zeros(n: nat): seq<u8> {
    seq(n, _ => 0)
  }

  function Blank(): seq<bool> {
    seq(SCREEN_SIZE, _ => false)
  }

  /** The state built by `Emu::new` and restored by `reset`. */
  function Init(): (m: Machine)
    ensures Wf(m)
    ensures m.pc == 0x200 && m.sp == 0 && m.i == 0 && m.delay == 0 && m.sound == 0
    ensures m.ram[..FONTSET_SIZE] == FONTSET
    ensures forall a :: FONTSET_SIZE <= a < MEMORY_SIZE ==> m.ram[a] == 0
    ensures forall p :: 0 <= p < SCREEN_SIZE ==> !m.screen[p]
    ensures forall k :: 0 <= k < STACK_SIZE ==> m.stack[k] == 0
    ensures forall x :: 0 <= x < NUM_REGS ==> m.v[x] == 0
  {
    var m := Machine(ROM_OFFSET, 0, Overwrite(Zeros(MEMORY_SIZE), 0, FONTSET), Blank(),
                     seq(STACK_SIZE, _ => 0), Zeros(NUM_REGS), 0, 0, 0);
    assert m.ram[..FONTSET_SIZE] == FONTSET;
    m
  }

  /** `load`: copies the ROM to `ram[0x200..0x200+|data|]`; the slice panics when the
      ROM does not fit. */
  function Load(m: Machine, data: seq<u8>): (r: Step<()>)
    requires Wf(m)
    ensures Wf(r.m)
    ensures r.Done? <==> ROM_OFFSET as int + |data| <= MEMORY_SIZE
    ensures r.Panicked? ==> r.fault == SliceEndOutOfRange && r.m == m
    ensures r.Done? ==>
      (forall k :: 0 <= k < |data| ==> r.m.ram[ROM_OFFSET as int + k] == data[k]) &&
      (forall a :: 0 <= a < MEMORY_SIZE && !(ROM_OFFSET as int <= a < ROM_OFFSET as int + |data|) ==>
         r.m.ram[a] == m.ram[a]) &&
      r.m.(ram := m.ram) == m
  {
    var start := ROM_OFFSET as int;
    var end := ROM_OFFSET as int + |data|;
    if end > MEMORY_SIZE then Panicked(SliceEndOutOfRange, m)
    else Done((), m.(ram := Overwrite(m.ram, start, data)))
  }

  /** `push`: stores at the stack pointer, then increments it. */
  function Push(m: Machine, val: u16): (r: Step<()>)
    requires Wf(m)
    ensures Wf(r.m)
    ensures r.Done? <==> m.sp as int < STACK_SIZE
    ensures r.Panicked? ==> r.fault == IndexOutOfBounds && r.m == m
    ensures r.Done? ==>
      r.m.sp == m.sp + 1 && r.m.stack[m.sp] == val &&
      (forall k :: 0 <= k < STACK_SIZE && k != m.sp as int ==> r.m.stack[k] == m.stack[k]) &&
      r.m.(sp := m.sp, stack := m.stack) == m
  {
    if m.sp as int >= STACK_SIZE then Panicked(IndexOutOfBounds, m)
    else Done((), m.(stack := m.stack[m.sp := val], sp := m.sp + 1))
  }

  /** `pop`: decrements the stack pointer, then reads the slot it now points at. */
  function Pop(m: Machine): (r: Step<u16>)
    requires Wf(m)
    ensures Wf(r.m)
    ensures r.Done? <==> m.sp > 0
    ensures r.Panicked? ==> r.fault == SubtractWithOverflow && r.m == m
    ensures r.Done? ==> r.value == m.stack[m.sp - 1] && r.m == m.(sp := m.sp - 1)
  {
    if m.sp == 0 then Panicked(SubtractWithOverflow, m)
    else Done(m.stack[m.sp - 1], m.(sp := m.sp - 1))
  }

  /** `fetch`: the big-endian word at `pc`; `pc` is left where it is. */
  function Fetch(m: Machine): (r: Step<u16>)
    requires Wf(m)
    ensures r.m == m
    ensures r.Done? <==> m.pc as int + 1 < MEMORY_SIZE
    ensures r.Panicked? ==> r.fault == IndexOutOfBounds
    ensures r.Done? ==> r.value / 0x100 == m.ram[m.pc] && r.value % 0x100 == m.ram[m.pc + 1]
  {
    if m.pc as int + 1 >= MEMORY_SIZE then Panicked(IndexOutOfBounds, m)
    else Done(m.ram[m.pc] as int * 0x100 + m.ram[m.pc + 1], m)
  }

  /** `tick_timers`: the 60 Hz countdown of both timers. */
  function TickTimers(m: Machine): (r: Machine)
    ensures m.delay > 0 ==> r.delay == m.delay - 1
    ensures m.delay == 0 ==> r.delay == 0
    ensures m.sound > 0 ==> r.sound == m.sound - 1
    ensures m.sound == 0 ==> r.sound == 0
    ensures r.(delay := m.delay, sound := m.sound) == m
  {
    var d := if m.delay > 0 then m.delay - 1 else m.delay;
    var s := if m.sound > 0 then m.sound - 1 else m.sound;
    m.(delay := d, sound := s)
  }

  /** The four-way split `(op & 0xF000) >> 12`, `(op & 0x0F00) >> 8`,
      `(op & 0x00F0) >> 4`, `op & 0x000F`, written with division and remainder. */
  function Nibbles(op: u16): (r: (Nibble, Nibble, Nibble, Nibble))
    ensures op == r.0 * 0x1000 + r.1 * 0x100 + r.2 * 0x10 + r.3
  {
    (op / 0x1000, (op / 0x100) % 0x10, (op / 0x10) % 0x10, op % 0x10)
  }

  /** The cases of the `match` in `execute`, with their operand fields. */
  datatype Instr =
    | Nop                                 // 0000
    | ClearScreen                         // 00E0
    | Return                              // 00EE
    | Jump(nnn: Addr)                     // 1NNN
    | Call(nnn: Addr)                     // 2NNN
    | SetReg(x: Nibble, nn: u8)           // 6XNN
    | AddReg(x: Nibble, nn: u8)           // 7XNN
    | SetIndex(nnn: Addr)                 // ANNN
    | Draw(x: Nibble, y: Nibble, n: Nibble) // DXYN
    | Unknown(op: u16)                    // everything else

  /** The pattern match of `execute` over the four nibbles, in the code's order. */
  function Decode(op: u16): (r: Instr)
    ensures r.Jump? || r.Call? || r.SetIndex? ==> r.nnn == op % 0x1000
    ensures r.SetReg? || r.AddReg? ==> r.x == Nibbles(op).1 && r.nn == op % 0x100
    ensures r.Draw? ==> (r.x, r.y, r.n) == (Nibbles(op).1, Nibbles(op).2, Nibbles(op).3)
    ensures r.Unknown? ==> r.op == op
  {
    match Nibbles(op)
    case (0, 0, 0, 0) => Nop
    case (0, 0, 0xE, 0) => ClearScreen
    case (0, 0, 0xE, 0xE) => Return
    case (1, _, _, _) => Jump(op % 0x1000)
    case (2, _, _, _) => Call(op % 0x1000)
    case (6, x, _, _) => SetReg(x, op % 0x100)
    case (7, x, _, _) => AddReg(x, op % 0x100)
    case (0xA, _, _, _) => SetIndex(op % 0x1000)
    case (0xD, x, y, n) => Draw(x, y, n)
    case _ => Unknown(op)
  }

  /** The instruction word of an instruction: the inverse of `Decode`. */
  function Encode(ins: Instr): u16 {
    match ins
    case Nop => 0x0000
    case ClearScreen => 0x00E0
    case Return => 0x00EE
    case Jump(nnn) => 0x1000 + nnn
    case Call(nnn) => 0x2000 + nnn
    case SetReg(x, nn) => 0x6000 + x * 0x100 + nn
    case AddReg(x, nn) => 0x7000 + x * 0x100 + nn
    case SetIndex(nnn) => 0xA000 + nnn
    case Draw(x, y, n) => 0xD000 + x * 0x100 + y * 0x10 + n
    case Unknown(op) => op
  }

  /** `p_counter += 2`, which panics on `u16` overflow. */
  function AdvancePc(m: Machine): (r: Step<()>)
    ensures m.pc as int + 2 < 0x1_0000 ==> r == Done((), m.(pc := m.pc + 2))
    ensures m.pc as int + 2 >= 0x1_0000 ==> r == Panicked(AddWithOverflow, m)
  {
    if m.pc as int + 2 >= 0x1_0000 then Panicked(AddWithOverflow, m)
    else Done((), m.(pc := m.pc + 2))
  }

  /** `execute`: the implemented opcodes, as the code has them. `0000` does nothing,
      `00EE` pops and throws the address away, `2NNN` pushes `NNN` and does not jump,
      `DXYN` only steps over the instruction. */
  function Execute(m: Machine, op: u16): (r: Step<()>)
    requires Wf(m)
    ensures Wf(r.m)
  {
    match Decode(op)
    case Nop => Done((), m)
    case ClearScreen => AdvancePc(m.(screen := Blank()))
    case Return =>
      var p := Pop(m);
      if p.Panicked? then Panicked(p.fault, p.m) else Done((), p.m)
    case Jump(nnn) => Done((), m.(pc := nnn))
    case Call(nnn) => Push(m, nnn)
    case SetReg(x, nn) => AdvancePc(m.(v := m.v[x := nn]))
    case AddReg(x, nn) =>
      if m.v[x] + nn >= 0x100 then Panicked(AddWithOverflow, m)
      else AdvancePc(m.(v := m.v[x := m.v[x] + nn]))
    case SetIndex(nnn) => AdvancePc(m.(i := nnn))
    case Draw(_, _, _) => AdvancePc(m)
    case Unknown(w) => Panicked(NotImplemented(w), m)
  }

  /** `tick`: execute the word that `fetch` reads. */
  function Tick(m: Machine): (r: Step<()>)
    requires Wf(m)
    ensures Wf(r.m)
    ensures Fetch(m).Panicked? ==> r == Panicked(IndexOutOfBounds, m)
    ensures Fetch(m).Done? ==> r == Execute(m, Fetch(m).value)
  {
    var f := Fetch(m);
    if f.Panicked? then Panicked(f.fault, f.m) else Execute(f.m, f.value)
  }
}
