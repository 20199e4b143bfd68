/** Properties of the CHIP-8 model: the decoder, the stack, the timers, what each
    implemented opcode does to the machine, and whole programs run from `Init`. */
module Chip8Properties {
  import opened Chip8

  // ---------------------------------------------------------------------------
  // Decoding

  /** Quotient and remainder by a nibble-field width (16, 256 or 4096) are the only
      pair that rebuilds the dividend. */
  lemma DivModUnique(x: int, q: int, r: int, k: int)
    requires k == 0x10 || k == 0x100 || k == 0x1000
    requires 0 <= r < k && x == q * k + r
    ensures x / k == q && x % k == r
  {
    if k == 0x10 {
      assert x == q * 0x10 + r;
    } else if k == 0x100 {
      assert x == q * 0x100 + r;
    } else {
      assert x == q * 0x1000 + r;
    }
  }

  /** The nibbles of a word put together from four nibbles are those four. */
  lemma NibblesOf(a: Nibble, b: Nibble, c: Nibble, d: Nibble)
    ensures Nibbles(a * 0x1000 + b * 0x100 + c * 0x10 + d) == (a, b, c, d)
  {
    var op := a * 0x1000 + b * 0x100 + c * 0x10 + d;
    DivModUnique(op, a, b * 0x100 + c * 0x10 + d, 0x1000);
    DivModUnique(op, a * 0x10 + b, c * 0x10 + d, 0x100);
    DivModUnique(a * 0x10 + b, a, b, 0x10);
    DivModUnique(op, a * 0x100 + b * 0x10 + c, d, 0x10);
    DivModUnique(a * 0x100 + b * 0x10 + c, a * 0x10 + b, c, 0x10);
  }

  /** A word made of a leading nibble and a twelve-bit `NNN` field has that
      leading nibble and that `NNN`. */
  lemma SplitAddrWord(a: Nibble, nnn: Addr)
    ensures Nibbles(a * 0x1000 + nnn).0 == a && (a * 0x1000 + nnn) % 0x1000 == nnn
  {
    DivModUnique(a * 0x1000 + nnn, a, nnn, 0x1000);
  }

  /** A word made of a leading nibble, an `X` nibble and an eight-bit `NN` field
      has those two nibbles in front and that `NN`. */
  lemma SplitByteWord(a: Nibble, x: Nibble, nn: u8)
    ensures var op := a * 0x1000 + x * 0x100 + nn;
      Nibbles(op).0 == a && Nibbles(op).1 == x && op % 0x100 == nn
  {
    var op := a * 0x1000 + x * 0x100 + nn;
    DivModUnique(op, a, x * 0x100 + nn, 0x1000);
    DivModUnique(op, a * 0x10 + x, nn, 0x100);
    DivModUnique(a * 0x10 + x, a, x, 0x10);
  }

  /** Every instruction `Decode` can produce is decoded back from its word: each
      implemented one with any operands, and every word no pattern matches. */
  lemma DecodeEncode(ins: Instr)
    requires !ins.Unknown? || Decode(ins.op).Unknown?
    ensures Decode(Encode(ins)) == ins
  {
    match ins
    case Unknown(_) =>
    case Nop =>
    case ClearScreen =>
    case Return =>
    case Jump(nnn) => SplitAddrWord(1, nnn);
    case Call(nnn) => SplitAddrWord(2, nnn);
    case SetReg(x, nn) => SplitByteWord(6, x, nn);
    case AddReg(x, nn) => SplitByteWord(7, x, nn);
    case SetIndex(nnn) => SplitAddrWord(0xA, nnn);
    case Draw(x, y, n) => NibblesOf(0xD, x, y, n);
  }

  /** Decoding loses nothing: the word is recovered from the instruction. */
  lemma EncodeDecode(op: u16)
    ensures Encode(Decode(op)) == op
  {
  }

  /** A word decodes as unknown exactly when its nibbles match none of the patterns
      of the `match` in `execute`. */
  lemma UnknownExactly(op: u16)
    ensures Decode(op).Unknown? <==>
      var (d1, d2, d3, d4) := Nibbles(op);
      d1 !in {1, 2, 6, 7, 0xA, 0xD} && !(d1 == 0 && d2 == 0 && (d3, d4) in {(0, 0), (0xE, 0), (0xE, 0xE)})
  {
  }

  // ---------------------------------------------------------------------------
  // Loading

  /** With 4095 bytes of memory the largest ROM that loads is 3583 bytes: one that
      fills a 4 KiB memory from 0x200 (3584 bytes) panics. */
  lemma RomSizeLimit(m: Machine, data: seq<u8>)
    requires Wf(m)
    ensures |data| <= 3583 ==> Load(m, data).Done?
    ensures |data| >= 3584 ==> Load(m, data) == Panicked(SliceEndOutOfRange, m)
  {
  }

  // ---------------------------------------------------------------------------
  // Stack

  /** `push` then `pop` gives back the pushed value and the old stack pointer; the
      slot written by `push` keeps the value. */
  lemma PushThenPop(m: Machine, val: u16)
    requires Wf(m) && m.sp as int < STACK_SIZE
    ensures Push(m, val).Done?
    ensures Pop(Push(m, val).m) == Done(val, m.(stack := m.stack[m.sp := val]))
  {
  }

  // ---------------------------------------------------------------------------
  // Timers

  /** `n` calls of `tick_timers`. */
  function TimerTicks(m: Machine, n: nat): Machine
    decreases n
  {
    if n == 0 then m else TimerTicks(TickTimers(m), n - 1)
  }

  /** After `n` timer ticks each timer has gone down by `n`, stopping at zero, and
      nothing else has changed. */
  lemma {:induction false} TimersCountDown(m: Machine, n: nat)
    ensures TimerTicks(m, n).delay == if m.delay >= n then m.delay - n else 0
    ensures TimerTicks(m, n).sound == if m.sound >= n then m.sound - n else 0
    ensures TimerTicks(m, n).(delay := m.delay, sound := m.sound) == m
    decreases n
  {
    if n > 0 {
      TimersCountDown(TickTimers(m), n - 1);
    }
  }

  // ---------------------------------------------------------------------------
  // Executing one instruction

  /** `0000` changes nothing at all, not even `pc`. */
  lemma ExecuteNop(m: Machine)
    requires Wf(m)
    ensures Execute(m, 0x0000) == Done((), m)
  {
  }

  /** `00E0` blanks the screen and steps over the instruction. */
  lemma ExecuteClearScreen(m: Machine)
    requires Wf(m)
    ensures Execute(m, 0x00E0) == AdvancePc(m.(screen := Blank()))
    ensures forall p :: 0 <= p < SCREEN_SIZE ==> !Execute(m, 0x00E0).m.screen[p]
  {
  }

  /** `00EE` pops, throws the address away, and leaves `pc` where it is. */
  lemma ExecuteReturn(m: Machine)
    requires Wf(m)
    ensures m.sp > 0 ==> Execute(m, 0x00EE) == Done((), m.(sp := m.sp - 1))
    ensures m.sp == 0 ==> Execute(m, 0x00EE) == Panicked(SubtractWithOverflow, m)
  {
  }

  /** `1NNN` sets `pc` to `NNN` and changes nothing else. */
  lemma ExecuteJump(m: Machine, op: u16)
    requires Wf(m) && op / 0x1000 == 1
    ensures Execute(m, op) == Done((), m.(pc := op % 0x1000))
  {
  }

  /** `2NNN` pushes `NNN` and leaves `pc` where it is; a full stack panics. */
  lemma ExecuteCall(m: Machine, op: u16)
    requires Wf(m) && op / 0x1000 == 2
    ensures m.sp as int < STACK_SIZE ==>
      Execute(m, op) == Done((), m.(stack := m.stack[m.sp := op % 0x1000], sp := m.sp + 1))
    ensures m.sp as int == STACK_SIZE ==> Execute(m, op) == Panicked(IndexOutOfBounds, m)
  {
  }

  /** `6XNN` sets `V[X]` to `NN` and steps over the instruction. */
  lemma ExecuteSetReg(m: Machine, op: u16)
    requires Wf(m) && op / 0x1000 == 6
    ensures Execute(m, op) == AdvancePc(m.(v := m.v[(op / 0x100) % 0x10 := op % 0x100]))
  {
  }

  /** `7XNN` adds `NN` to `V[X]` and steps over the instruction; a sum past 255
      panics before anything is written. */
  lemma ExecuteAddReg(m: Machine, op: u16)
    requires Wf(m) && op / 0x1000 == 7
    ensures var x, nn := (op / 0x100) % 0x10, op % 0x100;
      if m.v[x] + nn < 0x100 then Execute(m, op) == AdvancePc(m.(v := m.v[x := m.v[x] + nn]))
      else Execute(m, op) == Panicked(AddWithOverflow, m)
  {
  }

  /** `ANNN` sets `I` to `NNN` and steps over the instruction. */
  lemma ExecuteSetIndex(m: Machine, op: u16)
    requires Wf(m) && op / 0x1000 == 0xA
    ensures Execute(m, op) == AdvancePc(m.(i := op % 0x1000))
  {
  }

  /** `DXYN` draws nothing: it only steps over the instruction. */
  lemma ExecuteDraw(m: Machine, op: u16)
    requires Wf(m) && op / 0x1000 == 0xD
    ensures Execute(m, op) == AdvancePc(m)
  {
  }

  /** Every other word panics with `unimplemented!` and changes nothing. */
  lemma ExecuteUnknown(m: Machine, op: u16)
    requires Wf(m) && Decode(op).Unknown?
    ensures Execute(m, op) == Panicked(NotImplemented(op), m)
  {
  }

  /** Since `fetch` does not advance `pc`, a tick on a zero word is a fixed point:
      the machine never moves on past it. */
  lemma TickOnZeroWordStays(m: Machine)
    requires Wf(m) && m.pc as int + 1 < MEMORY_SIZE
    requires m.ram[m.pc] == 0 && m.ram[m.pc + 1] == 0
    ensures Tick(m) == Done((), m)
  {
  }

  /** Through `tick`, `p_counter += 2` cannot overflow: a successful fetch leaves
      `pc` at most 4093, so the only add that can panic is the one of `7XNN`. */
  lemma TickAddPanicIsRegisterAdd(m: Machine)
    requires Wf(m)
    ensures Tick(m).Panicked? && Tick(m).fault == AddWithOverflow ==>
      Fetch(m).Done? && Decode(Fetch(m).value).AddReg?
  {
  }

  // ---------------------------------------------------------------------------
  // Programs run from the initial state

  /** `n` ticks, stopping at the first panic. */
  function Run(m: Machine, n: nat): (r: Step<()>)
    requires Wf(m)
    ensures Wf(r.m)
    decreases n
  {
    if n == 0 then Done((), m)
    else
      var t := Tick(m);
      if t.Panicked? then t else Run(t.m, n - 1)
  }

  /** The ROM `60 0A 61 05 80 14`: the first two ticks set `V0 = 10` and `V1 = 5`;
      the third meets `8014`, which the code does not implement. */
  lemma AddRegistersProgramPanics()
    ensures var m := Load(Init(), [0x60, 0x0A, 0x61, 0x05, 0x80, 0x14]).m;
      var two := Run(m, 2);
      two.Done? && two.m.v[0] == 10 && two.m.v[1] == 5 && two.m.pc == 0x204 &&
      Run(m, 3) == Panicked(NotImplemented(0x8014), two.m)
  {
    var rom: seq<u8> := [0x60, 0x0A, 0x61, 0x05, 0x80, 0x14];
    var m := Load(Init(), rom).m;
    assert m.pc == 0x200;
    assert m.ram[0x200] == 0x60 && m.ram[0x201] == 0x0A && m.ram[0x202] == 0x61 &&
           m.ram[0x203] == 0x05 && m.ram[0x204] == 0x80 && m.ram[0x205] == 0x14 by {
      assert forall k :: 0 <= k < 6 ==> m.ram[0x200 + k] == rom[k];
    }
    var m1 := m.(pc := 0x202, v := m.v[0 := 10]);
    assert Fetch(m).value == 0x60 * 0x100 + 0x0A;
    ExecuteSetReg(m, 0x600A);
    assert Tick(m) == Done((), m1);
    var m2 := m1.(pc := 0x204, v := m1.v[1 := 5]);
    assert Fetch(m1).value == 0x61 * 0x100 + 0x05;
    ExecuteSetReg(m1, 0x6105);
    assert Tick(m1) == Done((), m2);
    assert Fetch(m2).value == 0x80 * 0x100 + 0x14;
    assert Decode(0x8014) == Unknown(0x8014);
    assert Tick(m2) == Panicked(NotImplemented(0x8014), m2);
    assert Run(m2, 1) == Tick(m2);
    assert Run(m1, 2) == Run(m2, 1);
    assert Run(m, 3) == Run(m1, 2);
    assert Run(m, 2) == Run(m1, 1) == Run(m2, 0);
  }

  /** Loading an empty ROM and ticking once leaves the machine exactly as `new`
      built it. */
  lemma EmptyRomSpins()
    ensures Run(Load(Init(), []).m, 1) == Done((), Init())
  {
  }
}
