/** `Emu` itself: a class whose fixed-size arrays are changed in place, as the
    struct's arrays are. Each method is proved to leave exactly the state, and
    report exactly the outcome, that the matching function of `Chip8` gives. */
module Emulator {
  import opened Chip8

  /** `slice.copy_from_slice(src)` for `dst[at..at+|src|]`, one element at a time. */
  method CopyInto(dst: array<u8>, at: nat, src: seq<u8>)
    requires at + |src| <= dst.Length
    modifies dst
    ensures dst[..] == Overwrite(old(dst[..]), at, src)
  {
    var k := 0;
    while k < |src|
      invariant 0 <= k <= |src|
      invariant forall j :: 0 <= j < k ==> dst[at + j] == src[j]
      invariant forall a :: 0 <= a < dst.Length && !(at <= a < at + k) ==> dst[a] == old(dst[a])
    {
      dst[at + k] := src[k];
      k := k + 1;
    }
    assert dst[..] == Overwrite(old(dst[..]), at, src);
  }

  /** Overwriting a whole array with `[x; N]`. */
  method Fill<T>(a: array<T>, x: T)
    modifies a
    ensures a[..] == seq(a.Length, _ => x)
  {
    var k := 0;
    while k < a.Length
      invariant 0 <= k <= a.Length
      invariant forall j :: 0 <= j < k ==> a[j] == x
    {
      a[k] := x;
      k := k + 1;
    }
  }

  class Emu {
    var pc: u16           // p_counter
    var sp: u16           // s_pointer
    const ram: array<u8>
    const screen: array<bool>
    const stack: array<u16>
    const v: array<u8>    // v_reg
    var i: u16            // i_reg
    var delay: u8         // d_timer
    var sound: u8         // s_timer

    ghost predicate Valid()
      reads this
    {
      ram.Length == MEMORY_SIZE && screen.Length == SCREEN_SIZE &&
      stack.Length == STACK_SIZE && v.Length == NUM_REGS && ram != v &&
      sp as int <= STACK_SIZE
    }

    /** The state of the emulator as a value. */
    ghost function Snapshot(): (m: Machine)
      reads this, ram, screen, stack, v
      ensures Valid() ==> Wf(m)
    {
      Machine(pc, sp, ram[..], screen[..], stack[..], v[..], i, delay, sound)
    }

    /** `Emu::new`. */
    constructor ()
      ensures Valid() && Snapshot() == Init()
      ensures fresh(ram) && fresh(screen) && fresh(stack) && fresh(v)
    {
      pc, sp := ROM_OFFSET, 0;
      ram := new u8[MEMORY_SIZE](_ => 0);
      screen := new bool[SCREEN_SIZE](_ => false);
      stack := new u16[STACK_SIZE](_ => 0);
      v := new u8[NUM_REGS](_ => 0);
      i, delay, sound := 0, 0, 0;
      new;
      assert ram[..] == Zeros(MEMORY_SIZE);
      CopyInto(ram, 0, FONTSET);
      assert screen[..] == Blank();
      assert v[..] == Zeros(NUM_REGS);
    }

    /** `load`: the ROM goes to `ram[0x200..]`, or the slice panics. */
    method Load(data: seq<u8>) returns (r: Result<()>)
      requires Valid()
      modifies ram
      ensures Valid()
      ensures r == Chip8.Load(old(Snapshot()), data).Result()
      ensures Snapshot() == Chip8.Load(old(Snapshot()), data).m
    {
      var start := ROM_OFFSET as nat;
      var end := ROM_OFFSET as nat + |data|;
      if end > ram.Length {
        return Err(SliceEndOutOfRange);
      }
      CopyInto(ram, start, data);
      r := Ok(());
    }

    method Push(val: u16) returns (r: Result<()>)
      requires Valid()
      modifies this, stack
      ensures Valid()
      ensures r == Chip8.Push(old(Snapshot()), val).Result()
      ensures Snapshot() == Chip8.Push(old(Snapshot()), val).m
    {
      if sp as int >= stack.Length {
        return Err(IndexOutOfBounds);
      }
      stack[sp] := val;
      sp := sp + 1;
      r := Ok(());
    }

    method Pop() returns (r: Result<u16>)
      requires Valid()
      modifies this
      ensures Valid()
      ensures r == Chip8.Pop(old(Snapshot())).Result()
      ensures Snapshot() == Chip8.Pop(old(Snapshot())).m
    {
      if sp == 0 {
        return Err(SubtractWithOverflow);
      }
      sp := sp - 1;
      r := Ok(stack[sp]);
    }

    /** `reset`: every field back to its construction-time value, glyphs rewritten. */
    method Reset()
      requires Valid()
      modifies this, ram, screen, stack, v
      ensures Valid() && Snapshot() == Init()
    {
      pc, sp := ROM_OFFSET, 0;
      Fill(ram, 0);
      Fill(screen, false);
      Fill(stack, 0);
      Fill(v, 0);
      i, delay, sound := 0, 0, 0;
      assert ram[..] == Zeros(MEMORY_SIZE);
      CopyInto(ram, 0, FONTSET);
      assert screen[..] == Blank();
      assert v[..] == Zeros(NUM_REGS);
    }

    /** `fetch`: reads the word at `pc` big-endian and leaves every field alone. */
    method Fetch() returns (r: Result<u16>)
      requires Valid()
      ensures r == Chip8.Fetch(Snapshot()).Result()
      ensures r.Ok? <==> pc as int + 1 < MEMORY_SIZE
      ensures r.Ok? ==> r.value == ram[pc] as int * 0x100 + ram[pc + 1]
    {
      if pc as int >= ram.Length || pc as int + 1 >= ram.Length {
        return Err(IndexOutOfBounds);
      }
      var hi, lo := ram[pc], ram[pc + 1];
      r := Ok(hi as int * 0x100 + lo);
    }

    method TickTimers()
      requires Valid()
      modifies this
      ensures Valid()
      ensures Snapshot() == Chip8.TickTimers(old(Snapshot()))
    {
      if delay > 0 {
        delay := delay - 1;
      }
      if sound > 0 {
        sound := sound - 1;
      }
    }

    /** `p_counter += 2`. */
    method AdvancePc() returns (r: Result<()>)
      requires Valid()
      modifies this
      ensures Valid()
      ensures r == Chip8.AdvancePc(old(Snapshot())).Result()
      ensures Snapshot() == Chip8.AdvancePc(old(Snapshot())).m
    {
      if pc as int + 2 >= 0x1_0000 {
        return Err(AddWithOverflow);
      }
      pc := pc + 2;
      r := Ok(());
    }

    method Execute(op: u16) returns (r: Result<()>)
      requires Valid()
      modifies this, screen, stack, v
      ensures Valid()
      ensures r == Chip8.Execute(old(Snapshot()), op).Result()
      ensures Snapshot() == Chip8.Execute(old(Snapshot()), op).m
    {
      match Decode(op)
      case Nop =>
        r := Ok(());
      case ClearScreen =>
        Fill(screen, false);
        assert screen[..] == Blank();
        r := AdvancePc();
      case Return =>
        var popped := Pop();
        r := if popped.Err? then Err(popped.fault) else Ok(());
      case Jump(nnn) =>
        pc := nnn;
        r := Ok(());
      case Call(nnn) =>
        r := Push(nnn);
      case SetReg(x, nn) =>
        v[x] := nn;
        r := AdvancePc();
      case AddReg(x, nn) =>
        if v[x] + nn >= 0x100 {
          return Err(AddWithOverflow);
        }
        v[x] := v[x] + nn;
        r := AdvancePc();
      case SetIndex(nnn) =>
        i := nnn;
        r := AdvancePc();
      case Draw(_, _, _) =>
        r := AdvancePc();
      case Unknown(w) =>
        r := Err(NotImplemented(w));
    }

    /** `tick`: `execute(fetch())`. */
    method Tick() returns (r: Result<()>)
      requires Valid()
      modifies this, screen, stack, v
      ensures Valid()
      ensures r == Chip8.Tick(old(Snapshot())).Result()
      ensures Snapshot() == Chip8.Tick(old(Snapshot())).m
    {
      var f := Fetch();
      if f.Err? {
        return Err(f.fault);
      }
      r := Execute(f.value);
    }
  }
}
