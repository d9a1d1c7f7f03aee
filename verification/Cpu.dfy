/** The CPU: instruction semantics on values, and the interpreter that updates its context in place. */
module Cpu {
  import opened Words
  import Kernel = KernelState

  /** `Invalid` is any register name the decoder does not know. */
  datatype Reg = AX | BX | CX | DX | EX | FX | GX | HX | Invalid

  datatype Registers = Registers(pc: u32, ax: u32, bx: u32, cx: u32, dx: u32, ex: u32, fx: u32, gx: u32, hx: u32)

  datatype Context = Context(regs: Registers, base: u32, limite: u32)

  const Fresh := Registers(0, 0, 0, 0, 0, 0, 0, 0, 0)

  datatype Instr =
    | Set(dst: Reg, value: u32)
    | Sum(dst: Reg, src: Reg)
    | Sub(dst: Reg, src: Reg)
    | Log(src: Reg)
    | Jnz(test: Reg, line: u32)
    | ReadMem(dst: Reg, addr: Reg)
    | WriteMem(addr: Reg, src: Reg)
    | Syscall(call: Kernel.Step)

  /** `Undefined` covers fetching past the script and touching bytes outside the memory. */
  datatype Outcome =
    | Next(context: Context, mem: seq<byte>)
    | Trap(context: Context, mem: seq<byte>, call: Kernel.Step)
    | SegFault(context: Context, mem: seq<byte>)
    | Undefined

  const SEG_FAULT: u32 := 0xFFFF_FFFE

  function Get(r: Registers, reg: Reg): u32 {
    match reg
    case AX => r.ax
    case BX => r.bx
    case CX => r.cx
    case DX => r.dx
    case EX => r.ex
    case FX => r.fx
    case GX => r.gx
    case HX => r.hx
    case Invalid => 0xFFFF_FFFF
  }

  function Put(r: Registers, reg: Reg, v: u32): Registers {
    match reg
    case AX => r.(ax := v)
    case BX => r.(bx := v)
    case CX => r.(cx := v)
    case DX => r.(dx := v)
    case EX => r.(ex := v)
    case FX => r.(fx := v)
    case GX => r.(gx := v)
    case HX => r.(hx := v)
    case Invalid => r
  }

  /** The MMU compares the logical address with LIMITE itself; a sum that happens to be the
      error code is taken for a fault. */
  function Translate(c: Context, logical: u32): u32 {
    if logical >= c.limite then SEG_FAULT else (c.base + logical) % 0x1_0000_0000
  }

  /** The only address that answers to those three clauses. */
  lemma TranslationUnique(c: Context, logical: u32, physical: u32)
    requires logical >= c.limite ==> physical == SEG_FAULT
    requires logical < c.limite ==>
      physical as int == c.base as int + logical as int
        || (physical as int == c.base as int + logical as int - 0x1_0000_0000
             && c.base as int + logical as int >= 0x1_0000_0000)
    ensures physical == Translate(c, logical)
  {
  }

  /** For a process that ends below the fault code, a fault is exactly an address at or past LIMITE,
      and no two addresses below it are translated to the same place. */
  lemma FaultIffPastLimit(c: Context, a: u32, b: u32)
    requires c.base as int + c.limite as int <= SEG_FAULT as int
    ensures Translate(c, a) == SEG_FAULT <==> a >= c.limite
    ensures a < c.limite && b < c.limite && Translate(c, a) == Translate(c, b) ==> a == b
  {
  }

  function Exec(i: Instr, c: Context, mem: seq<byte>): Outcome {
    match i
    case Set(dst, value) => Next(c.(regs := Put(c.regs, dst, value)), mem)
    case Sum(dst, src) =>
      Next(c.(regs := Put(c.regs, dst, (Get(c.regs, dst) + Get(c.regs, src)) % 0x1_0000_0000)), mem)
    case Sub(dst, src) =>
      var d, o := Get(c.regs, dst), Get(c.regs, src);
      Next(c.(regs := Put(c.regs, dst, if o > d then 0 else d - o)), mem)
    case Log(_) => Next(c, mem)
    case Jnz(test, line) => Next(if Get(c.regs, test) != 0 then c.(regs := c.regs.(pc := line)) else c, mem)
    case ReadMem(dst, addr) =>
      var physical := Translate(c, Get(c.regs, addr));
      if physical == SEG_FAULT then SegFault(c, mem)
      else if physical + 4 > |mem| then Undefined
      else Next(c.(regs := Put(c.regs, dst, ReadWord(mem, physical))), mem)
    case WriteMem(addr, src) =>
      var physical := Translate(c, Get(c.regs, addr));
      if physical == SEG_FAULT then SegFault(c, mem)
      else if physical + 4 > |mem| then Undefined
      else Next(c, WriteWord(mem, physical, Get(c.regs, src)))
    case Syscall(call) => Trap(c, mem, call)
  }

  function Fetched(c: Context): Context {
    c.(regs := c.regs.(pc := (c.regs.pc + 1) % 0x1_0000_0000))
  }

  /** Fetch, decode and execute one line of the script. */
  function Cycle(script: seq<Instr>, c: Context, mem: seq<byte>): Outcome {
    if c.regs.pc >= |script| then Undefined
    else Exec(script[c.regs.pc], Fetched(c), mem)
  }

  /** At most `budget` instructions, stopping at the first that does not simply continue. */
  function Cycles(script: seq<Instr>, c: Context, mem: seq<byte>, budget: nat): Outcome
    decreases budget
  {
    if budget == 0 then Next(c, mem)
    else
      match Cycle(script, c, mem)
      case Next(c', mem') => Cycles(script, c', mem', budget - 1)
      case stopped => stopped
  }

  lemma {:induction false} CyclesCompose(script: seq<Instr>, c: Context, mem: seq<byte>, a: nat, b: nat)
    requires Cycles(script, c, mem, a).Next?
    ensures var mid := Cycles(script, c, mem, a);
      Cycles(script, c, mem, a + b) == Cycles(script, mid.context, mid.mem, b)
    decreases a
  {
    if a > 0 {
      var o := Cycle(script, c, mem);
      CyclesCompose(script, o.context, o.mem, a - 1, b);
    }
  }

  /** No instruction can change BASE or LIMITE, whatever the script. */
  lemma {:induction false} CyclesKeepBounds(script: seq<Instr>, c: Context, mem: seq<byte>, budget: nat)
    ensures var o := Cycles(script, c, mem, budget);
      !o.Undefined? ==> o.context.base == c.base && o.context.limite == c.limite && |o.mem| == |mem|
    decreases budget
  {
    if budget > 0 {
      var o := Cycle(script, c, mem);
      if o.Next? {
        CyclesKeepBounds(script, o.context, o.mem, budget - 1);
      }
    }
  }

  /** The execution context and the user memory, both updated in place. */
  class Machine {
    var pc: u32
    var ax: u32
    var bx: u32
    var cx: u32
    var dx: u32
    var ex: u32
    var fx: u32
    var gx: u32
    var hx: u32
    const base: u32
    const limite: u32
    const mem: array<byte>

    ghost function Regs(): Registers
      reads this
    {
      Registers(pc, ax, bx, cx, dx, ex, fx, gx, hx)
    }

    ghost function Ctx(): Context
      reads this
    {
      Context(Regs(), base, limite)
    }

    constructor (c: Context, mem: array<byte>)
      ensures Ctx() == c && this.mem == mem
    {
      this.mem := mem;
      base, limite := c.base, c.limite;
      pc, ax, bx, cx, dx := c.regs.pc, c.regs.ax, c.regs.bx, c.regs.cx, c.regs.dx;
      ex, fx, gx, hx := c.regs.ex, c.regs.fx, c.regs.gx, c.regs.hx;
    }

    method SetValue(reg: Reg, v: u32)
      modifies this
      ensures Regs() == Put(old(Regs()), reg, v)
    {
      match reg
      case AX => ax := v;
      case BX => bx := v;
      case CX => cx := v;
      case DX => dx := v;
      case EX => ex := v;
      case FX => fx := v;
      case GX => gx := v;
      case HX => hx := v;
      case Invalid =>
    }

    method GetValue(reg: Reg) returns (v: u32)
      ensures v == Get(Regs(), reg)
    {
      match reg
      case AX => v := ax;
      case BX => v := bx;
      case CX => v := cx;
      case DX => v := dx;
      case EX => v := ex;
      case FX => v := fx;
      case GX => v := gx;
      case HX => v := hx;
      case Invalid => v := 0xFFFF_FFFF;
    }

    method SumInstruction(dst: Reg, src: Reg)
      modifies this
      ensures Regs() == Put(old(Regs()), dst, (Get(old(Regs()), dst) + Get(old(Regs()), src)) % 0x1_0000_0000)
    {
      var d := GetValue(dst);
      var o := GetValue(src);
      SetValue(dst, (d as int + o as int) % 0x1_0000_0000);
    }

    method SubInstruction(dst: Reg, src: Reg)
      modifies this
      ensures var d, o := Get(old(Regs()), dst), Get(old(Regs()), src);
        Regs() == Put(old(Regs()), dst, if o > d then 0 else d - o)
    {
      var d := GetValue(dst);
      var o := GetValue(src);
      var result: u32 := 0;
      if o <= d {
        result := d - o;
      }
      SetValue(dst, result);
    }

    method JnzInstruction(test: Reg, line: u32)
      modifies this`pc
      ensures Regs() == if Get(old(Regs()), test) != 0 then old(Regs()).(pc := line) else old(Regs())
    {
      var v := GetValue(test);
      if v != 0 {
        pc := line;
      }
    }

    /** The fault code at or past LIMITE; below it the sum of base and address, less 2^32 when the
        sum does not fit. */
    method TranslateAddress(logical: u32) returns (physical: u32)
      ensures logical >= limite ==> physical == SEG_FAULT
      ensures logical < limite && base as int + logical as int < 0x1_0000_0000 ==>
        physical as int == base as int + logical as int
      ensures logical < limite && base as int + logical as int >= 0x1_0000_0000 ==>
        physical as int == base as int + logical as int - 0x1_0000_0000
    {
      if logical >= limite {
        return SEG_FAULT;
      }
      return (base + logical) % 0x1_0000_0000;
    }

    /** escribir_en_memoria: four bytes, least significant first. */
    method StoreWord(p: nat, v: u32)
      requires p + 4 <= mem.Length
      modifies mem
      ensures mem[..] == WriteWord(old(mem[..]), p, v)
    {
      mem[p], mem[p + 1], mem[p + 2], mem[p + 3] := v % 256, v / 256 % 256, v / 65536 % 256, v / 16777216;
    }

    method LoadWord(p: nat) returns (v: u32)
      requires p + 4 <= mem.Length
      ensures v == ReadWord(mem[..], p)
    {
      v := mem[p] as int + 256 * (mem[p + 1] as int) + 65536 * (mem[p + 2] as int) + 16777216 * (mem[p + 3] as int);
    }

    ghost function Ended(o: Outcome): Outcome
      reads this, mem
    {
      match o
      case Next(_, _) => Next(Ctx(), mem[..])
      case Trap(_, _, call) => Trap(Ctx(), mem[..], call)
      case SegFault(_, _) => SegFault(Ctx(), mem[..])
      case Undefined => Undefined
    }

    /** decode_and_execute, on an instruction whose accesses stay inside the memory. */
    method DecodeAndExecute(i: Instr) returns (ghost o: Outcome, goOn: bool)
      requires !Exec(i, Ctx(), mem[..]).Undefined?
      modifies this, mem
      ensures o == Exec(i, old(Ctx()), old(mem[..])) && o == Ended(o)
      ensures goOn == o.Next?
    {
      hide Get, Put, Translate, ReadWord, WriteWord;
      o := Exec(i, Ctx(), mem[..]);
      goOn := true;
      match i
      case Set(dst, value) => SetValue(dst, value);
      case Sum(dst, src) => SumInstruction(dst, src);
      case Sub(dst, src) => SubInstruction(dst, src);
      case Log(src) => var _ := GetValue(src);
      case Jnz(test, line) => JnzInstruction(test, line);
      case ReadMem(dst, addr) =>
        var logical := GetValue(addr);
        var physical := TranslateAddress(logical);
        TranslationUnique(Ctx(), logical, physical);
        if physical == SEG_FAULT {
          goOn := false;
        } else {
          var v := LoadWord(physical);
          SetValue(dst, v);
        }
      case WriteMem(addr, src) =>
        var v := GetValue(src);
        var logical := GetValue(addr);
        var physical := TranslateAddress(logical);
        TranslationUnique(Ctx(), logical, physical);
        if physical == SEG_FAULT {
          goOn := false;
        } else {
          StoreWord(physical, v);
        }
      case Syscall(_) => goOn := false;
    }

    /** The instruction cycle, up to the interruption seen after `budget` instructions. */
    method ExecuteInstructionCycle(script: seq<Instr>, budget: nat) returns (ghost o: Outcome)
      requires !Cycles(script, Ctx(), mem[..], budget).Undefined?
      modifies this, mem
      ensures o == Cycles(script, old(Ctx()), old(mem[..]), budget) && o == Ended(o)
    {
      hide Exec;
      var left := budget;
      o := Next(Ctx(), mem[..]);
      while left > 0
        invariant 0 <= left <= budget
        invariant o == Next(Ctx(), mem[..])
        invariant Cycles(script, Ctx(), mem[..], left) == Cycles(script, old(Ctx()), old(mem[..]), budget)
        decreases left
      {
        var i := script[pc];
        pc := (pc + 1) % 0x1_0000_0000;
        var goOn;
        o, goOn := DecodeAndExecute(i);
        if !goOn {
          return;
        }
        left := left - 1;
      }
    }
  }
}
