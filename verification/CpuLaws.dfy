/** What each instruction does, register by register and byte by byte, and exactly when it faults. */
module CpuLaws {
  import opened Words
  import opened Cpu

  // Registers by name

  /** A register is read under its own name, all ones under a name the decoder does not know, and writing one
      changes no other. */
  lemma RegisterFileLaws(r: Registers, dst: Reg, v: u32, reg: Reg)
    ensures Get(r, AX) == r.ax && Get(r, BX) == r.bx && Get(r, CX) == r.cx && Get(r, DX) == r.dx
    ensures Get(r, EX) == r.ex && Get(r, FX) == r.fx && Get(r, GX) == r.gx && Get(r, HX) == r.hx
    ensures Get(r, Invalid) == 4294967295
    ensures Get(Put(r, dst, v), reg) == if reg == dst && dst != Invalid then v else Get(r, reg)
    ensures Put(r, dst, v).pc == r.pc
  {
  }

  /** A new thread starts at line 0 with every register at zero. */
  lemma FreshIsZero(reg: Reg)
    ensures Fresh.pc == 0 && (reg != Invalid ==> Get(Fresh, reg) == 0)
  {
  }

  // Outcomes

  predicate Accesses(i: Instr) {
    i.ReadMem? || i.WriteMem?
  }

  /** The sum of base and any address below LIMITE is not taken for the fault code. */
  predicate Placed(c: Context) {
    c.base as int + c.limite as int <= 4294967294
  }

  function NextLine(c: Context): u32 {
    if c.regs.pc == 4294967295 then 0 else c.regs.pc + 1
  }

  /** Fetching moves the program counter on and reads nothing else. */
  lemma FetchedRegisters(c: Context)
    ensures Fetched(c) == c.(regs := c.regs.(pc := NextLine(c)))
    ensures forall reg :: Get(Fetched(c).regs, reg) == Get(c.regs, reg)
  {
  }

  lemma PutRegisters(r: Registers, dst: Reg, v: u32)
    ensures forall reg :: Get(Put(r, dst, v), reg) == if reg == dst && dst != Invalid then v else Get(r, reg)
    ensures Put(r, dst, v).pc == r.pc
  {
  }

  /** Below LIMITE an address is base further on, and that is not the fault code. */
  lemma TranslatedAddress(c: Context, logical: u32)
    requires Placed(c)
    ensures Translate(c, logical) == SEG_FAULT <==> logical >= c.limite
    ensures logical < c.limite ==> Translate(c, logical) == c.base as int + logical as int
  {
  }

  /** An instruction of the script faults exactly when it accesses memory at or past LIMITE, is undefined
      exactly when it accesses bytes past the end of the memory below LIMITE, and traps exactly when it is a
      syscall; a fault and a trap leave the memory and all registers but the program counter alone. */
  lemma WhenCyclesStop(script: seq<Instr>, c: Context, mem: seq<byte>)
    requires c.regs.pc < |script| && Placed(c)
    ensures var i := script[c.regs.pc]; var o := Cycle(script, c, mem);
      && (o.SegFault? <==> Accesses(i) && Get(c.regs, i.addr) >= c.limite)
      && (o.Undefined? <==>
            Accesses(i) && Get(c.regs, i.addr) < c.limite && c.base as int + Get(c.regs, i.addr) as int + 4 > |mem|)
      && (o.Trap? <==> i.Syscall?) && (o.Trap? ==> o.call == i.call)
      && (o.SegFault? || o.Trap? ==> o.mem == mem && o.context == c.(regs := c.regs.(pc := NextLine(c))))
  {
    hide Get, Put, Translate, ReadWord, WriteWord, Fetched;
    FetchedRegisters(c);
    if Accesses(script[c.regs.pc]) {
      TranslatedAddress(Fetched(c), Get(c.regs, script[c.regs.pc].addr));
    }
  }

  /** Past the end of the script nothing is defined. */
  lemma PastTheScript(script: seq<Instr>, c: Context, mem: seq<byte>)
    ensures c.regs.pc >= |script| ==> Cycle(script, c, mem).Undefined?
  {
  }

  /** The instruction goes on at that line with one register set, or none, and the memory as it was. */
  predicate Leaves(o: Outcome, c: Context, mem: seq<byte>, pc: int, dst: Reg, v: int) {
    && o.Next? && o.mem == mem && o.context.base == c.base && o.context.limite == c.limite && o.context.regs.pc == pc
    && forall reg :: Get(o.context.regs, reg) == if reg == dst && dst != Invalid then v else Get(c.regs, reg)
  }

  lemma SameBesidesLine(r: Registers, line: u32)
    ensures forall reg :: Get(r.(pc := line), reg) == Get(r, reg)
  {
  }

  /** The lines that compute. */
  lemma ComputingLines(script: seq<Instr>, c: Context, mem: seq<byte>)
    requires c.regs.pc < |script| && !Accesses(script[c.regs.pc])
    ensures var i := script[c.regs.pc]; var o := Cycle(script, c, mem);
      && (i.Set? ==> Leaves(o, c, mem, NextLine(c), i.dst, i.value))
      && (i.Sum? ==>
            var sum := Get(c.regs, i.dst) as int + Get(c.regs, i.src) as int;
            Leaves(o, c, mem, NextLine(c), i.dst, if sum < 4294967296 then sum else sum - 4294967296))
      && (i.Sub? ==>
            var d, s := Get(c.regs, i.dst) as int, Get(c.regs, i.src) as int;
            Leaves(o, c, mem, NextLine(c), i.dst, if s > d then 0 else d - s))
      && (i.Log? ==> Leaves(o, c, mem, NextLine(c), Invalid, 0))
      && (i.Jnz? ==> Leaves(o, c, mem, if Get(c.regs, i.test) != 0 then i.line else NextLine(c), Invalid, 0))
  {
    hide Get, Put, Translate, ReadWord, WriteWord, Fetched;
    FetchedRegisters(c);
    var r := Fetched(c).regs;
    match script[c.regs.pc]
    case Set(dst, value) => PutRegisters(r, dst, value);
    case Sum(dst, src) => PutRegisters(r, dst, (Get(r, dst) + Get(r, src)) % 0x1_0000_0000);
    case Sub(dst, src) =>
      var d, s := Get(r, dst), Get(r, src);
      PutRegisters(r, dst, if s > d then 0 else d - s);
    case Jnz(_, line) => SameBesidesLine(r, line);
    case _ =>
  }

  /** READ_MEM below LIMITE puts the little-endian word at base + address into the register. */
  lemma ReadingLines(script: seq<Instr>, c: Context, mem: seq<byte>, p: nat)
    requires c.regs.pc < |script| && script[c.regs.pc].ReadMem? && Placed(c)
    requires Get(c.regs, script[c.regs.pc].addr) < c.limite
    requires p == c.base as int + Get(c.regs, script[c.regs.pc].addr) as int && p + 4 <= |mem|
    ensures Leaves(Cycle(script, c, mem), c, mem, NextLine(c), script[c.regs.pc].dst,
                   mem[p] as int + 256 * (mem[p + 1] as int) + 65536 * (mem[p + 2] as int)
                     + 16777216 * (mem[p + 3] as int))
  {
    hide Get, Put, Translate, ReadWord, WriteWord, Fetched, PowerOf256;
    FetchedRegisters(c);
    TranslatedAddress(Fetched(c), Get(c.regs, script[c.regs.pc].addr));
    SmallPowers();
    LittleEndianRead(mem, p);
    PutRegisters(Fetched(c).regs, script[c.regs.pc].dst, ReadWord(mem, p));
  }

  /** WRITE_MEM below LIMITE stores the register at base + address, least significant byte first. */
  lemma WritingLines(script: seq<Instr>, c: Context, mem: seq<byte>, p: nat, k: nat)
    requires c.regs.pc < |script| && script[c.regs.pc].WriteMem? && Placed(c) && k < |mem|
    requires Get(c.regs, script[c.regs.pc].addr) < c.limite
    requires p == c.base as int + Get(c.regs, script[c.regs.pc].addr) as int && p + 4 <= |mem|
    ensures var o := Cycle(script, c, mem);
      && o.Next? && o.context == c.(regs := c.regs.(pc := NextLine(c))) && |o.mem| == |mem|
      && o.mem[k] == if p <= k < p + 4 then Get(c.regs, script[c.regs.pc].src) / PowerOf256(k - p) % 256 else mem[k]
  {
    hide Get, Put, Translate, ReadWord, WriteWord, Fetched, PowerOf256;
    FetchedRegisters(c);
    TranslatedAddress(Fetched(c), Get(c.regs, script[c.regs.pc].addr));
    ReadAfterWrite(mem, p, Get(c.regs, script[c.regs.pc].src));
    if p <= k < p + 4 {
      LittleEndianWrite(mem, p, Get(c.regs, script[c.regs.pc].src), k - p);
    }
  }
}
