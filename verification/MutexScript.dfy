/** The shipped thread script that guards a shared word with a mutex, line by line. */
module MutexScript {
  import opened Words
  import opened Cpu
  import K = KernelState

  const MUTEX := "MUTEX"

  /** Where the shared word lies within its process. */
  const OFFSET := 14

  /** RECURSOS_MUTEX_THREAD, which has c = 10. */
  function Script(c: u32): seq<Instr> {
    [Set(DX, 0), Set(AX, OFFSET), Set(CX, c), Set(BX, 1),
     Sub(CX, BX), Syscall(K.LockMutex(MUTEX)), ReadMem(DX, AX), Sum(DX, BX), WriteMem(AX, DX),
     Syscall(K.UnlockMutex(MUTEX)), Jnz(CX, 4), Syscall(K.ExitThread)]
  }

  datatype Bounds = Bounds(base: u32, limite: u32)

  /** The word lies inside the user memory, at an address the process may use. */
  predicate Fits(b: Bounds, bytes: seq<byte>) {
    OFFSET < b.limite && b.base + OFFSET + 4 <= |bytes| < 0x1_0000_0000
  }

  predicate AtLine(r: Registers, c: u32) {
    && r.pc <= 11
    && (r.pc >= 2 ==> r.ax == OFFSET)
    && (r.pc >= 4 ==> r.bx == 1)
    && (r.pc == 3 ==> r.cx == c)
    && (r.pc == 4 ==> 1 <= r.cx <= c)
    && (5 <= r.pc ==> r.cx < c)
    && (r.pc == 11 ==> r.cx == 0)
  }

  /** Between the lock and the unlock. */
  predicate Inside(r: Registers) {
    6 <= r.pc <= 9
  }

  /** What is counted per thread: completed WRITE_MEMs, instructions executed, or being alive. */
  datatype Measure = Writes | Instructions | Heads

  function Score(what: Measure, r: Registers, c: u32): int {
    match what
    case Writes =>
      if r.pc <= 2 then 0 else if r.pc <= 4 || r.pc >= 9 then c - r.cx else c - 1 - r.cx
    case Instructions =>
      if r.pc <= 3 then r.pc
      else if r.pc == 4 then 4 + 7 * (c - r.cx)
      else 7 * (c - r.cx) + r.pc - 7
    case Heads => 1
  }

  /** What a thread that has exited counts for. */
  function Final(what: Measure, c: u32): int {
    match what
    case Writes => c
    case Instructions => 7 * c + 5
    case Heads => 0
  }

  lemma ScoreBounds(what: Measure, r: Registers, c: u32)
    requires AtLine(r, c) && c >= 1
    ensures 0 <= Score(what, r, c) && (!what.Heads? ==> Score(what, r, c) <= Final(what, c))
    ensures what.Instructions? ==> Score(what, r, c) < Final(what, c)
  {
  }

  lemma Lines(c: u32)
    ensures var s := Script(c);
      && |s| == 12
      && s[0] == Set(DX, 0) && s[1] == Set(AX, OFFSET) && s[2] == Set(CX, c) && s[3] == Set(BX, 1)
      && s[4] == Sub(CX, BX) && s[5] == Syscall(K.LockMutex(MUTEX)) && s[6] == ReadMem(DX, AX)
      && s[7] == Sum(DX, BX) && s[8] == WriteMem(AX, DX) && s[9] == Syscall(K.UnlockMutex(MUTEX))
      && s[10] == Jnz(CX, 4) && s[11] == Syscall(K.ExitThread)
  {
  }

  predicate IsCall(line: u32) {
    line == 5 || line == 9 || line == 11
  }

  function CallAt(line: u32): K.Step
    requires IsCall(line)
  {
    if line == 5 then K.LockMutex(MUTEX) else if line == 9 then K.UnlockMutex(MUTEX) else K.Step.ExitThread
  }

  /** The three syscall lines trap with the context moved past them. */
  lemma CallLine(c: u32, b: Bounds, r: Registers, bytes: seq<byte>)
    requires AtLine(r, c) && IsCall(r.pc)
    ensures Cycle(Script(c), Context(r, b.base, b.limite), bytes)
      == Trap(Context(r.(pc := r.pc + 1), b.base, b.limite), bytes, CallAt(r.pc))
  {
    hide Script;
    Lines(c);
  }

  lemma Addressed(b: Bounds, r: Registers, bytes: seq<byte>)
    requires Fits(b, bytes) && r.ax == OFFSET
    ensures Translate(Context(r, b.base, b.limite), r.ax) == b.base + OFFSET && b.base + OFFSET != SEG_FAULT
  {
  }

  /** Every other line continues, and only WRITE_MEM changes the memory or the write count. */
  lemma PlainLine(c: u32, b: Bounds, r: Registers, bytes: seq<byte>)
    requires AtLine(r, c) && !IsCall(r.pc) && c >= 1 && Fits(b, bytes)
    ensures var o := Cycle(Script(c), Context(r, b.base, b.limite), bytes);
      && o.Next? && AtLine(o.context.regs, c) && Inside(o.context.regs) == Inside(r)
      && Score(Instructions, o.context.regs, c) == Score(Instructions, r, c) + 1
      && Score(Writes, o.context.regs, c) == Score(Writes, r, c) + (if r.pc == 8 then 1 else 0)
      && o.mem == (if r.pc == 8 then WriteWord(bytes, b.base + OFFSET, r.dx) else bytes)
      && (r.pc == 6 ==> o.context.regs.pc == 7 && o.context.regs.dx == ReadWord(bytes, b.base + OFFSET))
      && (r.pc == 7 ==> o.context.regs.pc == 8 && o.context.regs.dx == (r.dx + 1) % 0x1_0000_0000)
      && (r.pc == 8 ==> o.context.regs.pc == 9)
      && (o.context.regs.pc == 7 || o.context.regs.pc == 8 ==> r.pc == 6 || r.pc == 7)
  {
    hide Script, WriteWord, ReadWord, Translate;
    Lines(c);
    if r.pc == 6 || r.pc == 8 {
      var f := Fetched(Context(r, b.base, b.limite));
      Addressed(b, f.regs, bytes);
    }
  }
}
