/** The FIBO scripts, verified as programs of the CPU for every loop count. */
module Fibo {
  import opened Words
  import opened Cpu
  import Kernel = KernelState

  const Modulus := 0x1_0000_0000

  /** Lines 0 to 5; the shipped scripts differ only in the value loaded into DX. */
  function Setup(n: u32): seq<Instr> {
    [Set(AX, 0), Set(BX, 1), Set(CX, 0), Set(DX, n), Set(EX, 4), Set(FX, 1)]
  }

  /** Lines 6 to 15. */
  function Body(): seq<Instr> {
    [WriteMem(CX, AX), Log(AX), Sum(AX, BX), Sum(CX, EX), WriteMem(CX, BX),
     Log(BX), Sum(BX, AX), Sum(CX, EX), Sub(DX, FX), Jnz(DX, 6)]
  }

  function Script(n: u32): seq<Instr> {
    Setup(n) + Body() + [Syscall(Kernel.RequestDump), Syscall(Kernel.Step.ExitProcess)]
  }

  function Fib(i: nat): nat {
    if i < 2 then i else Fib(i - 1) + Fib(i - 2)
  }

  function FibWord(i: nat): u32 {
    Fib(i) % Modulus
  }

  lemma FibWordAdds(i: nat)
    ensures (FibWord(i) as int + FibWord(i + 1) as int) % Modulus == FibWord(i + 2)
  {
    hide Fib;
    FibStep(i);
    ModAdds(Fib(i), Fib(i + 1));
  }

  lemma FibStep(i: nat)
    ensures Fib(i + 2) == Fib(i) + Fib(i + 1)
  {
  }

  lemma ModAdds(a: nat, b: nat)
    ensures (a % Modulus + b % Modulus) % Modulus == (a + b) % Modulus
  {
    var qa, qb := a / Modulus, b / Modulus;
    var r := a % Modulus + b % Modulus;
    assert a + b == r + (qa + qb) * Modulus;
    SameRemainder(r, qa + qb);
  }

  lemma SameRemainder(r: nat, q: nat)
    ensures (r + q * Modulus) % Modulus == r % Modulus
  {
  }

  /** The first m words at base hold the Fibonacci numbers, and nothing else has changed. */
  ghost predicate Written(before: seq<byte>, mem: seq<byte>, base: nat, m: nat) {
    && |mem| == |before| && base + 4 * m <= |mem|
    && (forall i :: 0 <= i < m ==> ReadWord(mem, base + 4 * i) == FibWord(i))
    && (forall p :: 0 <= p < |mem| && !(base <= p < base + 4 * m) ==> mem[p] == before[p])
  }

  lemma WrittenOneMore(before: seq<byte>, mem: seq<byte>, base: nat, m: nat)
    requires Written(before, mem, base, m) && base + 4 * m + 4 <= |mem|
    ensures Written(before, WriteWord(mem, base + 4 * m, FibWord(m)), base, m + 1)
  {
    var p := base + 4 * m;
    var after := WriteWord(mem, p, FibWord(m));
    ReadAfterWrite(mem, p, FibWord(m));
    forall i | 0 <= i < m + 1 ensures ReadWord(after, base + 4 * i) == FibWord(i) {
      if i < m {
        ReadElsewhere(mem, p, FibWord(m), base + 4 * i);
      }
    }
  }

  /** The process is loaded inside the memory with room for 2n words. */
  predicate Loaded(c: Context, mem: seq<byte>, n: nat) {
    && |mem| < Modulus && c.base + 8 * n <= |mem| && 8 * n <= c.limite - c.base
  }

  predicate AtLoop(c: Context, n: nat, k: nat)
    requires k <= n
  {
    && c.regs.pc == (if k < n then 6 else 16)
    && c.regs.ax == FibWord(2 * k) && c.regs.bx == FibWord(2 * k + 1)
    && c.regs.cx == 8 * k && c.regs.dx == n - k && c.regs.ex == 4 && c.regs.fx == 1
  }

  lemma Lines(n: u32)
    ensures var s := Script(n);
      && |s| == 18
      && s[0] == Set(AX, 0) && s[1] == Set(BX, 1) && s[2] == Set(CX, 0)
      && s[3] == Set(DX, n) && s[4] == Set(EX, 4) && s[5] == Set(FX, 1)
      && s[6] == WriteMem(CX, AX) && s[7] == Log(AX) && s[8] == Sum(AX, BX) && s[9] == Sum(CX, EX)
      && s[10] == WriteMem(CX, BX) && s[11] == Log(BX) && s[12] == Sum(BX, AX) && s[13] == Sum(CX, EX)
      && s[14] == Sub(DX, FX) && s[15] == Jnz(DX, 6) && s[16] == Syscall(Kernel.RequestDump)
  {
  }

  /** Taking one instruction off the front of a run of cycles. */
  lemma More(script: seq<Instr>, c: Context, mem: seq<byte>, budget: nat, i: Instr, c': Context, mem': seq<byte>)
    requires c.regs.pc < |script| && c.regs.pc < 100 && script[c.regs.pc] == i
    requires Exec(i, c.(regs := c.regs.(pc := c.regs.pc + 1)), mem) == Next(c', mem')
    ensures Cycles(script, c, mem, budget + 1) == Cycles(script, c', mem', budget)
  {
    assert Fetched(c) == c.(regs := c.regs.(pc := c.regs.pc + 1));
    assert Cycle(script, c, mem) == Next(c', mem');
  }

  lemma FirstFibs()
    ensures FibWord(0) == 0 && FibWord(1) == 1
  {
  }

  lemma {:induction false} Prologue(n: u32, c: Context, mem: seq<byte>)
    requires n > 0 && c.regs.pc == 0
    ensures var o := Cycles(Script(n), c, mem, 6);
      o.Next? && o.mem == mem && o.context.base == c.base && o.context.limite == c.limite && AtLoop(o.context, n, 0)
  {
    hide Cycles, Script, Fib, FibWord;
    Lines(n);
    FirstFibs();
    var s := Script(n);
    var c1 := c.(regs := c.regs.(pc := 1, ax := 0));
    var c2 := c.(regs := c1.regs.(pc := 2, bx := 1));
    var c3 := c.(regs := c2.regs.(pc := 3, cx := 0));
    var c4 := c.(regs := c3.regs.(pc := 4, dx := n));
    var c5 := c.(regs := c4.regs.(pc := 5, ex := 4));
    var c6 := c.(regs := c5.regs.(pc := 6, fx := 1));
    More(s, c, mem, 5, Set(AX, 0), c1, mem);
    More(s, c1, mem, 4, Set(BX, 1), c2, mem);
    More(s, c2, mem, 3, Set(CX, 0), c3, mem);
    More(s, c3, mem, 2, Set(DX, n), c4, mem);
    More(s, c4, mem, 1, Set(EX, 4), c5, mem);
    More(s, c5, mem, 0, Set(FX, 1), c6, mem);
    CyclesZero(s, c6, mem);
  }

  lemma {:induction false} CyclesZero(script: seq<Instr>, c: Context, mem: seq<byte>)
    ensures Cycles(script, c, mem, 0) == Next(c, mem)
  {
  }

  /** WRITE_MEM, LOG and SUM on AX, and the address moved on by EX. */
  lemma {:induction false} FirstHalf(n: u32, c: Context, mem: seq<byte>, k: nat)
    requires k < n && AtLoop(c, n, k) && Loaded(c, mem, n)
    ensures Cycles(Script(n), c, mem, 4) == Next(
      c.(regs := c.regs.(pc := 10, ax := FibWord(2 * k + 2), cx := 8 * k + 4)),
      WriteWord(mem, c.base + 8 * k, FibWord(2 * k)))
  {
    hide Fib, FibWord, WriteWord, Cycles, Script;
    Lines(n);
    FibWordAdds(2 * k);
    var s := Script(n);
    var mem1 := WriteWord(mem, c.base + 8 * k, FibWord(2 * k));
    var c1 := c.(regs := c.regs.(pc := 7));
    var c2 := c.(regs := c.regs.(pc := 8));
    var c3 := c.(regs := c.regs.(pc := 9, ax := FibWord(2 * k + 2)));
    var c4 := c.(regs := c3.regs.(pc := 10, cx := 8 * k + 4));
    More(s, c, mem, 3, WriteMem(CX, AX), c1, mem1);
    More(s, c1, mem1, 2, Log(AX), c2, mem1);
    More(s, c2, mem1, 1, Sum(AX, BX), c3, mem1);
    More(s, c3, mem1, 0, Sum(CX, EX), c4, mem1);
    CyclesZero(s, c4, mem1);
  }

  /** The same on BX: WRITE_MEM, LOG and SUM. */
  lemma {:induction false} SecondWord(n: u32, c: Context, mem: seq<byte>, k: nat)
    requires k < n && Loaded(c, mem, n)
    requires c.regs.pc == 10 && c.regs.ax == FibWord(2 * k + 2) && c.regs.bx == FibWord(2 * k + 1)
    requires c.regs.cx == 8 * k + 4
    ensures Cycles(Script(n), c, mem, 3) == Next(
      c.(regs := c.regs.(pc := 13, bx := FibWord(2 * k + 3))), WriteWord(mem, c.base + 8 * k + 4, FibWord(2 * k + 1)))
  {
    hide Fib, FibWord, WriteWord, Cycles, Script;
    Lines(n);
    FibWordAdds(2 * k + 1);
    var s := Script(n);
    var mem1 := WriteWord(mem, c.base + 8 * k + 4, FibWord(2 * k + 1));
    var c1 := c.(regs := c.regs.(pc := 11));
    var c2 := c.(regs := c.regs.(pc := 12));
    var c3 := c.(regs := c.regs.(pc := 13, bx := FibWord(2 * k + 3)));
    More(s, c, mem, 2, WriteMem(CX, BX), c1, mem1);
    More(s, c1, mem1, 1, Log(BX), c2, mem1);
    More(s, c2, mem1, 0, Sum(BX, AX), c3, mem1);
    CyclesZero(s, c3, mem1);
  }

  /** The address moved on, the counter lowered and the jump taken or not. */
  lemma {:induction false} Tail(n: u32, c: Context, mem: seq<byte>, k: nat)
    requires k < n && Loaded(c, mem, n)
    requires c.regs.pc == 13 && c.regs.cx == 8 * k + 4 && c.regs.dx == n - k && c.regs.ex == 4 && c.regs.fx == 1
    ensures Cycles(Script(n), c, mem, 3) ==
      Next(c.(regs := c.regs.(pc := if k + 1 < n then 6 else 16, cx := 8 * k + 8, dx := n - k - 1)), mem)
  {
    hide Cycles, Script;
    Lines(n);
    var s := Script(n);
    var c4 := c.(regs := c.regs.(pc := 14, cx := 8 * k + 8));
    var c5 := c.(regs := c4.regs.(pc := 15, dx := n - k - 1));
    var c6 := c.(regs := c5.regs.(pc := if k + 1 < n then 6 else 16));
    More(s, c, mem, 2, Sum(CX, EX), c4, mem);
    More(s, c4, mem, 1, Sub(DX, FX), c5, mem);
    More(s, c5, mem, 0, Jnz(DX, 6), c6, mem);
    CyclesZero(s, c6, mem);
  }

  lemma {:induction false} SecondHalf(n: u32, c: Context, mem: seq<byte>, k: nat)
    requires k < n && Loaded(c, mem, n)
    requires c.regs.pc == 10 && c.regs.ax == FibWord(2 * k + 2) && c.regs.bx == FibWord(2 * k + 1)
    requires c.regs.cx == 8 * k + 4 && c.regs.dx == n - k && c.regs.ex == 4 && c.regs.fx == 1
    ensures Cycles(Script(n), c, mem, 6) == Next(
      c.(regs := c.regs.(pc := if k + 1 < n then 6 else 16, bx := FibWord(2 * k + 3), cx := 8 * k + 8,
          dx := n - k - 1)),
      WriteWord(mem, c.base + 8 * k + 4, FibWord(2 * k + 1)))
  {
    hide FibWord, WriteWord, Cycles, Script;
    SecondWord(n, c, mem, k);
    CyclesCompose(Script(n), c, mem, 3, 3);
    Tail(n, c.(regs := c.regs.(pc := 13, bx := FibWord(2 * k + 3))),
        WriteWord(mem, c.base + 8 * k + 4, FibWord(2 * k + 1)), k);
  }

  lemma {:induction false} Iteration(n: u32, c: Context, before: seq<byte>, mem: seq<byte>, k: nat)
    requires k < n && AtLoop(c, n, k) && Loaded(c, mem, n) && Written(before, mem, c.base, 2 * k)
    ensures var o := Cycles(Script(n), c, mem, 10);
      && o.Next? && AtLoop(o.context, n, k + 1) && Written(before, o.mem, c.base, 2 * k + 2)
      && o.context.base == c.base && o.context.limite == c.limite
  {
    FirstHalf(n, c, mem, k);
    CyclesCompose(Script(n), c, mem, 4, 6);
    hide Cycles, Script, FibWord, WriteWord;
    WrittenOneMore(before, mem, c.base, 2 * k);
    var mid := Cycles(Script(n), c, mem, 4);
    SecondHalf(n, mid.context, mid.mem, k);
    WrittenOneMore(before, mid.mem, c.base, 2 * k + 1);
  }

  lemma {:induction false} Loop(n: u32, c: Context, before: seq<byte>, mem: seq<byte>, k: nat)
    requires k <= n && AtLoop(c, n, k) && Loaded(c, mem, n) && Written(before, mem, c.base, 2 * k)
    ensures var o := Cycles(Script(n), c, mem, 10 * (n - k));
      && o.Next? && AtLoop(o.context, n, n) && Written(before, o.mem, c.base, 2 * n)
    decreases n - k
  {
    hide Script, AtLoop, Written;
    if k < n {
      Iteration(n, c, before, mem, k);
      var o := Cycles(Script(n), c, mem, 10);
      CyclesCompose(Script(n), c, mem, 10, 10 * (n - k - 1));
      assert |o.mem| == |mem| by { CyclesKeepBounds(Script(n), c, mem, 10); }
      Loop(n, o.context, before, o.mem, k + 1);
    }
  }

  /** For every loop count the script reaches DUMP_MEMORY with the first 2n words of the process
      holding the Fibonacci numbers modulo 2^32, and every other byte of memory unchanged. */
  lemma FibonacciInMemory(n: u32, c: Context, mem: seq<byte>)
    requires n > 0 && c.regs.pc == 0 && Loaded(c, mem, n)
    ensures var o := Cycles(Script(n), c, mem, 6 + 10 * n + 1);
      && o.Trap? && o.call == Kernel.RequestDump
      && |o.mem| == |mem|
      && (forall i :: 0 <= i < 2 * n ==> ReadWord(o.mem, c.base + 4 * i) == Fib(i) % Modulus)
      && (forall p :: 0 <= p < |mem| && !(c.base <= p < c.base + 8 * n) ==> o.mem[p] == mem[p])
  {
    hide Cycles, Script, AtLoop;
    Prologue(n, c, mem);
    var start := Cycles(Script(n), c, mem, 6);
    CyclesCompose(Script(n), c, mem, 6, 10 * n);
    Loop(n, start.context, mem, mem, 0);
    CyclesCompose(Script(n), c, mem, 6 + 10 * n, 1);
    var done := Cycles(Script(n), c, mem, 6 + 10 * n);
    Dumps(n, done.context, done.mem);
    forall i | 0 <= i < 2 * n ensures ReadWord(done.mem, c.base + 4 * i) == Fib(i) % Modulus {
      assert ReadWord(done.mem, c.base + 4 * i) == FibWord(i);
    }
  }

  lemma {:induction false} Dumps(n: u32, c: Context, mem: seq<byte>)
    requires AtLoop(c, n, n)
    ensures Cycles(Script(n), c, mem, 1) == Trap(Fetched(c), mem, Kernel.RequestDump)
  {
    assert Cycle(Script(n), c, mem) == Trap(Fetched(c), mem, Kernel.RequestDump);
  }
}
