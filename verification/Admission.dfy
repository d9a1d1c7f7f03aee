/** Long-term admission: NEW processes go in, first come first served, while memory takes them. */
module Admission {
  import opened Lists
  import opened Cpu
  import opened KernelInvariant
  import opened Contexts
  import K = KernelState
  import M = Memory
  import DynamicMemory
  import Partitions
  import KM = KernelMachine
  import MM = MemoryMachine

  datatype Hosts = Hosts(k: K.State, m: M.State)

  /** try_create_NEW_process: memory is asked first, then the parameters are looked up. */
  function Attempt(h: Hosts): (bool, Hosts) {
    if h.k.pending == [] then (false, h)
    else
      var head := h.k.pending[0];
      match M.TryCreate(h.m, head.pid, head.size)
      case None => (false, h)
      case Some(m) =>
        if h.k.firstThreads == [] then (false, h.(m := m))
        else
          match M.AddThread(m, head.pid, 0)
          case None => (true, Hosts(h.k.(pending := h.k.pending[1..], firstThreads := h.k.firstThreads[1..]), m))
          case Some(t) => (true, Hosts(K.DoAdmitHead(h.k), t))
  }

  /** try_create_NEW_process_loop. */
  function Admit(h: Hosts): Hosts
    decreases |h.k.pending|
  {
    var (again, t) := Attempt(h);
    if again then Admit(t) else t
  }

  /** How many processes one call of the loop admits. */
  function Admitted(h: Hosts): nat
    decreases |h.k.pending|
  {
    var (again, t) := Attempt(h);
    if again then 1 + Admitted(t) else 0
  }

  function Admissions(n: nat): seq<K.Step> {
    if n == 0 then [] else [K.AdmitHead] + Admissions(n - 1)
  }

  /** What memory is asked for each admitted process. */
  function Requests(pending: seq<K.PendingPcb>): seq<M.Event> {
    if pending == [] then []
    else [M.Create(pending[0].pid, pending[0].size), M.StartThread(pending[0].pid, 0)] + Requests(pending[1..])
  }

  lemma AlignedInv(k: K.State)
    requires Inv(k)
    ensures |k.pending| == |k.firstThreads|
    ensures forall i, j :: 0 <= i < j < |k.pending| ==> k.pending[i].pid < k.pending[j].pid
    ensures forall i :: 0 <= i < |k.pending| ==> k.pending[i].size == k.firstThreads[i].size
  {
  }

  /** The process just created is there, so its first thread is never refused. */
  lemma {:induction false} FirstThreadAccepted(m: M.State, pid: nat, size: nat)
    requires M.TryCreate(m, pid, size).Some?
    ensures M.AddThread(M.TryCreate(m, pid, size).value, pid, 0).Some?
  {
    hide Partitions.Select, M.SortByBase, Partitions.Build, M.FindProc;
    var t := M.TryCreate(m, pid, size).value;
    var p := M.NewProc(pid, m.parts[Partitions.Select(m.criteria, m.parts, size)].base, size);
    var grown := m.procs + [p];
    assert p in t.procs by {
      assert grown[|m.procs|] == p;
      DynamicMemory.SortPermutes(grown);
      assert p in multiset(grown);
      assert p in multiset(M.SortByBase(grown));
    }
  }

  lemma {:induction false} AttemptKeeps(h: Hosts)
    requires Inv(h.k) && Attempt(h).0
    ensures var t := Attempt(h).1;
      && h.k.pending != [] && K.Enabled(h.k, K.AdmitHead) && t.k == K.Apply(h.k, K.AdmitHead) && Inv(t.k)
      && t.k.pending == h.k.pending[1..] && t.k.firstThreads == h.k.firstThreads[1..]
      && M.TryCreate(h.m, h.k.pending[0].pid, h.k.pending[0].size).Some?
      && t.m == M.After(M.After(h.m, M.Create(h.k.pending[0].pid, h.k.pending[0].size)),
           M.StartThread(h.k.pending[0].pid, 0))
  {
    hide Inv, M.TryCreate, M.AddThread;
    FirstThreadAccepted(h.m, h.k.pending[0].pid, h.k.pending[0].size);
    AdmitHeadKeeps(h.k);
  }

  /** The loop admits a prefix of NEW, in order, each process with its own first-thread parameters:
      it is that many single admissions in the kernel and that many creations in memory. It stops
      only when NEW is empty or its head fits in no free partition, and that last, failed attempt
      has changed neither side. */
  lemma {:induction false} LoopAdmitsAPrefix(h: Hosts)
    requires Inv(h.k)
    ensures var n := Admitted(h); var t := Admit(h);
      && n <= |h.k.pending|
      && t.k.pending == h.k.pending[n..] && t.k.firstThreads == h.k.firstThreads[n..]
      && K.CanRun(h.k, Admissions(n)) && t.k == K.Run(h.k, Admissions(n))
      && t.m == M.AfterAll(h.m, Requests(h.k.pending[..n]))
      && Inv(t.k)
      && (t.k.pending == [] || M.TryCreate(t.m, t.k.pending[0].pid, t.k.pending[0].size).None?)
    decreases |h.k.pending|
  {
    hide Inv, M.TryCreate, M.After, K.Apply, K.Enabled;
    AlignedInv(h.k);
    if Attempt(h).0 {
      hide Attempt;
      AttemptKeeps(h);
      var t := Attempt(h).1;
      LoopAdmitsAPrefix(t);
      var n := Admitted(t);
      assert Admissions(n + 1)[1..] == Admissions(n);
      assert h.k.pending[..n + 1][1..] == t.k.pending[..n];
      var first := M.Create(h.k.pending[0].pid, h.k.pending[0].size);
      var second := M.StartThread(h.k.pending[0].pid, 0);
      TwoEvents(h.m, first, second, Requests(t.k.pending[..n]));
      assert Requests(h.k.pending[..n + 1]) == [first, second] + Requests(t.k.pending[..n]);
    }
  }

  lemma {:induction false} TwoEvents(m: M.State, a: M.Event, b: M.Event, rest: seq<M.Event>)
    ensures M.AfterAll(m, [a, b] + rest) == M.AfterAll(M.After(M.After(m, a), b), rest)
  {
    hide M.After;
    var all := [a, b] + rest;
    assert all[1..] == [b] + rest && all[1..][1..] == rest;
  }

  // Both sides agree on who was admitted

  /** Memory does not know the processes in NEW yet. */
  ghost predicate Waiting(h: Hosts, sizes: seq<nat>) {
    && Inv(h.k) && Healthy(h.m, sizes)
    && forall i :: 0 <= i < |h.k.pending| ==>
         M.Lookup(h.m.procs, h.k.pending[i].pid).None?
  }

  /** One admission: the thread now READY in the kernel has a fresh context in memory. */
  lemma {:induction false} AttemptLoads(h: Hosts, sizes: seq<nat>)
    requires Waiting(h, sizes) && Attempt(h).0
    ensures var t := Attempt(h).1; var pid := h.k.pending[0].pid; var c := M.Load(t.m, pid, 0);
      && Waiting(t, sizes) && Live(t.k) == Live(h.k) + multiset{K.ThreadId(pid, 0)}
      && c.Some? && c.value.regs == Fresh
  {
    hide Inv, Live, Healthy, M.TryCreate, M.Lookup, M.After, M.FindThread, Attempt;
    AttemptKeeps(h);
    AdmitHeadKeeps(h.k);
    AlignedInv(h.k);
    HealthySettled(h.m, sizes);
    var pid, size := h.k.pending[0].pid, h.k.pending[0].size;
    var create, start := M.Create(pid, size), M.StartThread(pid, 0);
    var t := Attempt(h).1;
    Creating(h.m, pid, size);
    RequestKeepsHealth(h.m, sizes, create);
    var m := M.After(h.m, create);
    HealthySettled(m, sizes);
    RequestKeepsHealth(m, sizes, start);
    OwnProcess(m, start);
    Alone(Partitions.Thread(0, Fresh));
    forall i | 0 <= i < |t.k.pending| ensures M.Lookup(t.m.procs, t.k.pending[i].pid).None? {
      EventOnOther(h.m, create, t.k.pending[i].pid);
      EventOnOther(m, start, t.k.pending[i].pid);
    }
  }

  lemma Alone(t: Partitions.Thread)
    ensures M.FindThread([] + [t], t.tid) == 0
  {
  }

  lemma {:induction false} Creating(m: M.State, pid: nat, size: nat)
    requires Settled(m) && M.Lookup(m.procs, pid).None? && M.TryCreate(m, pid, size).Some?
    ensures var p := M.Lookup(M.After(m, M.Create(pid, size)).procs, pid); p.Some? && p.value.threads == []
  {
    hide M.Lookup, M.TryCreate;
    LookupCreated(m, pid, size);
  }

  lemma {:induction false} LoopSpares(h: Hosts, sizes: seq<nat>, pid: nat, tid: nat)
    requires Waiting(h, sizes) && forall i :: 0 <= i < |h.k.pending| ==> h.k.pending[i].pid != pid
    ensures M.Load(Admit(h).m, pid, tid) == M.Load(h.m, pid, tid)
    decreases |h.k.pending|
  {
    hide Inv, Live, Healthy, M.TryCreate, M.Lookup, M.After, M.Load;
    AlignedInv(h.k);
    if Attempt(h).0 {
      hide Attempt;
      AttemptKeeps(h);
      AttemptLoads(h, sizes);
      HealthySettled(h.m, sizes);
      var create, start := M.Create(h.k.pending[0].pid, h.k.pending[0].size), M.StartThread(h.k.pending[0].pid, 0);
      ContextSpared(h.m, create, pid, tid);
      ContextSpared(M.After(h.m, create), start, pid, tid);
      LoopSpares(Attempt(h).1, sizes, pid, tid);
    }
  }

  /** Every process the loop admits has its first thread alive in the kernel and a fresh context
      for it in memory; the partitions keep their invariant, and what stays in NEW stays unknown to
      memory. */
  lemma {:induction false} AdmittedAreLoaded(h: Hosts, sizes: seq<nat>)
    requires Waiting(h, sizes)
    ensures Waiting(Admit(h), sizes) && Admitted(h) <= |h.k.pending|
    ensures forall x :: x in Live(h.k) ==> x in Live(Admit(h).k)
    ensures forall i :: 0 <= i < Admitted(h) ==> Arrived(Admit(h), h.k.pending[i].pid)
    decreases |h.k.pending|
  {
    hide Inv, Live, Healthy, M.TryCreate, M.Lookup, M.After, M.Load;
    AlignedInv(h.k);
    if Attempt(h).0 {
      hide Attempt;
      AttemptKeeps(h);
      AttemptLoads(h, sizes);
      var t := Attempt(h).1;
      AdmittedAreLoaded(t, sizes);
      LoopSpares(t, sizes, h.k.pending[0].pid, 0);
      assert K.ThreadId(h.k.pending[0].pid, 0) in Live(t.k);
      forall i | 0 <= i < Admitted(h) ensures Arrived(Admit(h), h.k.pending[i].pid) {
        if i > 0 {
          assert h.k.pending[i] == t.k.pending[i - 1];
        }
      }
    }
  }

  ghost predicate Arrived(h: Hosts, pid: nat) {
    var c := M.Load(h.m, pid, 0);
    K.ThreadId(pid, 0) in Live(h.k) && c.Some? && c.value.regs == Fresh
  }

  // As it runs

  class LongTerm {
    const kernel: KM.Kernel
    const memory: MM.MemoryModule

    ghost function Abs(): Hosts
      reads this, kernel, memory
    {
      Hosts(kernel.Abs(), memory.Abs())
    }

    constructor (kernel: KM.Kernel, memory: MM.MemoryModule)
      ensures this.kernel == kernel && this.memory == memory
    {
      this.kernel, this.memory := kernel, memory;
    }

    method TryCreateNewProcess() returns (created: bool)
      modifies kernel, memory
      ensures (created, Abs()) == Attempt(old(Abs()))
    {
      hide M.TryCreate, M.AddThread, K.DoAdmitHead;
      if |kernel.pending| == 0 {
        return false;
      }
      var head := kernel.pending[0];
      var accepted := memory.CreateProcess(head.pid, head.size);
      var threadAccepted := false;
      if accepted && |kernel.firstThreads| > 0 {
        threadAccepted := memory.AddThreadTo(head.pid, 0);
      }
      created := kernel.TryCreateNewProcess(accepted, threadAccepted);
    }

    method TryCreateNewProcesses()
      modifies kernel, memory
      ensures Abs() == Admit(old(Abs()))
    {
      hide Attempt;
      var goOn := true;
      while goOn
        invariant (if goOn then Admit(Abs()) else Abs()) == Admit(old(Abs()))
        decreases |kernel.pending|, goOn
      {
        ghost var h := Abs();
        goOn := TryCreateNewProcess();
        AttemptShrinks(h);
      }
    }
  }

  lemma AttemptShrinks(h: Hosts)
    ensures var (again, t) := Attempt(h);
      if again then |t.k.pending| < |h.k.pending| else |t.k.pending| == |h.k.pending|
  {
  }
}
