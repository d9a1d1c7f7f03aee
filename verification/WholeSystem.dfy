/** Kernel, CPU and memory module together, one instruction at a time, and the simpler machine
    they amount to: one in which every thread keeps its own registers. */
module WholeSystem {
  import opened Lists
  import opened Words
  import opened Cpu
  import opened Contexts
  import opened KernelInvariant
  import opened KernelRuns
  import opened Admission
  import opened BareMemory
  import K = KernelState
  import P = Partitions
  import M = Memory

  /** What each thread runs. */
  type Scripts = K.ThreadId -> seq<Instr>

  type RegisterFile = map<K.ThreadId, Registers>

  // The system

  datatype System = System(k: K.State, m: M.State, cpu: Context, bytes: seq<byte>)

  /** One instruction of the running thread, an interruption, a decision of the scheduler, or the
      end of somebody's IO or dump. */
  datatype Action =
    | Execute
    | Interrupt
    | Schedule(policy: K.Policy)
    | IoDone
    | DumpDone(index: nat)

  /** What a script can ask the kernel for. */
  predicate IsSyscall(call: K.Step) {
    match call
    case Dispatch(_) => false
    case AdmitHead => false
    case SegmentationFault => false
    case CompleteIo => false
    case CompleteDump(_) => false
    case Preempt => false
    case _ => true
  }

  /** What the kernel does for a call, telling memory which threads and processes begin and end;
      admission is tried again after PROCESS_CREATE and PROCESS_EXIT. */
  function Served(m: M.State, k: K.State, call: K.Step): Option<Hosts>
    requires k.running.Some? && K.Enabled(k, call)
  {
    var x := k.running.value.id;
    var t := K.Apply(k, call);
    match call
    case CreateProcess(_, _) => Some(Admit(Hosts(t, m)))
    case ExitProcess => Some(Admit(Hosts(t, M.Delete(M.RemoveThread(m, x.pid, x.tid), x.pid))))
    case SegmentationFault => Some(Hosts(t, M.Delete(M.RemoveThread(m, x.pid, x.tid), x.pid)))
    case CreateThread(_) =>
      (match M.AddThread(m, x.pid, k.active[x.pid])
       case None => None
       case Some(u) => Some(Hosts(t, u)))
    case _ => Some(Hosts(t, if t.exited != k.exited then M.RemoveThread(m, x.pid, x.tid) else m))
  }

  /** The running thread's context is loaded when it is dispatched, also after each syscall. */
  function Loaded(k: K.State, m: M.State, cpu: Context, bytes: seq<byte>): Option<System> {
    if k.running.None? then Some(System(k, m, cpu, bytes))
    else
      match M.Load(m, k.running.value.id.pid, k.running.value.id.tid)
      case None => None
      case Some(c) => Some(System(k, m, c, bytes))
  }

  /** The context is saved, the kernel serves the call, and the thread goes on if it can. */
  function Serve(s: System, call: K.Step): Option<System>
    requires s.k.running.Some?
  {
    var x := s.k.running.value.id;
    if !K.Enabled(s.k, call) then None
    else
      match Served(M.Save(s.m, x.pid, x.tid, s.cpu), s.k, call)
      case None => None
      case Some(h) => Loaded(h.k, h.m, s.cpu, s.bytes)
  }

  /** The running thread's context is saved and the thread goes to the tail of READY. */
  function Preempted(s: System): System
    requires s.k.running.Some?
  {
    var x := s.k.running.value.id;
    s.(k := K.DoPreempt(s.k), m := M.Save(s.m, x.pid, x.tid, s.cpu))
  }

  /** None where the code's behaviour is undefined or outside what is modelled. */
  function Act(program: Scripts, s: System, a: Action): Option<System> {
    match a
    case Execute =>
      if s.k.running.None? then None
      else
        (match Cycle(program(s.k.running.value.id), s.cpu, s.bytes)
         case Next(c, b) => Some(s.(cpu := c, bytes := b))
         case Trap(c, b, call) => if IsSyscall(call) then Serve(s.(cpu := c, bytes := b), call) else None
         case SegFault(c, b) => Serve(s.(cpu := c, bytes := b), K.SegmentationFault)
         case Undefined => None)
    case Interrupt =>
      if s.k.running.None? then None else Some(Preempted(s))
    case Schedule(policy) =>
      if !K.Enabled(s.k, K.Dispatch(policy)) then None
      else Loaded(K.Apply(s.k, K.Dispatch(policy)), s.m, s.cpu, s.bytes)
    case IoDone => if !K.Enabled(s.k, K.CompleteIo) then None else Some(s.(k := K.Apply(s.k, K.CompleteIo)))
    case DumpDone(i) =>
      if !K.Enabled(s.k, K.CompleteDump(i)) then None else Some(s.(k := K.Apply(s.k, K.CompleteDump(i))))
  }

  function ActAll(program: Scripts, s: System, actions: seq<Action>): Option<System>
    decreases |actions|
  {
    if actions == [] then Some(s)
    else
      match Act(program, s, actions[0])
      case None => None
      case Some(t) => ActAll(program, t, actions[1..])
  }

  /** What the system is started with: a memory module without processes, the first process's size,
      and whatever the CPU and the user memory happen to hold. */
  datatype Start = Start(m: M.State, size: nat, priority: nat, cpu: Context, bytes: seq<byte>)

  ghost predicate Sensible(start: Start, sizes: seq<nat>) {
    Healthy(start.m, sizes) && Extent(start.m, sizes) <= P.INT_MAX && start.m.procs == []
    && |start.bytes| <= P.INT_MAX
  }

  /** The kernel creates its first process and admits it if memory takes it. */
  function Power(start: Start): System {
    var h := Admit(Hosts(K.DoCreateProcess(K.Boot, start.size, start.priority), start.m));
    System(h.k, h.m, start.cpu, start.bytes)
  }

  // The simpler machine

  /** Every thread has its own registers; there is no saving and loading, and memory only knows
      where processes lie. */
  datatype Threads = Threads(k: K.State, m: M.State, regs: RegisterFile, bytes: seq<byte>)

  function Own(v: Threads, x: K.ThreadId): Context
    requires x in v.regs && M.Lookup(v.m.procs, x.pid).Some?
  {
    var p := M.Lookup(v.m.procs, x.pid).value;
    Context(v.regs[x], p.base % 0x1_0000_0000, p.limite % 0x1_0000_0000)
  }

  function AttemptThreads(v: Threads): (bool, Threads) {
    if v.k.pending == [] then (false, v)
    else
      var head := v.k.pending[0];
      match M.TryCreate(v.m, head.pid, head.size)
      case None => (false, v)
      case Some(m) =>
        if v.k.firstThreads == [] then (false, v.(m := m))
        else (true, v.(k := K.DoAdmitHead(v.k), m := m, regs := v.regs[K.ThreadId(head.pid, 0) := Fresh]))
  }

  function AdmitThreads(v: Threads): Threads
    decreases |v.k.pending|
  {
    var (again, t) := AttemptThreads(v);
    if again then AdmitThreads(t) else t
  }

  function ServeThreads(v: Threads, call: K.Step): Option<Threads>
    requires v.k.running.Some?
  {
    if !K.Enabled(v.k, call) then None
    else
      var x := v.k.running.value.id;
      var t := v.(k := K.Apply(v.k, call));
      Some(match call
           case CreateProcess(_, _) => AdmitThreads(t)
           case ExitProcess => AdmitThreads(t.(m := M.Delete(v.m, x.pid)))
           case SegmentationFault => t.(m := M.Delete(v.m, x.pid))
           case CreateThread(_) => t.(regs := v.regs[K.ThreadId(x.pid, v.k.active[x.pid]) := Fresh])
           case _ => t)
  }

  function ActThreads(program: Scripts, v: Threads, a: Action): Option<Threads> {
    match a
    case Execute =>
      if v.k.running.None? then None
      else
        var x := v.k.running.value.id;
        if x !in v.regs || M.Lookup(v.m.procs, x.pid).None? then None
        else
          (match Cycle(program(x), Own(v, x), v.bytes)
           case Next(c, b) => Some(v.(regs := v.regs[x := c.regs], bytes := b))
           case Trap(c, b, call) =>
             if IsSyscall(call) then ServeThreads(v.(regs := v.regs[x := c.regs], bytes := b), call) else None
           case SegFault(c, b) => ServeThreads(v.(regs := v.regs[x := c.regs], bytes := b), K.SegmentationFault)
           case Undefined => None)
    case Interrupt => if v.k.running.None? then None else Some(v.(k := K.DoPreempt(v.k)))
    case Schedule(policy) =>
      if !K.Enabled(v.k, K.Dispatch(policy)) then None else Some(v.(k := K.Apply(v.k, K.Dispatch(policy))))
    case IoDone => if !K.Enabled(v.k, K.CompleteIo) then None else Some(v.(k := K.Apply(v.k, K.CompleteIo)))
    case DumpDone(i) =>
      if !K.Enabled(v.k, K.CompleteDump(i)) then None else Some(v.(k := K.Apply(v.k, K.CompleteDump(i))))
  }

  function ActAllThreads(program: Scripts, v: Threads, actions: seq<Action>): Option<Threads>
    decreases |actions|
  {
    if actions == [] then Some(v)
    else
      match ActThreads(program, v, actions[0])
      case None => None
      case Some(t) => ActAllThreads(program, t, actions[1..])
  }

  function PowerThreads(start: Start): Threads {
    AdmitThreads(Threads(K.DoCreateProcess(K.Boot, start.size, start.priority), Strip(start.m), map[], start.bytes))
  }

  // What memory holds

  function LoadOf(m: M.State, x: K.ThreadId): Option<Context> {
    M.Load(m, x.pid, x.tid)
  }

  /** Memory is in order and knows exactly the active processes. */
  ghost predicate Grounded(k: K.State, m: M.State, sizes: seq<nat>) {
    Inv(k) && Sound(m, sizes) && forall pid :: M.Lookup(m.procs, pid).Some? <==> pid in k.active
  }

  ghost predicate Keeps(m: M.State, k: K.State, regs: RegisterFile, x: K.ThreadId) {
    if x in Live(k) then x in regs && LoadOf(m, x).Some? && LoadOf(m, x).value.regs == regs[x]
    else LoadOf(m, x).None?
  }

  /** Memory has everybody's registers, as it does when nobody runs. */
  ghost predicate AllStored(k: K.State, m: M.State, regs: RegisterFile, sizes: seq<nat>) {
    Grounded(k, m, sizes) && forall x :: Keeps(m, k, regs, x)
  }

  ghost predicate Seen(m: M.State, k: K.State, regs: RegisterFile, cpu: Context, x: K.ThreadId) {
    if k.running.Some? && k.running.value.id == x then
      x in regs && LoadOf(m, x).Some? && cpu == LoadOf(m, x).value.(regs := regs[x])
    else Keeps(m, k, regs, x)
  }

  /** Live threads' own registers are in the CPU or in memory, memory knows no other thread, and
      both machines have every process in the same place. */
  ghost predicate Agree(s: System, v: Threads, sizes: seq<nat>) {
    && s.k == v.k && s.bytes == v.bytes && v.m == Strip(s.m)
    && Grounded(s.k, s.m, sizes)
    && forall x :: Seen(s.m, s.k, v.regs, s.cpu, x)
  }

  // What each request to memory does to the contexts in it

  lemma {:induction false} OthersAfter(m: M.State, e: M.Event, x: K.ThreadId)
    requires Settled(m) && M.Allowed(m, e) && !e.Create? && !e.Destroy? && e.pid == x.pid && e.tid == x.tid
    ensures forall y :: y != x ==> LoadOf(M.After(m, e), y) == LoadOf(m, y)
  {
    hide M.After, M.Allowed, M.Load, Settled;
    forall y: K.ThreadId | y != x ensures LoadOf(M.After(m, e), y) == LoadOf(m, y) {
      ContextSpared(m, e, y.pid, y.tid);
    }
  }

  lemma SoundSettled(m: M.State, sizes: seq<nat>)
    requires Sound(m, sizes)
    ensures Healthy(m, sizes) && Settled(m)
    ensures forall pid :: TidsOk(M.Lookup(m.procs, pid))
  {
    HealthySettled(m, sizes);
  }

  lemma {:induction false} SavedLoads(m: M.State, sizes: seq<nat>, x: K.ThreadId, c: Context)
    requires Sound(m, sizes) && LoadOf(m, x).Some? && c == LoadOf(m, x).value.(regs := c.regs)
    ensures var t := M.Save(m, x.pid, x.tid, c);
      && Sound(t, sizes) && Strip(t) == Strip(m)
      && (forall y :: LoadOf(t, y) == if y == x then Some(c) else LoadOf(m, y))
      && (forall pid :: M.Lookup(t.procs, pid).Some? <==> M.Lookup(m.procs, pid).Some?)
  {
    hide M.FindThread, M.Save, M.Lookup, Settled, Sound, Healthy, Strip;
    var e := M.WriteBack(x.pid, x.tid, c);
    assert M.Lookup(m.procs, x.pid).Some?;
    SoundSettled(m, sizes);
    BoundsFit(m, sizes, x.pid);
    assert M.Allowed(m, e);
    hide M.Allowed;
    assert Proper(m, e);
    hide Proper;
    EventKeepsSound(m, sizes, e);
    ThreadsLeaveBare(m, sizes, e);
    LoadAfterSave(m, x.pid, x.tid, c);
    OthersAfter(m, e, x);
    hide M.Load;
    forall pid ensures M.Lookup(M.After(m, e).procs, pid).Some? <==> M.Lookup(m.procs, pid).Some? {
      KnownAfter(m, sizes, e, pid);
    }
  }

  lemma {:induction false} EndedUnloads(m: M.State, sizes: seq<nat>, x: K.ThreadId)
    requires Sound(m, sizes)
    ensures var t := M.RemoveThread(m, x.pid, x.tid);
      && Sound(t, sizes) && Strip(t) == Strip(m)
      && (forall y :: LoadOf(t, y) == if y == x then None else LoadOf(m, y))
      && (forall pid :: M.Lookup(t.procs, pid).Some? <==> M.Lookup(m.procs, pid).Some?)
  {
    hide M.FindThread, M.RemoveThread, M.Lookup, Settled, Sound, Healthy, Strip, TidsOk;
    var e := M.EndThread(x.pid, x.tid);
    SoundSettled(m, sizes);
    EventKeepsSound(m, sizes, e);
    ThreadsLeaveBare(m, sizes, e);
    OthersAfter(m, e, x);
    RecordGone(m, sizes, x);
    hide M.Load;
    forall pid ensures M.Lookup(M.After(m, e).procs, pid).Some? <==> M.Lookup(m.procs, pid).Some? {
      KnownAfter(m, sizes, e, pid);
    }
  }

  lemma {:induction false} RecordGone(m: M.State, sizes: seq<nat>, x: K.ThreadId)
    requires Sound(m, sizes)
    ensures LoadOf(M.RemoveThread(m, x.pid, x.tid), x).None?
  {
    hide M.FindThread, M.RemoveThread, M.Lookup, Settled, Sound, Healthy;
    var e := M.EndThread(x.pid, x.tid);
    SoundSettled(m, sizes);
    if M.Lookup(m.procs, x.pid).None? {
      NothingToDo(m, e);
    } else {
      OwnProcess(m, e);
      var threads := M.Lookup(m.procs, x.pid).value.threads;
      assert TidsOk(M.Lookup(m.procs, x.pid));
      if M.FindThread(threads, x.tid) < |threads| {
        OnlyOnce(threads, x.tid);
      }
    }
  }

  lemma {:induction false} OnlyOnce(threads: seq<P.Thread>, tid: nat)
    requires DistinctTids(threads) && M.FindThread(threads, tid) < |threads|
    ensures M.FindThread(RemoveAt(threads, M.FindThread(threads, tid)), tid) == |threads| - 1
  {
    var j := M.FindThread(threads, tid);
    var left := RemoveAt(threads, j);
    forall l | 0 <= l < |left| ensures left[l].tid != tid {
      assert left[l] == threads[if l < j then l else l + 1];
    }
  }

  lemma {:induction false} StartedLoads(m: M.State, sizes: seq<nat>, x: K.ThreadId)
    requires Sound(m, sizes) && LoadOf(m, x).None? && M.Lookup(m.procs, x.pid).Some?
    ensures M.AddThread(m, x.pid, x.tid).Some?
    ensures var t := M.AddThread(m, x.pid, x.tid).value;
      && Sound(t, sizes) && Strip(t) == Strip(m)
      && LoadOf(t, x).Some? && LoadOf(t, x).value.regs == Fresh
      && (forall y :: y != x ==> LoadOf(t, y) == LoadOf(m, y))
      && (forall pid :: M.Lookup(t.procs, pid).Some? <==> M.Lookup(m.procs, pid).Some?)
  {
    hide M.FindThread, M.FindProc, Settled, Sound, Healthy, Strip, TidsOk;
    var e := M.StartThread(x.pid, x.tid);
    SoundSettled(m, sizes);
    EventKeepsSound(m, sizes, e);
    ThreadsLeaveBare(m, sizes, e);
    OthersAfter(m, e, x);
    OwnProcess(m, e);
    FindThreadAppend(M.Lookup(m.procs, x.pid).value.threads, P.Thread(x.tid, Fresh), x.tid);
    hide M.Lookup, M.Load;
    forall pid ensures M.Lookup(M.After(m, e).procs, pid).Some? <==> M.Lookup(m.procs, pid).Some? {
      KnownAfter(m, sizes, e, pid);
    }
  }

  lemma {:induction false} CreatedLoads(m: M.State, sizes: seq<nat>, pid: nat, size: nat)
    requires Sound(m, sizes) && M.Lookup(m.procs, pid).None? && M.TryCreate(m, pid, size).Some?
    ensures var t := M.TryCreate(m, pid, size).value;
      && Sound(t, sizes)
      && (forall y :: LoadOf(t, y) == LoadOf(m, y))
      && (forall p :: M.Lookup(t.procs, p).Some? <==> p == pid || M.Lookup(m.procs, p).Some?)
  {
    hide M.FindThread, M.FindProc, M.TryCreate, M.Lookup, Settled, Sound, Healthy, TidsOk;
    var e := M.Create(pid, size);
    SoundSettled(m, sizes);
    EventKeepsSound(m, sizes, e);
    LookupCreated(m, pid, size);
    forall y: K.ThreadId ensures LoadOf(M.After(m, e), y) == LoadOf(m, y) {
      if y.pid != pid {
        ContextSpared(m, e, y.pid, y.tid);
      }
    }
    forall p ensures M.Lookup(M.After(m, e).procs, p).Some? <==> p == pid || M.Lookup(m.procs, p).Some? {
      KnownAfter(m, sizes, e, p);
    }
  }

  lemma {:induction false} DestroyedUnloads(m: M.State, sizes: seq<nat>, pid: nat)
    requires Sound(m, sizes)
    ensures var t := M.Delete(m, pid);
      && Sound(t, sizes)
      && (forall y :: LoadOf(t, y) == if y.pid == pid then None else LoadOf(m, y))
      && (forall p :: M.Lookup(t.procs, p).Some? <==> p != pid && M.Lookup(m.procs, p).Some?)
  {
    hide M.FindThread, M.FindProc, M.Delete, M.Lookup, Settled, Sound, Healthy, TidsOk;
    var e := M.Destroy(pid);
    SoundSettled(m, sizes);
    EventKeepsSound(m, sizes, e);
    forall p ensures M.Lookup(M.After(m, e).procs, p).Some? <==> p != pid && M.Lookup(m.procs, p).Some? {
      KnownAfter(m, sizes, e, p);
    }
    forall y: K.ThreadId ensures LoadOf(M.After(m, e), y) == if y.pid == pid then None else LoadOf(m, y) {
      if y.pid != pid {
        ContextSpared(m, e, y.pid, y.tid);
      }
    }
  }

  // Which threads and processes are alive, and who runs

  lemma {:induction false} LiveAfter(k: K.State, step: K.Step)
    requires Inv(k) && K.Enabled(k, step)
    ensures Inv(K.Apply(k, step))
    ensures var t := K.Apply(k, step);
      if t.exited == k.exited then Live(t) == Live(k) + Created(k, step)
      else k.running.Some? && Live(k) == Live(t) + multiset{k.running.value.id}
  {
    hide Inv, Live, K.Enabled, K.Apply, Created;
    StepKeeps(k, step);
    ExitedOnlyGrows(k, step);
    var t := K.Apply(k, step);
    if t.exited == k.exited {
      CancelAll(Live(t), Live(k) + Created(k, step), multiset(Ids(k.exited)));
    } else {
      ListAppend(k.exited, k.running.value);
      NotCreating(k, step);
      var one, before := multiset{k.running.value.id}, multiset(Ids(k.exited));
      assert (Live(t) + one) + before == Live(t) + (before + one);
      CancelAll(Live(t) + multiset{k.running.value.id}, Live(k), multiset(Ids(k.exited)));
    }
  }

  lemma NotCreating(k: K.State, step: K.Step)
    requires K.Enabled(k, step) && K.Apply(k, step).exited != k.exited
    ensures Created(k, step) == multiset{}
  {
    hide K.Find, K.FindMutex, K.Pick, K.ReleaseFrom, K.UnlockJoinsFrom, K.FreshTid, K.Awaited, K.Owns;
  }

  /** Who runs after a step: nobody born, except by the scheduler's decision. */
  lemma {:induction false} RunningAfter(k: K.State, step: K.Step)
    requires Inv(k) && K.Enabled(k, step)
    ensures var t := K.Apply(k, step);
      && (!step.Dispatch? ==> t.running == k.running || t.running.None?)
      && (t.exited != k.exited ==> t.running.None?)
      && (step.CompleteIo? || step.CompleteDump? || step.AdmitHead? ==> t.running == k.running && t.exited == k.exited)
      && (step.Preempt? ==> t.running.None? && t.exited == k.exited)
      && (step.ExitThread? || step.ExitProcess? || step.SegmentationFault? ==> t.exited != k.exited)
      && (step.Dispatch? ==> t.running.Some? && k.running.None? && t.exited == k.exited)
  {
    hide Core, Counted, PendingOk, K.Find, K.Pick, K.FindMutex, K.FreshTid, K.Owns, K.Awaited;
    match step
    case ExitThread => ExitThreadKeeps(k);
    case ExitProcess => ExitProcessKeeps(k);
    case SegmentationFault => ExitProcessKeeps(k);
    case CancelThread(tid) => CancelMovesOnly(k, tid);
    case _ =>
  }

  /** Processes become active by admission and stop being active by a process's exit. */
  lemma {:induction false} ActiveAfter(k: K.State, step: K.Step)
    requires Inv(k) && K.Enabled(k, step)
    ensures forall pid :: pid in K.Apply(k, step).active <==>
      if step.AdmitHead? then pid == k.pending[0].pid || pid in k.active
      else if step.ExitProcess? || step.SegmentationFault? then pid != k.running.value.id.pid && pid in k.active
      else pid in k.active
  {
    hide Core, Counted, PendingOk, K.Find, K.Pick, K.FindMutex, K.FreshTid, K.Owns, K.Awaited, Live, LivePids,
      K.UnlockJoinsFrom, K.ReleaseFrom;
    match step
    case ExitThread =>
      var x := k.running.value.id;
      RunningActive(k);
      var r := k.(exited := k.exited + [k.running.value], active := k.active[x.pid := K.Decremented(k.active[x.pid])]);
      CoreIgnoresExit(k, r);
      HandoverKeeps(r, x);
    case ExitProcess => ExitedActive(k);
    case SegmentationFault => ExitedActive(k);
    case CancelThread(tid) =>
      UnlockJoinsKeeps(k, 0, K.ThreadId(k.running.value.id.pid, tid));
    case _ =>
  }

  lemma ExitedActive(k: K.State)
    requires Inv(k) && k.running.Some?
    ensures K.DoExitProcess(k).active == k.active - {k.running.value.id.pid}
  {
    hide Core, Live, LivePids, K.ReleaseFrom;
    var r := k.(exited := k.exited + [k.running.value]);
    CoreIgnoresExit(k, r);
    ReleaseFromKeeps(r, 0, k.running.value.id.tid);
  }

  lemma RunningActive(k: K.State)
    requires Inv(k) && k.running.Some?
    ensures k.running.value.id.pid in k.active && k.active[k.running.value.id.pid] > 0
  {
    hide Core;
    LiveWithoutRunning(k);
    assert LivePids(k)[k.running.value.id.pid] > 0;
  }

  lemma RunningIsLive(k: K.State)
    ensures k.running.Some? ==> k.running.value.id in Live(k)
  {
    if k.running.Some? {
      assert k.running.value.id in multiset(RunningIds(k));
    }
  }

  lemma LiveOnce(k: K.State, x: K.ThreadId)
    requires Inv(k)
    ensures Live(k)[x] <= 1
  {
    hide JoinsOk, MutexesOk, Counted, PendingOk, Live, KernelInvariant.Waiting;
  }

  lemma WaitingUnknown(k: K.State)
    requires Inv(k)
    ensures |k.pending| == |k.firstThreads|
    ensures forall i :: 0 <= i < |k.pending| ==> k.pending[i].pid !in k.active
  {
  }

  // The two machines agree

  lemma {:induction false} LoadedAgrees(k: K.State, m: M.State, cpu: Context, bytes: seq<byte>, regs: RegisterFile,
                                        sizes: seq<nat>)
    requires AllStored(k, m, regs, sizes)
    ensures Loaded(k, m, cpu, bytes).Some?
    ensures Agree(Loaded(k, m, cpu, bytes).value, Threads(k, Strip(m), regs, bytes), sizes)
  {
    hide Grounded, Live, M.Load, Strip;
    RunningIsLive(k);
    if k.running.Some? {
      assert Keeps(m, k, regs, k.running.value.id);
    }
    var s := Loaded(k, m, cpu, bytes).value;
    forall x ensures Seen(m, k, regs, s.cpu, x) {
      assert Keeps(m, k, regs, x);
    }
  }

  lemma {:induction false} IdleStored(s: System, v: Threads, sizes: seq<nat>)
    requires Agree(s, v, sizes) && s.k.running.None?
    ensures AllStored(s.k, s.m, v.regs, sizes)
  {
    hide Grounded, Live, LoadOf, Keeps, Strip;
    forall x ensures Keeps(s.m, s.k, v.regs, x) {
      assert Seen(s.m, s.k, v.regs, s.cpu, x);
    }
  }

  lemma {:induction false} SavedStored(s: System, v: Threads, sizes: seq<nat>)
    requires Agree(s, v, sizes) && s.k.running.Some?
    ensures var x := s.k.running.value.id; var m := M.Save(s.m, x.pid, x.tid, s.cpu);
      AllStored(s.k, m, v.regs, sizes) && Strip(m) == v.m
  {
    hide Inv, Sound, Live, LoadOf, M.Save, M.Lookup, Strip;
    var x := s.k.running.value.id;
    RunningIsLive(s.k);
    assert Seen(s.m, s.k, v.regs, s.cpu, x);
    SavedLoads(s.m, sizes, x, s.cpu);
    var m := M.Save(s.m, x.pid, x.tid, s.cpu);
    forall y ensures Keeps(m, s.k, v.regs, y) {
      assert Seen(s.m, s.k, v.regs, s.cpu, y);
    }
  }

  /** A step that neither begins nor ends a thread leaves memory as it should be. */
  lemma {:induction false} StoredCarriesOver(k: K.State, t: K.State, m: M.State, regs: RegisterFile, sizes: seq<nat>)
    requires AllStored(k, m, regs, sizes) && Inv(t) && Live(t) == Live(k)
    requires forall pid :: pid in t.active <==> pid in k.active
    ensures AllStored(t, m, regs, sizes)
  {
    hide Inv, Sound, Live, LoadOf, M.Lookup;
    forall x ensures Keeps(m, t, regs, x) {
      assert Keeps(m, k, regs, x);
    }
  }

  predicate Steady(step: K.Step) {
    !step.AdmitHead? && !step.CreateThread? && !step.ExitProcess? && !step.SegmentationFault?
  }

  lemma OnlyCreationsCreate(k: K.State, step: K.Step)
    requires K.Enabled(k, step) && Steady(step)
    ensures Created(k, step) == multiset{}
  {
  }

  /** Nobody begins or ends. */
  lemma {:induction false} SteadyStep(k: K.State, step: K.Step)
    requires Inv(k) && K.Enabled(k, step) && Steady(step) && K.Apply(k, step).exited == k.exited
    ensures var t := K.Apply(k, step);
      && Inv(t) && Live(t) == Live(k) && Population(t) == Population(k)
      && forall pid :: pid in t.active <==> pid in k.active
  {
    hide Inv, Live, K.Enabled, K.Apply, Created, Population;
    LiveAfter(k, step);
    StepKeeps(k, step);
    ActiveAfter(k, step);
    OnlyCreationsCreate(k, step);
    assert Live(k) + multiset{} == Live(k) && Population(k) + multiset{} == Population(k);
  }

  lemma {:induction false} ScheduleAgrees(s: System, v: Threads, sizes: seq<nat>, policy: K.Policy)
    requires Agree(s, v, sizes) && K.Enabled(s.k, K.Dispatch(policy))
    ensures var k := K.Apply(s.k, K.Dispatch(policy));
      var t := Loaded(k, s.m, s.cpu, s.bytes);
      t.Some? && Agree(t.value, v.(k := k), sizes)
  {
    hide Inv, Live, Grounded, LoadOf, Seen, AllStored, Strip;
    AgreeOnKernel(s, v, sizes);
    IdleStored(s, v, sizes);
    hide K.Enabled, K.Apply;
    RunningAfter(s.k, K.Dispatch(policy));
    SteadyStep(s.k, K.Dispatch(policy));
    StoredCarriesOver(s.k, K.Apply(s.k, K.Dispatch(policy)), s.m, v.regs, sizes);
    LoadedAgrees(K.Apply(s.k, K.Dispatch(policy)), s.m, s.cpu, s.bytes, v.regs, sizes);
  }

  lemma {:induction false} CompletionAgrees(s: System, v: Threads, sizes: seq<nat>, step: K.Step)
    requires Agree(s, v, sizes) && K.Enabled(s.k, step) && (step.CompleteIo? || step.CompleteDump?)
    ensures Agree(s.(k := K.Apply(s.k, step)), v.(k := K.Apply(s.k, step)), sizes)
  {
    hide Inv, Live, Sound, LoadOf, M.Lookup, K.Enabled, K.Apply, Strip;
    RunningAfter(s.k, step);
    SteadyStep(s.k, step);
    var k := K.Apply(s.k, step);
    forall x ensures Seen(s.m, k, v.regs, s.cpu, x) {
      assert Seen(s.m, s.k, v.regs, s.cpu, x);
    }
  }

  lemma {:induction false} InterruptAgrees(s: System, v: Threads, sizes: seq<nat>)
    requires Agree(s, v, sizes) && s.k.running.Some?
    ensures Agree(Preempted(s), v.(k := K.DoPreempt(v.k)), sizes)
  {
    hide Inv, Live, Grounded, LoadOf, M.Save, AllStored, Seen, Strip, K.DoPreempt, Agree;
    AgreeOnKernel(s, v, sizes);
    var x := s.k.running.value.id;
    SavedStored(s, v, sizes);
    assert K.Enabled(s.k, K.Preempt) && K.Apply(s.k, K.Preempt) == K.DoPreempt(s.k);
    hide K.Apply, K.Enabled;
    RunningAfter(s.k, K.Preempt);
    SteadyStep(s.k, K.Preempt);
    var m := M.Save(s.m, x.pid, x.tid, s.cpu);
    StoredCarriesOver(s.k, K.DoPreempt(s.k), m, v.regs, sizes);
    LoadedAgrees(K.DoPreempt(s.k), m, s.cpu, s.bytes, v.regs, sizes);
  }

  // Calls

  /** What a served call leaves in kernel and memory is what the simpler machine has after it. */
  ghost predicate Matches(h: Hosts, u: Threads, bytes: seq<byte>, sizes: seq<nat>) {
    u.k == h.k && u.m == Strip(h.m) && u.bytes == bytes && AllStored(h.k, h.m, u.regs, sizes)
  }

  /** The new thread's TID is not in use, and its process is the running thread's. */
  lemma NewThread(k: K.State, call: K.Step)
    requires Inv(k) && K.Enabled(k, call) && call.CreateThread?
    ensures var x := k.running.value.id; var born := K.ThreadId(x.pid, k.active[x.pid]);
      born !in Live(k) && Created(k, call) == multiset{born} && K.Apply(k, call).exited == k.exited
  {
    hide Inv;
    KnownMeansLive(k, K.ThreadId(k.running.value.id.pid, k.active[k.running.value.id.pid]));
  }

  lemma {:induction false} AttemptMatches(h: Hosts, u: Threads, bytes: seq<byte>, sizes: seq<nat>)
    requires Matches(h, u, bytes, sizes)
    ensures Attempt(h).0 == AttemptThreads(u).0
    ensures Matches(Attempt(h).1, AttemptThreads(u).1, bytes, sizes)
  {
    hide Inv, Live, Sound, LoadOf, M.Lookup, M.TryCreate, M.AddThread, Strip, K.DoAdmitHead;
    if h.k.pending != [] {
      var pid, size := h.k.pending[0].pid, h.k.pending[0].size;
      CreateBare(h.m, pid, size);
      WaitingUnknown(h.k);
      if M.TryCreate(h.m, pid, size).Some? {
        FirstThreadAccepted(h.m, pid, size);
        AdmittedMatches(h, u, bytes, sizes);
      }
    }
  }

  lemma {:induction false} AdmittedMatches(h: Hosts, u: Threads, bytes: seq<byte>, sizes: seq<nat>)
    requires Matches(h, u, bytes, sizes) && h.k.pending != [] && h.k.firstThreads != []
    requires M.TryCreate(h.m, h.k.pending[0].pid, h.k.pending[0].size).Some?
    requires M.AddThread(M.TryCreate(h.m, h.k.pending[0].pid, h.k.pending[0].size).value, h.k.pending[0].pid, 0).Some?
    ensures var pid := h.k.pending[0].pid;
      var m := M.TryCreate(h.m, pid, h.k.pending[0].size).value; var t := M.AddThread(m, pid, 0).value;
      AllStored(K.DoAdmitHead(h.k), t, u.regs[K.ThreadId(pid, 0) := Fresh], sizes) && Strip(t) == Strip(m)
  {
    hide Inv, Live, Sound, LoadOf, M.Lookup, M.TryCreate, M.AddThread, Strip;
    var pid, size := h.k.pending[0].pid, h.k.pending[0].size;
    var x := K.ThreadId(pid, 0);
    WaitingUnknown(h.k);
    AdmitHeadKeeps(h.k);
    assert x !in Live(h.k) by { FirstIsNew(h.k); }
    assert forall p :: p in K.DoAdmitHead(h.k).active <==> p == pid || p in h.k.active;
    hide K.DoAdmitHead;
    var m := M.TryCreate(h.m, pid, size).value;
    CreatedLoads(h.m, sizes, pid, size);
    assert Keeps(h.m, h.k, u.regs, x);
    StartedLoads(m, sizes, x);
    var regs := u.regs[x := Fresh];
    forall y ensures Keeps(M.AddThread(m, pid, 0).value, K.DoAdmitHead(h.k), regs, y) {
      assert Keeps(h.m, h.k, u.regs, y);
    }
  }

  lemma FirstIsNew(k: K.State)
    requires Inv(k) && k.pending != []
    ensures K.ThreadId(k.pending[0].pid, 0) !in Live(k)
  {
    hide Core;
    NotAdmittedMeansNotLive(k, K.ThreadId(k.pending[0].pid, 0));
  }

  lemma {:induction false} AdmitMatches(h: Hosts, u: Threads, bytes: seq<byte>, sizes: seq<nat>)
    requires Matches(h, u, bytes, sizes)
    ensures Matches(Admit(h), AdmitThreads(u), bytes, sizes)
    decreases |h.k.pending|
  {
    AttemptMatches(h, u, bytes, sizes);
    AttemptShrinks(h);
    hide Matches, Attempt, AttemptThreads;
    if Attempt(h).0 {
      AdmitMatches(Attempt(h).1, AttemptThreads(u).1, bytes, sizes);
    }
  }

  /** The last thread of a process ends, and with it its process. */
  lemma {:induction false} TornDownMatches(k: K.State, m: M.State, regs: RegisterFile, sizes: seq<nat>)
    requires AllStored(k, m, regs, sizes) && K.LastThread(k)
    ensures var x := k.running.value.id; var t := M.Delete(M.RemoveThread(m, x.pid, x.tid), x.pid);
      AllStored(K.DoExitProcess(k), t, regs, sizes) && Strip(t) == M.Delete(Strip(m), x.pid)
  {
    hide Inv, Live, Sound, LoadOf, M.Lookup, M.Delete, M.RemoveThread, Strip, K.DoExitProcess;
    var x := k.running.value.id;
    ExitProcessKeeps(k);
    ExitedActive(k);
    EndedUnloads(m, sizes, x);
    var r := M.RemoveThread(m, x.pid, x.tid);
    DestroyedUnloads(r, sizes, x.pid);
    DeleteBare(r, x.pid);
    LiveOnce(k, x);
    forall y ensures Keeps(M.Delete(r, x.pid), K.DoExitProcess(k), regs, y) {
      assert Keeps(m, k, regs, y);
      if y.pid == x.pid {
        NoSibling(k, y);
      }
    }
  }

  lemma NoSibling(k: K.State, y: K.ThreadId)
    requires Inv(k) && K.LastThread(k) && y.pid == k.running.value.id.pid
    ensures y !in Live(K.DoExitProcess(k))
  {
    hide Core, K.ReleaseFrom;
    ExitProcessKeeps(k);
    ExitedActive(k);
    NotAdmittedMeansNotLive(K.DoExitProcess(k), y);
  }

  /** Memory drops the thread that ended, if one did. */
  lemma {:induction false} ThreadEnds(k: K.State, t: K.State, m: M.State, regs: RegisterFile, sizes: seq<nat>,
                                      x: K.ThreadId)
    requires AllStored(k, m, regs, sizes) && Inv(t) && Live(k) == Live(t) + multiset{x}
    requires forall pid :: pid in t.active <==> pid in k.active
    ensures var r := M.RemoveThread(m, x.pid, x.tid); AllStored(t, r, regs, sizes) && Strip(r) == Strip(m)
  {
    hide Inv, Live, Sound, LoadOf, M.Lookup, M.RemoveThread, Strip;
    EndedUnloads(m, sizes, x);
    LiveOnce(k, x);
    forall y ensures Keeps(M.RemoveThread(m, x.pid, x.tid), t, regs, y) {
      assert Keeps(m, k, regs, y);
    }
  }

  lemma {:induction false} ThreadBegins(k: K.State, t: K.State, m: M.State, regs: RegisterFile, sizes: seq<nat>,
                                        x: K.ThreadId)
    requires AllStored(k, m, regs, sizes) && Inv(t) && Live(t) == Live(k) + multiset{x} && x !in Live(k)
    requires x.pid in k.active
    requires forall pid :: pid in t.active <==> pid in k.active
    ensures var r := M.AddThread(m, x.pid, x.tid);
      r.Some? && AllStored(t, r.value, regs[x := Fresh], sizes) && Strip(r.value) == Strip(m)
  {
    hide Inv, Live, Sound, LoadOf, M.Lookup, M.AddThread, Strip;
    assert Keeps(m, k, regs, x);
    StartedLoads(m, sizes, x);
    var regs' := regs[x := Fresh];
    forall y ensures Keeps(M.AddThread(m, x.pid, x.tid).value, t, regs', y) {
      assert Keeps(m, k, regs, y);
    }
  }

  lemma {:induction false} ServedMatches(k: K.State, m: M.State, regs: RegisterFile, bytes: seq<byte>,
                                         sizes: seq<nat>, call: K.Step)
    requires AllStored(k, m, regs, sizes) && k.running.Some? && K.Enabled(k, call)
    requires IsSyscall(call) || call.SegmentationFault?
    ensures var u := ServeThreads(Threads(k, Strip(m), regs, bytes), call);
      Served(m, k, call).Some? && u.Some? && Matches(Served(m, k, call).value, u.value, bytes, sizes)
  {
    hide Inv, Live, Grounded, Keeps, M.RemoveThread, M.AddThread, M.Delete, Strip, Admit, AdmitThreads, AllStored;
    assert Inv(k) by { StoredInv(k, m, regs, sizes); }
    var x := k.running.value.id;
    if call.ExitProcess? || call.SegmentationFault? {
      TornDownMatches(k, m, regs, sizes);
      hide K.Enabled, K.DoExitProcess;
      var h := Hosts(K.Apply(k, call), M.Delete(M.RemoveThread(m, x.pid, x.tid), x.pid));
      var u := Threads(K.Apply(k, call), M.Delete(Strip(m), x.pid), regs, bytes);
      AdmitMatches(h, u, bytes, sizes);
    } else if call.CreateThread? {
      NewThread(k, call);
      RunningActive(k);
      hide K.Enabled, K.Apply;
      LiveAfter(k, call);
      ActiveAfter(k, call);
      ThreadBegins(k, K.Apply(k, call), m, regs, sizes, K.ThreadId(x.pid, k.active[x.pid]));
    } else {
      hide K.Enabled, K.Apply;
      PlainServedMatches(k, m, regs, bytes, sizes, call);
    }
  }

  lemma {:induction false} PlainServedMatches(k: K.State, m: M.State, regs: RegisterFile, bytes: seq<byte>,
                                              sizes: seq<nat>, call: K.Step)
    requires AllStored(k, m, regs, sizes) && k.running.Some? && K.Enabled(k, call) && IsSyscall(call) && Steady(call)
    ensures var u := ServeThreads(Threads(k, Strip(m), regs, bytes), call);
      Served(m, k, call).Some? && u.Some? && Matches(Served(m, k, call).value, u.value, bytes, sizes)
  {
    hide Inv, Live, Grounded, Keeps, M.RemoveThread, Strip, Admit, AdmitThreads, AllStored, K.Enabled, K.Apply;
    assert Inv(k) by { StoredInv(k, m, regs, sizes); }
    var t := K.Apply(k, call);
    if t.exited != k.exited {
      LiveAfter(k, call);
      ActiveAfter(k, call);
      NotByCreation(k, call);
      ThreadEnds(k, t, m, regs, sizes, k.running.value.id);
    } else {
      SteadyStep(k, call);
      StoredCarriesOver(k, t, m, regs, sizes);
      AdmitMatches(Hosts(t, m), Threads(t, Strip(m), regs, bytes), bytes, sizes);
    }
  }

  lemma NotByCreation(k: K.State, call: K.Step)
    requires Inv(k) && K.Enabled(k, call) && K.Apply(k, call).exited != k.exited
    ensures !call.CreateProcess?
  {
  }

  lemma StoredInv(k: K.State, m: M.State, regs: RegisterFile, sizes: seq<nat>)
    requires AllStored(k, m, regs, sizes)
    ensures Inv(k)
  {
  }

  lemma {:induction false} ServeAgrees(s: System, v: Threads, sizes: seq<nat>, call: K.Step)
    requires Agree(s, v, sizes) && s.k.running.Some? && (IsSyscall(call) || call.SegmentationFault?)
    ensures Serve(s, call).Some? <==> ServeThreads(v, call).Some?
    ensures Serve(s, call).Some? ==> Agree(Serve(s, call).value, ServeThreads(v, call).value, sizes)
  {
    hide Agree, Inv, Live, M.Save, K.Apply, AllStored, Loaded, Served, K.Enabled, IsSyscall, Strip, ServeThreads;
    AgreeOnKernel(s, v, sizes);
    if K.Enabled(s.k, call) {
      var x := s.k.running.value.id;
      SavedStored(s, v, sizes);
      var saved := M.Save(s.m, x.pid, x.tid, s.cpu);
      ServedMatches(s.k, saved, v.regs, v.bytes, sizes, call);
      var h := Served(saved, s.k, call).value;
      var u := ServeThreads(v, call).value;
      assert Threads(s.k, Strip(saved), v.regs, v.bytes) == v;
      LoadedAgrees(h.k, h.m, s.cpu, s.bytes, u.regs, sizes);
    } else {
      NotServed(v, call);
    }
  }

  lemma NotServed(v: Threads, call: K.Step)
    requires v.k.running.Some? && !K.Enabled(v.k, call)
    ensures ServeThreads(v, call).None?
  {
  }

  /** The CPU holds the running thread's own context, and may change its registers. */
  lemma {:induction false} ExecutedAgrees(s: System, v: Threads, sizes: seq<nat>, c: Context, b: seq<byte>)
    requires Agree(s, v, sizes) && s.k.running.Some? && c.base == s.cpu.base && c.limite == s.cpu.limite
    ensures var x := s.k.running.value.id;
      x in v.regs && M.Lookup(v.m.procs, x.pid).Some? && s.cpu == Own(v, x)
      && Agree(s.(cpu := c, bytes := b), v.(regs := v.regs[x := c.regs], bytes := b), sizes)
  {
    hide Inv, Live, Grounded, M.FindThread, M.Lookup;
    var x := s.k.running.value.id;
    assert Seen(s.m, s.k, v.regs, s.cpu, x);
    LookupBare(s.m.procs, x.pid);
    hide LoadOf, Strip;
    var regs := v.regs[x := c.regs];
    forall y ensures Seen(s.m, s.k, regs, c, y) {
      assert Seen(s.m, s.k, v.regs, s.cpu, y);
    }
  }

  lemma CycleKeepsBounds(script: seq<Instr>, c: Context, b: seq<byte>)
    ensures var o := Cycle(script, c, b); !o.Undefined? ==> o.context.base == c.base && o.context.limite == c.limite
  {
  }

  lemma {:induction false} ExecuteAgrees(program: Scripts, s: System, v: Threads, sizes: seq<nat>)
    requires Agree(s, v, sizes)
    ensures var t, u := Act(program, s, Execute), ActThreads(program, v, Execute);
      (t.Some? <==> u.Some?) && (t.Some? ==> Agree(t.value, u.value, sizes))
  {
    hide Agree, Cycle, Serve, ServeThreads, M.Lookup, IsSyscall;
    AgreeOnKernel(s, v, sizes);
    if s.k.running.Some? {
      var x := s.k.running.value.id;
      ExecutedAgrees(s, v, sizes, s.cpu, s.bytes);
      var o := Cycle(program(x), s.cpu, s.bytes);
      CycleKeepsBounds(program(x), s.cpu, s.bytes);
      if !o.Undefined? {
        ExecutedAgrees(s, v, sizes, o.context, o.mem);
        var t, u := s.(cpu := o.context, bytes := o.mem), v.(regs := v.regs[x := o.context.regs], bytes := o.mem);
        if o.Trap? && IsSyscall(o.call) {
          ServeAgrees(t, u, sizes, o.call);
        } else if o.SegFault? {
          ServeAgrees(t, u, sizes, K.SegmentationFault);
        }
      }
    }
  }

  lemma AgreeOnKernel(s: System, v: Threads, sizes: seq<nat>)
    requires Agree(s, v, sizes)
    ensures s.k == v.k && s.bytes == v.bytes && Inv(s.k) && v.m == Strip(s.m)
  {
  }

  /** One action: both machines can take it or neither can, and they agree again afterwards. */
  lemma {:induction false} ActAgrees(program: Scripts, s: System, v: Threads, sizes: seq<nat>, a: Action)
    requires Agree(s, v, sizes)
    ensures var t, u := Act(program, s, a), ActThreads(program, v, a);
      (t.Some? <==> u.Some?) && (t.Some? ==> Agree(t.value, u.value, sizes))
  {
    hide Agree, K.Apply, K.Enabled;
    AgreeOnKernel(s, v, sizes);
    match a
    case Execute => ExecuteAgrees(program, s, v, sizes);
    case Interrupt =>
      if s.k.running.Some? {
        InterruptAgrees(s, v, sizes);
      }
    case Schedule(policy) =>
      if K.Enabled(s.k, K.Dispatch(policy)) {
        ScheduleAgrees(s, v, sizes, policy);
      }
    case IoDone =>
      if K.Enabled(s.k, K.CompleteIo) {
        CompletionAgrees(s, v, sizes, K.CompleteIo);
      }
    case DumpDone(i) =>
      if K.Enabled(s.k, K.CompleteDump(i)) {
        CompletionAgrees(s, v, sizes, K.CompleteDump(i));
      }
  }

  /** However threads are interleaved, saving and loading contexts through memory is the same as
      every thread keeping registers of its own: both machines can take exactly the same runs, and
      end in agreeing states. */
  lemma {:induction false} SystemRefinesThreads(program: Scripts, s: System, v: Threads, sizes: seq<nat>,
                                                actions: seq<Action>)
    requires Agree(s, v, sizes)
    ensures var t, u := ActAll(program, s, actions), ActAllThreads(program, v, actions);
      (t.Some? <==> u.Some?) && (t.Some? ==> Agree(t.value, u.value, sizes))
    decreases |actions|
  {
    hide Agree, Act, ActThreads;
    if actions != [] {
      ActAgrees(program, s, v, sizes, actions[0]);
      var t := Act(program, s, actions[0]);
      if t.Some? {
        SystemRefinesThreads(program, t.value, ActThreads(program, v, actions[0]).value, sizes, actions[1..]);
      }
    }
  }

  // From start-up

  lemma {:induction false} FirstCreationStored(start: Start, sizes: seq<nat>)
    requires Sensible(start, sizes)
    ensures AllStored(K.DoCreateProcess(K.Boot, start.size, start.priority), start.m, map[], sizes)
  {
    hide Healthy, Inv;
    BootOk();
    CreateProcessKeeps(K.Boot, start.size, start.priority);
    var k := K.DoCreateProcess(K.Boot, start.size, start.priority);
    assert Live(K.Boot) == multiset{};
    forall pid ensures M.Lookup(start.m.procs, pid).None? {
    }
  }

  /** At power-on the two machines agree, so they do in every state that a run reaches. */
  lemma {:induction false} PowerAgrees(start: Start, sizes: seq<nat>)
    requires Sensible(start, sizes)
    ensures Agree(Power(start), PowerThreads(start), sizes)
  {
    hide AllStored, Admit, AdmitThreads, Strip, Agree, Healthy;
    FirstCreationStored(start, sizes);
    var k := K.DoCreateProcess(K.Boot, start.size, start.priority);
    AdmitMatches(Hosts(k, start.m), Threads(k, Strip(start.m), map[], start.bytes), start.bytes, sizes);
    var h := Admit(Hosts(k, start.m));
    StillIdle(Hosts(k, start.m));
    LoadedAgrees(h.k, h.m, start.cpu, start.bytes, PowerThreads(start).regs, sizes);
  }

  /** Admission dispatches nobody. */
  lemma {:induction false} StillIdle(h: Hosts)
    ensures Admit(h).k.running == h.k.running
    decreases |h.k.pending|
  {
    AttemptShrinks(h);
    hide M.TryCreate, M.AddThread;
    var t := Attempt(h).1;
    assert t.k.running == h.k.running;
    if Attempt(h).0 {
      StillIdle(t);
    }
  }

  lemma {:induction false} ReachedAgrees(program: Scripts, start: Start, sizes: seq<nat>, actions: seq<Action>)
    requires Sensible(start, sizes) && ActAll(program, Power(start), actions).Some?
    ensures ActAllThreads(program, PowerThreads(start), actions).Some?
    ensures Agree(ActAll(program, Power(start), actions).value,
                  ActAllThreads(program, PowerThreads(start), actions).value, sizes)
  {
    hide *;
    PowerAgrees(start, sizes);
    SystemRefinesThreads(program, Power(start), PowerThreads(start), sizes, actions);
  }
}
