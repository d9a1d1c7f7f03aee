/** The kernel's lists, queues and counters as one value, and the effect that each
    syscall, completion and preemption has on them. */
module KernelState {
  import opened Lists

  datatype ThreadId = ThreadId(pid: nat, tid: nat)

  datatype Tcb = Tcb(id: ThreadId, priority: nat)

  /** A simulated mutex: `tid` is -1 while nobody holds it. */
  datatype Mutex = Mutex(name: string, pid: nat, taken: bool, tid: int,
                         waiters: seq<ThreadId>, blockedCount: int)

  datatype Join = Join(blocked: ThreadId, blocking: ThreadId)

  datatype IoRequest = IoRequest(id: ThreadId, time: nat)

  /** A process that memory has not accepted yet. */
  datatype PendingPcb = PendingPcb(pid: nat, size: nat)

  /** What the first thread of a pending process will be created with. */
  datatype FirstThread = FirstThread(size: nat, priority: nat)

  /** `active` maps the PID of each admitted process to its `tid_count`. */
  datatype State = State(
    running: Option<Tcb>,
    ready: seq<Tcb>,
    blocked: seq<Tcb>,
    exited: seq<Tcb>,
    semThreads: nat,
    joins: seq<Join>,
    ioQueue: seq<IoRequest>,
    semIo: nat,
    dumps: seq<ThreadId>,
    mutexes: seq<Mutex>,
    active: map<nat, nat>,
    pending: seq<PendingPcb>,
    firstThreads: seq<FirstThread>,
    nextPid: nat)

  const Boot := State(None, [], [], [], 0, [], [], 0, [], [], map[], [], [], 0)

  /** FIFO takes the head of READY; PRIORIDADES and CMN take the best priority. */
  datatype Policy = Fifo | Priorities

  datatype Step =
    | Dispatch(policy: Policy)
    | CreateProcess(size: nat, priority: nat)
    | AdmitHead
    | ExitProcess
    | SegmentationFault
    | CreateThread(priority: nat)
    | JoinThread(tid: nat)
    | ExitThread
    | CancelThread(tid: nat)
    | CreateMutex(name: string)
    | LockMutex(name: string)
    | UnlockMutex(name: string)
    | RequestIo(time: nat)
    | CompleteIo
    | RequestDump
    | CompleteDump(index: nat)
    | Preempt

  // Searching lists

  /** Position of the first TCB with that identity, or the length when there is none. */
  function Find(list: seq<Tcb>, x: ThreadId): (i: nat)
    ensures i <= |list|
    ensures i < |list| ==> list[i].id == x
    ensures forall j :: 0 <= j < i ==> list[j].id != x
  {
    if list == [] then 0
    else if list[0].id == x then 0
    else
      var rest := Find(list[1..], x);
      assert forall j :: 0 <= j < |list[1..]| ==> list[1..][j] == list[j + 1];
      1 + rest
  }

  function FindMutex(mutexes: seq<Mutex>, name: string): (i: nat)
    ensures i <= |mutexes|
    ensures i < |mutexes| ==> mutexes[i].name == name
    ensures forall j :: 0 <= j < i ==> mutexes[j].name != name
  {
    if mutexes == [] then 0
    else if mutexes[0].name == name then 0
    else
      var rest := FindMutex(mutexes[1..], name);
      assert forall j :: 0 <= j < |mutexes[1..]| ==> mutexes[1..][j] == mutexes[j + 1];
      1 + rest
  }

  predicate Has(list: seq<Tcb>, x: ThreadId) {
    Find(list, x) < |list|
  }

  /** READY position the scheduler takes: the head, or the earliest of the best priorities. */
  function Pick(policy: Policy, ready: seq<Tcb>): (i: nat)
    requires ready != []
    ensures i < |ready|
    ensures policy.Fifo? ==> i == 0
    ensures policy.Priorities? ==> forall j :: 0 <= j < |ready| ==> ready[i].priority <= ready[j].priority
    ensures policy.Priorities? ==> forall j :: 0 <= j < i ==> ready[i].priority < ready[j].priority
  {
    if policy.Fifo? || |ready| == 1 then 0
    else
      var init := ready[..|ready| - 1];
      var best := Pick(policy, init);
      assert forall j :: 0 <= j < |init| ==> init[j] == ready[j];
      if ready[|ready| - 1].priority < ready[best].priority then |ready| - 1 else best
  }

  // Moving threads

  function Wake(s: State, x: ThreadId): State {
    var i := Find(s.blocked, x);
    if i < |s.blocked| then
      s.(blocked := RemoveAt(s.blocked, i), ready := s.ready + [s.blocked[i]])
    else s
  }

  function WakeAndPost(s: State, x: ThreadId): State {
    var t := Wake(s, x);
    t.(semThreads := t.semThreads + 1)
  }

  function MakeReady(s: State, t: Tcb): State {
    s.(ready := s.ready + [t], semThreads := s.semThreads + 1)
  }

  // Mutexes

  /** Hands the mutex at position i to its first waiter, or frees it. */
  function Release(s: State, i: nat): State
    requires i < |s.mutexes|
  {
    var m := s.mutexes[i];
    if m.waiters != [] then
      var next := m.waiters[0];
      WakeAndPost(s, next).(mutexes := s.mutexes[i :=
        m.(tid := next.tid, waiters := m.waiters[1..], blockedCount := m.blockedCount - 1)])
    else
      s.(mutexes := s.mutexes[i := m.(taken := false, tid := -1)])
  }

  predicate HeldBy(m: Mutex, tid: nat) {
    m.taken && m.tid == tid
  }

  function Unlock(s: State, name: string, tid: nat): State {
    var i := FindMutex(s.mutexes, name);
    if i == |s.mutexes| || !HeldBy(s.mutexes[i], tid) then s else Release(s, i)
  }

  /** The release loop of a finishing thread, from position i of the mutex list on. */
  function ReleaseFrom(s: State, i: nat, tid: nat): (r: State)
    requires i <= |s.mutexes|
    ensures |r.mutexes| == |s.mutexes|
    decreases |s.mutexes| - i
  {
    if i == |s.mutexes| then s
    else if HeldBy(s.mutexes[i], tid) then ReleaseFrom(Unlock(s, s.mutexes[i].name, tid), i + 1, tid)
    else ReleaseFrom(s, i + 1, tid)
  }

  // Joins

  function WakeJoiner(s: State, i: nat): State
    requires i < |s.joins|
  {
    WakeAndPost(s, s.joins[i].blocked).(joins := RemoveAt(s.joins, i))
  }

  /** The join loop of a finishing thread, from position i of the join list on. */
  function UnlockJoinsFrom(s: State, i: nat, x: ThreadId): State
    decreases |s.joins| - i
  {
    if i >= |s.joins| then s
    else if s.joins[i].blocking == x then UnlockJoinsFrom(WakeJoiner(s, i), i, x)
    else UnlockJoinsFrom(s, i + 1, x)
  }

  // Guards

  predicate Known(s: State, x: ThreadId) {
    Has(s.ready, x) || Has(s.blocked, x) || (s.running.Some? && s.running.value.id == x)
  }

  predicate Awaited(s: State, x: ThreadId) {
    exists j :: 0 <= j < |s.joins| && s.joins[j].blocking == x
  }

  /** Some mutex of its own process is assigned to x. */
  predicate Owns(s: State, x: ThreadId) {
    exists i :: 0 <= i < |s.mutexes| && HeldBy(s.mutexes[i], x.tid) && s.mutexes[i].pid == x.pid
  }

  /** The TID a thread creation in this process would use is not in use. */
  predicate FreshTid(s: State, pid: nat)
    requires pid in s.active
  {
    !Known(s, ThreadId(pid, s.active[pid]))
  }

  /** The process's thread count is one and its thread 0 is the one that runs. */
  predicate LastThread(s: State) {
    && s.running.Some?
    && s.running.value.id.pid in s.active
    && s.running.value.id.tid == 0
    && s.active[s.running.value.id.pid] == 1
  }

  /** find_tcb_from_tid finds the thread, in BLOCKED or in READY. */
  predicate Findable(s: State, x: ThreadId) {
    Has(s.blocked, x) || Has(s.ready, x)
  }

  /** Which steps the model covers: those that reach no undefined behaviour of the code,
      and of the teardown branches those that strand no other thread. */
  predicate Enabled(s: State, step: Step) {
    match step
    case Dispatch(_) => s.running.None? && s.semThreads > 0 && s.ready != []
    case CreateProcess(_, _) => true
    case AdmitHead => s.pending != [] && s.firstThreads != []
    case ExitProcess => LastThread(s)
    case SegmentationFault => LastThread(s)
    case CreateThread(_) =>
      && s.running.Some?
      && s.running.value.id.pid in s.active
      && FreshTid(s, s.running.value.id.pid)
    case LockMutex(name) =>
      && s.running.Some?
      && var i := FindMutex(s.mutexes, name);
         if i == |s.mutexes| then !Awaited(s, s.running.value.id) && !Owns(s, s.running.value.id)
         else s.mutexes[i].pid == s.running.value.id.pid
    case UnlockMutex(name) => s.running.Some? && FindMutex(s.mutexes, name) < |s.mutexes|
    case CompleteIo => s.semIo > 0 && s.ioQueue != []
    case CompleteDump(index) => index < |s.dumps|
    case ExitThread => s.running.Some?
    case CancelThread(tid) => s.running.Some? && Findable(s, ThreadId(s.running.value.id.pid, tid))
    case JoinThread(_) => s.running.Some?
    case CreateMutex(_) => s.running.Some?
    case RequestIo(_) => s.running.Some?
    case RequestDump => s.running.Some?
    case Preempt => s.running.Some?
  }

  // Effects of the steps

  function Block(s: State): State
    requires s.running.Some?
  {
    s.(blocked := s.blocked + [s.running.value], running := None)
  }

  function DoDispatch(s: State, policy: Policy): State
    requires s.ready != [] && s.semThreads > 0
  {
    var i := Pick(policy, s.ready);
    s.(running := Some(s.ready[i]), ready := RemoveAt(s.ready, i), semThreads := s.semThreads - 1)
  }

  function DoCreateProcess(s: State, size: nat, priority: nat): State {
    s.(pending := s.pending + [PendingPcb(s.nextPid, size)],
       firstThreads := s.firstThreads + [FirstThread(size, priority)],
       nextPid := s.nextPid + 1)
  }

  /** A new thread takes the process's current thread count as its TID. */
  function Spawn(s: State, pid: nat, count: nat, priority: nat): State {
    MakeReady(s, Tcb(ThreadId(pid, count), priority)).(active := s.active[pid := count + 1])
  }

  function DoAdmitHead(s: State): State
    requires s.pending != [] && s.firstThreads != []
  {
    Spawn(s, s.pending[0].pid, 0, s.firstThreads[0].priority)
      .(pending := s.pending[1..], firstThreads := s.firstThreads[1..])
  }

  function DoCreateThread(s: State, priority: nat): State
    requires s.running.Some? && s.running.value.id.pid in s.active
  {
    var pid := s.running.value.id.pid;
    Spawn(s, pid, s.active[pid], priority)
  }

  function DoJoin(s: State, tid: nat): State
    requires s.running.Some?
  {
    var me := s.running.value.id;
    var target := ThreadId(me.pid, tid);
    if Findable(s, target) then
      Block(s.(joins := s.joins + [Join(me, target)]))
    else s
  }

  /** What a finishing thread hands over before it stops being the running one. */
  function Handover(s: State, x: ThreadId): State {
    ReleaseFrom(UnlockJoinsFrom(s, 0, x), 0, x.tid)
  }

  /** `tid_count` is an unsigned 32-bit counter. */
  function Decremented(count: nat): nat {
    if count == 0 then 0xFFFF_FFFF else count - 1
  }

  function DoExitThread(s: State): State
    requires s.running.Some?
  {
    var me := s.running.value;
    var counts := if me.id.pid in s.active then s.active[me.id.pid := Decremented(s.active[me.id.pid])]
                  else s.active;
    Handover(s.(exited := s.exited + [me], active := counts), me.id).(running := None)
  }

  /** THREAD_CANCEL wakes the target's joiners; the target itself is left as it is. */
  function DoCancel(s: State, tid: nat): State
    requires s.running.Some?
  {
    UnlockJoinsFrom(s, 0, ThreadId(s.running.value.id.pid, tid))
  }

  /** PROCESS_EXIT, or a segmentation fault, of a process whose only thread is the running one;
      joins are not touched. */
  function DoExitProcess(s: State): State
    requires s.running.Some?
  {
    var me := s.running.value;
    ReleaseFrom(s.(exited := s.exited + [me]), 0, me.id.tid)
      .(running := None, active := s.active - {me.id.pid})
  }

  function DoCreateMutex(s: State, name: string): State
    requires s.running.Some?
  {
    if FindMutex(s.mutexes, name) < |s.mutexes| then s
    else s.(mutexes := s.mutexes + [Mutex(name, s.running.value.id.pid, false, -1, [], 0)])
  }

  function DoLock(s: State, name: string): State
    requires s.running.Some?
  {
    var me := s.running.value;
    var i := FindMutex(s.mutexes, name);
    if i == |s.mutexes| then
      s.(exited := s.exited + [me], running := None)
    else
      var m := s.mutexes[i];
      if !m.taken || m.tid == me.id.tid then
        s.(mutexes := s.mutexes[i := m.(taken := true, tid := me.id.tid)])
      else
        Block(s.(mutexes := s.mutexes[i :=
          m.(waiters := m.waiters + [me.id], blockedCount := m.blockedCount + 1)]))
  }

  function DoRequestIo(s: State, time: nat): State
    requires s.running.Some?
  {
    Block(s.(ioQueue := s.ioQueue + [IoRequest(s.running.value.id, time)], semIo := s.semIo + 1))
  }

  /** One turn of the IO device; a request whose thread is not BLOCKED is dropped unposted. */
  function DoCompleteIo(s: State): State
    requires s.ioQueue != [] && s.semIo > 0
  {
    var x := s.ioQueue[0].id;
    var taken := s.(ioQueue := s.ioQueue[1..], semIo := s.semIo - 1);
    if Has(s.blocked, x) then WakeAndPost(taken, x) else taken
  }

  function DoRequestDump(s: State): State
    requires s.running.Some?
  {
    Block(s.(dumps := s.dumps + [s.running.value.id]))
  }

  /** Any dump thread may be the next one memory answers OK. */
  function DoCompleteDump(s: State, index: nat): State
    requires index < |s.dumps|
  {
    WakeAndPost(s, s.dumps[index]).(dumps := RemoveAt(s.dumps, index))
  }

  function DoPreempt(s: State): State
    requires s.running.Some?
  {
    MakeReady(s, s.running.value).(running := None)
  }

  function Apply(s: State, step: Step): State
    requires Enabled(s, step)
  {
    match step
    case Dispatch(policy) => DoDispatch(s, policy)
    case CreateProcess(size, priority) => DoCreateProcess(s, size, priority)
    case AdmitHead => DoAdmitHead(s)
    case ExitProcess => DoExitProcess(s)
    case SegmentationFault => DoExitProcess(s)
    case CreateThread(priority) => DoCreateThread(s, priority)
    case JoinThread(tid) => DoJoin(s, tid)
    case ExitThread => DoExitThread(s)
    case CancelThread(tid) => DoCancel(s, tid)
    case CreateMutex(name) => DoCreateMutex(s, name)
    case LockMutex(name) => DoLock(s, name)
    case UnlockMutex(name) => Unlock(s, name, s.running.value.id.tid)
    case RequestIo(time) => DoRequestIo(s, time)
    case CompleteIo => DoCompleteIo(s)
    case RequestDump => DoRequestDump(s)
    case CompleteDump(index) => DoCompleteDump(s, index)
    case Preempt => DoPreempt(s)
  }

  // The teardown loop as it is

  /** One turn for each of the first thread-count entries of the process's thread array. With more
      than one, each turn waits on the thread semaphore, which must not be zero. */
  predicate CanTearDown(s: State, tcbs: seq<Tcb>, wait: bool)
    decreases |tcbs|
  {
    tcbs == [] || ((wait ==> s.semThreads > 0) && CanTearDown(TornOnce(s, tcbs[0], wait), tcbs[1..], wait))
  }

  function TornOnce(s: State, t: Tcb, wait: bool): State {
    ReleaseFrom(s.(exited := s.exited + [t],
                   semThreads := if wait && s.semThreads > 0 then s.semThreads - 1 else s.semThreads),
                0, t.id.tid)
  }

  function TearDown(s: State, tcbs: seq<Tcb>, wait: bool): State
    decreases |tcbs|
  {
    if tcbs == [] then s else TearDown(TornOnce(s, tcbs[0], wait), tcbs[1..], wait)
  }

  /** PROCESS_EXIT with any number of threads: the entries of the array go to EXIT, and whatever is
      in READY or BLOCKED stays there. */
  function DoTeardown(s: State, tcbs: seq<Tcb>): State
    requires s.running.Some?
  {
    TearDown(s, tcbs, |tcbs| > 1).(running := None, active := s.active - {s.running.value.id.pid})
  }

  // Runs

  predicate CanRun(s: State, steps: seq<Step>)
    decreases |steps|
  {
    steps == [] || (Enabled(s, steps[0]) && CanRun(Apply(s, steps[0]), steps[1..]))
  }

  function Run(s: State, steps: seq<Step>): State
    requires CanRun(s, steps)
    decreases |steps|
  {
    if steps == [] then s else Run(Apply(s, steps[0]), steps[1..])
  }
}
