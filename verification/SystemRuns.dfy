/** The kernel inside the whole system: every run of the system is a run of the kernel, whose steps are
    those the actions ask for with admissions in between. */
module SystemRuns {
  import opened Words
  import opened Cpu
  import opened KernelInvariant
  import opened KernelRuns
  import opened KernelEffects
  import opened Admission
  import opened WholeSystem
  import K = KernelState
  import M = Memory

  /** The kernel step an action asks for, if any. */
  function Causes(program: Scripts, s: System, a: Action): seq<K.Step> {
    match a
    case Execute =>
      if s.k.running.None? then []
      else
        (match Cycle(program(s.k.running.value.id), s.cpu, s.bytes)
         case Trap(_, _, call) => [call]
         case SegFault(_, _) => [K.SegmentationFault]
         case _ => [])
    case Interrupt => [K.Preempt]
    case Schedule(policy) => [K.Dispatch(policy)]
    case IoDone => [K.CompleteIo]
    case DumpDone(i) => [K.CompleteDump(i)]
  }

  function CausedIn(program: Scripts, s: System, actions: seq<Action>): seq<K.Step>
    decreases |actions|
  {
    if actions == [] then []
    else
      Causes(program, s, actions[0])
      + match Act(program, s, actions[0])
        case None => []
        case Some(t) => CausedIn(program, t, actions[1..])
  }

  /** The steps that are not admissions. */
  function Prompted(steps: seq<K.Step>): seq<K.Step> {
    if steps == [] then [] else (if steps[0].AdmitHead? then [] else [steps[0]]) + Prompted(steps[1..])
  }

  lemma {:induction false} PromptedAppend(a: seq<K.Step>, b: seq<K.Step>)
    ensures Prompted(a + b) == Prompted(a) + Prompted(b)
  {
    if a == [] {
      assert a + b == b;
    } else {
      assert (a + b)[1..] == a[1..] + b;
      PromptedAppend(a[1..], b);
    }
  }

  lemma {:induction false} AdmissionsUnprompted(n: nat)
    ensures Prompted(Admissions(n)) == []
  {
    if n > 0 {
      AdmissionsUnprompted(n - 1);
      assert Admissions(n)[1..] == Admissions(n - 1);
    }
  }

  lemma {:induction false} RunsAppend(k: K.State, a: seq<K.Step>, b: seq<K.Step>)
    requires K.CanRun(k, a) && K.CanRun(K.Run(k, a), b)
    ensures K.CanRun(k, a + b) && K.Run(k, a + b) == K.Run(K.Run(k, a), b)
    decreases |a|
  {
    hide K.Enabled, K.Apply;
    if a == [] {
      assert a + b == b;
    } else {
      assert (a + b)[1..] == a[1..] + b;
      RunsAppend(K.Apply(k, a[0]), a[1..], b);
    }
  }

  /** One step, and then what the admission loop does. */
  lemma {:induction false} StepThenLoop(k: K.State, step: K.Step, m: M.State) returns (steps: seq<K.Step>)
    requires Inv(k) && K.Enabled(k, step) && !step.AdmitHead?
    ensures K.CanRun(k, steps) && K.Run(k, steps) == Admit(Hosts(K.Apply(k, step), m)).k && Prompted(steps) == [step]
  {
    hide Inv, K.Enabled, K.Apply, Admit, Admitted, M.TryCreate;
    var h := Hosts(K.Apply(k, step), m);
    StepKeeps(k, step);
    LoopAdmitsAPrefix(h);
    AdmissionsUnprompted(Admitted(h));
    steps := [step] + Admissions(Admitted(h));
    RunCons(k, step, h.k, Admissions(Admitted(h)));
    assert steps[1..] == Admissions(Admitted(h));
  }

  lemma {:induction false} OneStep(k: K.State, step: K.Step)
    requires K.Enabled(k, step) && !step.AdmitHead?
    ensures K.CanRun(k, [step]) && K.Run(k, [step]) == K.Apply(k, step) && Prompted([step]) == [step]
  {
    hide K.Enabled, K.Apply;
    assert [step][1..] == [];
  }

  lemma {:induction false} ServedSteps(m: M.State, k: K.State, call: K.Step) returns (steps: seq<K.Step>)
    requires Inv(k) && k.running.Some? && K.Enabled(k, call) && !call.AdmitHead? && Served(m, k, call).Some?
    ensures K.CanRun(k, steps) && K.Run(k, steps) == Served(m, k, call).value.k && Prompted(steps) == [call]
  {
    hide Inv, K.Enabled, K.Apply, Admit, M.RemoveThread, M.Delete, M.AddThread;
    var x := k.running.value.id;
    if call.CreateProcess? {
      steps := StepThenLoop(k, call, m);
    } else if call.ExitProcess? {
      steps := StepThenLoop(k, call, M.Delete(M.RemoveThread(m, x.pid, x.tid), x.pid));
    } else {
      OneStep(k, call);
      steps := [call];
    }
  }

  lemma PreemptIs(k: K.State)
    ensures k.running.Some? ==> K.Enabled(k, K.Preempt) && K.Apply(k, K.Preempt) == K.DoPreempt(k)
  {
  }

  /** An action that the system can take is what it asks of the kernel, and admissions after it. */
  lemma {:induction false} ActionSteps(program: Scripts, s: System, a: Action) returns (steps: seq<K.Step>)
    requires Inv(s.k) && Act(program, s, a).Some?
    ensures K.CanRun(s.k, steps) && K.Run(s.k, steps) == Act(program, s, a).value.k
    ensures Prompted(steps) == Causes(program, s, a)
  {
    hide Inv, K.Enabled, K.Apply, Cycle, Served, M.Save, M.Load;
    var step := Causes(program, s, a);
    if step == [] {
      steps := [];
    } else if a.Execute? {
      var x := s.k.running.value.id;
      var o := Cycle(program(x), s.cpu, s.bytes);
      var m := M.Save(s.m, x.pid, x.tid, o.context);
      steps := ServedSteps(m, s.k, step[0]);
    } else {
      PreemptIs(s.k);
      OneStep(s.k, step[0]);
      steps := step;
    }
  }

  /** Every run of the system from a state in order is a run of the kernel: the steps its actions ask
      for, in their order, and admissions. What holds over all runs of the kernel holds here. */
  lemma {:induction false} RunSteps(program: Scripts, s: System, actions: seq<Action>) returns (steps: seq<K.Step>)
    requires Inv(s.k) && ActAll(program, s, actions).Some?
    ensures K.CanRun(s.k, steps) && K.Run(s.k, steps) == ActAll(program, s, actions).value.k
    ensures Prompted(steps) == CausedIn(program, s, actions)
    decreases |actions|
  {
    hide Inv, Act, Causes, K.Enabled, K.Apply;
    if actions == [] {
      steps := [];
    } else {
      var t := Act(program, s, actions[0]).value;
      var first := ActionSteps(program, s, actions[0]);
      RunKeeps(s.k, first);
      var rest := RunSteps(program, t, actions[1..]);
      RunsAppend(s.k, first, rest);
      PromptedAppend(first, rest);
      steps := first + rest;
    }
  }

  /** From power-on the kernel runs from its boot state, where the first process is asked for. */
  lemma {:induction false} SystemRunsTheKernel(program: Scripts, start: Start, actions: seq<Action>)
    returns (steps: seq<K.Step>)
    requires ActAll(program, Power(start), actions).Some?
    ensures K.CanRun(K.Boot, steps) && K.Run(K.Boot, steps) == ActAll(program, Power(start), actions).value.k
    ensures Prompted(steps)
      == [K.CreateProcess(start.size, start.priority)] + CausedIn(program, Power(start), actions)
  {
    hide Inv, Admit, ActAll, CausedIn, K.CanRun, K.Run;
    BootOk();
    var create := K.CreateProcess(start.size, start.priority);
    var first := StepThenLoop(K.Boot, create, start.m);
    RunKeeps(K.Boot, first);
    var rest := RunSteps(program, Power(start), actions);
    RunsAppend(K.Boot, first, rest);
    PromptedAppend(first, rest);
    steps := first + rest;
  }

  lemma {:induction false} OnlyWritesChange(script: seq<Instr>, c: Context, bytes: seq<byte>)
    ensures var o := Cycle(script, c, bytes);
      !o.Undefined? && o.mem != bytes ==> c.regs.pc < |script| && script[c.regs.pc].WriteMem? && o.Next?
  {
    hide WriteWord, ReadWord, Get, Put, Translate;
  }

  /** The user memory changes only when the running thread executes a WRITE_MEM; no switch of threads,
      syscall, admission or end of a process touches it. */
  lemma {:induction false} OnlyInstructionsWrite(program: Scripts, s: System, a: Action)
    requires Act(program, s, a).Some? && Act(program, s, a).value.bytes != s.bytes
    ensures a.Execute? && s.k.running.Some?
    ensures var script := program(s.k.running.value.id); var pc := s.cpu.regs.pc;
      && pc < |script| && script[pc].WriteMem?
      && Act(program, s, a).value == s.(cpu := Act(program, s, a).value.cpu, bytes := Act(program, s, a).value.bytes)
  {
    hide Cycle, Served, M.Save, M.Load, K.Enabled, K.Apply;
    if a.Execute? {
      OnlyWritesChange(program(s.k.running.value.id), s.cpu, s.bytes);
    }
  }

  // When the system can go on

  /** The calls a script has instructions for. */
  predicate HasInstruction(call: K.Step) {
    || call.CreateProcess? || call.ExitProcess? || call.CreateThread? || call.JoinThread? || call.CancelThread?
    || call.ExitThread? || call.CreateMutex? || call.LockMutex? || call.UnlockMutex? || call.RequestIo?
    || call.RequestDump?
  }

  /** Said from the kernel's side alone: nothing depends on what memory answers. */
  ghost predicate CanHappen(program: Scripts, s: System, a: Action) {
    match a
    case Execute => s.k.running.Some? &&
      (match Cycle(program(s.k.running.value.id), s.cpu, s.bytes)
       case Next(_, _) => true
       case Trap(_, _, call) => HasInstruction(call) && Covered(s.k, call)
       case SegFault(_, _) => Covered(s.k, K.SegmentationFault)
       case Undefined => false)
    case Interrupt => s.k.running.Some?
    case Schedule(policy) => Covered(s.k, K.Dispatch(policy))
    case IoDone => Covered(s.k, K.CompleteIo)
    case DumpDone(i) => Covered(s.k, K.CompleteDump(i))
  }

  lemma ServesIff(v: Threads, call: K.Step)
    requires Inv(v.k) && v.k.running.Some?
    ensures ServeThreads(v, call).Some? <==> Covered(v.k, call)
  {
    hide Inv, Covered, K.Enabled, K.Apply, M.Delete, AdmitThreads;
    CoveredIff(v.k, call);
  }

  lemma {:induction false} ExecutesIff(program: Scripts, s: System, v: Threads, sizes: seq<nat>)
    requires Agree(s, v, sizes)
    ensures ActThreads(program, v, Execute).Some? <==> CanHappen(program, s, Execute)
  {
    hide Inv, Agree, Cycle, ServeThreads, M.Lookup, Covered;
    AgreeOnKernel(s, v, sizes);
    if s.k.running.Some? {
      var x := s.k.running.value.id;
      ExecutedAgrees(s, v, sizes, s.cpu, s.bytes);
      var o := Cycle(program(x), s.cpu, s.bytes);
      if !o.Undefined? {
        var w := v.(regs := v.regs[x := o.context.regs], bytes := o.mem);
        if o.Trap? {
          ServesIff(w, o.call);
        } else if o.SegFault? {
          ServesIff(w, K.SegmentationFault);
        }
      }
    }
  }

  /** In every state that a run from power-on reaches, an action can be taken exactly when the kernel
      and the next instruction allow it: memory never misses a context or refuses a new thread. */
  lemma {:induction false} HappensIff(program: Scripts, start: Start, sizes: seq<nat>, actions: seq<Action>, a: Action)
    requires Sensible(start, sizes) && ActAll(program, Power(start), actions).Some?
    ensures var s := ActAll(program, Power(start), actions).value;
      Act(program, s, a).Some? <==> CanHappen(program, s, a)
  {
    hide Sensible, Power, PowerThreads, ActAll, ActAllThreads, Agree, K.Enabled, K.Apply, Covered, Inv, Cycle, Act,
      M.Lookup, ServeThreads;
    ReachedAgrees(program, start, sizes, actions);
    var s := ActAll(program, Power(start), actions).value;
    var v := ActAllThreads(program, PowerThreads(start), actions).value;
    AgreeOnKernel(s, v, sizes);
    ActAgrees(program, s, v, sizes, a);
    match a
    case Execute => ExecutesIff(program, s, v, sizes);
    case Interrupt =>
    case Schedule(policy) => CoveredIff(s.k, K.Dispatch(policy));
    case IoDone => CoveredIff(s.k, K.CompleteIo);
    case DumpDone(i) => CoveredIff(s.k, K.CompleteDump(i));
  }
}
