/** Where the blocks of the process, pointer and timer pools are over a run, and
    the pointer block that every hand-over from exit to wait loses. */
module PoolAccounting {
  import opened Lists
  import opened KernelState
  import opened ProcessInvariants
  import opened KernelInvariants
  import opened ProcessProofs
  import opened FamilyProofs
  import opened SemaphoreProofs
  import opened KernelSteps
  import opened KernelBoot
  import opened NoStarvation
  import opened ProcessTheorems

  /** Processes there are: one running, the others in the three lists. */
  function Processes(s: State): nat { 1 + |s.ready| + |s.waiting| + |s.zombies| }

  /** Timer blocks are either armed or free. */
  function TimerBlocks(s: State): nat { s.freeTimers + |s.timers| }

  /** Pointer blocks that are free or link a process to its holder. */
  function PtrBlocks(s: State): nat { s.freePcbPtrs + Processes(s) - 1 }

  /** The step is an exit that reports straight to a waiting parent. */
  predicate HandsOver(s: State, l: Label) { l.Trap? && l.call.Exit? && AwaitedByParent(s) }

  /** Blocks of the process pool: a process in each that is not free. */
  function PcbBlocks(s: State): nat { Processes(s) + |s.freePcbs| }

  // ----- Scheduling -----

  lemma {:induction false} WakeLoopBlocks(s: State, prev: Option<Addr>)
    requires Inv(s)
    ensures var s' := WakeLoop(s, prev);
            && |s'.ready| + |s'.waiting| == |s.ready| + |s.waiting| && s'.zombies == s.zombies
               && s'.freePcbs == s.freePcbs
            && TimerBlocks(s') == TimerBlocks(s) && s'.freePcbPtrs == s.freePcbPtrs
    decreases |s.timers|
  {
    if s.timers != [] && s.timers[0].time <= s.time {
      var x := s.timers[0].pcb;
      FirstTimerAsleep(s);
      DetachLength(s.waiting, x);
      InsertElements(s.ready, prev, x);
      WakeFirstKeeps(s, prev);
      WakeLoopBlocks(WakeFirst(s, prev), Some(x));
    }
  }

  lemma ScheduleBlocks(s: State)
    requires Inv(s)
    ensures SameBlocks(s, Schedule(s), 0)
  {
    WakeLoopBlocks(s, None);
  }

  /** No block is created or lost but `lost` pointer blocks. */
  predicate SameBlocks(s: State, s': State, lost: nat) {
    && PcbBlocks(s') == PcbBlocks(s) && TimerBlocks(s') == TimerBlocks(s)
    && PtrBlocks(s') == PtrBlocks(s) - lost
  }

  // ----- The calls -----

  lemma ReapBlocks(s: State, kid: Addr, result: int)
    requires kid in s.zombies
    ensures SameBlocks(s, Reap(s, kid, result), 0)
  {
    DetachLength(s.zombies, kid);
  }

  lemma WaitBlocks(s: State, pid: int, result: int)
    requires Inv(s) && DoWait(s, pid, result).mode == Active
    ensures SameBlocks(s, DoWait(s, pid, result), 0)
  {
    var kids := Me(s).children;
    if kids != [] {
      var kid := Awaited(s.pcbs, kids, pid);
      AwaitedChild(s.pcbs, kids, pid);
      if At(s.pcbs, kid).status == Zombie {
        assert kid in Kids(s, s.running) && Occupied(s, kid);
        WaitingIffListed(s, kid);
        ReapBlocks(s, kid, result);
      }
    }
  }

  lemma SleepBlocks(s: State, cycles: int)
    requires DoSleep(s, cycles).mode == Active
    ensures SameBlocks(s, DoSleep(s, cycles), 0)
  {
    InsertTimerLength(s.timers, Timer(s.time + cycles, s.running));
  }

  lemma SpawnBlocks(s: State)
    requires DoSpawn(s).mode == Active
    ensures SameBlocks(s, DoSpawn(s), 0)
  {
  }

  lemma SemWaitBlocks(s: State, fd: int)
    requires DoSemWait(s, fd).mode == Active
    ensures SameBlocks(s, DoSemWait(s, fd), 0)
  {
  }

  lemma SemPostBlocks(s: State, fd: int)
    requires Inv(s)
    ensures SameBlocks(s, DoSemPost(s, fd), 0)
  {
    if ByFd(s.table, Held(s, s.running), fd).Some? {
      var d := NamedDescriptor(s, fd);
      var m := DescAt(s.table, d).sem;
      if SemAt(s.table, m).waiting != [] {
        HeadWaits(s, m);
        DetachLength(s.waiting, DescAt(s.table, SemAt(s.table, m).waiting[0]).pcb);
      }
    }
  }

  lemma HandOverBlocks(s: State, value: int, p: Addr)
    requires p in s.waiting && HandOver(Die(s, value), p).mode != Fault
    ensures SameBlocks(s, HandOver(Die(s, value), p), 1)
  {
    DropTimersShorter(s.timers, s.running);
    DetachLength(s.waiting, p);
    DetachLength(s.zombies + [s.running], s.running);
  }

  lemma StartFirstBlocks(s: State, value: int)
    requires s.ready != []
    ensures SameBlocks(s, StartFirst(Die(s, value)), 0)
  {
  }

  lemma ExitBlocks(s: State, value: int)
    requires Inv(s) && DoExit(s, value).mode == Active
    ensures SameBlocks(s, DoExit(s, value), One(AwaitedByParent(s)))
  {
    var p := Me(s).parent.value;
    RunningCanDie(s);
    AnswersUnchanged(s, value, p);
    if AwaitedByParent(s) {
      AnsweredParent(s, value, p);
      HandOverBlocks(s, value, p);
    } else {
      StartFirstBlocks(s, value);
    }
  }

  lemma OtherBlocks(s: State, call: Call)
    requires call.NoCall? || call.SemOpen? || call.SemClose?
    ensures SameBlocks(s, Dispatch(s, call), 0)
  {
  }

  lemma CallBlocks(s: State, call: Call)
    requires Inv(s) && Dispatch(s, call).mode == Active
    ensures SameBlocks(s, Dispatch(s, call), One(HandsOver(s, Trap(call))))
  {
    match call {
      case Preempt => ScheduleBlocks(s);
      case Fork => SpawnBlocks(s);
      case Spawn => SpawnBlocks(s);
      case Wait(pid, result) => WaitBlocks(s, pid, result);
      case Exit(value) => ExitBlocks(s, value);
      case Sleep(cycles) => SleepBlocks(s, cycles);
      case SemWait(fd) => SemWaitBlocks(s, fd);
      case SemPost(fd) => SemPostBlocks(s, fd);
      case _ => OtherBlocks(s, call);
    }
  }

  /** Recording the call does not change who waits for whom. */
  lemma RecordAwaited(s: State, call: Call)
    requires Inv(s)
    ensures AwaitedByParent(Record(s, call)) <==> AwaitedByParent(s)
  {
    Exclusive(s, s.running);
  }

  // ----- Over steps and runs -----

  /** No step creates or loses a block of any of the three pools, except that a
      hand-over loses one pointer block. */
  lemma StepBlocks(s: State, l: Label)
    requires Inv(s) && Step(s, l).mode == Active
    ensures SameBlocks(s, Step(s, l), One(HandsOver(s, l)))
  {
    match l {
      case Tick =>
        TimeAside(s);
        ScheduleBlocks(s.(time := s.time + 1));
      case Trap(call) =>
        RecordKeeps(s, call);
        RecordAwaited(s, call);
        CallBlocks(Record(s, call), call);
    }
  }

  /** The step creates a process. */
  predicate Births(l: Label) { l.Trap? && (l.call.Fork? || l.call.Spawn?) }

  lemma ExitFrees(s: State, value: int)
    requires DoExit(s, value).mode == Active
    ensures |DoExit(s, value).freePcbs| - |s.freePcbs| == |DoExit(s, value).delivered| - |s.delivered|
  {
  }

  lemma CallFrees(s: State, call: Call)
    requires Dispatch(s, call).mode == Active
    ensures |Dispatch(s, call).freePcbs| - |s.freePcbs|
            == |Dispatch(s, call).delivered| - |s.delivered| - One(Births(Trap(call)))
  {
    match call {
      case Preempt => QuietSchedule(s);
      case Fork =>
      case Spawn =>
      case Wait(pid, result) =>
      case Exit(value) => ExitFrees(s, value);
      case _ => QuietCall(s, call);
    }
  }

  /** The number of processes changes only by a fork or spawn, which adds one,
      and by a completed wait, which takes one away. */
  lemma Population(s: State, l: Label)
    requires Inv(s) && Step(s, l).mode == Active
    ensures Processes(Step(s, l)) == Processes(s) + One(Births(l)) - (|Step(s, l).delivered| - |s.delivered|)
  {
    StepBlocks(s, l);
    match l {
      case Tick => QuietSchedule(s.(time := s.time + 1));
      case Trap(call) => CallFrees(Record(s, call), call);
    }
  }

  function HandOvers(s: State, labels: seq<Label>): nat
    decreases |labels|
  {
    if labels == [] then 0 else One(HandsOver(s, labels[0])) + HandOvers(Step(s, labels[0]), labels[1..])
  }

  lemma {:induction false} RunBlocks(s: State, labels: seq<Label>)
    requires Inv(s) && Run(s, labels).mode == Active
    ensures SameBlocks(s, Run(s, labels), HandOvers(s, labels))
    decreases |labels|
  {
    if labels != [] {
      var s' := Step(s, labels[0]);
      if s'.mode != Active {
        HaltedRun(s', labels[1..]);
      }
      StepKeeps(s, labels[0]);
      StepBlocks(s, labels[0]);
      RunBlocks(s', labels[1..]);
    }
  }

  /** Where all the blocks are after any run from start-up: every process has a
      block of its own, every process but init has a pointer block, and the
      pointer blocks of the processes handed over are gone for good. */
  lemma PoolsAfter(procs: nat, sems: nat, descs: nat, ptrs: nat, labels: seq<Label>)
    requires procs > 0 && Run(Boot(procs, sems, descs, ptrs), labels).mode == Active
    ensures var s := Run(Boot(procs, sems, descs, ptrs), labels);
            && |s.freePcbs| == procs - Processes(s)
            && s.freePcbPtrs == procs - (Processes(s) - 1) - HandOvers(Boot(procs, sems, descs, ptrs), labels)
            && s.freeTimers == procs - |s.timers|
  {
    Reachable(procs, sems, descs, ptrs, []);
    RunBlocks(Boot(procs, sems, descs, ptrs), labels);
  }

  /** So a spawn dereferences a null pointer exactly when the processes there
      are, or the processes other than init together with all those ever handed
      over, use up the pool: in the end even with init alone. */
  lemma SpawnFaultsExactly(procs: nat, sems: nat, descs: nat, ptrs: nat, labels: seq<Label>)
    requires procs > 0 && Run(Boot(procs, sems, descs, ptrs), labels).mode == Active
    ensures var s := Run(Boot(procs, sems, descs, ptrs), labels);
            forall call :: call == Fork || call == Spawn ==>
              (Step(s, Trap(call)).mode == Fault <==>
                 Processes(s) == procs || Processes(s) - 1 + HandOvers(Boot(procs, sems, descs, ptrs), labels) == procs)
  {
    PoolsAfter(procs, sems, descs, ptrs, labels);
  }

  /** A sleep is refused for want of a timer never: there is a timer block for
      every process block, and only processes that sleep hold one. */
  lemma TimersSuffice(procs: nat, sems: nat, descs: nat, ptrs: nat, labels: seq<Label>)
    requires procs > 0 && Run(Boot(procs, sems, descs, ptrs), labels).mode == Active
    ensures Run(Boot(procs, sems, descs, ptrs), labels).freeTimers > 0
  {
    PoolsAfter(procs, sems, descs, ptrs, labels);
    Reachable(procs, sems, descs, ptrs, labels);
    TimersAreFew(Run(Boot(procs, sems, descs, ptrs), labels));
  }
}
