/** What a step leaves alone: the processes that it does not concern stay alive,
    keep their calls and the meaning of their descriptor numbers, and do not
    start to wait. */
module OtherProcesses {
  import opened Lists
  import opened KernelState
  import opened ProcessInvariants
  import opened KernelInvariants
  import opened ProcessProofs
  import opened FamilyProofs
  import opened SemaphoreProofs
  import opened KernelSteps
  import opened ProcessTheorems
  import opened SemaphoreTheorems
  import opened DescriptorTheorems
  import opened CallTheorems

  /** The semaphore on which number `fd` of process `a` acts. */
  function NumberOf(s: State, a: Addr, fd: int): Option<Addr> {
    match ByFd(s.table, Held(s, a), fd)
    case None => None
    case Some(d) => Some(DescAt(s.table, d).sem)
  }

  // ----- Alive -----

  lemma SwitchLive(s: State, a: Addr)
    requires s.ready != [] && IsLive(s, a)
    ensures IsLive(RunFirst(Suspend(s)), a)
  {
    if a in s.ready && a != s.ready[0] {
      assert s.ready == [s.ready[0]] + s.ready[1..];
    }
  }

  lemma ScheduleLive(s: State, a: Addr)
    requires Inv(s) && IsLive(s, a)
    ensures IsLive(Schedule(s), a)
  {
    ScheduleKeeps(s);
    QuietSchedule(s);
    SameLive(s, Schedule(s));
  }

  lemma PostLive(s: State, fd: int, a: Addr)
    requires Inv(s) && IsLive(s, a)
    ensures IsLive(DoSemPost(s, fd), a)
  {
    SemPostKeeps(s, fd);
    QuietSemPost(s, fd);
    SameLive(s, DoSemPost(s, fd));
  }

  lemma SpawnLive(s: State, a: Addr)
    requires IsLive(s, a)
    ensures IsLive(DoSpawn(s), a)
  {
  }

  lemma CallLive(s: State, call: Call, a: Addr)
    requires Inv(s) && IsLive(s, a) && Dispatch(s, call).mode == Active && (call.Exit? ==> a != s.running)
    ensures IsLive(Dispatch(s, call), a)
  {
    match call {
      case Preempt => ScheduleLive(s, a);
      case Fork => SpawnLive(s, a);
      case Spawn => SpawnLive(s, a);
      case Wait(pid, result) => if s.ready != [] { SwitchLive(s, a); }
      case Exit(value) => ExitLive(s, value, a);
      case Sleep(cycles) => SleepLive(s, cycles, a);
      case SemWait(fd) => WaitLive(s, fd, a);
      case SemPost(fd) => PostLive(s, fd, a);
      case _ => OwnLive(s, call, a);
    }
  }

  lemma SleepLive(s: State, cycles: int, a: Addr)
    requires IsLive(s, a) && DoSleep(s, cycles).mode == Active
    ensures IsLive(DoSleep(s, cycles), a)
  {
    if s.ready != [] {
      SwitchLive(s, a);
    }
  }

  lemma WaitLive(s: State, fd: int, a: Addr)
    requires IsLive(s, a) && DoSemWait(s, fd).mode == Active
    ensures IsLive(DoSemWait(s, fd), a)
  {
    if s.ready != [] {
      SwitchLive(s, a);
    }
  }

  lemma OwnLive(s: State, call: Call, a: Addr)
    requires IsLive(s, a) && (call.NoCall? || call.SemOpen? || call.SemClose?)
    ensures IsLive(Dispatch(s, call), a)
  {
  }

  /** A live process stays alive over every step but its own exit. */
  lemma LiveKept(s: State, l: Label, a: Addr)
    requires Inv(s) && IsLive(s, a) && Step(s, l).mode == Active
    requires l.Trap? && l.call.Exit? ==> a != s.running
    ensures IsLive(Step(s, l), a)
  {
    match l {
      case Tick =>
        TimeAside(s);
        ScheduleLive(s.(time := s.time + 1), a);
      case Trap(call) =>
        RecordKeeps(s, call);
        CallLive(Record(s, call), call, a);
    }
  }

  // ----- Waiting -----

  lemma CallWaiters(s: State, call: Call, a: Addr)
    requires Inv(s) && a != s.running && Dispatch(s, call).mode == Active
    ensures a in Dispatch(s, call).waiting ==> a in s.waiting
  {
    match call {
      case Preempt => ScheduleWakes(s, a);
      case Exit(value) => ExitWaiters(s, value, a);
      case SemPost(fd) => PostWaiters(s, fd, a);
      case _ => OtherWaiters(s, call, a);
    }
  }

  lemma ExitWaiters(s: State, value: int, a: Addr)
    requires Inv(s) && DoExit(s, value).mode == Active
    ensures a in DoExit(s, value).waiting ==> a in s.waiting
  {
    var p := Me(s).parent.value;
    if Answers(At(Die(s, value).pcbs, p), Me(s).pid) {
      RunningCanDie(s);
      AnsweredParent(s, value, p);
      OccDetach(s.waiting, p, a);
    }
  }

  lemma PostWaiters(s: State, fd: int, a: Addr)
    requires Inv(s)
    ensures a in DoSemPost(s, fd).waiting ==> a in s.waiting
  {
    if Target(s, fd).Some? {
      SemPostWaiters(s, fd, Target(s, fd).value, a);
    }
  }

  lemma SemPostWaiters(s: State, fd: int, m: Addr, a: Addr)
    requires Inv(s) && Target(s, fd) == Some(m)
    ensures a in DoSemPost(s, fd).waiting ==> a in s.waiting
  {
    var d := NamedDescriptor(s, fd);
    if SemAt(s.table, m).count < 0 && SemAt(s.table, m).waiting != [] {
      HeadWaits(s, m);
      OccDetach(s.waiting, DescAt(s.table, SemAt(s.table, m).waiting[0]).pcb, a);
    }
  }

  lemma OtherWaiters(s: State, call: Call, a: Addr)
    requires a != s.running && Dispatch(s, call).mode == Active
    requires !call.Preempt? && !call.Exit? && !call.SemPost?
    ensures a in Dispatch(s, call).waiting ==> a in s.waiting
  {
  }

  /** Nobody starts to wait but the process that made the call. */
  lemma WaitersKept(s: State, l: Label, a: Addr)
    requires Inv(s) && Step(s, l).mode == Active && a in Step(s, l).waiting
    ensures a in s.waiting || (l.Trap? && a == s.running)
  {
    match l {
      case Tick =>
        TimeAside(s);
        ScheduleWakes(s.(time := s.time + 1), a);
      case Trap(call) =>
        RecordKeeps(s, call);
        if a != s.running {
          CallWaiters(Record(s, call), call, a);
        }
    }
  }

  // ----- Calls and descriptors -----

  lemma {:induction false} WakeLoopCalls(s: State, prev: Option<Addr>, a: Addr)
    ensures CallOf(WakeLoop(s, prev), a) == CallOf(s, a)
    decreases |s.timers|
  {
    if s.timers != [] && s.timers[0].time <= s.time {
      WakeLoopCalls(WakeFirst(s, prev), Some(s.timers[0].pcb), a);
    }
  }

  lemma ScheduleCalls(s: State, a: Addr)
    ensures CallOf(Schedule(s), a) == CallOf(s, a) && Held(Schedule(s), a) == Held(s, a)
    ensures Schedule(s).table == s.table
  {
    WakeLoopCalls(s, None, a);
    WakeLoopHeld(s, None, a);
    WakeLoopTable(s, None);
  }

  /** A step records no call but the caller's. */
  lemma CallsKept(s: State, l: Label, a: Addr)
    requires s.mode == Active && Step(s, l).mode == Active
    ensures CallOf(Step(s, l), a) == if l.Trap? && a == s.running && a < |s.pcbs| then l.call else CallOf(s, a)
  {
    match l {
      case Tick => ScheduleCalls(s.(time := s.time + 1), a);
      case Trap(call) => DispatchCalls(Record(s, call), call, a);
    }
  }

  lemma DispatchCalls(s: State, call: Call, a: Addr)
    requires Dispatch(s, call).mode == Active
    ensures CallOf(Dispatch(s, call), a) == CallOf(s, a)
  {
    match call {
      case Preempt => ScheduleCalls(s, a);
      case Wait(pid, result) => WaitCalls(s, pid, result, a);
      case Exit(value) => ExitCalls(s, value, a);
      case SemWait(fd) => SemWaitCalls(s, fd, a);
      case SemPost(fd) => SemPostCalls(s, fd, a);
      case _ => OwnCalls(s, call, a);
    }
  }

  lemma WaitCalls(s: State, pid: int, result: int, a: Addr)
    ensures CallOf(DoWait(s, pid, result), a) == CallOf(s, a)
  {
  }

  lemma ExitCalls(s: State, value: int, a: Addr)
    ensures CallOf(DoExit(s, value), a) == CallOf(s, a)
  {
    DieCalls(s, value, a);
    if Me(s).parent.Some? {
      HandOverCalls(Die(s, value), Me(s).parent.value, a);
      StartCalls(Die(s, value), a);
    }
  }

  lemma DieCalls(s: State, value: int, a: Addr)
    ensures CallOf(Die(s, value), a) == CallOf(s, a)
  {
  }

  lemma HandOverCalls(s: State, p: Addr, a: Addr)
    ensures CallOf(HandOver(s, p), a) == CallOf(s, a)
  {
  }

  lemma StartCalls(s: State, a: Addr)
    ensures CallOf(StartFirst(s), a) == CallOf(s, a)
  {
  }

  lemma SemWaitCalls(s: State, fd: int, a: Addr)
    ensures CallOf(DoSemWait(s, fd), a) == CallOf(s, a)
    ensures Held(DoSemWait(s, fd), a) == Held(s, a) && DoSemWait(s, fd).table.descs == s.table.descs
  {
  }

  lemma SemPostCalls(s: State, fd: int, a: Addr)
    ensures CallOf(DoSemPost(s, fd), a) == CallOf(s, a)
    ensures Held(DoSemPost(s, fd), a) == Held(s, a) && DoSemPost(s, fd).table.descs == s.table.descs
  {
  }

  lemma OwnCalls(s: State, call: Call, a: Addr)
    requires call.NoCall? || call.Fork? || call.Spawn? || call.Sleep? || call.SemOpen? || call.SemClose?
    ensures CallOf(Dispatch(s, call), a) == CallOf(s, a)
  {
  }

  lemma NumberFrame(s: State, s': State, a: Addr, fd: int)
    requires Held(s', a) == Held(s, a)
    requires forall d :: d in Held(s, a) ==> DescAt(s'.table, d) == DescAt(s.table, d)
    ensures NumberOf(s', a, fd) == NumberOf(s, a, fd)
  {
    ByFdFrame(s.table, s'.table, Held(s, a), fd);
    ByFdFinds(s.table, Held(s, a), fd);
  }

  lemma SpawnNumbers(s: State, a: Addr)
    requires Inv(s) && IsLive(s, a)
    ensures Held(DoSpawn(s), a) == Held(s, a) && DoSpawn(s).table == s.table
  {
    Exclusive(s, a);
    if s.freePcbs != [] {
      assert s.freePcbs[0] in s.freePcbs;
    }
  }

  lemma OpenNumbers(s: State, semnum: int, value: int, a: Addr)
    requires Inv(s) && IsLive(s, a) && a != s.running
    ensures Held(DoSemOpen(s, semnum, value), a) == Held(s, a)
    ensures forall d :: d in Held(s, a) ==> DescAt(DoSemOpen(s, semnum, value).table, d) == DescAt(s.table, d)
  {
    forall d | d in Held(s, a) ensures s.table.freeDescs != [] ==> d != s.table.freeDescs[0] {
      assert OwnedOk(s, a, d);
    }
  }

  lemma CloseNumbers(s: State, fd: int, a: Addr)
    requires a != s.running
    ensures Held(DoSemClose(s, fd), a) == Held(s, a) && DoSemClose(s, fd).table.descs == s.table.descs
  {
  }

  lemma QuietNumbers(s: State, call: Call, a: Addr)
    requires call.NoCall? || call.Wait? || call.Sleep?
    ensures Held(Dispatch(s, call), a) == Held(s, a) && Dispatch(s, call).table == s.table
  {
  }

  lemma CallNumbers(s: State, call: Call, a: Addr, fd: int)
    requires Inv(s) && IsLive(s, a) && (a == s.running ==> call.SemWait? || call.SemPost?)
    ensures NumberOf(Dispatch(s, call), a, fd) == NumberOf(s, a, fd)
  {
    match call {
      case Preempt => ScheduleCalls(s, a);
      case Fork => SpawnNumbers(s, a);
      case Spawn => SpawnNumbers(s, a);
      case Exit(value) => ExitHeld(s, value, a);
      case SemOpen(semnum, value) => OpenNumbers(s, semnum, value, a);
      case SemClose(n) => CloseNumbers(s, n, a);
      case SemWait(n) => SemWaitCalls(s, n, a);
      case SemPost(n) => SemPostCalls(s, n, a);
      case _ => QuietNumbers(s, call, a);
    }
    NumberFrame(s, Dispatch(s, call), a, fd);
  }

  /** A step changes no descriptor number of another process, and neither do the
      caller's own waits and posts. */
  lemma NumbersKept(s: State, l: Label, a: Addr, fd: int)
    requires Inv(s) && IsLive(s, a) && (l.Trap? && a == s.running ==> l.call.SemWait? || l.call.SemPost?)
    ensures NumberOf(Step(s, l), a, fd) == NumberOf(s, a, fd)
  {
    match l {
      case Tick => ScheduleCalls(s.(time := s.time + 1), a);
                   NumberFrame(s, Step(s, l), a, fd);
      case Trap(call) =>
        RecordKeeps(s, call);
        NumberFrame(s, Record(s, call), a, fd);
        CallNumbers(Record(s, call), call, a, fd);
    }
  }
}
