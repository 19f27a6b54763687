/** What the invariants mean for processes: why each one waits, who reaps it,
    and exactly when exit goes wrong. */
module ProcessTheorems {
  import opened Lists
  import opened KernelState
  import opened ProcessInvariants
  import opened KernelInvariants
  import opened ProcessProofs
  import opened FamilyProofs
  import opened SemaphoreProofs
  import opened KernelSteps

  // ----- Why a process waits -----

  /** Descriptor `d`, queued on semaphore `m`, belongs to process `a`. */
  predicate InQueue(s: State, a: Addr, m: Addr, d: Addr) {
    m in s.table.list && d in SemAt(s.table, m).waiting && DescAt(s.table, d).pcb == a
  }

  /** A process in the waiting list waits for exactly one thing, the one its last
      call names: one timer, one place in one queue, or a child. */
  lemma UniqueReason(s: State, a: Addr)
    requires Inv(s) && a in s.waiting
    ensures Occ(TimerPcbs(s.timers), a) == One(CallOf(s, a).Sleep?)
    ensures CallOf(s, a).SemWait? <==> exists m, d :: InQueue(s, a, m, d)
    ensures CallOf(s, a).Sleep? || CallOf(s, a).SemWait? || CallOf(s, a).Wait?
    ensures forall m, d, n, e :: InQueue(s, a, m, d) && InQueue(s, a, n, e) ==>
              m == n && d == e && Occ(SemAt(s.table, m).waiting, d) == 1
  {
    assert Occ(TimerPcbs(s.timers), a) == One(Asleep(s, a));
    if CallOf(s, a).SemWait? {
      var d := BlockedSomewhere(s, a);
      assert InQueue(s, a, DescAt(s.table, d).sem, d);
    }
    forall m, d, n, e | InQueue(s, a, m, d) && InQueue(s, a, n, e)
      ensures m == n && d == e && Occ(SemAt(s.table, m).waiting, d) == 1
    {
      QueuedOnce(s, a, m, d, n, e);
    }
    if m, d :| InQueue(s, a, m, d) {
      assert Queued(s, d);
    }
  }

  lemma BlockedSomewhere(s: State, a: Addr) returns (d: Addr)
    requires SemaphoresOk(s) && a in s.waiting && CallOf(s, a).SemWait?
    ensures DescAt(s.table, d).sem in s.table.list && DescAt(s.table, d).pcb == a
    ensures d in SemAt(s.table, DescAt(s.table, d).sem).waiting
  {
    var fd := CallOf(s, a).fd;
    assert InSemWait(s, a);
    ByFdFinds(s.table, Held(s, a), fd);
    d := ByFd(s.table, Held(s, a), fd).value;
    assert IsLive(s, a) && OwnedOk(s, a, d);
  }

  lemma QueuedOnce(s: State, a: Addr, m: Addr, d: Addr, n: Addr, e: Addr)
    requires SemaphoresOk(s) && InQueue(s, a, m, d) && InQueue(s, a, n, e)
    ensures m == n && d == e && Occ(SemAt(s.table, m).waiting, d) == 1
  {
    assert Queued(s, d) && Queued(s, e);
    assert d in Held(s, a) && e in Held(s, a) && IsLive(s, a);
    assert Occ(SemAt(s.table, m).waiting, d) <= 1;
    OccIn(SemAt(s.table, m).waiting, d);
  }

  /** Conversely, whatever a timer or a queue refers to is in the waiting list,
      so the detaches that wake it take it off the list it is on. */
  lemma WakersFindSleepers(s: State, a: Addr)
    requires Inv(s)
    ensures a in TimerPcbs(s.timers) ==> a in s.waiting
    ensures (exists m, d :: InQueue(s, a, m, d)) ==> a in s.waiting
  {
    assert Occ(TimerPcbs(s.timers), a) == One(Asleep(s, a));
    OccIn(TimerPcbs(s.timers), a);
    if m, d :| InQueue(s, a, m, d) {
      assert Queued(s, d);
    }
  }

  // ----- Who holds a child -----

  /** Every process but init is in exactly one children list. */
  lemma ExactlyOneHolder(s: State, c: Addr)
    requires Inv(s) && Occupied(s, c) && c != s.init
    ensures exists h :: c in Kids(s, h) && forall g :: c in Kids(s, g) ==> g == h
  {
    var h := if c in Kids(s, s.init) then s.init else ParentOf(s, c).value;
    assert c in Kids(s, h);
    forall g | c in Kids(s, g) ensures g == h {
      OnlyHolder(s, h, g, c);
    }
  }

  // ----- When exit fails -----

  /** The exiting process's parent field points to a block that looks like a
      parent waiting for it but does not hold it: the parent is gone, the process
      is init's child now, and the block was given to another process. */
  predicate Misdirected(s: State) {
    && Me(s).parent.Some? && Me(s).parent.value != s.init && s.running in Kids(s, s.init)
    && Answers(At(s.pcbs, Me(s).parent.value), Me(s).pid)
  }

  /** The block the parent field points to is blocked in a wait this death answers. */
  predicate AwaitedByParent(s: State) {
    Me(s).parent.Some? && Answers(At(s.pcbs, Me(s).parent.value), Me(s).pid)
  }

  /** Exit does not come back exactly in three situations. If the process is
      misdirected, or has nobody to report to at once and no other process is
      ready, a null pointer is dereferenced. If init exits, it is too, provided
      init has no children; with children, the source first loops for ever
      moving them to the list they are in, which the model does not tell apart. */
  lemma ExitFaults(s: State, value: int)
    requires Inv(s)
    ensures DoExit(s, value).mode == Fault <==>
              || s.running == s.init
              || Misdirected(s)
              || (!AwaitedByParent(s) && s.ready == [])
  {
    Exclusive(s, s.running);
    assert Occupied(s, s.running);
    if s.running != s.init {
      var p := Me(s).parent.value;
      AnswersUnchanged(s, value, p);
      HandOverFinds(s, value, p);
      DieRelations(s, value, s.running);
      DieList(s, value, p, s.running);
    }
  }

  /** Dying itself does not change what the parent block looks like. */
  lemma AnswersUnchanged(s: State, value: int, p: Addr)
    requires Inv(s) && CanDie(s) && Me(s).parent == Some(p)
    ensures Answers(At(Die(s, value).pcbs, p), Me(s).pid) == Answers(At(s.pcbs, p), Me(s).pid)
  {
    DieStatus(s, value, p);
    DieRelations(s, value, p);
    assert Me(s).status != Waiting;
  }

  // ----- Reaping -----

  /** The log of completed waits only grows, one entry at a time, and an exit
      value once given stays. */
  lemma LogGrows(s: State, l: Label)
    requires Inv(s)
    ensures s.delivered <= Step(s, l).delivered && |Step(s, l).delivered| <= |s.delivered| + 1
    ensures forall p :: p in s.exits ==> p in Step(s, l).exits && Step(s, l).exits[p] == s.exits[p]
  {
    match l {
      case Tick => WakeLoopLog(s.(time := s.time + 1), None);
      case Trap(call) =>
        RecordKeeps(s, call);
        CallLog(Record(s, call), call);
    }
  }

  lemma {:induction false} WakeLoopLog(s: State, prev: Option<Addr>)
    ensures WakeLoop(s, prev).delivered == s.delivered && WakeLoop(s, prev).exits == s.exits
    decreases |s.timers|
  {
    if s.timers != [] && s.timers[0].time <= s.time {
      WakeLoopLog(WakeFirst(s, prev), Some(s.timers[0].pcb));
    }
  }

  lemma CallLog(s: State, call: Call)
    requires Inv(s)
    ensures s.delivered <= Dispatch(s, call).delivered && |Dispatch(s, call).delivered| <= |s.delivered| + 1
    ensures forall p :: p in s.exits ==> p in Dispatch(s, call).exits && Dispatch(s, call).exits[p] == s.exits[p]
  {
    if call.Preempt? {
      WakeLoopLog(s, None);
    } else if call.Exit? {
      ExitLog(s, call.value);
    }
  }

  lemma ExitLog(s: State, value: int)
    requires Inv(s)
    ensures s.delivered <= DoExit(s, value).delivered && |DoExit(s, value).delivered| <= |s.delivered| + 1
    ensures forall p :: p in s.exits ==> p in DoExit(s, value).exits && DoExit(s, value).exits[p] == s.exits[p]
  {
    Exclusive(s, s.running);
    assert Occupied(s, s.running);
  }

  /** A child is reaped at most once in any run, and the value its parent gets
      is the one it exited with. */
  lemma ReapedOnce(s: State, labels: seq<Label>)
    requires Inv(s) && Run(s, labels).mode == Active
    ensures var log := Run(s, labels).delivered;
            && (forall j, k :: 0 <= j < k < |log| ==> log[j].pid != log[k].pid)
            && (forall k :: 0 <= k < |log| && log[k].value.Some? ==>
                  log[k].pid in Run(s, labels).exits && log[k].value.value == Run(s, labels).exits[log[k].pid])
  {
    RunKeeps(s, labels);
  }

  // ----- When exit is never misdirected -----

  /** Every process is still among the children of the block that its parent
      field points to. */
  ghost predicate OrphanFree(s: State) {
    forall c {:trigger Occupied(s, c)} :: Occupied(s, c) && c != s.init ==>
      ParentOf(s, c).Some? && c in Kids(s, ParentOf(s, c).value)
  }

  lemma OrphanFreeExits(s: State)
    requires Inv(s) && OrphanFree(s)
    ensures !Misdirected(s)
  {
    Exclusive(s, s.running);
    assert Occupied(s, s.running);
    if Misdirected(s) {
      OnlyHolder(s, s.init, Me(s).parent.value, s.running);
    }
  }

  /** The calls that concern the family are fork, spawn, exit and wait. */
  lemma QuietCall(s: State, call: Call)
    requires !call.Fork? && !call.Spawn? && !call.Exit? && !call.Wait? && !call.Preempt?
    ensures Quiet(s, Dispatch(s, call))
  {
    match call {
      case NoCall =>
      case Sleep(cycles) => QuietSleep(s, cycles);
      case SemOpen(semnum, value) => QuietSemOpen(s, semnum, value);
      case SemClose(fd) => QuietSemClose(s, fd);
      case SemWait(fd) => QuietSemWait(s, fd);
      case SemPost(fd) => QuietSemPost(s, fd);
    }
  }

  lemma QuietSleep(s: State, cycles: int)
    ensures Quiet(s, DoSleep(s, cycles))
  {
  }

  lemma QuietSemOpen(s: State, semnum: int, value: int)
    ensures Quiet(s, DoSemOpen(s, semnum, value))
  {
  }

  lemma QuietSemClose(s: State, fd: int)
    ensures Quiet(s, DoSemClose(s, fd))
  {
  }

  lemma QuietSemWait(s: State, fd: int)
    ensures Quiet(s, DoSemWait(s, fd))
  {
  }

  lemma QuietSemPost(s: State, fd: int)
    ensures Quiet(s, DoSemPost(s, fd))
  {
  }

  lemma {:induction false} QuietWakeLoop(s: State, prev: Option<Addr>)
    ensures Quiet(s, WakeLoop(s, prev))
    decreases |s.timers|
  {
    if s.timers != [] && s.timers[0].time <= s.time {
      QuietWakeLoop(WakeFirst(s, prev), Some(s.timers[0].pcb));
    }
  }

  lemma QuietSchedule(s: State)
    ensures Quiet(s, Schedule(s))
  {
    QuietWakeLoop(s, None);
  }

  lemma QuietOrphans(s: State, s': State)
    requires Quiet(s, s')
    ensures OrphanFree(s') <==> OrphanFree(s)
  {
    QuietRelations(s, s');
    assert forall c: Addr :: Occupied(s', c) == Occupied(s, c);
  }

  lemma SpawnOrphans(s: State)
    requires Inv(s) && CanSpawn(s) && OrphanFree(s)
    ensures OrphanFree(DoSpawn(s))
  {
    var s' := DoSpawn(s);
    SpawnRelations(s, s.running);
    forall c | Occupied(s', c) && c != s.init
      ensures ParentOf(s', c).Some? && c in Kids(s', ParentOf(s', c).value)
    {
      SpawnRelations(s, c);
      if c != s.freePcbs[0] {
        assert Occupied(s, c);
        SpawnRelations(s, ParentOf(s, c).value);
      }
    }
  }

  lemma RemovedOrphans(s: State, s': State, h: Addr, c: Addr)
    requires KidsOk(s) && OneHolder(s) && InitOk(s) && Removed(s, s', h, c) && OrphanFree(s)
    ensures OrphanFree(s')
  {
    forall b | Occupied(s', b) && b != s.init
      ensures ParentOf(s', b).Some? && b in Kids(s', ParentOf(s', b).value)
    {
      assert Occupied(s, b);
      RemovedList(s, s', h, c, ParentOf(s, b).value, b);
    }
  }

  lemma WaitOrphans(s: State, pid: int, result: int)
    requires Inv(s) && OrphanFree(s) && DoWait(s, pid, result).mode == Active
    ensures OrphanFree(DoWait(s, pid, result))
  {
    var kids := Kids(s, s.running);
    if kids != [] && At(s.pcbs, Awaited(s.pcbs, kids, pid)).status == Zombie {
      var kid := Awaited(s.pcbs, kids, pid);
      AwaitedChild(s.pcbs, kids, pid);
      Exclusive(s, s.running);
      WaitingIffListed(s, kid);
      assert Occupied(s, kid);
      ReapRemoves(s, kid, result);
      RemovedOrphans(s, Reap(s, kid, result), s.running, kid);
    } else {
      QuietOrphans(s, DoWait(s, pid, result));
    }
  }

  /** Dying makes orphans exactly of the children one has. */
  lemma DieOrphans(s: State, value: int)
    requires Inv(s) && CanDie(s) && OrphanFree(s)
    ensures OrphanFree(Die(s, value)) <==> Kids(s, s.running) == []
  {
    var s' := Die(s, value);
    if Kids(s, s.running) == [] {
      forall c | Occupied(s', c) && c != s.init
        ensures ParentOf(s', c).Some? && c in Kids(s', ParentOf(s', c).value)
      {
        DieRelations(s, value, c);
        assert Occupied(s, c);
        DieList(s, value, ParentOf(s, c).value, c);
      }
    } else {
      var c := Kids(s, s.running)[0];
      assert c in Kids(s, s.running);
      DieRelations(s, value, c);
      DieList(s, value, s.running, c);
      assert Occupied(s', c) && ParentOf(s', c) == Some(s.running);
    }
  }

  lemma ExitOrphans(s: State, value: int)
    requires Inv(s) && OrphanFree(s) && DoExit(s, value).mode == Active
    ensures OrphanFree(DoExit(s, value)) <==> Kids(s, s.running) == []
  {
    var p := Me(s).parent.value;
    RunningCanDie(s);
    DieOrphans(s, value);
    if Answers(At(Die(s, value).pcbs, p), Me(s).pid) {
      AnsweredParent(s, value, p);
      DieRelations(s, value, s.running);
      HandOverFinds(s, value, p);
      HandOverRemoves(s, value, p);
      DieKids(s, value);
      DieOneHolder(s, value);
      DieInit(s, value);
      HandOverOrphans(Die(s, value), HandOver(Die(s, value), p), p, s.running);
    } else {
      QuietOrphans(Die(s, value), StartFirst(Die(s, value)));
    }
  }

  /** The dead process itself is nobody's parent any more, in name. */
  lemma HandOverOrphans(s: State, s': State, h: Addr, c: Addr)
    requires KidsOk(s) && OneHolder(s) && InitOk(s) && Removed(s, s', h, c)
    requires Occupied(s, c) && c in Kids(s, h) && ParentOf(s, c) == Some(h)
    ensures OrphanFree(s') <==> OrphanFree(s)
  {
    if OrphanFree(s) {
      RemovedOrphans(s, s', h, c);
    }
    if OrphanFree(s') {
      forall b | Occupied(s, b) && b != s.init
        ensures ParentOf(s, b).Some? && b in Kids(s, ParentOf(s, b).value)
      {
        if b != c {
          assert Occupied(s', b);
          RemovedList(s, s', h, c, ParentOf(s, b).value, b);
        }
      }
    }
  }

  /** Orphans appear exactly when a process that still has children exits; as
      long as none does, no exit is misdirected. */
  lemma OrphansExactly(s: State, l: Label)
    requires Inv(s) && OrphanFree(s) && Step(s, l).mode == Active
    ensures OrphanFree(Step(s, l)) <==> !(l.Trap? && l.call.Exit? && Kids(s, s.running) != [])
  {
    match l {
      case Tick =>
        QuietSchedule(s.(time := s.time + 1));
        QuietOrphans(s, Step(s, l));
      case Trap(call) =>
        RecordKeeps(s, call);
        QuietOrphans(s, Record(s, call));
        Exclusive(s, s.running);
        CallOrphans(Record(s, call), call);
    }
  }

  lemma CallOrphans(s: State, call: Call)
    requires Inv(s) && OrphanFree(s) && Dispatch(s, call).mode == Active
    ensures OrphanFree(Dispatch(s, call)) <==> !(call.Exit? && Kids(s, s.running) != [])
  {
    match call {
      case Preempt => QuietSchedule(s); QuietOrphans(s, Schedule(s));
      case Fork => SpawnOrphans(s);
      case Spawn => SpawnOrphans(s);
      case Wait(pid, result) => WaitOrphans(s, pid, result);
      case Exit(value) => ExitOrphans(s, value);
      case _ => QuietCall(s, call); QuietOrphans(s, Dispatch(s, call));
    }
  }
}
