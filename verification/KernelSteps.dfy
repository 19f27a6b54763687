/** Every step of the kernel keeps all the invariants, until it halts. */
module KernelSteps {
  import opened Lists
  import opened KernelState
  import opened ProcessInvariants
  import opened KernelInvariants
  import opened ProcessProofs
  import opened FamilyProofs
  import opened SemaphoreProofs

  // ----- Who is live -----

  /** The live processes are those in neither of the other places. */
  lemma LiveIs(s: State, a: Addr)
    requires Partition(s)
    ensures IsLive(s, a) <==> Occupied(s, a) && a !in s.zombies
  {
    Exclusive(s, a);
  }

  lemma SameLive(s: State, s': State)
    requires Partition(s) && Partition(s')
    requires s'.zombies == s.zombies && s'.freePcbs == s.freePcbs && |s'.pcbs| == |s.pcbs|
    ensures forall a: Addr :: IsLive(s', a) == IsLive(s, a)
  {
    forall a: Addr ensures IsLive(s', a) == IsLive(s, a) {
      LiveIs(s, a);
      LiveIs(s', a);
    }
  }

  // ----- The running process's own fields -----

  /** Recording a call or a return value. */
  lemma LocalKeeps(s: State, call: Call, retvalue: int)
    requires Inv(s)
    ensures Inv(s.(pcbs := Put(s.pcbs, s.running, Me(s).(call := call, retvalue := retvalue))))
  {
    var s' := s.(pcbs := Put(s.pcbs, s.running, Me(s).(call := call, retvalue := retvalue)));
    Exclusive(s, s.running);
    LocalChange(s, Me(s).(call := call, retvalue := retvalue), s.table);
    HeldFrame(s, s');
    QueuesFrame(s, s');
    QuietGenealogy(s, s');
  }

  lemma RecordKeeps(s: State, call: Call)
    requires Inv(s)
    ensures Inv(Record(s, call)) && (s.running < |s.pcbs| ==> CallOf(Record(s, call), s.running) == call)
  {
    LocalKeeps(s, call, Me(s).retvalue);
    assert Me(s).(call := call) == Me(s).(call := call, retvalue := Me(s).retvalue);
  }

  lemma ReturnKeeps(s: State, value: int)
    requires Inv(s)
    ensures Inv(Return(s, value))
  {
    LocalKeeps(s, Me(s).call, value);
    assert Me(s).(retvalue := value) == Me(s).(call := Me(s).call, retvalue := value);
  }

  // ----- The scheduler -----

  lemma WakeFirstKeeps(s: State, prev: Option<Addr>)
    requires Inv(s) && s.timers != []
    ensures Inv(WakeFirst(s, prev))
  {
    var s' := WakeFirst(s, prev);
    var x := s.timers[0].pcb;
    FirstTimerAsleep(s);
    WakeFirstConserves(s, prev);
    ConservedPartition(s, s');
    WakeFirstStatus(s, prev);
    WakeFirstTimers(s, prev);
    SameLive(s, s');
    forall a: Addr ensures a in s'.waiting <==> a in s.waiting && a != x {
      Exclusive(s, x);
      OccDetach(s.waiting, x, a);
      OccIn(s'.waiting, a);
      OccIn(s.waiting, a);
    }
    WakeFirstRest(s, s', x);
  }

  /** A process that was not in semWait leaves the waiting list. */
  lemma WakeFirstRest(s: State, s': State, x: Addr)
    requires SemaphoresOk(s) && GenealogyOk(s)
    requires s'.table == s.table && Quiet(s, s') && x in s.waiting && !CallOf(s, x).SemWait?
    requires forall a: Addr :: a in s'.waiting <==> a in s.waiting && a != x
    requires forall a: Addr :: IsLive(s', a) == IsLive(s, a)
    requires forall a: Addr :: CallOf(s', a) == CallOf(s, a) && Held(s', a) == Held(s, a)
    requires forall a: Addr :: At(s'.pcbs, a).lastSemFd == At(s.pcbs, a).lastSemFd
    ensures SemaphoresOk(s') && GenealogyOk(s')
  {
    HeldFrame(s, s');
    QueuesFrame(s, s');
    QuietGenealogy(s, s');
  }

  lemma {:induction false} WakeLoopKeeps(s: State, prev: Option<Addr>)
    requires Inv(s)
    ensures Inv(WakeLoop(s, prev))
    decreases |s.timers|
  {
    if s.timers != [] && s.timers[0].time <= s.time {
      WakeFirstKeeps(s, prev);
      WakeLoopKeeps(WakeFirst(s, prev), Some(s.timers[0].pcb));
    }
  }

  /** Steps that only move the running process on and change statuses. */
  lemma RotateRest(s: State, s': State)
    requires SemaphoresOk(s) && GenealogyOk(s)
    requires s'.table == s.table && Quiet(s, s') && s'.waiting == s.waiting
    requires forall a: Addr :: IsLive(s', a) == IsLive(s, a)
    requires forall a: Addr :: CallOf(s', a) == CallOf(s, a) && Held(s', a) == Held(s, a)
    requires forall a: Addr :: At(s'.pcbs, a).lastSemFd == At(s.pcbs, a).lastSemFd
    ensures SemaphoresOk(s') && GenealogyOk(s')
  {
    HeldFrame(s, s');
    QueuesFrame(s, s');
    QuietGenealogy(s, s');
  }

  lemma RotateKeeps(s: State)
    requires Inv(s)
    ensures Inv(Rotate(s))
  {
    var s' := Rotate(s);
    assert Partition(s') by {
      RotateConserves(s);
      ConservedPartition(s, s');
    }
    assert StatusOk(s') by { RotateStatus(s); }
    assert ReasonOk(s') && TimersOk(s') by { RotateTimers(s); }
    assert SemaphoresOk(s') && GenealogyOk(s') by {
      SameLive(s, s');
      RotateRest(s, s');
    }
  }

  lemma ScheduleKeeps(s: State)
    requires Inv(s)
    ensures Inv(Schedule(s))
  {
    WakeLoopKeeps(s, None);
    RotateKeeps(WakeLoop(s, None));
  }

  /** The clock alone moves on. */
  lemma TimeAside(s: State)
    requires Inv(s)
    ensures Inv(s.(time := s.time + 1))
  {
    var s1 := s.(time := s.time + 1);
    assert ProcessesOk(s1) by {
      ConservedPartition(s, s1);
      TimersFrame(s, s1);
    }
    RotateRest(s, s1);
  }

  lemma TickKeeps(s: State)
    requires Inv(s)
    ensures Inv(Step(s, Tick))
  {
    TimeAside(s);
    ScheduleKeeps(s.(time := s.time + 1));
    assert Step(s, Tick) == Schedule(s.(time := s.time + 1));
  }

  lemma SleepKeeps(s: State, cycles: int)
    requires Inv(s) && Me(s).call == Sleep(cycles)
    ensures DoSleep(s, cycles).mode == Active ==> Inv(DoSleep(s, cycles))
  {
    if s.freeTimers == 0 {
      ReturnKeeps(s, ESLEEP);
    } else if s.ready != [] {
      var s' := DoSleep(s, cycles);
      Exclusive(s, s.running);
      assert Partition(s') && StatusOk(s') by {
        SwitchConserves(s);
        ConservedPartition(s, RunFirst(Suspend(s)));
        SwitchStatus(s);
        SwitchedLists(RunFirst(Suspend(s)), s');
      }
      assert ReasonOk(s') && TimersOk(s') by { SleepTimers(s, cycles); }
      assert SemaphoresOk(s') && GenealogyOk(s') by {
        SameLive(s, s');
        SleepRest(s, s');
      }
    }
  }

  lemma SwitchedLists(s1: State, s': State)
    requires Partition(s1) && StatusOk(s1)
    requires s'.running == s1.running && s'.ready == s1.ready && s'.waiting == s1.waiting
    requires s'.zombies == s1.zombies && s'.freePcbs == s1.freePcbs && s'.pcbs == s1.pcbs
    ensures Partition(s') && StatusOk(s')
  {
    forall a: Addr ensures Places(s', a) == One(a < |s'.pcbs|) {
      assert Places(s1, a) == One(a < |s1.pcbs|);
    }
  }

  /** A process starts to wait for something that is no semaphore and no child. */
  lemma SleepRest(s: State, s': State)
    requires SemaphoresOk(s) && GenealogyOk(s) && s.running !in s.waiting
    requires s'.table == s.table && Quiet(s, s') && s'.waiting == s.waiting + [s.running] && Me(s).call.Sleep?
    requires forall a: Addr :: IsLive(s', a) == IsLive(s, a)
    requires forall a: Addr :: CallOf(s', a) == CallOf(s, a) && Held(s', a) == Held(s, a)
    requires forall a: Addr :: At(s'.pcbs, a).lastSemFd == At(s.pcbs, a).lastSemFd
    ensures SemaphoresOk(s') && GenealogyOk(s')
  {
    HeldFrame(s, s');
    QueuesFrame(s, s');
    QuietGenealogy(s, s');
  }

  // ----- Spawn, exit, wait -----

  lemma SpawnKeeps(s: State)
    requires Inv(s)
    ensures DoSpawn(s).mode == Active ==> Inv(DoSpawn(s))
  {
    if CanSpawn(s) {
      var s' := DoSpawn(s);
      SpawnConserves(s);
      ConservedPartition(s, s');
      SpawnStatus(s);
      SpawnTimers(s);
      assert Occupied(s, s.init);
      SpawnGenealogy(s);
      SpawnSemaphores(s);
    }
  }

  lemma SpawnSemaphores(s: State)
    requires Partition(s) && CanSpawn(s) && SemaphoresOk(s)
    ensures SemaphoresOk(DoSpawn(s))
  {
    var s' := DoSpawn(s);
    Exclusives(s);
    assert s.freePcbs[0] in s.freePcbs;
    HeldFrame(s, s');
    QueuesFrame(s, s');
  }

  /** The running process is live, so it can die; init has no parent. */
  lemma RunningCanDie(s: State)
    requires Inv(s) && Me(s).parent.Some?
    ensures CanDie(s) && ParentOf(s, s.running) == Me(s).parent
  {
    Exclusive(s, s.running);
  }

  lemma StartFirstKeeps(s: State, value: int)
    requires Inv(s) && Me(s).parent.Some? && s.ready != []
    requires !Answers(At(Die(s, value).pcbs, Me(s).parent.value), Me(s).pid)
    ensures Inv(StartFirst(Die(s, value)))
  {
    var s' := StartFirst(Die(s, value));
    RunningCanDie(s);
    StartFirstConserves(s, value);
    ConservedPartition(s, s');
    StartFirstStatus(s, value);
    StartFirstTimers(s, value);
    StartFirstGenealogy(s, value);
    StartFirstSemaphores(s, value);
  }

  lemma StartFirstSemaphores(s: State, value: int)
    requires Partition(s) && SemaphoresOk(s) && CanDie(s) && s.ready != []
    ensures SemaphoresOk(StartFirst(Die(s, value)))
  {
    var s' := StartFirst(Die(s, value));
    Exclusives(s);
    TailSubset(s.ready);
    assert s.ready[0] in s.ready;
    HeldFrame(s, s');
    QueuesFrame(s, s');
  }

  /** A parent that the death answers is blocked in wait. */
  lemma AnsweredParent(s: State, value: int, p: Addr)
    requires Partition(s) && StatusOk(s) && CanDie(s)
    requires Answers(At(Die(s, value).pcbs, p), Me(s).pid)
    ensures p in s.waiting && CallOf(s, p).Wait? && p != s.running && p < |s.pcbs|
  {
    DieStatus(s, value, p);
    DieRelations(s, value, p);
    WaitingIffListed(s, p);
    Exclusive(s, p);
  }

  lemma HandOverKeeps(s: State, value: int)
    requires Inv(s) && Me(s).parent.Some?
    requires Answers(At(Die(s, value).pcbs, Me(s).parent.value), Me(s).pid)
    requires s.running in Kids(Die(s, value), Me(s).parent.value)
    ensures Inv(HandOver(Die(s, value), Me(s).parent.value))
  {
    var p := Me(s).parent.value;
    var s' := HandOver(Die(s, value), p);
    RunningCanDie(s);
    AnsweredParent(s, value, p);
    HandOverGenealogy(s, value, p);
    HandOverConserves(s, value, p);
    ConservedPartition(s, s');
    HandOverStatus(s, value, p);
    HandOverTimers(s, value, p);
    HandOverSemaphores(s, value, p);
  }

  lemma HandOverSemaphores(s: State, value: int, p: Addr)
    requires Partition(s) && SemaphoresOk(s) && CanDie(s) && p in s.waiting && CallOf(s, p).Wait?
    requires HandOver(Die(s, value), p).mode != Fault
    ensures SemaphoresOk(HandOver(Die(s, value), p))
  {
    var s' := HandOver(Die(s, value), p);
    forall a: Addr
      ensures a in s'.waiting <==> a in s.waiting && a != p
      ensures CallOf(s', a) == CallOf(s, a)
    {
      HandOverOthers(s, value, p, a);
      Exclusive(s, p);
      OccDetach(s.waiting, p, a);
      OccIn(s'.waiting, a);
      OccIn(s.waiting, a);
    }
    HeldFrame(s, s');
    QueuesFrame(s, s');
  }

  /** Exit either keeps everything or halts: because init itself exits, because
      nobody is ready, or because the parent field no longer names the holder. */
  lemma ExitKeeps(s: State, value: int)
    requires Inv(s)
    ensures DoExit(s, value).mode == Active ==> Inv(DoExit(s, value))
  {
    if Me(s).parent.Some? {
      var p := Me(s).parent.value;
      RunningCanDie(s);
      if Answers(At(Die(s, value).pcbs, p), Me(s).pid) {
        DieRelations(s, value, s.running);
        HandOverFinds(s, value, p);
        if s.running in Kids(Die(s, value), p) {
          HandOverKeeps(s, value);
        }
      } else if s.ready != [] {
        StartFirstKeeps(s, value);
      }
    }
  }

  lemma ReapKeeps(s: State, kid: Addr, result: int)
    requires Inv(s) && kid in Kids(s, s.running) && At(s.pcbs, kid).status == Zombie
    ensures Inv(Reap(s, kid, result))
  {
    var s' := Reap(s, kid, result);
    assert kid in s.zombies && s.running < |s.pcbs| && Occ(s.zombies, kid) == 1 by {
      Exclusive(s, s.running);
      WaitingIffListed(s, kid);
      assert Occupied(s, kid);
      Exclusive(s, kid);
    }
    assert ProcessesOk(s') by { ReapProcesses(s, kid, result); }
    assert GenealogyOk(s') by {
      ReapRemoves(s, kid, result);
      RemovedGenealogy(s, s', s.running, kid);
    }
    assert SemaphoresOk(s') by { ReapSemaphores(s, kid, result); }
  }

  lemma ReapSemaphores(s: State, kid: Addr, result: int)
    requires SemaphoresOk(s)
    ensures SemaphoresOk(Reap(s, kid, result))
  {
    HeldFrame(s, Reap(s, kid, result));
    QueuesFrame(s, Reap(s, kid, result));
  }

  lemma ReapProcesses(s: State, kid: Addr, result: int)
    requires ProcessesOk(s) && kid in s.zombies
    ensures ProcessesOk(Reap(s, kid, result))
  {
    ReapConserves(s, kid, result);
    ConservedPartition(s, Reap(s, kid, result));
    ReapStatus(s, kid, result);
    ReapTimers(s, kid, result);
  }

  lemma SwitchProcesses(s: State)
    requires ProcessesOk(s) && s.ready != [] && (Me(s).call.SemWait? || Me(s).call.Wait?)
    ensures ProcessesOk(RunFirst(Suspend(s)))
  {
    Exclusive(s, s.running);
    SwitchConserves(s);
    ConservedPartition(s, RunFirst(Suspend(s)));
    SwitchStatus(s);
    SwitchTimers(s);
  }

  lemma WaitBlockKeeps(s: State, pid: int, result: int)
    requires Inv(s) && Me(s).call == Wait(pid, result)
    requires Kids(s, s.running) != [] && s.ready != []
    requires At(s.pcbs, Awaited(s.pcbs, Kids(s, s.running), pid)).status != Zombie
    ensures Inv(RunFirst(Suspend(s)))
  {
    var s' := RunFirst(Suspend(s));
    assert ProcessesOk(s') by { SwitchProcesses(s); }
    assert GenealogyOk(s') by { BlockGenealogy(s, pid, result); }
    assert SemaphoresOk(s') by { WaitBlockSemaphores(s); }
  }

  lemma WaitBlockSemaphores(s: State)
    requires Partition(s) && SemaphoresOk(s) && Me(s).call.Wait? && s.ready != []
    ensures SemaphoresOk(RunFirst(Suspend(s)))
  {
    var s' := RunFirst(Suspend(s));
    Exclusive(s, s.running);
    assert Partition(s') by {
      SwitchConserves(s);
      ConservedPartition(s, s');
    }
    SameLive(s, s');
    HeldFrame(s, s');
    QueuesFrame(s, s');
  }

  lemma WaitKeeps(s: State, pid: int, result: int)
    requires Inv(s) && Me(s).call == Wait(pid, result)
    ensures DoWait(s, pid, result).mode == Active ==> Inv(DoWait(s, pid, result))
  {
    var kids := Kids(s, s.running);
    if kids == [] {
      ReturnKeeps(s, EWAIT);
    } else {
      var kid := Awaited(s.pcbs, kids, pid);
      AwaitedChild(s.pcbs, kids, pid);
      if At(s.pcbs, kid).status == Zombie {
        ReapKeeps(s, kid, result);
      } else if s.ready != [] {
        WaitBlockKeeps(s, pid, result);
      }
    }
  }

  // ----- Semaphores -----

  /** A counter and the running process's return value change. */
  lemma CountKeeps(s: State, t: SemTable, retvalue: int)
    requires Inv(s) && SameLists(s.table, t)
    ensures Inv(Return(s.(table := t), retvalue))
  {
    var s' := Return(s.(table := t), retvalue);
    assert ProcessesOk(s') by { LocalChange(s, Me(s).(retvalue := retvalue), t); }
    assert SemaphoresOk(s') by {
      SameListsTable(s.table, t);
      SameListsHeld(s, s');
      SameListsQueues(s, s');
    }
    assert GenealogyOk(s') by { QuietGenealogy(s, s'); }
  }

  /** The running process can block on the descriptor it has named. */
  lemma NamedCanBlock(s: State, fd: int) returns (d: Addr)
    requires Partition(s) && SemaphoresOk(s) && Me(s).call == SemWait(fd)
    requires ByFd(s.table, Held(s, s.running), fd).Some?
    ensures ByFd(s.table, Held(s, s.running), fd) == Some(d)
    ensures CanBlock(s, d) && d in SemAt(s.table, DescAt(s.table, d).sem).descriptors
  {
    d := NamedDescriptor(s, fd);
    Exclusive(s, s.running);
  }

  lemma SemBlockKeeps(s: State, d: Addr)
    requires Inv(s) && Me(s).call.SemWait? && s.ready != []
    requires CanBlock(s, d) && d in SemAt(s.table, DescAt(s.table, d).sem).descriptors
    ensures Inv(RunFirst(Suspend(s.(table := Enqueued(s.table, d)))))
  {
    var s' := RunFirst(Suspend(s.(table := Enqueued(s.table, d))));
    assert ProcessesOk(s') by {
      SwitchProcesses(s);
      TableAside(RunFirst(Suspend(s)), s'.table);
    }
    assert SemaphoresOk(s') by {
      SameLive(s, s');
      EnqueuedTable(s.table, d);
      BlockedHeld(s, s', d);
      BlockedQueues(s, s', d);
    }
    assert GenealogyOk(s') by { QuietGenealogy(s, s'); }
  }

  /** The processes do not depend on the semaphores. */
  lemma TableAside(s: State, t: SemTable)
    requires ProcessesOk(s)
    ensures ProcessesOk(s.(table := t))
  {
    assert At(s.pcbs, s.running) == Me(s);
    LocalChange(s, Me(s), t);
    assert Put(s.pcbs, s.running, Me(s)) == s.pcbs;
  }

  lemma BlockReturnKeeps(s: State, d: Addr)
    requires Inv(s) && Me(s).call.SemWait? && s.ready != []
    requires CanBlock(s, d) && d in SemAt(s.table, DescAt(s.table, d).sem).descriptors
    ensures Inv(Return(RunFirst(Suspend(s.(table := Enqueued(s.table, d)))), 0))
  {
    SemBlockKeeps(s, d);
    ReturnKeeps(RunFirst(Suspend(s.(table := Enqueued(s.table, d)))), 0);
  }

  function Taken(sem: Semaphore): Semaphore { sem.(count := sem.count - 1) }

  lemma WaitOnIs(s: State, d: Addr)
    ensures var m := DescAt(s.table, d).sem;
            && (SemAt(s.table, m).count > 0 ==>
                  WaitOn(s, d, m) == Return(s.(table := PutSem(s.table, m, Taken(SemAt(s.table, m)))), 0))
            && (SemAt(s.table, m).count <= 0 && s.ready != [] ==>
                  WaitOn(s, d, m) == Return(RunFirst(Suspend(s.(table := Enqueued(s.table, d)))), 0))
            && (SemAt(s.table, m).count <= 0 && s.ready == [] ==> WaitOn(s, d, m).mode == Deadlock)
  {
  }

  /** The three outcomes of a wait. */
  lemma WaitedKeeps(s: State, d: Addr, s': State)
    requires Inv(s) && Me(s).call.SemWait? && CanBlock(s, d) && d in SemAt(s.table, DescAt(s.table, d).sem).descriptors
    requires var m := DescAt(s.table, d).sem;
             && (SemAt(s.table, m).count > 0 ==>
                   s' == Return(s.(table := PutSem(s.table, m, Taken(SemAt(s.table, m)))), 0))
             && (SemAt(s.table, m).count <= 0 && s.ready != [] ==>
                   s' == Return(RunFirst(Suspend(s.(table := Enqueued(s.table, d)))), 0))
             && (SemAt(s.table, m).count <= 0 && s.ready == [] ==> s'.mode == Deadlock)
    ensures s'.mode != Active || Inv(s')
  {
    var m := DescAt(s.table, d).sem;
    if SemAt(s.table, m).count > 0 {
      RecountKeeps(s, m, SemAt(s.table, m).count - 1);
    } else if s.ready != [] {
      BlockReturnKeeps(s, d);
    }
  }

  lemma SemWaitKeeps(s: State, fd: int)
    requires Inv(s) && Me(s).call == SemWait(fd)
    ensures DoSemWait(s, fd).mode == Active ==> Inv(DoSemWait(s, fd))
  {
    if ByFd(s.table, Held(s, s.running), fd).None? {
      ReturnKeeps(s, ENOTMYSEM);
    } else {
      var d := NamedCanBlock(s, fd);
      var m := DescAt(s.table, d).sem;
      WaitOnIs(s, d);
      assert DoSemWait(s, fd) == WaitOn(s, d, m);
      WaitedKeeps(s, d, WaitOn(s, d, m));
    }
  }

  /** The head of a semaphore's queue is released. */
  function Release(s: State, m: Addr): State
    requires SemAt(s.table, m).waiting != []
  {
    var a := DescAt(s.table, SemAt(s.table, m).waiting[0]).pcb;
    Wake(s.(table := Dequeued(s.table, m)), a).(ready := s.ready + [a])
  }

  lemma ReleaseKeeps(s: State, m: Addr)
    requires Inv(s) && m in s.table.list && SemAt(s.table, m).waiting != []
    ensures Inv(Release(s, m))
  {
    var a := DescAt(s.table, SemAt(s.table, m).waiting[0]).pcb;
    var s' := Release(s, m);
    HeadWaits(s, m);
    Listed(s.table, m);
    assert ProcessesOk(s') by { ReleaseProcesses(s, a, Dequeued(s.table, m)); }
    assert SemaphoresOk(s') by {
      SameLive(s, s');
      DequeuedTable(s.table, m);
      ReleasedHeld(s, s', m);
      ReleasedQueues(s, s', m);
    }
    assert GenealogyOk(s') by {
      forall b: Addr ensures b in s'.waiting ==> b in s.waiting {
        OccDetach(s.waiting, a, b);
      }
      QuietGenealogy(s, s');
    }
  }

  lemma ReleaseProcesses(s: State, a: Addr, t: SemTable)
    requires ProcessesOk(s) && a in s.waiting && CallOf(s, a).SemWait?
    ensures ProcessesOk(Wake(s.(table := t), a).(ready := s.ready + [a]))
  {
    var s' := Wake(s, a).(ready := s.ready + [a]);
    PostConserves(s, a, s.table);
    assert s.(table := s.table) == s;
    ConservedPartition(s, s');
    WakeStatus(s, a, s.ready + [a]);
    WakeTimers(s, a, s.ready + [a]);
    TableAside(s', t);
  }

  lemma SemPostKeeps(s: State, fd: int)
    requires Inv(s)
    ensures Inv(DoSemPost(s, fd))
  {
    if ByFd(s.table, Held(s, s.running), fd).None? {
      ReturnKeeps(s, ENOTMYSEM);
    } else {
      var d := NamedDescriptor(s, fd);
      PostedKeeps(s, DescAt(s.table, d).sem);
      assert DoSemPost(s, fd) == PostOn(s, DescAt(s.table, d).sem);
    }
  }

  lemma PostedKeeps(s: State, m: Addr)
    requires Inv(s) && m in s.table.list
    ensures Inv(PostOn(s, m))
  {
    if SemAt(s.table, m).count < 0 && SemAt(s.table, m).waiting != [] {
      ReleaseKeeps(s, m);
      ReturnKeeps(Release(s, m), 0);
    } else {
      RecountKeeps(s, m, SemAt(s.table, m).count + 1);
    }
  }

  lemma RecountKeeps(s: State, m: Addr, count: int)
    requires Inv(s)
    ensures Inv(Return(s.(table := PutSem(s.table, m, SemAt(s.table, m).(count := count))), 0))
  {
    CountChange(s.table, m, count);
    CountKeeps(s, PutSem(s.table, m, SemAt(s.table, m).(count := count)), 0);
  }

  lemma SemCloseKeeps(s: State, fd: int)
    requires Inv(s)
    ensures Inv(DoSemClose(s, fd))
  {
    if ByFd(s.table, Held(s, s.running), fd).None? {
      ReturnKeeps(s, ENOTMYSEM);
    } else {
      var d := NamedDescriptor(s, fd);
      CloseKeeps(s, d);
      assert Me(s).(semDescs := Detach(Me(s).semDescs, d)).(retvalue := 0)
             == Me(s).(semDescs := Detach(Me(s).semDescs, d), retvalue := 0);
    }
  }

  lemma CloseKeeps(s: State, d: Addr)
    requires Inv(s) && d in Held(s, s.running) && OwnedOk(s, s.running, d)
    requires DescAt(s.table, d).sem < |s.table.sems| && d !in SemAt(s.table, DescAt(s.table, d).sem).waiting
    ensures Inv(s.(table := CloseDesc(s.table, d, DescAt(s.table, d).sem),
                   pcbs := Put(s.pcbs, s.running, Me(s).(semDescs := Detach(Me(s).semDescs, d), retvalue := 0))))
  {
    var me := Me(s).(semDescs := Detach(Me(s).semDescs, d), retvalue := 0);
    var t := CloseDesc(s.table, d, DescAt(s.table, d).sem);
    var s' := s.(table := t, pcbs := Put(s.pcbs, s.running, me));
    Exclusive(s, s.running);
    assert ProcessesOk(s') by { LocalChange(s, me, t); }
    assert SemaphoresOk(s') by {
      ClosedBlocks(s.table, d);
      ClosedListed(s.table, d);
      ClosedHeld(s, s', d);
      ClosedQueues(s, s', d);
    }
    assert GenealogyOk(s') by { QuietGenealogy(s, s'); }
  }

  /** The running process takes a descriptor block and may go no further. */
  lemma TakeKeeps(s: State, x: Desc, ptrs: nat, retvalue: int)
    requires Inv(s) && s.table.freeDescs != []
    ensures Inv(s.(table := AllocDesc(s.table, x).(freePtrs := ptrs),
                   pcbs := Put(s.pcbs, s.running, Me(s).(lastSemFd := Me(s).lastSemFd + 1, retvalue := retvalue))))
  {
    var me := Me(s).(lastSemFd := Me(s).lastSemFd + 1, retvalue := retvalue);
    var t := AllocDesc(s.table, x).(freePtrs := ptrs);
    var s' := s.(table := t, pcbs := Put(s.pcbs, s.running, me));
    assert ProcessesOk(s') by { LocalChange(s, me, t); }
    assert SemaphoresOk(s') by {
      AllocDescTable(s.table, x, ptrs);
      TakenHeld(s, s', x, ptrs);
      TakenQueues(s, s', x, ptrs);
    }
    assert GenealogyOk(s') by { QuietGenealogy(s, s'); }
  }

  lemma AttachKeeps(s: State, d: Addr)
    requires Inv(s) && CanAttach(s, d)
    ensures var m := DescAt(s.table, d).sem;
            Inv(s.(table := PutSem(s.table, m, SemAt(s.table, m).(descriptors := SemAt(s.table, m).descriptors + [d])),
                   pcbs := Put(s.pcbs, s.running, Me(s).(semDescs := Me(s).semDescs + [d]))))
  {
    var m := DescAt(s.table, d).sem;
    var me := Me(s).(semDescs := Me(s).semDescs + [d]);
    var t := PutSem(s.table, m, SemAt(s.table, m).(descriptors := SemAt(s.table, m).descriptors + [d]));
    var s' := s.(table := t, pcbs := Put(s.pcbs, s.running, me));
    Exclusive(s, s.running);
    assert ProcessesOk(s') by { LocalChange(s, me, t); }
    assert SemaphoresOk(s') by {
      AttachedTable(s, s', d);
      AttachedHeld(s, s', d);
      AttachedQueues(s, s', d);
    }
    assert GenealogyOk(s') by { QuietGenealogy(s, s'); }
  }

  /** The descriptor just taken can be entered in the lists. */
  lemma TakenCanAttach(s: State, m: Addr, ptrs: nat)
    requires Partition(s) && SemaphoresOk(s) && s.table.freeDescs != []
    requires m in s.table.list
    requires forall e :: e in Held(s, s.running) ==> DescAt(s.table, e).sem != m
    ensures var d := s.table.freeDescs[0];
            var s1 := s.(table := AllocDesc(s.table, Desc(s.running, m, Me(s).lastSemFd)).(freePtrs := ptrs),
                         pcbs := Put(s.pcbs, s.running, Me(s).(lastSemFd := Me(s).lastSemFd + 1,
                                                               retvalue := Me(s).lastSemFd)));
            CanAttach(s1, d) && DescAt(s1.table, d).sem == m && Held(s1, s.running) == Held(s, s.running)
  {
    var x := Desc(s.running, m, Me(s).lastSemFd);
    var d := s.table.freeDescs[0];
    var s1 := s.(table := AllocDesc(s.table, x).(freePtrs := ptrs),
                 pcbs := Put(s.pcbs, s.running, Me(s).(lastSemFd := Me(s).lastSemFd + 1, retvalue := Me(s).lastSemFd)));
    Exclusive(s, s.running);
    FreshDesc(s.table);
    Listed(s.table, m);
    assert forall n: Addr :: SemAt(s1.table, n) == SemAt(s.table, n);
    forall e | e in Held(s1, s.running)
      ensures DescAt(s1.table, e).fd < x.fd && DescAt(s1.table, e).sem != m
    {
      TakenDescs(s, s1, x, ptrs, s.running, e);
      assert OwnedOk(s, s.running, e);
    }
  }

  lemma OpenDescKeeps(s: State, m: Addr)
    requires Inv(s) && m in s.table.list
    requires forall e :: e in Held(s, s.running) ==> DescAt(s.table, e).sem != m
    ensures Inv(OpenDesc(s, m))
  {
    if s.table.freeDescs == [] {
      ReturnKeeps(s, ECREATEFD);
    } else if s.table.freePtrs < 2 {
      TakeKeeps(s, Desc(s.running, m, Me(s).lastSemFd), 0, ECREATEPTR);
      assert Me(s).(lastSemFd := Me(s).lastSemFd + 1).(retvalue := ECREATEPTR)
          == Me(s).(lastSemFd := Me(s).lastSemFd + 1, retvalue := ECREATEPTR);
    } else {
      OpenedKeeps(s, m);
    }
  }

  lemma OpenedKeeps(s: State, m: Addr)
    requires Inv(s) && m in s.table.list && s.table.freeDescs != [] && s.table.freePtrs >= 2
    requires forall e :: e in Held(s, s.running) ==> DescAt(s.table, e).sem != m
    ensures Inv(OpenDesc(s, m))
  {
    var x := Desc(s.running, m, Me(s).lastSemFd);
    var d := s.table.freeDescs[0];
    var me := Me(s).(lastSemFd := Me(s).lastSemFd + 1, retvalue := Me(s).lastSemFd);
    var s1 := s.(table := AllocDesc(s.table, x).(freePtrs := s.table.freePtrs - 2), pcbs := Put(s.pcbs, s.running, me));
    Exclusive(s, s.running);
    TakeKeeps(s, x, s.table.freePtrs - 2, Me(s).lastSemFd);
    TakenCanAttach(s, m, s.table.freePtrs - 2);
    AttachKeeps(s1, d);
    OpenDescIs(s, m);
  }

  /** A successful open takes the descriptor and then enters it in both lists. */
  lemma OpenDescIs(s: State, m: Addr)
    requires s.running < |s.pcbs| && s.table.freeDescs != [] && s.table.freePtrs >= 2
    requires s.table.freeDescs[0] < |s.table.descs|
    ensures var d := s.table.freeDescs[0];
            var x := Desc(s.running, m, Me(s).lastSemFd);
            var me := Me(s).(lastSemFd := Me(s).lastSemFd + 1, retvalue := Me(s).lastSemFd);
            var s1 := s.(table := AllocDesc(s.table, x).(freePtrs := s.table.freePtrs - 2),
                         pcbs := Put(s.pcbs, s.running, me));
            var sem := SemAt(s1.table, m);
            && DescAt(s1.table, d).sem == m
            && OpenDesc(s, m) == s1.(table := PutSem(s1.table, m, sem.(descriptors := sem.descriptors + [d])),
                                     pcbs := Put(s1.pcbs, s.running, Me(s1).(semDescs := Me(s1).semDescs + [d])))
  {
  }

  lemma SemOpenKeeps(s: State, semnum: int, value: int)
    requires Inv(s)
    ensures Inv(DoSemOpen(s, semnum, value))
  {
    var mine := BySemnum(s.table, Held(s, s.running), semnum);
    BySemnumFinds(s.table, Held(s, s.running), semnum);
    ByIdFinds(s.table, s.table.list, semnum);
    if mine.Some? {
      ReturnKeeps(s, DescAt(s.table, mine.value).fd);
    } else if ById(s.table, s.table.list, semnum).Some? {
      OpenDescKeeps(s, ById(s.table, s.table.list, semnum).value);
    } else if s.table.freeSems == [] {
      ReturnKeeps(s, ECREATESEM);
    } else {
      CreateKeeps(s, semnum, value);
    }
  }

  lemma CreateKeeps(s: State, semnum: int, value: int)
    requires Inv(s) && s.table.freeSems != []
    requires forall m :: m in s.table.list ==> SemAt(s.table, m).id != semnum
    ensures Inv(OpenDesc(s.(table := AllocSem(s.table, semnum, value)), s.table.freeSems[0]))
  {
    var m := s.table.freeSems[0];
    var s1 := s.(table := AllocSem(s.table, semnum, value));
    assert ProcessesOk(s1) by { TableAside(s, s1.table); }
    assert SemaphoresOk(s1) by {
      AllocSemBlocks(s.table, semnum, value);
      AllocSemListed(s.table, semnum, value);
      AllocSemHeld(s, semnum, value);
      AllocSemQueues(s, semnum, value);
    }
    assert GenealogyOk(s1) by { QuietGenealogy(s, s1); }
    FreshSem(s.table);
    forall e | e in Held(s1, s.running) ensures DescAt(s1.table, e).sem != m {
      assert IsLive(s, s.running) && e in Held(s, s.running) && OwnedOk(s, s.running, e);
    }
    OpenDescKeeps(s1, m);
  }

  // ----- All steps, all runs -----

  lemma DispatchKeeps(s: State, call: Call)
    requires Inv(s) && Me(s).call == call
    ensures Dispatch(s, call).mode == Active ==> Inv(Dispatch(s, call))
  {
    match call {
      case NoCall => ReturnKeeps(s, ENOTIMPLEMENTED);
      case Preempt => ScheduleKeeps(s);
      case Fork => SpawnKeeps(s);
      case Spawn => SpawnKeeps(s);
      case Wait(pid, result) => WaitKeeps(s, pid, result);
      case Exit(value) => ExitKeeps(s, value);
      case Sleep(cycles) => SleepKeeps(s, cycles);
      case SemOpen(semnum, value) => SemOpenKeeps(s, semnum, value);
      case SemClose(fd) => SemCloseKeeps(s, fd);
      case SemWait(fd) => SemWaitKeeps(s, fd);
      case SemPost(fd) => SemPostKeeps(s, fd);
    }
  }

  /** The invariants hold after every step that does not halt the system. */
  lemma StepKeeps(s: State, l: Label)
    requires Inv(s)
    ensures Step(s, l).mode == Active ==> Inv(Step(s, l))
  {
    match l {
      case Tick => TickKeeps(s);
      case Trap(call) =>
        TrapKeeps(s, call);
    }
  }

  lemma TrapKeeps(s: State, call: Call)
    requires Inv(s)
    ensures Step(s, Trap(call)).mode == Active ==> Inv(Step(s, Trap(call)))
  {
    RecordKeeps(s, call);
    Exclusive(s, s.running);
    DispatchKeeps(Record(s, call), call);
    assert Step(s, Trap(call)) == Dispatch(Record(s, call), call);
  }

  lemma RunCons(s: State, l: Label, rest: seq<Label>)
    ensures Run(s, [l] + rest) == Run(Step(s, l), rest)
  {
    assert ([l] + rest)[1..] == rest;
  }

  /** Runs of a few steps. */
  lemma RunTwo(s: State, k: Label, l: Label)
    ensures Run(s, [k]) == Step(s, k)
    ensures Run(s, [k, l]) == Step(Step(s, k), l)
  {
    assert [k] == [k] + [] && [k, l] == [k] + [l] && [l] == [l] + [];
    RunCons(s, k, []);
    RunCons(s, k, [l]);
    RunCons(Step(s, k), l, []);
  }

  lemma RunFour(s: State, k: Label, l: Label, m: Label, n: Label)
    ensures Run(s, [k, l, m]) == Step(Step(Step(s, k), l), m)
    ensures Run(s, [k, l, m, n]) == Step(Step(Step(Step(s, k), l), m), n)
  {
    RunAppend(s, [k, l], [m]);
    RunAppend(s, [k, l], [m, n]);
    RunTwo(s, k, l);
    RunTwo(Step(Step(s, k), l), m, n);
    assert [k, l, m] == [k, l] + [m] && [k, l, m, n] == [k, l] + [m, n];
  }

  lemma {:induction false} RunAppend(s: State, first: seq<Label>, rest: seq<Label>)
    ensures Run(s, first + rest) == Run(Run(s, first), rest)
    decreases |first|
  {
    if first == [] {
      assert first + rest == rest;
    } else {
      assert (first + rest)[1..] == first[1..] + rest;
      RunAppend(Step(s, first[0]), first[1..], rest);
    }
  }

  /** A halted system stays halted. */
  lemma {:induction false} HaltedRun(s: State, labels: seq<Label>)
    requires s.mode != Active
    ensures Run(s, labels) == s
    decreases |labels|
  {
    if labels != [] {
      HaltedRun(s, labels[1..]);
    }
  }

  /** Every reachable state that has not halted satisfies all the invariants. */
  lemma {:induction false} RunKeeps(s: State, labels: seq<Label>)
    requires Inv(s)
    ensures Run(s, labels).mode == Active ==> Inv(Run(s, labels))
    decreases |labels|
  {
    if labels != [] {
      StepKeeps(s, labels[0]);
      if Step(s, labels[0]).mode == Active {
        RunKeeps(Step(s, labels[0]), labels[1..]);
      } else {
        HaltedRun(Step(s, labels[0]), labels[1..]);
      }
    }
  }
}
