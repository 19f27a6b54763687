/** Descriptors and semaphores: when the two sides agree, when a semaphore is
    freed, and that closing undoes opening. */
module DescriptorTheorems {
  import opened Lists
  import opened KernelState
  import opened ProcessInvariants
  import opened KernelInvariants
  import opened ProcessProofs
  import opened FamilyProofs
  import opened SemaphoreProofs
  import opened KernelSteps
  import opened ProcessTheorems
  import opened SemaphoreTheorems

  // ----- Agreement -----

  lemma AgreementFrame(s: State, s': State)
    requires Agreement(s)
    requires forall m: Addr {:trigger SemAt(s'.table, m)} :: m in s'.table.list ==>
               m in s.table.list && SemAt(s'.table, m).descriptors == SemAt(s.table, m).descriptors
    requires s'.table.descs == s.table.descs
    requires forall a: Addr :: IsLive(s, a) && Held(s, a) != [] ==> IsLive(s', a)
    requires forall a: Addr :: IsLive(s, a) && Held(s, a) != [] ==> Held(s', a) == Held(s, a)
    ensures Agreement(s')
  {
    forall m, d | m in s'.table.list && d in SemAt(s'.table, m).descriptors
      ensures IsLive(s', DescAt(s'.table, d).pcb) && d in Held(s', DescAt(s'.table, d).pcb)
    {
      assert d in SemAt(s.table, m).descriptors;
      assert DescAt(s'.table, d) == DescAt(s.table, d);
      var a := DescAt(s.table, d).pcb;
      assert IsLive(s, a) && d in Held(s, a);
      assert Held(s', a) == Held(s, a);
    }
  }

  lemma {:induction false} WakeLoopHeld(s: State, prev: Option<Addr>, a: Addr)
    ensures Held(WakeLoop(s, prev), a) == Held(s, a)
    decreases |s.timers|
  {
    if s.timers != [] && s.timers[0].time <= s.time {
      WakeLoopHeld(WakeFirst(s, prev), Some(s.timers[0].pcb), a);
    }
  }

  lemma ScheduleAgreement(s: State)
    requires Inv(s) && Agreement(s)
    ensures Agreement(Schedule(s))
  {
    ScheduleKeeps(s);
    QuietSchedule(s);
    WakeLoopTable(s, None);
    SameLive(s, Schedule(s));
    forall a: Addr ensures Held(Schedule(s), a) == Held(s, a) {
      WakeLoopHeld(s, None, a);
    }
    AgreementFrame(s, Schedule(s));
  }

  lemma SleepAgreement(s: State, cycles: int)
    requires Inv(s) && Agreement(s) && Me(s).call == Sleep(cycles) && DoSleep(s, cycles).mode == Active
    ensures Agreement(DoSleep(s, cycles))
  {
    SleepKeeps(s, cycles);
    SameLive(s, DoSleep(s, cycles));
    AgreementFrame(s, DoSleep(s, cycles));
  }

  lemma WaitAgreement(s: State, pid: int, result: int)
    requires Inv(s) && Agreement(s) && Me(s).call == Wait(pid, result) && DoWait(s, pid, result).mode == Active
    ensures Agreement(DoWait(s, pid, result))
  {
    var s' := DoWait(s, pid, result);
    WaitKeeps(s, pid, result);
    var kids := Me(s).children;
    if kids != [] && At(s.pcbs, Awaited(s.pcbs, kids, pid)).status != Zombie {
      SameLive(s, s');
    }
    AgreementFrame(s, s');
  }

  lemma SpawnAgreement(s: State)
    requires Inv(s) && Agreement(s) && DoSpawn(s).mode == Active
    ensures Agreement(DoSpawn(s))
  {
    Exclusives(s);
    assert s.freePcbs[0] in s.freePcbs;
    AgreementFrame(s, DoSpawn(s));
  }

  lemma SemWaitAgreement(s: State, fd: int)
    requires Inv(s) && Agreement(s) && Me(s).call == SemWait(fd) && DoSemWait(s, fd).mode == Active
    ensures Agreement(DoSemWait(s, fd))
  {
    SemWaitKeeps(s, fd);
    SameLive(s, DoSemWait(s, fd));
    AgreementFrame(s, DoSemWait(s, fd));
  }

  lemma SemPostAgreement(s: State, fd: int)
    requires Inv(s) && Agreement(s)
    ensures Agreement(DoSemPost(s, fd))
  {
    var s' := DoSemPost(s, fd);
    assert Partition(s') by { SemPostKeeps(s, fd); }
    SameLive(s, s');
    AgreementFrame(s, s');
  }

  lemma CloseAgreement(s: State, fd: int)
    requires Inv(s) && Agreement(s)
    ensures Agreement(DoSemClose(s, fd))
  {
    var s' := DoSemClose(s, fd);
    if ByFd(s.table, Held(s, s.running), fd).None? {
      AgreementFrame(s, s');
    } else {
      var d := NamedDescriptor(s, fd);
      Exclusive(s, s.running);
      forall m, e | m in s'.table.list && e in SemAt(s'.table, m).descriptors
        ensures IsLive(s', DescAt(s'.table, e).pcb) && e in Held(s', DescAt(s'.table, e).pcb)
      {
        ClosedOthers(s, d, m, e);
        OccDetach(Held(s, s.running), d, e);
        OccIn(Detach(Held(s, s.running), d), e);
        OccIn(Held(s, s.running), e);
      }
    }
  }

  /** What a semaphore still lists after the close is held by its owner and is
      not the descriptor that was closed. */
  lemma ClosedOthers(s: State, d: Addr, m: Addr, e: Addr)
    requires TableOk(s.table) && Agreement(s) && OwnedOk(s, s.running, d)
    requires var t' := CloseDesc(s.table, d, DescAt(s.table, d).sem);
             m in t'.list && e in SemAt(t', m).descriptors
    ensures e != d && IsLive(s, DescAt(s.table, e).pcb) && e in Held(s, DescAt(s.table, e).pcb)
  {
    ClosedLists(s.table, d, m, e);
    assert e in SemAt(s.table, m).descriptors;
  }

  lemma OpenDescAgreement(s: State, n: Addr)
    requires TableOk(s.table) && Agreement(s) && s.running < |s.pcbs|
    ensures Agreement(OpenDesc(s, n))
  {
    var s' := OpenDesc(s, n);
    if s.table.freeDescs == [] {
      AgreementFrame(s, s');
    } else {
      FreshDesc(s.table);
      forall m, e | m in s'.table.list && e in SemAt(s'.table, m).descriptors
        ensures IsLive(s', DescAt(s'.table, e).pcb) && e in Held(s', DescAt(s'.table, e).pcb)
      {
        OpenDescLists(s, n, m, e);
      }
    }
  }

  lemma OpenDescLists(s: State, n: Addr, m: Addr, e: Addr)
    requires TableOk(s.table) && Agreement(s) && s.running < |s.pcbs| && s.table.freeDescs != []
    requires m in OpenDesc(s, n).table.list && e in SemAt(OpenDesc(s, n).table, m).descriptors
    ensures IsLive(s, DescAt(OpenDesc(s, n).table, e).pcb)
    ensures e in Held(OpenDesc(s, n), DescAt(OpenDesc(s, n).table, e).pcb)
  {
    FreshDesc(s.table);
    if e in SemAt(s.table, m).descriptors {
      assert IsLive(s, DescAt(s.table, e).pcb) && e in Held(s, DescAt(s.table, e).pcb);
    } else {
      assert e == s.table.freeDescs[0];
    }
  }

  lemma OpenAgreement(s: State, semnum: int, value: int)
    requires Inv(s) && Agreement(s)
    ensures Agreement(DoSemOpen(s, semnum, value))
  {
    Exclusive(s, s.running);
    if BySemnum(s.table, Held(s, s.running), semnum).Some? {
      AgreementFrame(s, DoSemOpen(s, semnum, value));
    } else if ById(s.table, s.table.list, semnum).Some? {
      OpenDescAgreement(s, ById(s.table, s.table.list, semnum).value);
    } else if s.table.freeSems == [] {
      AgreementFrame(s, DoSemOpen(s, semnum, value));
    } else {
      CreateAgreement(s, semnum, value);
    }
  }

  lemma CreateAgreement(s: State, semnum: int, value: int)
    requires Inv(s) && Agreement(s) && s.running < |s.pcbs| && s.table.freeSems != []
    requires ById(s.table, s.table.list, semnum).None?
    ensures Agreement(OpenDesc(s.(table := AllocSem(s.table, semnum, value)), s.table.freeSems[0]))
  {
    var s1 := s.(table := AllocSem(s.table, semnum, value));
    ByIdFinds(s.table, s.table.list, semnum);
    AllocSemBlocks(s.table, semnum, value);
    AllocSemListed(s.table, semnum, value);
    forall m, e | m in s1.table.list && e in SemAt(s1.table, m).descriptors
      ensures IsLive(s1, DescAt(s1.table, e).pcb) && e in Held(s1, DescAt(s1.table, e).pcb)
    {
      AllocSemOthers(s.table, semnum, value, m);
      assert e in SemAt(s.table, m).descriptors;
    }
    OpenDescAgreement(s1, s.table.freeSems[0]);
  }

  lemma ExitHeld(s: State, value: int, a: Addr)
    ensures Held(DoExit(s, value), a) == Held(s, a) && DoExit(s, value).table == s.table
  {
  }

  lemma StartFirstLive(s: State, value: int, a: Addr)
    requires Partition(s) && s.ready != []
    ensures IsLive(StartFirst(Die(s, value)), a) <==> IsLive(s, a) && a != s.running
  {
    Exclusive(s, s.running);
    assert a in s.ready <==> a == s.ready[0] || a in s.ready[1..];
  }

  lemma HandOverLive(s: State, value: int, p: Addr, a: Addr)
    requires Partition(s) && p in s.waiting && HandOver(Die(s, value), p).mode != Fault
    ensures IsLive(HandOver(Die(s, value), p), a) <==> IsLive(s, a) && a != s.running
  {
    Exclusive(s, s.running);
    OccDetach(s.waiting, p, a);
    OccIn(s.waiting, a);
    OccIn(Detach(s.waiting, p), a);
  }

  /** Exit takes the exiting process, and nobody else, from the live ones. */
  lemma ExitLive(s: State, value: int, a: Addr)
    requires Inv(s) && DoExit(s, value).mode == Active
    ensures IsLive(DoExit(s, value), a) <==> IsLive(s, a) && a != s.running
  {
    var p := Me(s).parent.value;
    if Answers(At(Die(s, value).pcbs, p), Me(s).pid) {
      RunningCanDie(s);
      AnsweredParent(s, value, p);
      HandOverLive(s, value, p, a);
    } else {
      StartFirstLive(s, value, a);
    }
  }

  /** Exit leaves dangling descriptors exactly if the process has not closed all
      of its own. */
  lemma ExitAgreement(s: State, value: int)
    requires Inv(s) && Agreement(s) && DoExit(s, value).mode == Active
    ensures Agreement(DoExit(s, value)) <==> Held(s, s.running) == []
  {
    var s' := DoExit(s, value);
    forall a: Addr
      ensures (IsLive(s', a) <==> IsLive(s, a) && a != s.running) && Held(s', a) == Held(s, a) && s'.table == s.table
    {
      ExitLive(s, value, a);
      ExitHeld(s, value, a);
    }
    if Held(s, s.running) == [] {
      AgreementFrame(s, s');
    } else {
      var d := Held(s, s.running)[0];
      assert d in Held(s, s.running);
      assert OwnedOk(s, s.running, d);
      assert d in SemAt(s'.table, DescAt(s.table, d).sem).descriptors;
    }
  }

  /** Processes and semaphores keep agreeing on who has opened what, over every
      step but one: the exit of a process that still has a descriptor open. */
  lemma AgreementExactly(s: State, l: Label)
    requires Inv(s) && Agreement(s) && Step(s, l).mode == Active
    ensures Agreement(Step(s, l)) <==> !(l.Trap? && l.call.Exit? && Held(s, s.running) != [])
  {
    match l {
      case Tick =>
        var s1 := s.(time := s.time + 1);
        TimeAside(s);
        AgreementFrame(s, s1);
        ScheduleAgreement(s1);
      case Trap(call) =>
        RecordKeeps(s, call);
        RecordSame(s, call);
        AgreementFrame(s, Record(s, call));
        Exclusive(s, s.running);
        CallAgreement(Record(s, call), call);
    }
  }

  lemma CallAgreement(s: State, call: Call)
    requires Inv(s) && Agreement(s) && Me(s).call == call && Dispatch(s, call).mode == Active
    ensures Agreement(Dispatch(s, call)) <==> !(call.Exit? && Held(s, s.running) != [])
  {
    match call {
      case NoCall => AgreementFrame(s, Dispatch(s, call));
      case Preempt => ScheduleAgreement(s);
      case Fork => SpawnAgreement(s);
      case Spawn => SpawnAgreement(s);
      case Wait(pid, result) => WaitAgreement(s, pid, result);
      case Exit(value) => ExitAgreement(s, value);
      case Sleep(cycles) => SleepAgreement(s, cycles);
      case SemOpen(semnum, value) => OpenAgreement(s, semnum, value);
      case SemClose(fd) => CloseAgreement(s, fd);
      case SemWait(fd) => SemWaitAgreement(s, fd);
      case SemPost(fd) => SemPostAgreement(s, fd);
    }
  }

  // ----- When a semaphore is freed -----

  /** The call closes the last descriptor of semaphore `m`. */
  predicate ClosesLast(s: State, l: Label, m: Addr) {
    && l.Trap? && l.call.SemClose? && Target(s, l.call.fd) == Some(m)
    && |SemAt(s.table, m).descriptors| == 1
  }

  /** A semaphore is unlinked and its block freed exactly when its last
      descriptor is closed; nobody is queued on it then. */
  lemma FreedExactly(s: State, l: Label, m: Addr)
    requires Inv(s) && m in s.table.list
    ensures m !in Step(s, l).table.list <==> ClosesLast(s, l, m)
    ensures ClosesLast(s, l, m) ==>
              m in Step(s, l).table.freeSems && SemAt(s.table, m).waiting == []
                && SemAt(Step(s, l).table, m).waiting == []
  {
    match l {
      case Tick => WakeLoopTable(s.(time := s.time + 1), None);
      case Trap(call) =>
        RecordSame(s, call);
        RecordKeeps(s, call);
        assert ClosesLast(Record(s, call), l, m) <==> ClosesLast(s, l, m);
        CallFrees(Record(s, call), call, m);
    }
  }

  lemma CallFrees(s: State, call: Call, m: Addr)
    requires Inv(s) && m in s.table.list
    ensures var t' := Dispatch(s, call).table;
            var last := ClosesLast(s, Trap(call), m);
            && (m !in t'.list <==> last)
            && (last ==> m in t'.freeSems && SemAt(s.table, m).waiting == [] && SemAt(t', m).waiting == [])
  {
    if call.SemClose? {
      CloseFrees(s, call.fd, m);
    } else {
      StaysListed(s, call, m);
    }
  }

  /** Only a close takes semaphores off the list. */
  lemma StaysListed(s: State, call: Call, m: Addr)
    requires m in s.table.list && !call.SemClose?
    ensures m in Dispatch(s, call).table.list
  {
    if !call.SemOpen? && !call.SemWait? && !call.SemPost? {
      OtherCallTable(s, call);
    }
  }

  lemma CloseFrees(s: State, fd: int, m: Addr)
    requires Inv(s) && m in s.table.list
    ensures var t' := DoSemClose(s, fd).table;
            var last := Target(s, fd) == Some(m) && |SemAt(s.table, m).descriptors| == 1;
            && (m !in t'.list <==> last)
            && (last ==> m in t'.freeSems && SemAt(s.table, m).waiting == [] && SemAt(t', m).waiting == [])
  {
    if ByFd(s.table, Held(s, s.running), fd).Some? {
      var d := NamedDescriptor(s, fd);
      var n := DescAt(s.table, d).sem;
      var t' := CloseDesc(s.table, d, n);
      ClosedLists(s.table, d, m, d);
      DetachLength(SemAt(s.table, n).descriptors, d);
      Listed(s.table, n);
      ClosedBlocks(s.table, d);
      assert SemAt(t', n).descriptors == Detach(SemAt(s.table, n).descriptors, d);
      assert SemAt(t', m).waiting == SemAt(s.table, m).waiting;
    }
  }

  // ----- Opening twice -----

  /** The open gets as far as the pointer blocks and finds fewer than two. */
  predicate RunsOutOfPointers(s: State, semnum: int) {
    && BySemnum(s.table, Held(s, s.running), semnum).None?
    && (ById(s.table, s.table.list, semnum).Some? || s.table.freeSems != [])
    && s.table.freeDescs != [] && s.table.freePtrs < 2
  }

  predicate Opens(s: State, semnum: int) {
    && BySemnum(s.table, Held(s, s.running), semnum).None?
    && (ById(s.table, s.table.list, semnum).Some? || s.table.freeSems != [])
    && s.table.freeDescs != [] && s.table.freePtrs >= 2
  }

  lemma {:induction false} BySemnumFrame(t: SemTable, t': SemTable, ds: seq<Addr>, semnum: int)
    requires forall d :: d in ds ==> SemAt(t', DescAt(t', d).sem).id == SemAt(t, DescAt(t, d).sem).id
    ensures BySemnum(t', ds, semnum) == BySemnum(t, ds, semnum)
  {
    if ds != [] {
      assert ds[0] in ds;
      BySemnumFrame(t, t', ds[1..], semnum);
    }
  }

  lemma {:induction false} BySemnumLast(t: SemTable, ds: seq<Addr>, d: Addr, semnum: int)
    requires BySemnum(t, ds, semnum).None? && SemAt(t, DescAt(t, d).sem).id == semnum
    ensures BySemnum(t, ds + [d], semnum) == Some(d)
  {
    if ds != [] {
      assert (ds + [d])[1..] == ds[1..] + [d];
      BySemnumLast(t, ds[1..], d, semnum);
    }
  }

  lemma {:induction false} ByIdFrame(t: SemTable, t': SemTable, list: seq<Addr>, semnum: int)
    requires forall m :: m in list ==> SemAt(t', m).id == SemAt(t, m).id
    ensures ById(t', list, semnum) == ById(t, list, semnum)
  {
    if list != [] {
      assert list[0] in list;
      ByIdFrame(t, t', list[1..], semnum);
    }
  }

  lemma {:induction false} ByIdLast(t: SemTable, list: seq<Addr>, m: Addr, semnum: int)
    requires ById(t, list, semnum).None? && SemAt(t, m).id == semnum
    ensures ById(t, list + [m], semnum) == Some(m)
  {
    if list != [] {
      assert (list + [m])[1..] == list[1..] + [m];
      ByIdLast(t, list[1..], m, semnum);
    }
  }

  /** Semaphore `m` is open to the running process as far as the system goes: it
      is listed under this id, and the process has no descriptor of it. */
  ghost predicate Openable(s: State, semnum: int, m: Addr) {
    && TableOk(s.table) && HeldOk(s) && s.running < |s.pcbs|
    && BySemnum(s.table, Held(s, s.running), semnum).None?
    && ById(s.table, s.table.list, semnum) == Some(m) && m in s.table.list && m < |s.table.sems|
       && SemAt(s.table, m).id == semnum
  }

  /** Semaphores in the list keep their ids over an open and nobody's descriptor
      is overwritten. */
  lemma OpenDescSame(s: State, semnum: int, m: Addr)
    requires Openable(s, semnum, m)
    ensures var s1 := OpenDesc(s, m);
            && s1.running == s.running && s1.table.list == s.table.list
            && ById(s1.table, s1.table.list, semnum) == Some(m)
            && BySemnum(s1.table, Held(s, s.running), semnum).None?
  {
    var s1 := OpenDesc(s, m);
    ByIdFrame(s.table, s1.table, s.table.list, semnum);
    if s.table.freeDescs != [] {
      FreshDesc(s.table);
      forall d | d in Held(s, s.running) ensures DescAt(s1.table, d) == DescAt(s.table, d) {
        assert IsLive(s, s.running);
        assert OwnedOk(s, s.running, d);
      }
    }
    BySemnumFrame(s.table, s1.table, Held(s, s.running), semnum);
  }

  /** A return value written twice is written once. */
  lemma ReturnAgain(s: State, value: int)
    requires s.running < |s.pcbs| && Me(s).retvalue == value
    ensures Return(s, value) == s
  {
    assert Me(s).(retvalue := value) == Me(s);
    assert s.pcbs[s.running := s.pcbs[s.running]] == s.pcbs;
  }

  lemma OpenedAgain(s: State, semnum: int, m: Addr, again: int)
    requires Openable(s, semnum, m) && s.table.freeDescs != [] && s.table.freePtrs >= 2
    ensures DoSemOpen(OpenDesc(s, m), semnum, again) == OpenDesc(s, m)
  {
    var s1 := OpenDesc(s, m);
    var d := s.table.freeDescs[0];
    OpenDescSame(s, semnum, m);
    FreshDesc(s.table);
    OpenDescIs(s, m);
    BySemnumLast(s1.table, Held(s, s.running), d, semnum);
    ReturnAgain(s1, DescAt(s1.table, d).fd);
  }

  lemma OpenDescAgain(s: State, semnum: int, m: Addr, again: int)
    requires Openable(s, semnum, m)
    ensures DoSemOpen(OpenDesc(s, m), semnum, again) == OpenDesc(s, m) <==>
              s.table.freeDescs == [] || s.table.freePtrs >= 2
  {
    var s1 := OpenDesc(s, m);
    OpenDescSame(s, semnum, m);
    if s.table.freeDescs == [] {
      ReturnAgain(s1, ECREATEFD);
    } else if s.table.freePtrs >= 2 {
      OpenedAgain(s, semnum, m, again);
    } else {
      assert DoSemOpen(s1, semnum, again) == OpenDesc(s1, m);
      assert Me(s1).retvalue == ECREATEPTR && Me(s1).lastSemFd == Me(s).lastSemFd + 1;
      assert Me(OpenDesc(s1, m)).retvalue == ECREATEFD || Me(OpenDesc(s1, m)).lastSemFd == Me(s).lastSemFd + 2;
    }
  }

  /** A new semaphore is as openable as one that was there. */
  lemma CreatedOpenable(s: State, semnum: int, value: int)
    requires Inv(s) && Creates(s, semnum)
    ensures Openable(s.(table := AllocSem(s.table, semnum, value)), semnum, s.table.freeSems[0])
  {
    var m := s.table.freeSems[0];
    var s1 := s.(table := AllocSem(s.table, semnum, value));
    FreshSem(s.table);
    Exclusive(s, s.running);
    ByIdFinds(s.table, s.table.list, semnum);
    AllocSemBlocks(s.table, semnum, value);
    AllocSemListed(s.table, semnum, value);
    AllocSemHeld(s, semnum, value);
    ByIdFrame(s.table, s1.table, s.table.list, semnum);
    ByIdLast(s1.table, s.table.list, m, semnum);
    CreatedUnopened(s, semnum, value);
  }

  lemma CreatedUnopened(s: State, semnum: int, value: int)
    requires Inv(s) && Creates(s, semnum)
    ensures BySemnum(AllocSem(s.table, semnum, value), Held(s, s.running), semnum).None?
  {
    var t1 := AllocSem(s.table, semnum, value);
    forall d | d in Held(s, s.running)
      ensures SemAt(t1, DescAt(t1, d).sem).id == SemAt(s.table, DescAt(s.table, d).sem).id
    {
      assert IsLive(s, s.running) && OwnedOk(s, s.running, d);
      AllocSemOthers(s.table, semnum, value, DescAt(s.table, d).sem);
      AllocSemOthers(s.table, semnum, value, d);
    }
    BySemnumFrame(s.table, t1, Held(s, s.running), semnum);
  }

  lemma ListedOpenable(s: State, semnum: int)
    requires Inv(s) && BySemnum(s.table, Held(s, s.running), semnum).None? && ById(s.table, s.table.list, semnum).Some?
    ensures Openable(s, semnum, ById(s.table, s.table.list, semnum).value)
  {
    ByIdFinds(s.table, s.table.list, semnum);
    Listed(s.table, ById(s.table, s.table.list, semnum).value);
    Exclusive(s, s.running);
  }

  /** Opening a semaphore number a second time, with whatever value, returns
      what the first open returned and changes nothing, exactly unless the first
      one ran out of pointer blocks, which uses up a descriptor every time. */
  lemma ReopensSame(s: State, semnum: int, value: int, again: int)
    requires Inv(s)
    ensures var s1 := DoSemOpen(s, semnum, value);
            DoSemOpen(s1, semnum, again) == s1 <==> !RunsOutOfPointers(s, semnum)
  {
    var s1 := DoSemOpen(s, semnum, value);
    Exclusive(s, s.running);
    if BySemnum(s.table, Held(s, s.running), semnum).Some? {
      ReturnAgain(s1, DescAt(s.table, BySemnum(s.table, Held(s, s.running), semnum).value).fd);
    } else if ById(s.table, s.table.list, semnum).Some? {
      ListedOpenable(s, semnum);
      OpenDescAgain(s, semnum, ById(s.table, s.table.list, semnum).value, again);
    } else if s.table.freeSems == [] {
      ReturnAgain(s1, ECREATESEM);
    } else {
      CreatedOpenable(s, semnum, value);
      OpenDescAgain(s.(table := AllocSem(s.table, semnum, value)), semnum, s.table.freeSems[0], again);
    }
  }

  // ----- Closing undoes opening -----

  /** The two tables hold the same semaphores and descriptors and have the same
      free blocks; only the contents of free blocks may differ. */
  ghost predicate SameInUse(t: SemTable, t': SemTable) {
    && t'.list == t.list && t'.freeSems == t.freeSems && t'.freeDescs == t.freeDescs && t'.freePtrs == t.freePtrs
    && |t'.sems| == |t.sems| && |t'.descs| == |t.descs|
    && (forall m {:trigger m in t.list} :: m in t.list ==> SemAt(t', m) == SemAt(t, m))
    && (forall d: Addr {:trigger DescAt(t', d)} :: d !in t.freeDescs ==> DescAt(t', d) == DescAt(t, d))
  }

  lemma {:induction false} ByFdLast(t: SemTable, ds: seq<Addr>, d: Addr, fd: int)
    requires (forall e :: e in ds ==> DescAt(t, e).fd < fd) && DescAt(t, d).fd == fd
    ensures ByFd(t, ds + [d], fd) == Some(d)
  {
    if ds != [] {
      assert (ds + [d])[1..] == ds[1..] + [d];
      assert ds[0] in ds;
      ByFdLast(t, ds[1..], d, fd);
    }
  }

  lemma DetachLast(s: seq<Addr>, x: Addr)
    requires x !in s
    ensures Detach(s + [x], x) == s
  {
    DetachSplits(s, x, []);
    assert s + [x] + [] == s + [x] && s + [] == s;
  }

  /** The state after a successful open, and what its descriptor number names. */
  lemma OpenedIs(s: State, semnum: int, m: Addr)
    requires Openable(s, semnum, m) && s.table.freeDescs != [] && s.table.freePtrs >= 2
    ensures var s1 := OpenDesc(s, m);
            var d := s.table.freeDescs[0];
            && Me(s1).retvalue == Me(s).lastSemFd && Held(s1, s.running) == Held(s, s.running) + [d]
            && ByFd(s1.table, Held(s1, s.running), Me(s).lastSemFd) == Some(d)
            && DescAt(s1.table, d).sem == m
            && d !in Held(s, s.running) && d !in SemAt(s.table, m).descriptors
  {
    var s1 := OpenDesc(s, m);
    var d := s.table.freeDescs[0];
    FreshDesc(s.table);
    OpenDescIs(s, m);
    forall e | e in Held(s, s.running) ensures e != d && DescAt(s1.table, e).fd < Me(s).lastSemFd {
      assert IsLive(s, s.running);
      assert OwnedOk(s, s.running, e);
    }
    ByFdLast(s1.table, Held(s, s.running), d, Me(s).lastSemFd);
  }

  /** The table after the open. */
  lemma OpenedTable(s: State, semnum: int, m: Addr)
    requires Openable(s, semnum, m) && s.table.freeDescs != [] && s.table.freePtrs >= 2
    ensures var t := s.table;
            var t1 := OpenDesc(s, m).table;
            var d := t.freeDescs[0];
            && t1.list == t.list && t1.freeSems == t.freeSems && t1.freeDescs == t.freeDescs[1..]
               && t1.freePtrs == t.freePtrs - 2
            && t1.sems == t.sems[m := t.sems[m].(descriptors := t.sems[m].descriptors + [d])]
            && |t1.descs| == |t.descs| && forall e: Addr :: e != d ==> DescAt(t1, e) == DescAt(t, e)
  {
  }

  lemma CloseOpened(s: State, semnum: int, m: Addr)
    requires Openable(s, semnum, m) && s.table.freeDescs != [] && s.table.freePtrs >= 2
    ensures var t := s.table;
            var t' := CloseDesc(OpenDesc(s, m).table, t.freeDescs[0], m);
            && t'.sems == t.sems && t'.freeDescs == t.freeDescs && t'.freePtrs == t.freePtrs
            && |t'.descs| == |t.descs| && (forall e: Addr :: e != t.freeDescs[0] ==> DescAt(t', e) == DescAt(t, e))
            && t'.list == (if t.sems[m].descriptors == [] then Detach(t.list, m) else t.list)
            && t'.freeSems == (if t.sems[m].descriptors == [] then [m] + t.freeSems else t.freeSems)
  {
    var t := s.table;
    var d := t.freeDescs[0];
    OpenedTable(s, semnum, m);
    FreshDesc(t);
    DetachLast(t.sems[m].descriptors, d);
    assert [d] + t.freeDescs[1..] == t.freeDescs;
    var t1 := OpenDesc(s, m).table;
    assert SemAt(t1, m).(descriptors := t.sems[m].descriptors) == t.sems[m];
    assert t1.sems[m := t.sems[m]] == t.sems;
  }

  /** The processes after the close. */
  lemma CloseOpenedProcess(s: State, semnum: int, m: Addr)
    requires Openable(s, semnum, m) && s.table.freeDescs != [] && s.table.freePtrs >= 2
    ensures var s1 := OpenDesc(s, m);
            var s2 := DoSemClose(s1, Me(s).lastSemFd);
            s2 == s.(table := CloseDesc(s1.table, s.table.freeDescs[0], m),
                     pcbs := Put(s.pcbs, s.running, Me(s).(lastSemFd := Me(s).lastSemFd + 1, retvalue := 0)))
  {
    var s1 := OpenDesc(s, m);
    var d := s.table.freeDescs[0];
    OpenedIs(s, semnum, m);
    DetachLast(Held(s, s.running), d);
    assert s1.pcbs == Put(s.pcbs, s.running, Me(s1));
    var me := Me(s).(lastSemFd := Me(s).lastSemFd + 1, retvalue := 0);
    assert Me(s1).(semDescs := Detach(Me(s1).semDescs, d), retvalue := 0) == me;
    assert s1.pcbs[s.running := me] == s.pcbs[s.running := me];
  }

  /** The semaphore is listed but nobody has it open: the open that created it
      failed afterwards. */
  predicate Abandoned(s: State, semnum: int) {
    var m := ById(s.table, s.table.list, semnum);
    m.Some? && SemAt(s.table, m.value).descriptors == []
  }

  /** An open that gives the process a new descriptor, and then the close of that
      descriptor, restore every list and every pool, the order of the free blocks
      included, exactly unless the semaphore was abandoned, which the close then
      frees. The process's next descriptor number alone has moved on. */
  lemma ClosesOpened(s: State, semnum: int, value: int)
    requires Inv(s) && Opens(s, semnum)
    ensures var s1 := DoSemOpen(s, semnum, value);
            var s2 := DoSemClose(s1, Me(s1).retvalue);
            && Me(s1).retvalue == Me(s).lastSemFd
            && (SameInUse(s.table, s2.table) <==> !Abandoned(s, semnum))
            && s2 == s.(table := s2.table,
                        pcbs := Put(s.pcbs, s.running, Me(s).(lastSemFd := Me(s).lastSemFd + 1, retvalue := 0)))
  {
    if ById(s.table, s.table.list, semnum).Some? {
      var m := ById(s.table, s.table.list, semnum).value;
      ListedOpenable(s, semnum);
      OpenDescAndClose(s, semnum, m);
      CloseOpened(s, semnum, m);
      DetachLength(s.table.list, m);
      SameUse(s.table, CloseDesc(OpenDesc(s, m).table, s.table.freeDescs[0], m));
    } else {
      CreateAndClose(s, semnum, value);
    }
  }

  lemma SameUse(t: SemTable, t': SemTable)
    requires t.freeDescs != [] && t'.sems == t.sems && t'.freeDescs == t.freeDescs && t'.freePtrs == t.freePtrs
    requires |t'.descs| == |t.descs| && forall e: Addr :: e != t.freeDescs[0] ==> DescAt(t', e) == DescAt(t, e)
    ensures SameInUse(t, t') <==> t'.list == t.list && t'.freeSems == t.freeSems
  {
    assert t.freeDescs[0] in t.freeDescs;
    assert forall m: Addr :: SemAt(t', m) == SemAt(t, m);
  }

  lemma OpenDescAndClose(s: State, semnum: int, m: Addr)
    requires Openable(s, semnum, m) && s.table.freeDescs != [] && s.table.freePtrs >= 2
    ensures var s1 := OpenDesc(s, m);
            && Me(s1).retvalue == Me(s).lastSemFd
            && DoSemClose(s1, Me(s1).retvalue) == s.(table := CloseDesc(s1.table, s.table.freeDescs[0], m),
                 pcbs := Put(s.pcbs, s.running, Me(s).(lastSemFd := Me(s).lastSemFd + 1, retvalue := 0)))
  {
    OpenedIs(s, semnum, m);
    CloseOpenedProcess(s, semnum, m);
  }

  lemma CreatedTable(s: State, semnum: int, value: int)
    requires Inv(s) && Opens(s, semnum) && Creates(s, semnum)
    ensures var s0 := s.(table := AllocSem(s.table, semnum, value));
            var m := s.table.freeSems[0];
            SameInUse(s.table, CloseDesc(OpenDesc(s0, m).table, s.table.freeDescs[0], m))
  {
    var m := s.table.freeSems[0];
    var s0 := s.(table := AllocSem(s.table, semnum, value));
    CreatedOpenable(s, semnum, value);
    CloseOpened(s0, semnum, m);
    FreshSem(s.table);
    DetachLast(s.table.list, m);
    CreatedSameUse(s, semnum, value, CloseDesc(OpenDesc(s0, m).table, s.table.freeDescs[0], m));
  }

  lemma CreateAndClose(s: State, semnum: int, value: int)
    requires Inv(s) && Opens(s, semnum) && Creates(s, semnum)
    ensures var s1 := DoSemOpen(s, semnum, value);
            var s2 := DoSemClose(s1, Me(s1).retvalue);
            && Me(s1).retvalue == Me(s).lastSemFd
            && SameInUse(s.table, s2.table)
            && s2 == s.(table := s2.table,
                        pcbs := Put(s.pcbs, s.running, Me(s).(lastSemFd := Me(s).lastSemFd + 1, retvalue := 0)))
  {
    var s0 := s.(table := AllocSem(s.table, semnum, value));
    CreatedOpenable(s, semnum, value);
    OpenDescAndClose(s0, semnum, s.table.freeSems[0]);
    CreatedTable(s, semnum, value);
    assert DoSemOpen(s, semnum, value) == OpenDesc(s0, s.table.freeSems[0]);
  }

  lemma CreatedSameUse(s: State, semnum: int, value: int, t': SemTable)
    requires BlocksOk(s.table) && s.table.freeSems != [] && s.table.freeDescs != []
    requires var t := s.table;
             var t0 := AllocSem(t, semnum, value);
             && t'.sems == t0.sems && t'.freeDescs == t.freeDescs && t'.freePtrs == t.freePtrs
             && |t'.descs| == |t.descs| && (forall e: Addr :: e != t.freeDescs[0] ==> DescAt(t', e) == DescAt(t0, e))
             && t'.list == t.list && t'.freeSems == [t.freeSems[0]] + t.freeSems[1..]
    ensures SameInUse(s.table, t')
  {
    var t := s.table;
    assert t.freeDescs[0] in t.freeDescs;
    FreshSem(t);
    forall m | m in t.list ensures SemAt(t', m) == SemAt(t, m) {
      AllocSemOthers(t, semnum, value, m);
    }
  }

  // ----- Whose return value -----

  /** A step writes into no return-value field but that of the process that runs
      after it; and if that is another one than before, only a semWait or an exit
      writes there. So whoever is switched away reads, when it runs again, what
      was in its field then, unless it is a blocking semWait or an exit that
      switches to it. */
  lemma ReturnWritten(s: State, l: Label, a: Addr)
    requires s.mode == Active && Step(s, l).mode == Active
    requires At(Step(s, l).pcbs, a).retvalue != At(s.pcbs, a).retvalue
    ensures a == Step(s, l).running
    ensures a == s.running || (l.Trap? && (l.call.SemWait? || l.call.Exit?))
  {
    match l {
      case Tick => ScheduleReturns(s.(time := s.time + 1), a);
      case Trap(call) =>
        RecordReturns(s, call, a);
        CallReturns(Record(s, call), call, a);
    }
  }

  lemma RecordReturns(s: State, call: Call, a: Addr)
    ensures At(Record(s, call).pcbs, a).retvalue == At(s.pcbs, a).retvalue && Record(s, call).running == s.running
    ensures Record(s, call).mode == s.mode
  {
  }

  lemma ScheduleReturns(s: State, a: Addr)
    ensures At(Schedule(s).pcbs, a).retvalue == At(s.pcbs, a).retvalue
  {
    WakeLoopReturns(s, None, a);
  }

  lemma {:induction false} WakeLoopReturns(s: State, prev: Option<Addr>, a: Addr)
    ensures At(WakeLoop(s, prev).pcbs, a).retvalue == At(s.pcbs, a).retvalue
    decreases |s.timers|
  {
    if s.timers != [] && s.timers[0].time <= s.time {
      WakeLoopReturns(WakeFirst(s, prev), Some(s.timers[0].pcb), a);
    }
  }

  lemma CallReturns(s: State, call: Call, a: Addr)
    requires Dispatch(s, call).mode == Active
    requires At(Dispatch(s, call).pcbs, a).retvalue != At(s.pcbs, a).retvalue
    ensures a == Dispatch(s, call).running
    ensures a == s.running || call.SemWait? || call.Exit?
  {
    match call {
      case Preempt => ScheduleReturns(s, a);
      case Exit(value) => ExitReturns(s, value, a);
      case SemWait(fd) => WaitReturns(s, fd, a);
      case SemPost(fd) => PostReturns(s, fd, a);
      case Fork => SpawnReturns(s, a);
      case Spawn => SpawnReturns(s, a);
      case Wait(pid, result) => ReapReturns(s, pid, result, a);
      case _ => OwnReturns(s, call, a);
    }
  }

  lemma SpawnReturns(s: State, a: Addr)
    requires DoSpawn(s).mode == Active && At(DoSpawn(s).pcbs, a).retvalue != At(s.pcbs, a).retvalue
    ensures a == s.running == DoSpawn(s).running
  {
  }

  lemma ReapReturns(s: State, pid: int, result: int, a: Addr)
    requires DoWait(s, pid, result).mode == Active
             && At(DoWait(s, pid, result).pcbs, a).retvalue != At(s.pcbs, a).retvalue
    ensures a == s.running == DoWait(s, pid, result).running
  {
  }

  lemma OwnReturns(s: State, call: Call, a: Addr)
    requires call.NoCall? || call.Sleep? || call.SemOpen? || call.SemClose?
    requires Dispatch(s, call).mode == Active && At(Dispatch(s, call).pcbs, a).retvalue != At(s.pcbs, a).retvalue
    ensures a == s.running == Dispatch(s, call).running
  {
  }

  lemma ExitReturns(s: State, value: int, a: Addr)
    requires DoExit(s, value).mode == Active && At(DoExit(s, value).pcbs, a).retvalue != At(s.pcbs, a).retvalue
    ensures a == DoExit(s, value).running
  {
  }

  lemma WaitReturns(s: State, fd: int, a: Addr)
    requires DoSemWait(s, fd).mode == Active && At(DoSemWait(s, fd).pcbs, a).retvalue != At(s.pcbs, a).retvalue
    ensures a == DoSemWait(s, fd).running
  {
  }

  lemma PostReturns(s: State, fd: int, a: Addr)
    requires At(DoSemPost(s, fd).pcbs, a).retvalue != At(s.pcbs, a).retvalue
    ensures a == s.running == DoSemPost(s, fd).running
  {
  }

  /** When semWait blocks, its 0 is written into the process that runs next: the
      caller still finds the value it had before the call, and the next process
      loses the one it was to read. */
  lemma BlockedWaitMisreports(s: State, fd: int)
    requires Inv(s) && Step(s, Trap(SemWait(fd))).mode == Active && s.running in Step(s, Trap(SemWait(fd))).waiting
    ensures var s' := Step(s, Trap(SemWait(fd)));
            && s.ready != [] && s'.running == s.ready[0] && At(s'.pcbs, s'.running).retvalue == 0
            && At(s'.pcbs, s.running).retvalue == Me(s).retvalue
  {
    Exclusive(s, s.running);
    if s.ready != [] {
      Exclusive(s, s.ready[0]);
    }
  }
}
