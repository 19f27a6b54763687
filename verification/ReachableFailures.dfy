/** Runs from start-up showing that the situations in which the code falls short
    of its comments do occur. */
module ReachableFailures {
  import opened Lists
  import opened KernelState
  import opened ProcessInvariants
  import opened KernelInvariants
  import opened FamilyProofs
  import opened KernelSteps
  import opened ProcessTheorems
  import opened PoolAccounting
  import opened SemaphoreTheorems
  import opened DescriptorTheorems
  import opened WholeRuns

  // ----- A spawn that fails with init alone -----

  /** init is the only process. */
  ghost predicate InitAlone(s: State) {
    Inv(s) && s.running == s.init && s.ready == [] && s.waiting == [] && s.zombies == []
  }

  const HAND_OVER: seq<Label> := [Trap(Spawn), Trap(Wait(0, 0)), Trap(Exit(0))]

  lemma AloneNoKids(s: State)
    requires InitAlone(s)
    ensures Kids(s, s.init) == []
  {
    if Kids(s, s.init) != [] {
      var c := Kids(s, s.init)[0];
      assert c in Kids(s, s.init);
      Exclusive(s, c);
    }
  }

  /** After the spawn: init runs and its one child is ready. */
  ghost predicate ChildReady(s: State, a: Addr) {
    && Inv(s) && s.running == s.init && s.ready == [a] && s.waiting == [] && s.zombies == []
    && Kids(s, s.init) == [a] && ParentOf(s, a) == Some(s.init) && a != s.init
  }

  /** After the wait: the child runs and init waits for it. */
  ghost predicate ChildRuns(s: State, a: Addr) {
    && Inv(s) && s.running == a && s.ready == [] && s.waiting == [s.init] && s.zombies == []
    && Kids(s, s.init) == [a] && ParentOf(s, a) == Some(s.init) && a != s.init
    && CallOf(s, s.init) == Wait(0, 0)
  }

  lemma SpawnOne(s: State)
    requires InitAlone(s) && CanSpawn(s)
    ensures var s' := Step(s, Trap(Spawn));
            ChildReady(s', s.freePcbs[0]) && s'.freePcbPtrs == s.freePcbPtrs - 1
  {
    AloneNoKids(s);
    StepKeeps(s, Trap(Spawn));
    RecordKeeps(s, Spawn);
    SpawnRelations(Record(s, Spawn), s.init);
    SpawnRelations(Record(s, Spawn), s.freePcbs[0]);
  }

  lemma WaitForIt(s: State, a: Addr)
    requires ChildReady(s, a)
    ensures var s' := Step(s, Trap(Wait(0, 0)));
            ChildRuns(s', a) && s'.freePcbPtrs == s.freePcbPtrs
  {
    var s1 := Record(s, Wait(0, 0));
    StepKeeps(s, Trap(Wait(0, 0)));
    Exclusive(s, a);
    Exclusive(s, s.init);
    assert a in s.ready && At(s1.pcbs, a).status == Ready;
    assert Awaited(s1.pcbs, [a], 0) == a;
  }

  lemma InitAnswers(s: State, a: Addr)
    requires ChildRuns(s, a)
    ensures Inv(Record(s, Exit(0))) && AwaitedByParent(Record(s, Exit(0)))
            && DoExit(Record(s, Exit(0)), 0).mode != Fault
  {
    var s1 := Record(s, Exit(0));
    assert s.init in s.waiting;
    RecordKeeps(s, Exit(0));
    ExitFaults(s1, 0);
  }

  /** The lists after a hand-over to the only other process. */
  lemma HandOverAlone(s: State, p: Addr)
    requires CanDie(s) && p != s.running && s.ready == [] && s.waiting == [p] && s.zombies == []
    requires HandOver(Die(s, 0), p).mode != Fault
    ensures var s' := HandOver(Die(s, 0), p);
            && s'.running == p && s'.ready == [] && s'.waiting == [] && s'.zombies == [] && s'.init == s.init
            && s'.freePcbPtrs == s.freePcbPtrs && s'.freePcbs != []
  {
  }

  lemma ReportToInit(s: State, a: Addr)
    requires ChildRuns(s, a)
    ensures var s' := Step(s, Trap(Exit(0)));
            InitAlone(s') && s'.freePcbPtrs == s.freePcbPtrs && s'.freePcbs != []
  {
    var s1 := Record(s, Exit(0));
    InitAnswers(s, a);
    RunningCanDie(s1);
    AnswersUnchanged(s1, 0, s.init);
    HandOverAlone(s1, s.init);
    StepKeeps(s, Trap(Exit(0)));
  }

  lemma OneHandOver(s: State)
    requires InitAlone(s) && CanSpawn(s)
    ensures var s' := Run(s, HAND_OVER);
            InitAlone(s') && s'.freePcbPtrs == s.freePcbPtrs - 1 && s'.freePcbs != []
  {
    var s1 := Step(s, Trap(Spawn));
    SpawnOne(s);
    WaitForIt(s1, s.freePcbs[0]);
    ReportToInit(Step(s1, Trap(Wait(0, 0))), s.freePcbs[0]);
    RunFour(s, Trap(Spawn), Trap(Wait(0, 0)), Trap(Exit(0)), Tick);
  }

  lemma {:induction false} AllHandedOver(s: State) returns (labels: seq<Label>)
    requires InitAlone(s) && s.freePcbs != []
    ensures InitAlone(Run(s, labels)) && DoSpawn(Run(s, labels)).mode == Fault && |labels| == 3 * s.freePcbPtrs
    decreases s.freePcbPtrs
  {
    labels := [];
    if s.freePcbPtrs > 0 {
      OneHandOver(s);
      var rest := AllHandedOver(Run(s, HAND_OVER));
      RunAppend(s, HAND_OVER, rest);
      labels := HAND_OVER + rest;
    }
  }

  /** In a kernel of any size, spawning, waiting and exiting once for each block
      of the pool leaves init alone, with all other process blocks free and no
      pointer block, and the next spawn dereferences a null pointer. */
  lemma SpawnGivesOut(procs: nat, sems: nat, descs: nat, ptrs: nat) returns (labels: seq<Label>)
    requires procs >= 2
    ensures |labels| == 3 * procs
    ensures var s := Run(Boot(procs, sems, descs, ptrs), labels);
            s.mode == Active && Processes(s) == 1 && Step(s, Trap(Spawn)).mode == Fault
  {
    var s := Boot(procs, sems, descs, ptrs);
    BootInv(procs, sems, descs, ptrs);
    labels := AllHandedOver(s);
  }

  // ----- Waiting for a process that is no child -----

  /** init spawns a process and waits for one that does not exist: that is no
      error, and init is blocked. */
  lemma NoSuchChildIsReachable(procs: nat, sems: nat, descs: nat, ptrs: nat, pid: int)
    requires procs >= 2 && pid != 0 && pid != 1
    ensures var s := Run(Boot(procs, sems, descs, ptrs), [Trap(Spawn), Trap(Wait(pid, 0))]);
            s.mode == Active && s.init in s.waiting && (forall k :: k in Kids(s, s.init) ==> Pid(s, k) != pid)
  {
    var s := Boot(procs, sems, descs, ptrs);
    var s1 := Step(s, Trap(Spawn));
    BootInv(procs, sems, descs, ptrs);
    SpawnOne(s);
    FirstChildPid(s);
    WaitInVain(s1, 1, pid);
    RunTwo(s, Trap(Spawn), Trap(Wait(pid, 0)));
  }

  lemma FirstChildPid(s: State)
    requires InitAlone(s) && CanSpawn(s)
    ensures Pid(Step(s, Trap(Spawn)), s.freePcbs[0]) == s.lastPid
  {
    RecordKeeps(s, Spawn);
    SpawnRelations(Record(s, Spawn), s.freePcbs[0]);
  }

  lemma WaitInVain(s: State, a: Addr, pid: int)
    requires ChildReady(s, a) && pid != 0
    ensures var s' := Step(s, Trap(Wait(pid, 0)));
            s'.mode == Active && s'.init == s.init && s.init in s'.waiting && Kids(s', s.init) == [a]
              && Pid(s', a) == Pid(s, a)
  {
    var s1 := Record(s, Wait(pid, 0));
    Exclusive(s, a);
    Exclusive(s, s.init);
    assert a in s.ready && At(s1.pcbs, a).status == Ready;
    assert Awaited(s1.pcbs, [a], pid) == a;
  }

  // ----- Semaphores -----

  /** The very first call can create a semaphore with a negative value. */
  lemma NegativeIsReachable(procs: nat, sems: nat, descs: nat, ptrs: nat, semnum: int, value: int)
    requires procs >= 1 && sems >= 1 && value < 0
    ensures var s := Run(Boot(procs, sems, descs, ptrs), [Trap(SemOpen(semnum, value))]);
            s.mode == Active && !CountsOk(s.table)
  {
    var s := Boot(procs, sems, descs, ptrs);
    var l := Trap(SemOpen(semnum, value));
    BootInv(procs, sems, descs, ptrs);
    CountsExactly(s, l);
    RunTwo(s, l, l);
  }

  /** A process that init spawned opens a semaphore and exits without closing it:
      the semaphore then lists a descriptor of nobody. */
  lemma DanglingIsReachable(procs: nat, sems: nat, descs: nat, ptrs: nat)
    requires procs >= 2 && sems >= 1 && descs >= 1 && ptrs >= 2
    ensures var s := Run(Boot(procs, sems, descs, ptrs),
                         [Trap(Spawn), Trap(Wait(0, 0)), Trap(SemOpen(0, 1)), Trap(Exit(0))]);
            s.mode == Active && !Agreement(s)
  {
    var s := Boot(procs, sems, descs, ptrs);
    var s2 := Step(Step(s, Trap(Spawn)), Trap(Wait(0, 0)));
    var s3 := Step(s2, Trap(SemOpen(0, 1)));
    BootInv(procs, sems, descs, ptrs);
    ChildStarts(s);
    OpensOne(s2, 1);
    AgreementExactly(s2, Trap(SemOpen(0, 1)));
    ReportToInit(s3, 1);
    AgreementExactly(s3, Trap(Exit(0)));
    RunFour(s, Trap(Spawn), Trap(Wait(0, 0)), Trap(SemOpen(0, 1)), Trap(Exit(0)));
  }

  lemma ChildStarts(s: State)
    requires InitAlone(s) && CanSpawn(s) && Agreement(s)
    ensures var s2 := Step(Step(s, Trap(Spawn)), Trap(Wait(0, 0)));
            ChildRuns(s2, s.freePcbs[0]) && Agreement(s2) && Held(s2, s.freePcbs[0]) == [] && s2.table == s.table
  {
    var s1 := Step(s, Trap(Spawn));
    SpawnOne(s);
    SpawnedHoldsNone(s);
    WaitForIt(s1, s.freePcbs[0]);
    WaitTable(s1);
    AgreementExactly(s, Trap(Spawn));
    AgreementExactly(s1, Trap(Wait(0, 0)));
  }

  lemma SpawnedHoldsNone(s: State)
    requires InitAlone(s) && CanSpawn(s)
    ensures Held(Step(s, Trap(Spawn)), s.freePcbs[0]) == [] && Step(s, Trap(Spawn)).table == s.table
  {
    Exclusive(s, s.freePcbs[0]);
  }

  lemma WaitTable(s: State)
    ensures Step(s, Trap(Wait(0, 0))).table == s.table
    ensures forall a: Addr :: Held(Step(s, Trap(Wait(0, 0))), a) == Held(s, a)
  {
  }

  lemma OpensOne(s: State, a: Addr)
    requires ChildRuns(s, a) && Held(s, a) == []
    requires s.table.freeSems != [] && s.table.freeDescs != [] && s.table.freePtrs >= 2 && s.table.list == []
    ensures var s' := Step(s, Trap(SemOpen(0, 1)));
            ChildRuns(s', a) && Held(s', a) != []
  {
    StepKeeps(s, Trap(SemOpen(0, 1)));
    Exclusive(s, a);
    RecordKeeps(s, SemOpen(0, 1));
    OpensNew(Record(s, SemOpen(0, 1)), s.init);
  }

  lemma OpensNew(s: State, b: Addr)
    requires s.running < |s.pcbs| && s.running != b && Held(s, s.running) == [] && s.table.list == []
    requires s.table.freeSems != [] && s.table.freeDescs != [] && s.table.freePtrs >= 2
    ensures var s' := DoSemOpen(s, 0, 1);
            && Held(s', s.running) != [] && At(s'.pcbs, b) == At(s.pcbs, b)
            && Kids(s', s.running) == Kids(s, s.running) && ParentOf(s', s.running) == ParentOf(s, s.running)
            && s'.(table := s.table, pcbs := s.pcbs) == s
  {
  }

  function OpenerState(me: Pcb, t: SemTable): State {
    State(Active, 0, 1, 0, 0, [], [], [], [], 1, [me], [], 1, t, map[], [])
  }

  function Opener(lastFd: nat, held: seq<Addr>, call: Call, retvalue: int): Pcb {
    Pcb(0, 0, Running, None, [], lastFd, held, call, retvalue)
  }

  /** init with the first semaphore open. */
  function OneOpen(): State {
    OpenerState(Opener(1, [0], SemOpen(0, 0), 0),
                SemTable([0], [Semaphore(0, 0, [0], []), Semaphore(0, 0, [], [])], [1], [Desc(0, 0, 0)], [], 0))
  }

  /** The second one has been created for want of a descriptor. */
  function OneLeftBehind(): State {
    OpenerState(Opener(1, [0], SemOpen(1, 0), ECREATEFD),
                SemTable([0, 1], [Semaphore(0, 0, [0], []), Semaphore(1, 0, [], [])], [], [Desc(0, 0, 0)], [], 0))
  }

  /** The first has been closed again. */
  function OneAbandoned(): State {
    OpenerState(Opener(1, [], SemClose(0), 0),
                SemTable([1], [Semaphore(0, 0, [], []), Semaphore(1, 0, [], [])], [0], [Desc(0, 0, 0)], [0], 2))
  }

  lemma OpensFirst()
    ensures Step(Boot(1, 2, 1, 2), Trap(SemOpen(0, 0))) == OneOpen()
  {
    var s' := Step(Boot(1, 2, 1, 2), Trap(SemOpen(0, 0)));
    assert Boot(1, 2, 1, 2).pcbs == [ZEROED.(status := Running)];
    assert Held(s', 0) == [0];
    assert s'.pcbs == OneOpen().pcbs && s'.freePcbs == [];
    assert s'.table.sems == OneOpen().table.sems && s'.table.descs == OneOpen().table.descs;
    assert s'.table.freeSems == [1] && s'.table.freeDescs == [];
  }

  lemma CreatesSecond()
    ensures Step(OneOpen(), Trap(SemOpen(1, 0))) == OneLeftBehind()
  {
    var s' := Step(OneOpen(), Trap(SemOpen(1, 0)));
    assert ById(OneOpen().table, [0], 1) == None && BySemnum(OneOpen().table, [0], 1) == None;
    assert s'.pcbs == OneLeftBehind().pcbs;
    assert s'.table.sems == OneLeftBehind().table.sems && s'.table.list == [0, 1];
  }

  lemma ClosesFirst()
    ensures Step(OneLeftBehind(), Trap(SemClose(0))) == OneAbandoned()
  {
    var s' := Step(OneLeftBehind(), Trap(SemClose(0)));
    assert Detach([0, 1], 0) == [1] && Detach<Addr>([0], 0) == [];
    assert s'.pcbs == OneAbandoned().pcbs;
    assert s'.table.sems == OneAbandoned().table.sems;
  }

  /** init opens a semaphore, creates another one for which no descriptor is
      left, and closes the first: opening the second again and closing it then
      unlinks it. */
  lemma AbandonedIsReachable()
    ensures var s := Run(Boot(1, 2, 1, 2), [Trap(SemOpen(0, 0)), Trap(SemOpen(1, 0)), Trap(SemClose(0))]);
            var s1 := DoSemOpen(s, 1, 0);
            && s.mode == Active && Opens(s, 1) && Abandoned(s, 1)
            && !SameInUse(s.table, DoSemClose(s1, Me(s1).retvalue).table)
  {
    BootInv(1, 2, 1, 2);
    RunKeeps(Boot(1, 2, 1, 2), [Trap(SemOpen(0, 0)), Trap(SemOpen(1, 0)), Trap(SemClose(0))]);
    RunFour(Boot(1, 2, 1, 2), Trap(SemOpen(0, 0)), Trap(SemOpen(1, 0)), Trap(SemClose(0)), Tick);
    OpensFirst();
    CreatesSecond();
    ClosesFirst();
    assert ById(OneAbandoned().table, [1], 1) == Some(1);
    ClosesOpened(OneAbandoned(), 1, 0);
  }
}
