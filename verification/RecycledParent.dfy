/** Two runs from start-up about orphans. In one, exit dereferences a null pointer
    although init never exits and somebody is always ready: an orphan's parent
    field outlives its parent, whose block goes to a new process that happens to
    be waiting. In the other, init is blocked in wait and an orphan it has
    adopted dies, which wakes nobody. */
module RecycledParent {
  import opened Lists
  import opened KernelState
  import opened ProcessInvariants
  import opened KernelInvariants
  import opened KernelSteps
  import opened ProcessTheorems

  function P(pid: int, status: Status, parent: Option<Addr>, kids: seq<Addr>, call: Call, retvalue: int): Pcb {
    Pcb(pid, 0, status, parent, kids, 0, [], call, retvalue)
  }

  const NO_SEMS := SemTable([], [], [], [], [], 0)

  const ANY_CHILD := Wait(0, 0)

  /** The states of the run that follow the boot; blocks 0 to 3 hold init, then
      A, B, C (in A's old block) and D. */
  function Start(): State {
    State(Active, 0, 1, 0, 0, [], [], [], [], 4,
          [P(0, Running, None, [], NoCall, 0), ZEROED, ZEROED, ZEROED], [1, 2, 3], 4, NO_SEMS, map[], [])
  }

  function InitSpawnsA(): State {
    State(Active, 0, 2, 0, 0, [1], [], [], [], 4,
          [P(0, Running, None, [1], Spawn, 1), P(1, Ready, Some(0), [], NoCall, 0), ZEROED, ZEROED],
          [2, 3], 3, NO_SEMS, map[], [])
  }

  function InitWaits(): State {
    State(Active, 0, 2, 0, 1, [], [0], [], [], 4,
          [P(0, Waiting, None, [1], ANY_CHILD, 1), P(1, Ready, Some(0), [], NoCall, 0), ZEROED, ZEROED],
          [2, 3], 3, NO_SEMS, map[], [])
  }

  function ASpawnsB(): State {
    State(Active, 0, 3, 0, 1, [2], [0], [], [], 4,
          [P(0, Waiting, None, [1], ANY_CHILD, 1), P(1, Ready, Some(0), [2], Spawn, 2),
           P(2, Ready, Some(1), [], NoCall, 0), ZEROED],
          [3], 2, NO_SEMS, map[], [])
  }

  function AExits(): State {
    State(Active, 0, 3, 0, 0, [2], [], [], [], 4,
          [P(0, Running, None, [2], ANY_CHILD, 1), P(1, Zombie, Some(0), [], Exit(0), 2),
           P(2, Ready, Some(1), [], NoCall, 0), ZEROED],
          [1, 3], 2, NO_SEMS, map[1 := 0], [Delivery(0, 1, None)])
  }

  function InitSpawnsC(): State {
    State(Active, 0, 4, 0, 0, [2, 1], [], [], [], 4,
          [P(0, Running, None, [2, 1], Spawn, 3), P(3, Ready, Some(0), [], Exit(0), 2),
           P(2, Ready, Some(1), [], NoCall, 0), ZEROED],
          [3], 1, NO_SEMS, map[1 := 0], [Delivery(0, 1, None)])
  }

  function InitWaitsAgain(): State {
    State(Active, 0, 4, 0, 2, [1], [0], [], [], 4,
          [P(0, Waiting, None, [2, 1], ANY_CHILD, 3), P(3, Ready, Some(0), [], Exit(0), 2),
           P(2, Ready, Some(1), [], NoCall, 0), ZEROED],
          [3], 1, NO_SEMS, map[1 := 0], [Delivery(0, 1, None)])
  }

  function BYields(): State {
    State(Active, 0, 4, 0, 1, [2], [0], [], [], 4,
          [P(0, Waiting, None, [2, 1], ANY_CHILD, 3), P(3, Running, Some(0), [], Exit(0), 2),
           P(2, Ready, Some(1), [], Preempt, 0), ZEROED],
          [3], 1, NO_SEMS, map[1 := 0], [Delivery(0, 1, None)])
  }

  function CSpawnsD(): State {
    State(Active, 0, 5, 0, 1, [2, 3], [0], [], [], 4,
          [P(0, Waiting, None, [2, 1], ANY_CHILD, 3), P(3, Running, Some(0), [3], Spawn, 4),
           P(2, Ready, Some(1), [], Preempt, 0),
           P(4, Ready, Some(1), [], NoCall, 0)],
          [], 0, NO_SEMS, map[1 := 0], [Delivery(0, 1, None)])
  }

  function CWaits(): State {
    State(Active, 0, 5, 0, 2, [3], [0, 1], [], [], 4,
          [P(0, Waiting, None, [2, 1], ANY_CHILD, 3), P(3, Waiting, Some(0), [3], ANY_CHILD, 4),
           P(2, Ready, Some(1), [], Preempt, 0),
           P(4, Ready, Some(1), [], NoCall, 0)],
          [], 0, NO_SEMS, map[1 := 0], [Delivery(0, 1, None)])
  }

  lemma Booted()
    ensures Boot(4, 0, 0, 0) == Start()
  {
    assert Boot(4, 0, 0, 0).pcbs == Start().pcbs;
    assert Boot(4, 0, 0, 0).freePcbs == Start().freePcbs;
    assert Boot(4, 0, 0, 0).table == NO_SEMS;
  }

  lemma Step1()
    ensures Step(Start(), Trap(Spawn)) == InitSpawnsA()
  {
    assert Kids(Step(Start(), Trap(Spawn)), 0) == Kids(InitSpawnsA(), 0);
    assert Step(Start(), Trap(Spawn)).pcbs == InitSpawnsA().pcbs;
  }

  lemma Step2()
    ensures Step(InitSpawnsA(), Trap(ANY_CHILD)) == InitWaits()
  {
    assert Step(InitSpawnsA(), Trap(ANY_CHILD)).pcbs == InitWaits().pcbs;
  }

  lemma Step3()
    ensures Step(InitWaits(), Trap(Spawn)) == ASpawnsB()
  {
    assert Kids(Step(InitWaits(), Trap(Spawn)), 1) == Kids(ASpawnsB(), 1);
    assert Step(InitWaits(), Trap(Spawn)).pcbs == ASpawnsB().pcbs;
  }

  lemma Step4()
    ensures Step(ASpawnsB(), Trap(Exit(0))) == AExits()
  {
    assert Step(ASpawnsB(), Trap(Exit(0))).pcbs == AExits().pcbs;
  }

  lemma Step5()
    ensures Step(AExits(), Trap(Spawn)) == InitSpawnsC()
  {
    assert Kids(Step(AExits(), Trap(Spawn)), 0) == Kids(InitSpawnsC(), 0);
    assert Step(AExits(), Trap(Spawn)).pcbs == InitSpawnsC().pcbs;
  }

  lemma Step6()
    ensures Step(InitSpawnsC(), Trap(ANY_CHILD)) == InitWaitsAgain()
  {
    assert Step(InitSpawnsC(), Trap(ANY_CHILD)).pcbs == InitWaitsAgain().pcbs;
  }

  lemma Step7()
    ensures Step(InitWaitsAgain(), Trap(Preempt)) == BYields()
  {
    assert Step(InitWaitsAgain(), Trap(Preempt)).pcbs == BYields().pcbs;
  }

  lemma Step8()
    ensures Step(BYields(), Trap(Spawn)) == CSpawnsD()
  {
    assert Kids(Step(BYields(), Trap(Spawn)), 1) == Kids(CSpawnsD(), 1);
    assert Step(BYields(), Trap(Spawn)).pcbs == CSpawnsD().pcbs;
  }

  lemma Step9()
    ensures Step(CSpawnsD(), Trap(ANY_CHILD)) == CWaits()
  {
    assert Step(CSpawnsD(), Trap(ANY_CHILD)).pcbs == CWaits().pcbs;
  }

  lemma Step10()
    ensures Misdirected(CWaits()) && Step(CWaits(), Trap(Exit(7))).mode == Fault
  {
  }

  const CALLS: seq<Label> := [
    Trap(Spawn), Trap(ANY_CHILD), Trap(Spawn), Trap(Exit(0)), Trap(Spawn),
    Trap(ANY_CHILD), Trap(Preempt), Trap(Spawn), Trap(ANY_CHILD), Trap(Exit(7))]

  lemma RunFrom(s: State, k: nat)
    requires k < |CALLS|
    ensures Run(s, CALLS[k..]) == Run(Step(s, CALLS[k]), CALLS[k + 1..])
  {
    assert CALLS[k..] == [CALLS[k]] + CALLS[k + 1..];
    RunCons(s, CALLS[k], CALLS[k + 1..]);
  }

  lemma FirstHalf()
    ensures Run(Boot(4, 0, 0, 0), CALLS) == Run(InitSpawnsC(), CALLS[5..])
  {
    Booted();
    assert CALLS[0..] == CALLS;
    RunFrom(Start(), 0); Step1();
    RunFrom(InitSpawnsA(), 1); Step2();
    RunFrom(InitWaits(), 2); Step3();
    RunFrom(ASpawnsB(), 3); Step4();
    RunFrom(AExits(), 4); Step5();
  }

  lemma SecondHalf()
    ensures Run(InitSpawnsC(), CALLS[5..]) == Step(CWaits(), Trap(Exit(7)))
  {
    RunFrom(InitSpawnsC(), 5); Step6();
    RunFrom(InitWaitsAgain(), 6); Step7();
    RunFrom(BYields(), 7); Step8();
    RunFrom(CSpawnsD(), 8); Step9();
    RunFrom(CWaits(), 9);
  }

  /** The run: init spawns A and waits, A spawns B and exits, init spawns C in
      A's block and waits, C spawns D and waits for it, and B exits. */
  lemma MisdirectedExitIsReachable()
    ensures Run(Boot(4, 0, 0, 0), CALLS).mode == Fault
    ensures CWaits().running != CWaits().init && CWaits().ready != [] && Misdirected(CWaits())
  {
    FirstHalf();
    SecondHalf();
    Step10();
  }

  // ----- The death of an orphan -----

  /** init waits for B, which it has adopted. */
  function InitWaitsForB(): State {
    State(Active, 0, 3, 0, 2, [], [0], [], [], 4,
          [P(0, Waiting, None, [2], ANY_CHILD, 1), P(1, Zombie, Some(0), [], Exit(0), 2),
           P(2, Ready, Some(1), [], NoCall, 0), ZEROED],
          [1, 3], 2, NO_SEMS, map[1 := 0], [Delivery(0, 1, None)])
  }

  /** B has a child, in A's old block, so that somebody is ready. */
  function BSpawnsC(): State {
    State(Active, 0, 4, 0, 2, [1], [0], [], [], 4,
          [P(0, Waiting, None, [2], ANY_CHILD, 1), P(3, Ready, Some(2), [], Exit(0), 2),
           P(2, Ready, Some(1), [1], Spawn, 3), ZEROED],
          [3], 1, NO_SEMS, map[1 := 0], [Delivery(0, 1, None)])
  }

  lemma InitWaitsStep()
    ensures Step(AExits(), Trap(ANY_CHILD)) == InitWaitsForB()
  {
    assert Step(AExits(), Trap(ANY_CHILD)).pcbs == InitWaitsForB().pcbs;
  }

  lemma BSpawnsStep()
    ensures Step(InitWaitsForB(), Trap(Spawn)) == BSpawnsC()
  {
    assert Kids(Step(InitWaitsForB(), Trap(Spawn)), 2) == Kids(BSpawnsC(), 2);
    assert Step(InitWaitsForB(), Trap(Spawn)).pcbs == BSpawnsC().pcbs;
  }

  lemma BExitsStep()
    ensures var s := Step(BSpawnsC(), Trap(Exit(7)));
            && s.mode == Active && s.init in s.waiting && 2 in s.zombies
            && 2 in Kids(s, s.init) && WaitsFor(s, s.init, 2)
  {
    assert Kids(Step(BSpawnsC(), Trap(Exit(7))), 0) == [2, 1];
  }

  const ORPHAN: seq<Label> := [
    Trap(Spawn), Trap(ANY_CHILD), Trap(Spawn), Trap(Exit(0)),
    Trap(ANY_CHILD), Trap(Spawn), Trap(Exit(7))]

  /** init spawns A and waits, A spawns B and exits, init waits for B, B spawns C
      and exits: init, waiting for any child, holds a zombie and stays blocked. */
  lemma UnannouncedDeathIsReachable()
    ensures var s := Run(Boot(4, 0, 0, 0), ORPHAN);
            && s.mode == Active && s.init in s.waiting && 2 in s.zombies
            && 2 in Kids(s, s.init) && WaitsFor(s, s.init, 2)
  {
    var first := [Trap(Spawn), Trap(ANY_CHILD), Trap(Spawn), Trap(Exit(0))];
    var rest := [Trap(ANY_CHILD), Trap(Spawn), Trap(Exit(7))];
    assert ORPHAN == first + rest;
    RunAppend(Boot(4, 0, 0, 0), first, rest);
    Booted();
    RunFour(Start(), first[0], first[1], first[2], first[3]);
    Step1();
    Step2();
    Step3();
    Step4();
    RunFour(AExits(), rest[0], rest[1], rest[2], Tick);
    InitWaitsStep();
    BSpawnsStep();
    BExitsStep();
  }
}
