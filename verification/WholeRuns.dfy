/** Whole runs from start-up. What is kept by every step but one kind is kept by
    exactly the runs without such a step: orphans, dangling descriptors and
    negative semaphores. Parent fields stay in the pool, and sleep lasts as long
    as it was asked to. */
module WholeRuns {
  import opened Lists
  import opened KernelState
  import opened ProcessInvariants
  import opened KernelInvariants
  import opened KernelSteps
  import opened KernelBoot
  import opened ProcessTheorems
  import opened CallTheorems
  import opened PoolAccounting
  import opened ParentField
  import opened SemaphoreTheorems
  import opened DescriptorTheorems

  /** `good` holds of every state of the run. */
  ghost predicate Throughout(s: State, labels: seq<Label>, good: State -> bool)
    decreases |labels|
  {
    good(s) && (labels != [] ==> Throughout(Step(s, labels[0]), labels[1..], good))
  }

  /** No step of the run is `bad`. */
  ghost predicate Never(s: State, labels: seq<Label>, bad: (State, Label) -> bool)
    decreases |labels|
  {
    labels != [] ==> !bad(s, labels[0]) && Never(Step(s, labels[0]), labels[1..], bad)
  }

  /** From steps to runs: what exactly the bad steps break holds throughout a run
      exactly if none of its steps is bad. */
  lemma {:induction false} ThroughoutExactly(s: State, labels: seq<Label>, good: State -> bool,
                                             bad: (State, Label) -> bool)
    requires Inv(s) && good(s) && Run(s, labels).mode == Active
    requires forall t: State, l: Label :: Inv(t) && good(t) && Step(t, l).mode == Active ==>
               (good(Step(t, l)) <==> !bad(t, l))
    ensures Throughout(s, labels, good) <==> Never(s, labels, bad)
    decreases |labels|
  {
    if labels != [] {
      var s' := Step(s, labels[0]);
      if s'.mode != Active {
        HaltedRun(s', labels[1..]);
      }
      StepKeeps(s, labels[0]);
      if good(s') {
        ThroughoutExactly(s', labels[1..], good, bad);
      }
    }
  }

  /** An exit of a process that has children. */
  predicate LeavesOrphans(s: State, l: Label) { l.Trap? && l.call.Exit? && Kids(s, s.running) != [] }

  /** An exit of a process that has descriptors. */
  predicate LeavesDescriptors(s: State, l: Label) { l.Trap? && l.call.Exit? && Held(s, s.running) != [] }

  /** The creation of a semaphore with a negative value. */
  predicate CreatesNegative(s: State, l: Label) {
    l.Trap? && l.call.SemOpen? && l.call.value < 0 && Creates(s, l.call.semnum)
  }

  ghost predicate QueuesBalance(s: State) { CountsOk(s.table) }

  lemma BootInv(procs: nat, sems: nat, descs: nat, ptrs: nat)
    requires procs > 0
    ensures Inv(Boot(procs, sems, descs, ptrs))
  {
    Reachable(procs, sems, descs, ptrs, []);
  }

  lemma BootOrphanFree(procs: nat, sems: nat, descs: nat, ptrs: nat)
    requires procs > 0
    ensures OrphanFree(Boot(procs, sems, descs, ptrs))
  {
    var s := Boot(procs, sems, descs, ptrs);
    forall c: Addr ensures Occupied(s, c) ==> c == s.init {
      OccRange(procs - 1, 1, c);
      OccIn(s.freePcbs, c);
    }
  }

  /** From start-up, there are no orphans throughout a run exactly if nobody in
      it exits before its children. */
  lemma OrphanFreeRuns(procs: nat, sems: nat, descs: nat, ptrs: nat, labels: seq<Label>)
    requires procs > 0 && Run(Boot(procs, sems, descs, ptrs), labels).mode == Active
    ensures Throughout(Boot(procs, sems, descs, ptrs), labels, OrphanFree)
            <==> Never(Boot(procs, sems, descs, ptrs), labels, LeavesOrphans)
  {
    BootInv(procs, sems, descs, ptrs);
    BootOrphanFree(procs, sems, descs, ptrs);
    forall t: State, l: Label | Inv(t) && OrphanFree(t) && Step(t, l).mode == Active
      ensures OrphanFree(Step(t, l)) <==> !LeavesOrphans(t, l)
    {
      OrphansExactly(t, l);
    }
    ThroughoutExactly(Boot(procs, sems, descs, ptrs), labels, OrphanFree, LeavesOrphans);
  }

  /** And then no exit is misdirected in any state of such a run. */
  lemma {:induction false} NeverMisdirected(s: State, labels: seq<Label>)
    requires Inv(s) && OrphanFree(s) && Never(s, labels, LeavesOrphans) && Run(s, labels).mode == Active
    ensures Inv(Run(s, labels)) && OrphanFree(Run(s, labels)) && !Misdirected(Run(s, labels))
    decreases |labels|
  {
    if labels == [] {
      OrphanFreeExits(s);
    } else {
      var s' := Step(s, labels[0]);
      if s'.mode != Active {
        HaltedRun(s', labels[1..]);
      }
      StepKeeps(s, labels[0]);
      OrphansExactly(s, labels[0]);
      NeverMisdirected(s', labels[1..]);
    }
  }

  /** From start-up, processes and semaphores agree on who has what open
      throughout a run exactly if nobody in it exits with a descriptor. */
  lemma AgreementRuns(procs: nat, sems: nat, descs: nat, ptrs: nat, labels: seq<Label>)
    requires procs > 0 && Run(Boot(procs, sems, descs, ptrs), labels).mode == Active
    ensures Throughout(Boot(procs, sems, descs, ptrs), labels, Agreement)
            <==> Never(Boot(procs, sems, descs, ptrs), labels, LeavesDescriptors)
  {
    BootInv(procs, sems, descs, ptrs);
    forall t: State, l: Label | Inv(t) && Agreement(t) && Step(t, l).mode == Active
      ensures Agreement(Step(t, l)) <==> !LeavesDescriptors(t, l)
    {
      AgreementExactly(t, l);
    }
    ThroughoutExactly(Boot(procs, sems, descs, ptrs), labels, Agreement, LeavesDescriptors);
  }

  /** From start-up, every queue is the deficit of its counter throughout a run
      exactly if no semaphore is created in it with a negative value. */
  lemma CountsRuns(procs: nat, sems: nat, descs: nat, ptrs: nat, labels: seq<Label>)
    requires procs > 0 && Run(Boot(procs, sems, descs, ptrs), labels).mode == Active
    ensures Throughout(Boot(procs, sems, descs, ptrs), labels, QueuesBalance)
            <==> Never(Boot(procs, sems, descs, ptrs), labels, CreatesNegative)
  {
    BootInv(procs, sems, descs, ptrs);
    forall t: State, l: Label | Inv(t) && CountsOk(t.table) && Step(t, l).mode == Active
      ensures CountsOk(Step(t, l).table) <==> !CreatesNegative(t, l)
    {
      CountsExactly(t, l);
    }
    ThroughoutExactly(Boot(procs, sems, descs, ptrs), labels, QueuesBalance, CreatesNegative);
  }

  lemma {:induction false} RunParents(s: State, labels: seq<Label>)
    requires Inv(s) && ParentsInPool(s)
    ensures ParentsInPool(Run(s, labels))
    decreases |labels|
  {
    if labels != [] {
      var s' := Step(s, labels[0]);
      StepParents(s, labels[0]);
      StepKeeps(s, labels[0]);
      if s'.mode == Active {
        RunParents(s', labels[1..]);
      } else {
        HaltedRun(s', labels[1..]);
      }
    }
  }

  /** From start-up, parent fields point into the pool in every state. */
  lemma ParentsAlways(procs: nat, sems: nat, descs: nat, ptrs: nat, labels: seq<Label>)
    requires procs > 0
    ensures ParentsInPool(Run(Boot(procs, sems, descs, ptrs), labels))
  {
    BootInv(procs, sems, descs, ptrs);
    RunParents(Boot(procs, sems, descs, ptrs), labels);
  }

  // ----- Sleep -----

  lemma {:induction false} RunStops(s: State, labels: seq<Label>, k: nat)
    requires k <= |labels| && Run(s, labels).mode == Active
    ensures Run(s, labels[..k]).mode == Active
  {
    assert labels == labels[..k] + labels[k..];
    RunAppend(s, labels[..k], labels[k..]);
    if Run(s, labels[..k]).mode != Active {
      HaltedRun(Run(s, labels[..k]), labels[k..]);
    }
  }

  /** The process is off the waiting list and `cycles` ticks have passed. */
  predicate Awake(s: State, a: Addr, since: int, cycles: int) {
    a !in s.waiting && IsLive(s, a) && if cycles > 0 then s.time == since + cycles else s.time <= since + 1
  }

  lemma SleepStarts(s: State, cycles: int)
    requires Inv(s) && s.freeTimers > 0 && Step(s, Trap(Sleep(cycles))).mode == Active
    ensures var s' := Step(s, Trap(Sleep(cycles)));
            && Inv(s') && Timer(s.time + cycles, s.running) in s'.timers && s.running in s'.waiting && s'.time == s.time
  {
    StepKeeps(s, Trap(Sleep(cycles)));
    SleepArms(Record(s, Sleep(cycles)), cycles);
    assert s.running in s.waiting + [s.running];
  }

  lemma SleepsOn(s: State, labels: seq<Label>, t: Timer)
    requires Inv(s) && t in s.timers && Run(s, labels).mode == Active
    ensures forall k :: 0 <= k <= |labels| && Run(s, labels[..k]).time < t.time ==> t.pcb in Run(s, labels[..k]).waiting
  {
    forall k | 0 <= k <= |labels| && Run(s, labels[..k]).time < t.time ensures t.pcb in Run(s, labels[..k]).waiting {
      RunStops(s, labels, k);
      SleepsUntilDue(s, labels[..k], t);
    }
  }

  /** Sleep keeps its promise, from start-up. A call of sleep is never refused: it
      suspends its caller, which is on the waiting list in every state until
      `cycles` ticks have passed, whatever the others do, and is off it in a state
      in which exactly that many have passed; if that number is not positive, at
      the first tick or before. */
  lemma SleepPromise(procs: nat, sems: nat, descs: nat, ptrs: nat, before: seq<Label>, cycles: int, rest: seq<Label>)
    requires procs > 0
    requires var s := Run(Boot(procs, sems, descs, ptrs), before);
             s.mode == Active && Run(Step(s, Trap(Sleep(cycles))), rest).mode == Active
    ensures var s := Run(Boot(procs, sems, descs, ptrs), before);
            var s' := Step(s, Trap(Sleep(cycles)));
            && s.running in s'.waiting
            && (forall k :: 0 <= k <= |rest| && Run(s', rest[..k]).time < s.time + cycles ==>
                  s.running in Run(s', rest[..k]).waiting)
            && (Run(s', rest).time >= s.time + cycles && Run(s', rest).time > s.time ==>
                  exists k :: 0 <= k <= |rest| && Awake(Run(s', rest[..k]), s.running, s.time, cycles))
  {
    var s := Run(Boot(procs, sems, descs, ptrs), before);
    Reachable(procs, sems, descs, ptrs, before);
    TimersSuffice(procs, sems, descs, ptrs, before);
    if Step(s, Trap(Sleep(cycles))).mode != Active {
      HaltedRun(Step(s, Trap(Sleep(cycles))), rest);
    }
    SleepKept(s, cycles, rest);
  }

  lemma SleepKept(s: State, cycles: int, rest: seq<Label>)
    requires Inv(s) && s.freeTimers > 0 && Step(s, Trap(Sleep(cycles))).mode == Active
    requires Run(Step(s, Trap(Sleep(cycles))), rest).mode == Active
    ensures var s' := Step(s, Trap(Sleep(cycles)));
            && s.running in s'.waiting
            && (forall k :: 0 <= k <= |rest| && Run(s', rest[..k]).time < s.time + cycles ==>
                  s.running in Run(s', rest[..k]).waiting)
            && (Run(s', rest).time >= s.time + cycles && Run(s', rest).time > s.time ==>
                  exists k :: 0 <= k <= |rest| && Awake(Run(s', rest[..k]), s.running, s.time, cycles))
  {
    var s' := Step(s, Trap(Sleep(cycles)));
    var t := Timer(s.time + cycles, s.running);
    SleepStarts(s, cycles);
    SleepsOn(s', rest, t);
    if Run(s', rest).time >= t.time && Run(s', rest).time > s.time {
      var k := WakesWhenDue(s', rest, t);
      assert Awake(Run(s', rest[..k]), s.running, s.time, cycles);
    }
  }
}
