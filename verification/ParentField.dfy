/** Parent fields always point into the process pool, also those of orphans,
    which outlive their parents: exit reads whatever block is there. */
module ParentField {
  import opened Lists
  import opened KernelState
  import opened ProcessInvariants
  import opened KernelInvariants
  import opened FamilyProofs
  import opened KernelSteps
  import opened ProcessTheorems

  ghost predicate ParentsInPool(s: State) {
    forall a: Addr {:trigger ParentOf(s, a)} :: ParentOf(s, a).Some? ==> ParentOf(s, a).value < |s.pcbs|
  }

  lemma QuietParents(s: State, s': State)
    requires ParentsInPool(s) && Quiet(s, s')
    ensures ParentsInPool(s')
  {
    QuietRelations(s, s');
  }

  lemma SpawnParents(s: State)
    requires ParentsInPool(s) && s.running < |s.pcbs|
    ensures ParentsInPool(DoSpawn(s))
  {
    forall a: Addr
      ensures ParentOf(DoSpawn(s), a) == ParentOf(s, a) || ParentOf(DoSpawn(s), a) == Some(s.running)
    {
    }
  }

  lemma ExitParents(s: State, value: int)
    requires ParentsInPool(s)
    ensures ParentsInPool(DoExit(s, value))
  {
    forall a: Addr ensures ParentOf(DoExit(s, value), a) == ParentOf(s, a) && |DoExit(s, value).pcbs| == |s.pcbs| {
      ExitParent(s, value, a);
    }
  }

  lemma ExitParent(s: State, value: int, a: Addr)
    ensures ParentOf(DoExit(s, value), a) == ParentOf(s, a) && |DoExit(s, value).pcbs| == |s.pcbs|
  {
  }

  lemma WaitParents(s: State, pid: int, result: int)
    requires ParentsInPool(s)
    ensures ParentsInPool(DoWait(s, pid, result))
  {
    var s' := DoWait(s, pid, result);
    forall a: Addr ensures ParentOf(s', a) == ParentOf(s, a) && |s'.pcbs| == |s.pcbs| {
    }
  }

  /** Every step keeps parent fields in the pool. */
  lemma StepParents(s: State, l: Label)
    requires Inv(s) && ParentsInPool(s)
    ensures ParentsInPool(Step(s, l))
  {
    match l {
      case Tick =>
        QuietSchedule(s.(time := s.time + 1));
        QuietParents(s, Step(s, l));
      case Trap(call) =>
        Exclusive(s, s.running);
        QuietParents(s, Record(s, call));
        CallParents(Record(s, call), call);
    }
  }

  lemma CallParents(s: State, call: Call)
    requires ParentsInPool(s) && s.running < |s.pcbs|
    ensures ParentsInPool(Dispatch(s, call))
  {
    match call {
      case Preempt => QuietSchedule(s); QuietParents(s, Schedule(s));
      case Fork => SpawnParents(s);
      case Spawn => SpawnParents(s);
      case Wait(pid, result) => WaitParents(s, pid, result);
      case Exit(value) => ExitParents(s, value);
      case _ => QuietCall(s, call); QuietParents(s, Dispatch(s, call));
    }
  }
}
