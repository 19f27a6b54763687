/** The system as it starts satisfies the invariants, so every run does. */
module KernelBoot {
  import opened Lists
  import opened KernelState
  import opened ProcessInvariants
  import opened KernelInvariants
  import opened KernelSteps

  lemma {:induction false} OccRange(n: nat, first: nat, a: Addr)
    ensures Occ(seq(n, i => i + first), a) == One(first <= a < first + n)
  {
    if n > 0 {
      assert seq(n, i => i + first) == seq(n - 1, i => i + first) + [n - 1 + first];
      OccRange(n - 1, first, a);
      OccAppend(seq(n - 1, i => i + first), n - 1 + first, a);
    }
  }

  lemma OccUpTo(n: nat, a: Addr)
    ensures Occ(seq(n, i => i), a) == One(a < n)
  {
    assert seq(n, i => i) == seq(n, i => i + 0);
    OccRange(n, 0, a);
  }

  lemma BootProcesses(procs: nat, sems: nat, descs: nat, ptrs: nat)
    requires procs > 0
    ensures ProcessesOk(Boot(procs, sems, descs, ptrs))
  {
    var s := Boot(procs, sems, descs, ptrs);
    forall a: Addr ensures Places(s, a) == One(a < |s.pcbs|) {
      OccRange(procs - 1, 1, a);
    }
  }

  lemma BootSemaphores(procs: nat, sems: nat, descs: nat, ptrs: nat)
    requires procs > 0
    ensures SemaphoresOk(Boot(procs, sems, descs, ptrs))
  {
    var s := Boot(procs, sems, descs, ptrs);
    forall a: Addr
      ensures Occ(s.table.freeSems, a) == One(a < sems)
      ensures Occ(s.table.freeDescs, a) == One(a < descs)
      ensures Held(s, a) == []
    {
      OccUpTo(sems, a);
      OccUpTo(descs, a);
    }
  }

  lemma BootGenealogy(procs: nat, sems: nat, descs: nat, ptrs: nat)
    requires procs > 0
    ensures GenealogyOk(Boot(procs, sems, descs, ptrs))
  {
    var s := Boot(procs, sems, descs, ptrs);
    forall a: Addr ensures Occupied(s, a) <==> a == 0 {
      OccRange(procs - 1, 1, a);
      OccIn(s.freePcbs, a);
    }
    assert forall a: Addr :: Kids(s, a) == [];
  }

  /** In every run from start-up, every state that has not halted satisfies all
      the invariants. */
  lemma Reachable(procs: nat, sems: nat, descs: nat, ptrs: nat, labels: seq<Label>)
    requires procs > 0
    ensures Run(Boot(procs, sems, descs, ptrs), labels).mode == Active ==>
              Inv(Run(Boot(procs, sems, descs, ptrs), labels))
  {
    BootProcesses(procs, sems, descs, ptrs);
    BootSemaphores(procs, sems, descs, ptrs);
    BootGenealogy(procs, sems, descs, ptrs);
    RunKeeps(Boot(procs, sems, descs, ptrs), labels);
  }
}
