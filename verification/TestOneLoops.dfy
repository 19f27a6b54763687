/** The two workers of the program's first test, brought by the kernel from
    start-up to the tops of their loops: a state in which the kernel shows the
    start of the step programs, and the consumer is exposed. */
module TestOneLoops {
  import opened Lists
  import opened KernelState
  import opened ProcessInvariants
  import opened KernelInvariants
  import opened KernelSteps
  import opened SemaphoreTheorems
  import opened OtherProcesses
  import opened TestOneRun
  import KernelBoot
  import BufferOnKernel
  import CS = CountingSemaphore
  import B = BoundedBuffer
  import BP = BoundedBufferProof
  import BL = BoundedBufferLiveness
  import BD = BoundedBufferDeadlock

  function ProducerStarts(): State {
    World(2, 1, [2], [0],
          [Father(Waiting, [1, 2], 4, [0, 1, 2, 3], Wait(0, 0), 2),
           Child(1, Running, 0, [], NoCall, 0),
           Child(2, Ready, 2, [4, 5], SemOpen(1, 5), 1)],
          Table(Semaphore(0, 0, [0, 4], []), Semaphore(1, 5, [1, 5], []), 6))
  }

  function FillOpen(): State {
    World(2, 1, [2], [0],
          [Father(Waiting, [1, 2], 4, [0, 1, 2, 3], Wait(0, 0), 2),
           Child(1, Running, 1, [6], SemOpen(0, 0), 0),
           Child(2, Ready, 2, [4, 5], SemOpen(1, 5), 1)],
          Table(Semaphore(0, 0, [0, 4, 6], []), Semaphore(1, 5, [1, 5], []), 7))
  }

  function AtLoops(): State {
    World(2, 1, [2], [0],
          [Father(Waiting, [1, 2], 4, [0, 1, 2, 3], Wait(0, 0), 2),
           Child(1, Running, 2, [6, 7], SemOpen(1, 5), 1),
           Child(2, Ready, 2, [4, 5], SemOpen(1, 5), 1)],
          Table(Semaphore(0, 0, [0, 4, 6], []), Semaphore(1, 5, [1, 5, 7], []), 8))
  }

  lemma StepSwitches()
    ensures Step(ConsumerOpensEmpty(), Tick) == ProducerStarts()
  {
    var s' := Step(ConsumerOpensEmpty(), Tick);
    assert s'.pcbs == ProducerStarts().pcbs;
  }

  lemma StepOpensFill()
    ensures Step(ProducerStarts(), Trap(SemOpen(0, 0))) == FillOpen()
  {
    var s' := Step(ProducerStarts(), Trap(SemOpen(0, 0)));
    assert ById(ProducerStarts().table, [0, 1, 2, 3], 0) == Some(0);
    assert Held(s', 1) == [6];
    assert SemAt(s'.table, 0).descriptors == [0, 4, 6];
    assert s'.pcbs == FillOpen().pcbs;
    assert s'.table.sems == FillOpen().table.sems;
    assert s'.table.descs == FillOpen().table.descs;
    assert s'.table.freeDescs == FillOpen().table.freeDescs;
  }

  lemma StepOpensEmpty()
    ensures Step(FillOpen(), Trap(SemOpen(1, 5))) == AtLoops()
  {
    var s' := Step(FillOpen(), Trap(SemOpen(1, 5)));
    assert BySemnum(FillOpen().table, [6], 1) == None;
    assert ById(FillOpen().table, [0, 1, 2, 3], 1) == Some(1);
    assert Held(s', 1) == [6, 7];
    assert SemAt(s'.table, 1).descriptors == [1, 5, 7];
    assert s'.pcbs == AtLoops().pcbs;
    assert s'.table.sems == AtLoops().table.sems;
    assert s'.table.descs == AtLoops().table.descs;
    assert s'.table.freeDescs == AtLoops().table.freeDescs;
  }

  /** The consumer opens its semaphores, is interrupted, and the producer opens
      its own. */
  const ENTERING: seq<Label> :=
    [Trap(SemOpen(0, 0)), Trap(SemOpen(1, 5)), Tick, Trap(SemOpen(0, 0)), Trap(SemOpen(1, 5))]

  lemma Entered()
    ensures Run(Boot(3, 4, 8, 16), OPENING + STARTING + ENTERING) == AtLoops()
  {
    var four, last := ENTERING[..4], ENTERING[4..];
    RunAppend(Boot(3, 4, 8, 16), OPENING + STARTING, ENTERING);
    Beginning();
    assert ENTERING == four + last;
    RunAppend(ConsumerStarts(), four, last);
    RunFour(ConsumerStarts(), four[0], four[1], four[2], four[3]);
    StepConsumerOpensFill();
    StepConsumerOpensEmpty();
    StepSwitches();
    StepOpensFill();
    StepOpensEmpty();
    assert Run(FillOpen(), last) == Step(FillOpen(), last[0]);
  }

  // ----- What the workers see -----

  const LAYOUT := BufferOnKernel.Layout([BufferOnKernel.Seat(1, 1, 0, 0), BufferOnKernel.Seat(2, 0, 0, 1)], 0, 1, 2, 3)

  /** A producer of `p` rounds and a consumer of `c` rounds before the first. */
  function Programs(p: nat, c: nat): B.State {
    B.State(B.Sems(CS.Sem(0, []), CS.Sem(5, []), CS.Sem(1, []), CS.Sem(1, [])),
            B.Buffer([0, 0, 0, 0, 0], 0, 0),
            [B.Worker(B.Producer, false, 1, p, p, B.LoopTop(p), 0, 1, None),
             B.Worker(B.Consumer, false, 2, c, c, B.LoopTop(c), 0, 1, None)],
            [], 0)
  }

  lemma NumbersAtLoops()
    ensures NumberOf(AtLoops(), 1, 0) == Some(0) && NumberOf(AtLoops(), 1, 1) == Some(1)
    ensures NumberOf(AtLoops(), 2, 0) == Some(0) && NumberOf(AtLoops(), 2, 1) == Some(1)
  {
    LookupProducer(AtLoops().table);
    var t := AtLoops().table;
    assert DescAt(t, 4) == Desc(2, 0, 0) && DescAt(t, 5) == Desc(2, 1, 1);
    assert ByFd(t, [5], 1) == Some(5);
    assert ByFd(t, [4, 5], 1) == Some(5) by { assert [4, 5][1..] == [5]; }
  }

  lemma SemsAtLoops(p: nat, c: nat, name: B.SemName)
    ensures BufferOnKernel.SemShown(AtLoops(), Programs(p, c), LAYOUT, name)
  {
    var m := BufferOnKernel.SemOf(LAYOUT, name);
    assert SemAt(AtLoops().table, m).waiting == [] && m in AtLoops().table.list;
    assert B.Get(Programs(p, c).sems, name).queue == [];
    assert BufferOnKernel.Seen(LAYOUT, B.Get(Programs(p, c).sems, name)).queue == [];
  }

  lemma ShownAtLoops(p: nat, c: nat)
    requires Inv(AtLoops())
    ensures BufferOnKernel.Shows(AtLoops(), Programs(p, c), LAYOUT)
  {
    NumbersAtLoops();
    forall name ensures BufferOnKernel.SemShown(AtLoops(), Programs(p, c), LAYOUT, name) {
      SemsAtLoops(p, c, name);
    }
  }

  lemma InvAtLoops()
    ensures Run(Boot(3, 4, 8, 16), OPENING + STARTING + ENTERING) == AtLoops() && Inv(AtLoops())
  {
    Entered();
    KernelBoot.Reachable(3, 4, 8, 16, OPENING + STARTING + ENTERING);
  }

  lemma PreparedAtLoops(p: nat, c: nat)
    ensures B.Initial(Programs(p, c), 5) && BP.Guarded(Programs(p, c).workers)
    ensures BD.Prepared(Programs(p, c)) <==> c == 0 && p <= 5
  {
    WorkOf(p, c, B.Producer);
    WorkOf(p, c, B.Consumer);
    assert !BD.Exposed(Programs(p, c), 0);
    assert BD.Exposed(Programs(p, c), 1) <==> c > 0;
  }

  lemma WorkOf(p: nat, c: nat, r: B.Role)
    ensures BL.Work(Programs(p, c), r) == if r == B.Producer then p else c
  {
    var ws := Programs(p, c).workers;
    assert ws[1..] == [ws[1]];
    assert B.Total(B.Quota(r), [ws[1]]) == B.Weight(B.Quota(r), ws[1]) + B.Total(B.Quota(r), []);
  }

  /** The kernel brings the workers of the first test, with any numbers of rounds,
      to the start of their programs; with the values that their last semOpen
      returned they are prepared exactly if the consumer has nothing to do and
      the producer's items fit the buffer. */
  lemma LoopsAreReachable(p: nat, c: nat)
    ensures BufferOnKernel.Shows(Run(Boot(3, 4, 8, 16), OPENING + STARTING + ENTERING), Programs(p, c), LAYOUT)
    ensures B.Initial(Programs(p, c), 5) && BP.Guarded(Programs(p, c).workers)
    ensures BD.Prepared(Programs(p, c)) <==> c == 0 && p <= 5
  {
    InvAtLoops();
    ShownAtLoops(p, c);
    PreparedAtLoops(p, c);
  }
}
