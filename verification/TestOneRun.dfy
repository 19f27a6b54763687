/** The program's first test, one producer and one consumer, run on the kernel
    into a deadlock. The consumer opens its semaphores, asks for an item and
    blocks; the 0 that semWait returns goes to the producer. When the consumer
    runs again it reads what its last semOpen returned, 1, takes that for an
    error and exits. The producer fills the buffer and blocks with nobody left. */
module TestOneRun {
  import opened Lists
  import opened KernelState
  import opened ProcessInvariants
  import opened KernelInvariants
  import opened KernelSteps

  // ----- The states of the run -----

  /** Blocks 0, 1 and 2 of the process pool hold the father, the producer and the
      consumer; semaphores 0 to 3 are fill, empty, me1 and me2. */
  function World(
      time: int, running: Addr, ready: seq<Addr>, waiting: seq<Addr>, pcbs: seq<Pcb>, table: SemTable): State
  {
    State(Active, time, 3, 0, running, ready, waiting, [], [], 3, pcbs, [], 1, table, map[], [])
  }

  function Father(status: Status, kids: seq<Addr>, fds: nat, held: seq<Addr>, call: Call, retvalue: int): Pcb {
    Pcb(0, 0, status, None, kids, fds, held, call, retvalue)
  }

  function Child(pid: int, status: Status, fds: nat, held: seq<Addr>, call: Call, retvalue: int): Pcb {
    Pcb(pid, 0, status, Some(0), [], fds, held, call, retvalue)
  }

  /** The descriptor blocks, in the order in which they are handed out. */
  const DESCS: seq<Desc> := [
    Desc(0, 0, 0), Desc(0, 1, 1), Desc(0, 2, 2), Desc(0, 3, 3),
    Desc(2, 0, 0), Desc(2, 1, 1), Desc(1, 0, 0), Desc(1, 1, 1)]

  /** The first `n` of them are in use. */
  function Descs(n: nat): seq<Desc> { seq(8, i requires 0 <= i < 8 => if i < n then DESCS[i] else Desc(0, 0, 0)) }

  function Table(fill: Semaphore, empty: Semaphore, n: nat): SemTable
    requires n <= 8
  {
    SemTable([0, 1, 2, 3], [fill, empty, Semaphore(2, 1, [2], []), Semaphore(3, 1, [3], [])], [],
             Descs(n), seq(8 - n, i => n + i), 16 - 2 * n)
  }

  function FatherOpensFill(): State {
    World(0, 0, [], [],
          [Father(Running, [], 1, [0], SemOpen(0, 0), 0),
           ZEROED,
           ZEROED],
          SemTable([0],
                   [Semaphore(0, 0, [0], []), Semaphore(0, 0, [], []), Semaphore(0, 0, [], []),
                    Semaphore(0, 0, [], [])],
                   [1, 2, 3], Descs(1), [1, 2, 3, 4, 5, 6, 7], 14)).(lastPid := 1, freePcbs := [1, 2], freePcbPtrs := 3)
  }

  function FatherOpensEmpty(): State {
    World(0, 0, [], [],
          [Father(Running, [], 2, [0, 1], SemOpen(1, 5), 1),
           ZEROED,
           ZEROED],
          SemTable([0, 1],
                   [Semaphore(0, 0, [0], []), Semaphore(1, 5, [1], []), Semaphore(0, 0, [], []),
                    Semaphore(0, 0, [], [])],
                   [2, 3], Descs(2), [2, 3, 4, 5, 6, 7], 12)).(lastPid := 1, freePcbs := [1, 2], freePcbPtrs := 3)
  }

  function FatherOpensMe1(): State {
    World(0, 0, [], [],
          [Father(Running, [], 3, [0, 1, 2], SemOpen(2, 1), 2),
           ZEROED,
           ZEROED],
          SemTable([0, 1, 2],
                   [Semaphore(0, 0, [0], []), Semaphore(1, 5, [1], []), Semaphore(2, 1, [2], []),
                    Semaphore(0, 0, [], [])],
                   [3], Descs(3), [3, 4, 5, 6, 7], 10)).(lastPid := 1, freePcbs := [1, 2], freePcbPtrs := 3)
  }

  function FatherOpensMe2(): State {
    World(0, 0, [], [],
          [Father(Running, [], 4, [0, 1, 2, 3], SemOpen(3, 1), 3),
           ZEROED,
           ZEROED],
          Table(Semaphore(0, 0, [0], []), Semaphore(1, 5, [1], []), 4)
         ).(lastPid := 1, freePcbs := [1, 2], freePcbPtrs := 3)
  }

  function FatherSpawnsProducer(): State {
    World(0, 0, [1], [],
          [Father(Running, [1], 4, [0, 1, 2, 3], Spawn, 1),
           Child(1, Ready, 0, [], NoCall, 0),
           ZEROED],
          Table(Semaphore(0, 0, [0], []), Semaphore(1, 5, [1], []), 4)
         ).(lastPid := 2, freePcbs := [2], freePcbPtrs := 2)
  }

  function FatherSpawnsConsumer(): State {
    World(0, 0, [1, 2], [],
          [Father(Running, [1, 2], 4, [0, 1, 2, 3], Spawn, 2),
           Child(1, Ready, 0, [], NoCall, 0),
           Child(2, Ready, 0, [], NoCall, 0)],
          Table(Semaphore(0, 0, [0], []), Semaphore(1, 5, [1], []), 4))
  }

  function FatherWaits(): State {
    World(0, 1, [2], [0],
          [Father(Waiting, [1, 2], 4, [0, 1, 2, 3], Wait(0, 0), 2),
           Child(1, Ready, 0, [], NoCall, 0),
           Child(2, Ready, 0, [], NoCall, 0)],
          Table(Semaphore(0, 0, [0], []), Semaphore(1, 5, [1], []), 4))
  }

  function ConsumerStarts(): State {
    World(1, 2, [1], [0],
          [Father(Waiting, [1, 2], 4, [0, 1, 2, 3], Wait(0, 0), 2),
           Child(1, Ready, 0, [], NoCall, 0),
           Child(2, Running, 0, [], NoCall, 0)],
          Table(Semaphore(0, 0, [0], []), Semaphore(1, 5, [1], []), 4))
  }

  function ConsumerOpensFill(): State {
    World(1, 2, [1], [0],
          [Father(Waiting, [1, 2], 4, [0, 1, 2, 3], Wait(0, 0), 2),
           Child(1, Ready, 0, [], NoCall, 0),
           Child(2, Running, 1, [4], SemOpen(0, 0), 0)],
          Table(Semaphore(0, 0, [0, 4], []), Semaphore(1, 5, [1], []), 5))
  }

  function ConsumerOpensEmpty(): State {
    World(1, 2, [1], [0],
          [Father(Waiting, [1, 2], 4, [0, 1, 2, 3], Wait(0, 0), 2),
           Child(1, Ready, 0, [], NoCall, 0),
           Child(2, Running, 2, [4, 5], SemOpen(1, 5), 1)],
          Table(Semaphore(0, 0, [0, 4], []), Semaphore(1, 5, [1, 5], []), 6))
  }

  function ConsumerBlocks(): State {
    World(1, 1, [], [0, 2],
          [Father(Waiting, [1, 2], 4, [0, 1, 2, 3], Wait(0, 0), 2),
           Child(1, Ready, 0, [], NoCall, 0),
           Child(2, Waiting, 2, [4, 5], SemWait(0), 1)],
          Table(Semaphore(0, -1, [0, 4], [4]), Semaphore(1, 5, [1, 5], []), 6))
  }

  function ProducerOpensFill(): State {
    World(1, 1, [], [0, 2],
          [Father(Waiting, [1, 2], 4, [0, 1, 2, 3], Wait(0, 0), 2),
           Child(1, Ready, 1, [6], SemOpen(0, 0), 0),
           Child(2, Waiting, 2, [4, 5], SemWait(0), 1)],
          Table(Semaphore(0, -1, [0, 4, 6], [4]), Semaphore(1, 5, [1, 5], []), 7))
  }

  function ProducerOpensEmpty(): State {
    World(1, 1, [], [0, 2],
          [Father(Waiting, [1, 2], 4, [0, 1, 2, 3], Wait(0, 0), 2),
           Child(1, Ready, 2, [6, 7], SemOpen(1, 5), 1),
           Child(2, Waiting, 2, [4, 5], SemWait(0), 1)],
          Table(Semaphore(0, -1, [0, 4, 6], [4]), Semaphore(1, 5, [1, 5, 7], []), 8))
  }

  function ProducerTakesPlace(): State {
    World(1, 1, [], [0, 2],
          [Father(Waiting, [1, 2], 4, [0, 1, 2, 3], Wait(0, 0), 2),
           Child(1, Ready, 2, [6, 7], SemWait(1), 0),
           Child(2, Waiting, 2, [4, 5], SemWait(0), 1)],
          Table(Semaphore(0, -1, [0, 4, 6], [4]), Semaphore(1, 4, [1, 5, 7], []), 8))
  }

  function ProducerPosts(): State {
    World(1, 1, [2], [0],
          [Father(Waiting, [1, 2], 4, [0, 1, 2, 3], Wait(0, 0), 2),
           Child(1, Ready, 2, [6, 7], SemPost(0), 0),
           Child(2, Ready, 2, [4, 5], SemWait(0), 1)],
          Table(Semaphore(0, 0, [0, 4, 6], []), Semaphore(1, 4, [1, 5, 7], []), 8))
  }

  function ConsumerResumes(): State {
    World(2, 2, [1], [0],
          [Father(Waiting, [1, 2], 4, [0, 1, 2, 3], Wait(0, 0), 2),
           Child(1, Ready, 2, [6, 7], SemPost(0), 0),
           Child(2, Running, 2, [4, 5], SemWait(0), 1)],
          Table(Semaphore(0, 0, [0, 4, 6], []), Semaphore(1, 4, [1, 5, 7], []), 8))
  }

  function ConsumerExits(): State {
    World(2, 0, [1], [],
          [Father(Running, [1], 4, [0, 1, 2, 3], Wait(0, 0), 2),
           Child(1, Ready, 2, [6, 7], SemPost(0), 0),
           Child(2, Zombie, 2, [4, 5], Exit(3), 1).(returnValue := 3)],
          Table(Semaphore(0, 0, [0, 4, 6], []), Semaphore(1, 4, [1, 5, 7], []), 8)
         ).(freePcbs := [2], exits := map[2 := 3], delivered := [Delivery(0, 2, None)])
  }

  /** The producer has filled `k` more places. */
  function Filled(k: nat): State
    requires k <= 4
  {
    World(2, 1, [], [0],
          [Father(Waiting, [1], 4, [0, 1, 2, 3], Wait(0, 0), 2),
           Child(1, Ready, 2, [6, 7], SemPost(0), 0),
           Child(2, Zombie, 2, [4, 5], Exit(3), 1).(returnValue := 3)],
          Table(Semaphore(0, k, [0, 4, 6], []), Semaphore(1, 4 - k, [1, 5, 7], []), 8)
         ).(freePcbs := [2], exits := map[2 := 3], delivered := [Delivery(0, 2, None)])
  }

  // ----- Step by step -----

  lemma StepFatherOpensFill()
    ensures Step(Boot(3, 4, 8, 16), Trap(SemOpen(0, 0))) == FatherOpensFill()
  {
    var s' := Step(Boot(3, 4, 8, 16), Trap(SemOpen(0, 0)));
    assert Boot(3, 4, 8, 16).pcbs == [ZEROED.(status := Running), ZEROED, ZEROED];
    assert Held(s', 0) == [0];
    assert SemAt(s'.table, 0).descriptors == [0];
    assert s'.pcbs == FatherOpensFill().pcbs;
    assert s'.table.sems == FatherOpensFill().table.sems;
    assert s'.table.freeDescs == FatherOpensFill().table.freeDescs;
  }

  lemma StepFatherOpensEmpty()
    ensures Step(FatherOpensFill(), Trap(SemOpen(1, 5))) == FatherOpensEmpty()
  {
    var s' := Step(FatherOpensFill(), Trap(SemOpen(1, 5)));
    assert BySemnum(FatherOpensFill().table, [0], 1) == None;
    assert ById(FatherOpensFill().table, [0], 1) == None;
    assert Held(s', 0) == [0, 1];
    assert SemAt(s'.table, 1).descriptors == [1];
    assert s'.pcbs == FatherOpensEmpty().pcbs;
    assert s'.table.sems == FatherOpensEmpty().table.sems;
    assert s'.table.descs == FatherOpensEmpty().table.descs;
    assert s'.table.freeDescs == FatherOpensEmpty().table.freeDescs;
  }

  lemma StepFatherOpensMe1()
    ensures Step(FatherOpensEmpty(), Trap(SemOpen(2, 1))) == FatherOpensMe1()
  {
    var s' := Step(FatherOpensEmpty(), Trap(SemOpen(2, 1)));
    assert BySemnum(FatherOpensEmpty().table, [0, 1], 2) == None;
    assert ById(FatherOpensEmpty().table, [1], 2) == None;
    assert ById(FatherOpensEmpty().table, [0, 1], 2) == None;
    assert Held(s', 0) == [0, 1, 2];
    assert SemAt(s'.table, 2).descriptors == [2];
    assert s'.pcbs == FatherOpensMe1().pcbs;
    assert s'.table.sems == FatherOpensMe1().table.sems;
    assert s'.table.descs == FatherOpensMe1().table.descs;
    assert s'.table.freeDescs == FatherOpensMe1().table.freeDescs;
  }

  lemma StepFatherOpensMe2()
    ensures Step(FatherOpensMe1(), Trap(SemOpen(3, 1))) == FatherOpensMe2()
  {
    var s' := Step(FatherOpensMe1(), Trap(SemOpen(3, 1)));
    assert BySemnum(FatherOpensMe1().table, [1, 2], 3) == None;
    assert BySemnum(FatherOpensMe1().table, [0, 1, 2], 3) == None;
    assert ById(FatherOpensMe1().table, [2], 3) == None;
    assert ById(FatherOpensMe1().table, [1, 2], 3) == None;
    assert ById(FatherOpensMe1().table, [0, 1, 2], 3) == None;
    assert Held(s', 0) == [0, 1, 2, 3];
    assert SemAt(s'.table, 3).descriptors == [3];
    assert s'.pcbs == FatherOpensMe2().pcbs;
    assert s'.table.sems == FatherOpensMe2().table.sems;
    assert s'.table.descs == FatherOpensMe2().table.descs;
    assert s'.table.freeDescs == FatherOpensMe2().table.freeDescs;
  }

  lemma StepFatherSpawnsProducer()
    ensures Step(FatherOpensMe2(), Trap(Spawn)) == FatherSpawnsProducer()
  {
    var s' := Step(FatherOpensMe2(), Trap(Spawn));
    assert Kids(s', 0) == [1];
    assert s'.pcbs == FatherSpawnsProducer().pcbs;
  }

  lemma StepFatherSpawnsConsumer()
    ensures Step(FatherSpawnsProducer(), Trap(Spawn)) == FatherSpawnsConsumer()
  {
    var s' := Step(FatherSpawnsProducer(), Trap(Spawn));
    assert Kids(s', 0) == [1, 2];
    assert s'.pcbs == FatherSpawnsConsumer().pcbs;
  }

  lemma StepFatherWaits()
    ensures Step(FatherSpawnsConsumer(), Trap(Wait(0, 0))) == FatherWaits()
  {
    var s' := Step(FatherSpawnsConsumer(), Trap(Wait(0, 0)));
    assert s'.pcbs == FatherWaits().pcbs;
  }

  lemma StepConsumerStarts()
    ensures Step(FatherWaits(), Tick) == ConsumerStarts()
  {
    var s' := Step(FatherWaits(), Tick);
    assert s'.pcbs == ConsumerStarts().pcbs;
  }

  lemma StepConsumerOpensFill()
    ensures Step(ConsumerStarts(), Trap(SemOpen(0, 0))) == ConsumerOpensFill()
  {
    var s' := Step(ConsumerStarts(), Trap(SemOpen(0, 0)));
    assert ById(ConsumerStarts().table, [0, 1, 2, 3], 0) == Some(0);
    assert Held(s', 2) == [4];
    assert SemAt(s'.table, 0).descriptors == [0, 4];
    assert s'.pcbs == ConsumerOpensFill().pcbs;
    assert s'.table.sems == ConsumerOpensFill().table.sems;
    assert s'.table.descs == ConsumerOpensFill().table.descs;
    assert s'.table.freeDescs == ConsumerOpensFill().table.freeDescs;
  }

  lemma StepConsumerOpensEmpty()
    ensures Step(ConsumerOpensFill(), Trap(SemOpen(1, 5))) == ConsumerOpensEmpty()
  {
    var s' := Step(ConsumerOpensFill(), Trap(SemOpen(1, 5)));
    assert BySemnum(ConsumerOpensFill().table, [4], 1) == None;
    assert ById(ConsumerOpensFill().table, [0, 1, 2, 3], 1) == Some(1);
    assert Held(s', 2) == [4, 5];
    assert SemAt(s'.table, 1).descriptors == [1, 5];
    assert s'.pcbs == ConsumerOpensEmpty().pcbs;
    assert s'.table.sems == ConsumerOpensEmpty().table.sems;
    assert s'.table.descs == ConsumerOpensEmpty().table.descs;
    assert s'.table.freeDescs == ConsumerOpensEmpty().table.freeDescs;
  }

  lemma StepConsumerBlocks()
    ensures Step(ConsumerOpensEmpty(), Trap(SemWait(0))) == ConsumerBlocks()
  {
    var s' := Step(ConsumerOpensEmpty(), Trap(SemWait(0)));
    LookupConsumer(ConsumerOpensEmpty().table);
    assert SemAt(s'.table, 0).waiting == [4];
    assert s'.pcbs == ConsumerBlocks().pcbs;
    assert s'.table.sems == ConsumerBlocks().table.sems;
  }

  lemma StepProducerOpensFill()
    ensures Step(ConsumerBlocks(), Trap(SemOpen(0, 0))) == ProducerOpensFill()
  {
    var s' := Step(ConsumerBlocks(), Trap(SemOpen(0, 0)));
    assert ById(ConsumerBlocks().table, [0, 1, 2, 3], 0) == Some(0);
    assert Held(s', 1) == [6];
    assert SemAt(s'.table, 0).descriptors == [0, 4, 6];
    assert s'.pcbs == ProducerOpensFill().pcbs;
    assert s'.table.sems == ProducerOpensFill().table.sems;
    assert s'.table.descs == ProducerOpensFill().table.descs;
    assert s'.table.freeDescs == ProducerOpensFill().table.freeDescs;
  }

  lemma StepProducerOpensEmpty()
    ensures Step(ProducerOpensFill(), Trap(SemOpen(1, 5))) == ProducerOpensEmpty()
  {
    var s' := Step(ProducerOpensFill(), Trap(SemOpen(1, 5)));
    assert BySemnum(ProducerOpensFill().table, [6], 1) == None;
    assert ById(ProducerOpensFill().table, [0, 1, 2, 3], 1) == Some(1);
    assert Held(s', 1) == [6, 7];
    assert SemAt(s'.table, 1).descriptors == [1, 5, 7];
    assert s'.pcbs == ProducerOpensEmpty().pcbs;
    assert s'.table.sems == ProducerOpensEmpty().table.sems;
    assert s'.table.descs == ProducerOpensEmpty().table.descs;
    assert s'.table.freeDescs == ProducerOpensEmpty().table.freeDescs;
  }

  lemma StepProducerTakesPlace()
    ensures Step(ProducerOpensEmpty(), Trap(SemWait(1))) == ProducerTakesPlace()
  {
    var s' := Step(ProducerOpensEmpty(), Trap(SemWait(1)));
    LookupProducer(ProducerOpensEmpty().table);
    assert s'.pcbs == ProducerTakesPlace().pcbs;
    assert s'.table.sems == ProducerTakesPlace().table.sems;
  }

  lemma StepProducerPosts()
    ensures Step(ProducerTakesPlace(), Trap(SemPost(0))) == ProducerPosts()
  {
    var s' := Step(ProducerTakesPlace(), Trap(SemPost(0)));
    LookupProducer(ProducerTakesPlace().table);
    assert SemAt(s'.table, 0).waiting == [];
    assert s'.pcbs == ProducerPosts().pcbs;
    assert s'.table.sems == ProducerPosts().table.sems;
  }

  lemma StepConsumerResumes()
    ensures Step(ProducerPosts(), Tick) == ConsumerResumes()
  {
    var s' := Step(ProducerPosts(), Tick);
    assert s'.pcbs == ConsumerResumes().pcbs;
  }

  lemma StepConsumerExits()
    ensures Step(ConsumerResumes(), Trap(Exit(3))) == ConsumerExits()
  {
    var s' := Step(ConsumerResumes(), Trap(Exit(3)));
    assert Kids(s', 0) == [1];
    assert s'.pcbs == ConsumerExits().pcbs;
  }

  lemma StepFatherWaitsAgain()
    ensures Step(ConsumerExits(), Trap(Wait(0, 0))) == Filled(0)
  {
    var s' := Step(ConsumerExits(), Trap(Wait(0, 0)));
    assert s'.pcbs == Filled(0).pcbs;
  }

  /** One more round of the producer. */
  lemma FillsOne(k: nat)
    requires k < 4
    ensures Run(Filled(k), [Trap(SemWait(1)), Trap(SemPost(0))]) == Filled(k + 1)
  {
    var s1 := Step(Filled(k), Trap(SemWait(1)));
    var s2 := Step(s1, Trap(SemPost(0)));
    RunTwo(Filled(k), Trap(SemWait(1)), Trap(SemPost(0)));
    LookupProducer(Filled(k).table);
    LookupProducer(s1.table);
    assert s1.table.sems == Table(Semaphore(0, k, [0, 4, 6], []), Semaphore(1, 3 - k, [1, 5, 7], []), 8).sems;
    assert s2.table.sems == Filled(k + 1).table.sems;
    assert s2.pcbs == Filled(k + 1).pcbs;
  }

  lemma LastBlocks()
    ensures Step(Filled(4), Trap(SemWait(1))).mode == Deadlock
  {
    LookupProducer(Filled(4).table);
  }

  /** What the workers' descriptor numbers stand for. */
  lemma LookupProducer(t: SemTable)
    requires t.descs == Descs(8)
    ensures ByFd(t, [6, 7], 0) == Some(6) && ByFd(t, [6, 7], 1) == Some(7)
    ensures DescAt(t, 6) == Desc(1, 0, 0) && DescAt(t, 7) == Desc(1, 1, 1) && DescAt(t, 4).pcb == 2
  {
    assert [6, 7][1..] == [7];
  }

  lemma LookupConsumer(t: SemTable)
    requires t.descs == Descs(6)
    ensures ByFd(t, [4, 5], 0) == Some(4) && DescAt(t, 4) == Desc(2, 0, 0)
  {
  }

  // ----- The run -----

  /** Each process does what its code says: the father opens the four semaphores,
      spawns two workers and waits for both (initFunction); the consumer opens
      fill and empty, waits on fill, reads 1 and exits with its pid plus 1
      (ConsFunction2); the producer opens the same two and then waits on empty
      and posts fill, over and over (ProdFunction2). The two timer interrupts are
      the only choices made. */
  const OPENING: seq<Label> := [Trap(SemOpen(0, 0)), Trap(SemOpen(1, 5)), Trap(SemOpen(2, 1)), Trap(SemOpen(3, 1))]
  const STARTING: seq<Label> := [Trap(Spawn), Trap(Spawn), Trap(Wait(0, 0)), Tick]
  const BLOCKING: seq<Label> := [Trap(SemOpen(0, 0)), Trap(SemOpen(1, 5)), Trap(SemWait(0)), Trap(SemOpen(0, 0))]
  const PRODUCING: seq<Label> := [Trap(SemOpen(1, 5)), Trap(SemWait(1)), Trap(SemPost(0)), Tick]
  const LEAVING: seq<Label> := [Trap(Exit(3)), Trap(Wait(0, 0))]
  const ROUND: seq<Label> := [Trap(SemWait(1)), Trap(SemPost(0))]

  const UP_TO_RESUMPTION: seq<Label> := OPENING + STARTING + BLOCKING + PRODUCING
  const TEST_ONE: seq<Label> := UP_TO_RESUMPTION + (LEAVING + Rounds(4) + [Trap(SemWait(1))])

  lemma Beginning()
    ensures Run(Boot(3, 4, 8, 16), OPENING + STARTING) == ConsumerStarts()
  {
    RunAppend(Boot(3, 4, 8, 16), OPENING, STARTING);
    RunFour(Boot(3, 4, 8, 16), OPENING[0], OPENING[1], OPENING[2], OPENING[3]);
    StepFatherOpensFill();
    StepFatherOpensEmpty();
    StepFatherOpensMe1();
    StepFatherOpensMe2();
    RunFour(FatherOpensMe2(), STARTING[0], STARTING[1], STARTING[2], STARTING[3]);
    StepFatherSpawnsProducer();
    StepFatherSpawnsConsumer();
    StepFatherWaits();
    StepConsumerStarts();
  }

  lemma Middle()
    ensures Run(ConsumerStarts(), BLOCKING) == ProducerOpensFill()
    ensures Run(ProducerOpensFill(), PRODUCING) == ConsumerResumes()
  {
    RunFour(ConsumerStarts(), BLOCKING[0], BLOCKING[1], BLOCKING[2], BLOCKING[3]);
    StepConsumerOpensFill();
    StepConsumerOpensEmpty();
    StepConsumerBlocks();
    StepProducerOpensFill();
    RunFour(ProducerOpensFill(), PRODUCING[0], PRODUCING[1], PRODUCING[2], PRODUCING[3]);
    StepProducerOpensEmpty();
    StepProducerTakesPlace();
    StepProducerPosts();
    StepConsumerResumes();
  }

  /** The consumer comes back from its semWait on an open semaphore, released by
      the producer's post, and reads 1 where the call promises 0. */
  lemma ConsumerReadsOne()
    ensures var s := Run(Boot(3, 4, 8, 16), UP_TO_RESUMPTION);
            s.mode == Active && s.running == 2 && CallOf(s, 2) == SemWait(0) && Me(s).retvalue == 1
  {
    ResumesAt();
  }

  lemma ResumesAt()
    ensures Run(Boot(3, 4, 8, 16), UP_TO_RESUMPTION) == ConsumerResumes()
  {
    RunAppend(Boot(3, 4, 8, 16), OPENING + STARTING + BLOCKING, PRODUCING);
    RunAppend(Boot(3, 4, 8, 16), OPENING + STARTING, BLOCKING);
    Beginning();
    Middle();
  }

  lemma LeavesAt()
    ensures Run(ConsumerResumes(), LEAVING) == Filled(0)
  {
    RunTwo(ConsumerResumes(), LEAVING[0], LEAVING[1]);
    StepConsumerExits();
    StepFatherWaitsAgain();
  }

  function Rounds(k: nat): seq<Label> { if k == 0 then [] else Rounds(k - 1) + ROUND }

  lemma {:induction false} FillsUp(k: nat)
    requires k <= 4
    ensures Run(Filled(0), Rounds(k)) == Filled(k)
  {
    if k > 0 {
      RunAppend(Filled(0), Rounds(k - 1), ROUND);
      FillsUp(k - 1);
      FillsOne(k - 1);
    }
  }

  /** The run ends in the branch of semWait that finds no process to run. */
  lemma TestOneDeadlocks()
    ensures Run(Boot(3, 4, 8, 16), TEST_ONE).mode == Deadlock
  {
    RunAppend(Boot(3, 4, 8, 16), UP_TO_RESUMPTION, LEAVING + Rounds(4) + [Trap(SemWait(1))]);
    ResumesAt();
    RunAppend(ConsumerResumes(), LEAVING + Rounds(4), [Trap(SemWait(1))]);
    RunAppend(ConsumerResumes(), LEAVING, Rounds(4));
    LeavesAt();
    FillsUp(4);
    RunTwo(Filled(4), Trap(SemWait(1)), Tick);
    LastBlocks();
  }
}
