/** The bounded-buffer workers as processes of the kernel. A worker's semaphore
    calls are traps of its process; between them it works on its own memory and
    on the buffer. Ticks and the calls of other processes come in between. Every
    such run is, seen from the workers, a run of the step programs. */
module BufferOnKernel {
  import opened Lists
  import opened KernelState
  import opened ProcessInvariants
  import opened KernelInvariants
  import opened ProcessProofs
  import opened SemaphoreProofs
  import opened KernelSteps
  import opened ProcessTheorems
  import opened SemaphoreTheorems
  import opened DescriptorTheorems
  import opened CallTheorems
  import opened NoStarvation
  import opened OtherProcesses
  import CS = CountingSemaphore
  import B = BoundedBuffer
  import BP = BoundedBufferProof
  import BL = BoundedBufferLiveness
  import BD = BoundedBufferDeadlock

  /** The block of a worker's process and its descriptor numbers. */
  datatype Seat = Seat(block: Addr, slot: int, mutex: int, item: int)

  /** Where the workers and their four semaphores are in the kernel. */
  datatype Layout = Layout(seats: seq<Seat>, fill: Addr, empty: Addr, me1: Addr, me2: Addr)

  datatype System = System(kernel: State, client: B.State)

  function SemOf(y: Layout, name: B.SemName): Addr {
    match name case Fill => y.fill case Empty => y.empty case Me1 => y.me1 case Me2 => y.me2
  }

  function BlockOf(y: Layout, i: nat): Addr { if i < |y.seats| then y.seats[i].block else 0 }

  predicate LayoutOk(y: Layout) {
    && (forall i, j :: 0 <= i < j < |y.seats| ==> y.seats[i].block != y.seats[j].block)
    && (forall a, b :: a != b ==> SemOf(y, a) != SemOf(y, b))
  }

  predicate Working(w: B.Worker) { w.pc != B.Finished && w.pc != B.GivenUp }

  // ----- How the kernel shows the workers' state -----

  /** The workers' processes in place of their numbers. */
  function Seen(y: Layout, sem: CS.Sem<nat>): CS.Sem<Addr> {
    CS.Sem(sem.count, seq(|sem.queue|, k requires 0 <= k < |sem.queue| => BlockOf(y, sem.queue[k])))
  }

  ghost predicate SemShown(k: State, c: B.State, y: Layout, name: B.SemName) {
    && SemOf(y, name) in k.table.list
    && View(k.table, SemOf(y, name)) == Seen(y, B.Get(c.sems, name))
    && forall i :: i in B.Get(c.sems, name).queue ==> i < |y.seats|
  }

  /** The descriptor numbers stand for the semaphores that the worker's code means. */
  predicate NumbersOk(k: State, y: Layout, seat: Seat, w: B.Worker) {
    && NumberOf(k, seat.block, seat.slot) == Some(SemOf(y, B.SlotOf(w.role)))
    && NumberOf(k, seat.block, seat.item) == Some(SemOf(y, B.ItemOf(w.role)))
    && (w.locked ==> NumberOf(k, seat.block, seat.mutex) == Some(SemOf(y, B.MutexOf(w.role))))
  }

  predicate WorkerShown(k: State, y: Layout, seat: Seat, w: B.Worker) {
    && IsLive(k, seat.block) && NumbersOk(k, y, seat, w)
    && w.ret == At(k.pcbs, seat.block).retvalue
    && (w.on.Some? <==> seat.block in k.waiting)
    && (seat.block in k.waiting ==> CallOf(k, seat.block).SemWait?)
  }

  ghost predicate WorkersShown(k: State, c: B.State, y: Layout) {
    && |c.workers| == |y.seats|
    && forall i {:trigger c.workers[i]} :: 0 <= i < |y.seats| && Working(c.workers[i]) ==>
         WorkerShown(k, y, y.seats[i], c.workers[i])
  }

  /** The semaphores are the four blocks, by `View`; the value a worker will test
      is its `retvalue` field, and it is blocked if it is in the waiting list. */
  ghost predicate Shows(k: State, c: B.State, y: Layout) {
    Inv(k) && LayoutOk(y) && WorkersShown(k, c, y) && forall name :: SemShown(k, c, y, name)
  }

  lemma SeenWait(y: Layout, sem: CS.Sem<nat>, i: nat)
    ensures Seen(y, CS.Wait(sem, i)) == CS.Wait(Seen(y, sem), BlockOf(y, i))
  {
  }

  lemma SeenPost(y: Layout, sem: CS.Sem<nat>)
    ensures Seen(y, CS.Post(sem)) == CS.Post(Seen(y, sem))
    ensures match CS.Released(sem)
            case None => CS.Released(Seen(y, sem)).None?
            case Some(i) => CS.Released(Seen(y, sem)) == Some(BlockOf(y, i)) && i in sem.queue
  {
    if sem.queue != [] {
      assert Seen(y, sem).queue[0] == BlockOf(y, sem.queue[0]);
    }
  }

  // ----- A worker's step, and the others' -----

  /** The worker whose process lives in block `a`. */
  function SeatOf(seats: seq<Seat>, a: Addr): (r: Option<nat>)
    ensures match r
            case Some(i) => i < |seats| && seats[i].block == a
            case None => forall i :: 0 <= i < |seats| ==> seats[i].block != a
  {
    if seats == [] then None
    else if seats[|seats| - 1].block == a then Some(|seats| - 1)
    else SeatOf(seats[..|seats| - 1], a)
  }

  /** The semaphore call that a worker makes next, if its next step is one. */
  function NextCall(seat: Seat, pc: B.Pc): Option<Call> {
    match pc
    case WaitSlot => Some(SemWait(seat.slot))
    case WaitMutex => Some(SemWait(seat.mutex))
    case PostMutex => Some(SemPost(seat.mutex))
    case PostItem => Some(SemPost(seat.item))
    case _ => None
  }

  /** A worker's step, or an event that concerns no worker. */
  datatype Move = Work | Event(l: Label)

  /** The running process is worker `i`, which has not left its loop. */
  predicate Runs(x: System, y: Layout, i: nat) {
    i < |y.seats| && i < |x.client.workers| && y.seats[i].block == x.kernel.running && Working(x.client.workers[i])
  }

  function KernelAfter(x: System, y: Layout, m: Move): State {
    match m
    case Event(l) => Step(x.kernel, l)
    case Work =>
      match SeatOf(y.seats, x.kernel.running)
      case None => x.kernel
      case Some(i) =>
        if !Runs(x, y, i) then x.kernel else
        match NextCall(y.seats[i], x.client.workers[i].pc)
        case None => x.kernel
        case Some(call) => Step(x.kernel, Trap(call))
  }

  /** The turn that a worker's step is: whoever runs after it is the one the
      kernel has switched to. */
  function TurnTaken(x: System, y: Layout, m: Move): Option<B.Turn> {
    match m
    case Event(_) => None
    case Work =>
      match SeatOf(y.seats, x.kernel.running)
      case None => None
      case Some(i) =>
        if Runs(x, y, i) then Some(B.Turn(i, SeatOf(y.seats, KernelAfter(x, y, m).running))) else None
  }

  /** A kernel that has halted runs nobody. */
  function After(x: System, y: Layout, m: Move): (r: System)
    requires |x.client.buf.cells| > 0
    ensures |r.client.buf.cells| > 0
  {
    if x.kernel.mode != Active then x else
    System(KernelAfter(x, y, m),
           B.Exec(x.client, match TurnTaken(x, y, m) case None => [] case Some(t) => [t]))
  }

  /** Events are timer interrupts and the calls of processes that are not, or no
      longer, in a worker's loop: none of them waits or posts, and none closes
      one of the four semaphores for good. */
  ghost predicate Allowed(x: System, y: Layout, m: Move) {
    match m
    case Work => true
    case Event(l) =>
      l.Trap? ==>
        && !(exists i :: Runs(x, y, i))
        && !l.call.SemWait? && !l.call.SemPost?
        && forall name :: SemOf(y, name) in Step(x.kernel, l).table.list
  }

  // ----- Events leave the workers alone -----

  lemma EventWorker(x: System, y: Layout, l: Label, i: nat)
    requires Shows(x.kernel, x.client, y) && Allowed(x, y, Event(l)) && Step(x.kernel, l).mode == Active
    requires i < |y.seats| && Working(x.client.workers[i])
    ensures WorkerShown(Step(x.kernel, l), y, y.seats[i], x.client.workers[i])
  {
    var k, k', seat, w := x.kernel, Step(x.kernel, l), y.seats[i], x.client.workers[i];
    var a := seat.block;
    assert WorkerShown(k, y, seat, w);
    if l.Trap? {
      assert !Runs(x, y, i);
    }
    LiveKept(k, l, a);
    NumbersKept(k, l, a, seat.slot);
    NumbersKept(k, l, a, seat.item);
    NumbersKept(k, l, a, seat.mutex);
    CallsKept(k, l, a);
    SleepsOnWaiting(k, l, a);
    EventReturn(x, y, l, a);
  }

  /** Nobody blocked on a semaphore is released by a step that is no post. */
  lemma SleepsOnWaiting(k: State, l: Label, a: Addr)
    requires Inv(k) && Step(k, l).mode == Active && (l.Trap? ==> a != k.running && !l.call.SemPost?)
    requires a in k.waiting ==> CallOf(k, a).SemWait?
    ensures a in Step(k, l).waiting <==> a in k.waiting
  {
    if a in k.waiting {
      StaysBlocked(k, l, a);
    } else if a in Step(k, l).waiting {
      WaitersKept(k, l, a);
    }
  }

  lemma StaysBlocked(k: State, l: Label, a: Addr)
    requires Inv(k) && Step(k, l).mode == Active && (l.Trap? ==> a != k.running && !l.call.SemPost?)
    requires a in k.waiting && CallOf(k, a).SemWait?
    ensures a in Step(k, l).waiting
  {
    match l {
      case Tick =>
        TimeAside(k);
        NotDue(k.(time := k.time + 1), a);
        ScheduleWakes(k.(time := k.time + 1), a);
      case Trap(call) =>
        RecordKeeps(k, call);
        CallBlocked(Record(k, call), call, a);
    }
  }

  lemma NotDue(k: State, a: Addr)
    requires Inv(k) && a in k.waiting && CallOf(k, a).SemWait?
    ensures a !in Due(k)
  {
    UniqueReason(k, a);
    OccIn(TimerPcbs(k.timers), a);
    WokenHaveTimers(k.timers, k.time, a);
  }

  lemma CallBlocked(k: State, call: Call, a: Addr)
    requires Inv(k) && Dispatch(k, call).mode == Active && !call.SemPost?
    requires a in k.waiting && CallOf(k, a).SemWait?
    ensures a in Dispatch(k, call).waiting
  {
    match call {
      case Preempt =>
        NotDue(k, a);
        ScheduleWakes(k, a);
      case Exit(value) => ExitBlocked(k, value, a);
      case _ =>
    }
  }

  /** The waiting parent to whom an exit reports is in a wait call. */
  lemma ExitBlocked(k: State, value: int, a: Addr)
    requires Inv(k) && DoExit(k, value).mode == Active && a != k.running
    requires a in k.waiting ==> CallOf(k, a).SemWait?
    ensures a in k.waiting ==> a in DoExit(k, value).waiting
    ensures At(DoExit(k, value).pcbs, a).retvalue == At(k.pcbs, a).retvalue
  {
    RunningCanDie(k);
    var p := Me(k).parent.value;
    if Answers(At(Die(k, value).pcbs, p), Me(k).pid) {
      AnsweredParent(k, value, p);
      OccDetach(k.waiting, p, a);
      OccIn(k.waiting, a);
      OccIn(Detach(k.waiting, p), a);
    }
  }

  lemma EventReturn(x: System, y: Layout, l: Label, a: Addr)
    requires Inv(x.kernel) && Allowed(x, y, Event(l)) && Step(x.kernel, l).mode == Active
    requires l.Trap? ==> a != x.kernel.running
    requires a in x.kernel.waiting ==> CallOf(x.kernel, a).SemWait?
    ensures At(Step(x.kernel, l).pcbs, a).retvalue == At(x.kernel.pcbs, a).retvalue
  {
    if At(Step(x.kernel, l).pcbs, a).retvalue != At(x.kernel.pcbs, a).retvalue {
      ReturnWritten(x.kernel, l, a);
      if l.Tick? {
        ScheduleReturns(x.kernel.(time := x.kernel.time + 1), a);
      } else {
        RecordKeeps(x.kernel, l.call);
        ExitBlocked(Record(x.kernel, l.call), l.call.value, a);
      }
    }
  }

  lemma EventSem(x: System, y: Layout, l: Label, name: B.SemName)
    requires Shows(x.kernel, x.client, y) && Allowed(x, y, Event(l)) && Step(x.kernel, l).mode == Active
    ensures SemShown(Step(x.kernel, l), x.client, y, name)
  {
    assert SemShown(x.kernel, x.client, y, name);
    StepRefines(x.kernel, l, SemOf(y, name));
    if l.Tick? {
      WakeLoopTable(x.kernel.(time := x.kernel.time + 1), None);
    }
  }

  /** A tick, or a call of a process that is no worker, changes nothing that the
      workers see. */
  lemma EventUnseen(x: System, y: Layout, l: Label)
    requires Shows(x.kernel, x.client, y) && Allowed(x, y, Event(l)) && Step(x.kernel, l).mode == Active
    ensures Shows(Step(x.kernel, l), x.client, y)
  {
    StepKeeps(x.kernel, l);
    forall name ensures SemShown(Step(x.kernel, l), x.client, y, name) {
      EventSem(x, y, l, name);
    }
    forall i | 0 <= i < |y.seats| && Working(x.client.workers[i])
      ensures WorkerShown(Step(x.kernel, l), y, y.seats[i], x.client.workers[i])
    {
      EventWorker(x, y, l, i);
    }
  }

  // ----- A worker's calls -----

  lemma KeptByCall(k: State, y: Layout, l: Label, seat: Seat, w: B.Worker)
    requires Inv(k) && Step(k, l).mode == Active && WorkerShown(k, y, seat, w)
    requires l.Trap? && (l.call.SemWait? || l.call.SemPost?)
    ensures IsLive(Step(k, l), seat.block) && NumbersOk(Step(k, l), y, seat, w)
    ensures seat.block != k.running ==> CallOf(Step(k, l), seat.block) == CallOf(k, seat.block)
  {
    LiveKept(k, l, seat.block);
    NumbersKept(k, l, seat.block, seat.slot);
    NumbersKept(k, l, seat.block, seat.item);
    NumbersKept(k, l, seat.block, seat.mutex);
    CallsKept(k, l, seat.block);
  }

  lemma WaitSems(k: State, c: B.State, y: Layout, i: nat, fd: int, to: B.SemName, next: B.Pc, name: B.SemName)
    requires Shows(k, c, y) && i < |y.seats| && y.seats[i].block == k.running
    requires Target(k, fd) == Some(SemOf(y, to)) && Step(k, Trap(SemWait(fd))).mode == Active
    ensures SemShown(Step(k, Trap(SemWait(fd))), B.SemWait(c, i, to, next), y, name)
  {
    assert SemShown(k, c, y, name) && SemShown(k, c, y, to);
    StepRefines(k, Trap(SemWait(fd)), SemOf(y, name));
    WaitSameList(Record(k, SemWait(fd)), fd);
    SeenWait(y, B.Get(c.sems, to), i);
  }

  /** What a wait does to the two lists and who runs then. */
  lemma WaitSwitches(k: State, fd: int, m: Addr)
    requires Inv(k) && Target(k, fd) == Some(m) && Step(k, Trap(SemWait(fd))).mode == Active
    ensures var k' := Step(k, Trap(SemWait(fd)));
            if View(k.table, m).count <= 0
            then k'.waiting == k.waiting + [k.running] && k'.running in k.ready && k'.running !in k'.waiting
              && k'.running != k.running
                 && At(k'.pcbs, k'.running).retvalue == 0
            else k'.waiting == k.waiting && k'.running == k.running && Me(k').retvalue == 0
  {
    var s := Record(k, SemWait(fd));
    RecordKeeps(k, SemWait(fd));
    RecordSame(k, SemWait(fd));
    WaitOutcome(s, fd, m);
    Exclusive(s, s.running);
    if View(k.table, m).count <= 0 {
      BlockedWaitMisreports(k, fd);
      Exclusive(s, s.ready[0]);
    }
  }

  /** The workers after a wait from which the kernel switches to `resumed`: when
      the wait blocks, that worker gets the 0. */
  function Waited(c: B.State, i: nat, to: B.SemName, next: B.Pc, resumed: Option<nat>): B.State
    requires i < |c.workers|
  {
    var c1 := B.SemWait(c, i, to, next);
    if B.Get(c.sems, to).count <= 0 then B.Resume(c1, resumed) else c1
  }

  /** What a wait does to a worker's process ... */
  lemma WaitSeat(k: State, y: Layout, fd: int, m: Addr, seat: Seat, w: B.Worker)
    requires Inv(k) && Target(k, fd) == Some(m) && Step(k, Trap(SemWait(fd))).mode == Active
    requires WorkerShown(k, y, seat, w)
    ensures var k' := Step(k, Trap(SemWait(fd)));
            var blocks := View(k.table, m).count <= 0;
            var a := seat.block;
            && IsLive(k', a) && NumbersOk(k', y, seat, w)
            && (a in k'.waiting <==> a in k.waiting || (blocks && a == k.running))
            && (a in k'.waiting ==> CallOf(k', a).SemWait?)
            && At(k'.pcbs, a).retvalue == (if a == k'.running && (blocks || a == k.running) then 0 else w.ret)
  {
    var l := Trap(SemWait(fd));
    var k' := Step(k, l);
    var a := seat.block;
    KeptByCall(k, y, l, seat, w);
    WaitSwitches(k, fd, m);
    Exclusive(k, k.running);
    CallsKept(k, l, a);
    if At(k'.pcbs, a).retvalue != At(k.pcbs, a).retvalue {
      ReturnWritten(k, l, a);
    }
  }

  lemma WaitedWorker(c: B.State, i: nat, to: B.SemName, next: B.Pc, resumed: Option<nat>, j: nat)
    requires i < |c.workers| && j < |c.workers| && B.Enabled(c.workers[i]) && Working(c.workers[j])
    ensures var w, w' := c.workers[j], Waited(c, i, to, next, resumed).workers[j];
            var blocks := B.Get(c.sems, to).count <= 0;
            && w'.role == w.role && w'.locked == w.locked
            && (w'.on.Some? <==> w.on.Some? || (blocks && i == j))
            && w'.ret == (if (if blocks then i != j && resumed == Some(j) && w.on.None? else i == j) then 0 else w.ret)
  {
  }

  /** ... which is what the program of its worker says: `w'` is `w` after the wait. */
  lemma WaitSeatShown(k: State, y: Layout, fd: int, m: Addr, seat: Seat, w: B.Worker, w': B.Worker)
    requires Inv(k) && Target(k, fd) == Some(m) && Step(k, Trap(SemWait(fd))).mode == Active
    requires WorkerShown(k, y, seat, w) && w'.role == w.role && w'.locked == w.locked
    requires var blocks := View(k.table, m).count <= 0;
             && (w'.on.Some? <==> w.on.Some? || (blocks && seat.block == k.running))
             && var heard := if blocks
                  then seat.block != k.running && seat.block == Step(k, Trap(SemWait(fd))).running && w.on.None?
                  else seat.block == k.running;
                w'.ret == if heard then 0 else w.ret
    ensures WorkerShown(Step(k, Trap(SemWait(fd))), y, seat, w')
  {
    WaitSeat(k, y, fd, m, seat, w);
    WaitSwitches(k, fd, m);
    NumbersAlike(Step(k, Trap(SemWait(fd))), y, seat, w, w');
  }

  lemma WaitWorker(k: State, c: B.State, y: Layout, i: nat, fd: int, to: B.SemName, next: B.Pc, j: nat)
    requires Shows(k, c, y) && i < |y.seats| && y.seats[i].block == k.running && Working(c.workers[i])
    requires Target(k, fd) == Some(SemOf(y, to)) && Step(k, Trap(SemWait(fd))).mode == Active
    requires j < |y.seats| && Working(c.workers[j])
    ensures var k' := Step(k, Trap(SemWait(fd)));
            WorkerShown(k', y, y.seats[j], Waited(c, i, to, next, SeatOf(y.seats, k'.running)).workers[j])
  {
    var resumed := SeatOf(y.seats, Step(k, Trap(SemWait(fd))).running);
    assert SemShown(k, c, y, to);
    assert WorkerShown(k, y, y.seats[j], c.workers[j]);
    RunningEnabled(k, c, y, i);
    WaitedWorker(c, i, to, next, resumed, j);
    SeatIs(y, i);
    SeatIs(y, j);
    WaitSeatShown(k, y, fd, SemOf(y, to), y.seats[j], c.workers[j], Waited(c, i, to, next, resumed).workers[j]);
  }

  lemma NumbersAlike(k: State, y: Layout, seat: Seat, w: B.Worker, w': B.Worker)
    requires NumbersOk(k, y, seat, w) && w'.role == w.role && w'.locked == w.locked
    ensures NumbersOk(k, y, seat, w')
  {
  }

  lemma RunningEnabled(k: State, c: B.State, y: Layout, i: nat)
    requires Shows(k, c, y) && i < |y.seats| && y.seats[i].block == k.running && Working(c.workers[i])
    ensures B.Enabled(c.workers[i])
  {
    assert WorkerShown(k, y, y.seats[i], c.workers[i]);
    Exclusive(k, k.running);
  }

  lemma PostSems(k: State, c: B.State, y: Layout, i: nat, fd: int, to: B.SemName, after: B.Worker, name: B.SemName)
    requires Shows(k, c, y) && i < |y.seats| && y.seats[i].block == k.running
    requires Target(k, fd) == Some(SemOf(y, to)) && Step(k, Trap(SemPost(fd))).mode == Active
    ensures SemShown(Step(k, Trap(SemPost(fd))), B.SemPost(c, i, to, after), y, name)
  {
    assert SemShown(k, c, y, name) && SemShown(k, c, y, to);
    StepRefines(k, Trap(SemPost(fd)), SemOf(y, name));
    PostSameList(Record(k, SemPost(fd)), fd);
    SeenPost(y, B.Get(c.sems, to));
    assert forall j :: j in CS.Post(B.Get(c.sems, to)).queue ==> j in B.Get(c.sems, to).queue;
  }

  /** A post takes the process it releases off the waiting list, and no other. */
  lemma PostWakes(k: State, fd: int, m: Addr, a: Addr)
    requires Inv(k) && Target(k, fd) == Some(m)
    ensures var k' := Step(k, Trap(SemPost(fd)));
            && (a in k'.waiting <==> a in k.waiting && CS.Released(View(k.table, m)) != Some(a))
            && k'.running == k.running && Me(k').retvalue == 0
  {
    var s := Record(k, SemPost(fd));
    RecordKeeps(k, SemPost(fd));
    RecordSame(k, SemPost(fd));
    PostOutcome(s, fd, m);
    ReleasedLeaves(s, fd, m, a);
  }

  lemma ReleasedLeaves(s: State, fd: int, m: Addr, a: Addr)
    requires Inv(s) && Target(s, fd) == Some(m)
    ensures a in DoSemPost(s, fd).waiting <==> a in s.waiting && CS.Released(View(s.table, m)) != Some(a)
  {
    var q := SemAt(s.table, m).waiting;
    OwnersLength(s.table, q);
    if SemAt(s.table, m).count < 0 && q != [] {
      var d := NamedDescriptor(s, fd);
      HeadWaits(s, m);
      var p := DescAt(s.table, q[0]).pcb;
      Exclusive(s, p);
      Exclusive(s, a);
      OccDetach(s.waiting, p, a);
      OccIn(s.waiting, a);
      OccIn(Detach(s.waiting, p), a);
    }
  }

  /** What a post does to a worker's process. */
  lemma PostSeat(k: State, y: Layout, fd: int, m: Addr, seat: Seat, w: B.Worker)
    requires Inv(k) && Target(k, fd) == Some(m) && Step(k, Trap(SemPost(fd))).mode == Active
    requires WorkerShown(k, y, seat, w)
    ensures var k' := Step(k, Trap(SemPost(fd)));
            var a := seat.block;
            && IsLive(k', a) && NumbersOk(k', y, seat, w)
            && (a in k'.waiting <==> a in k.waiting && CS.Released(View(k.table, m)) != Some(a))
            && (a in k'.waiting ==> CallOf(k', a).SemWait?)
            && At(k'.pcbs, a).retvalue == if a == k.running then 0 else w.ret
  {
    var l := Trap(SemPost(fd));
    var k' := Step(k, l);
    var a := seat.block;
    KeptByCall(k, y, l, seat, w);
    PostWakes(k, fd, m, a);
    Exclusive(k, k.running);
    if At(k'.pcbs, a).retvalue != At(k.pcbs, a).retvalue {
      ReturnWritten(k, l, a);
    }
  }

  lemma PostWorker(k: State, c: B.State, y: Layout, i: nat, fd: int, to: B.SemName, after: B.Worker, j: nat)
    requires Shows(k, c, y) && i < |y.seats| && y.seats[i].block == k.running && Working(c.workers[i])
    requires Target(k, fd) == Some(SemOf(y, to)) && Step(k, Trap(SemPost(fd))).mode == Active
    requires j < |y.seats| && Working(c.workers[j])
    requires after.role == c.workers[i].role && after.locked == c.workers[i].locked && after.ret == 0
             && after.on == None
    ensures WorkerShown(Step(k, Trap(SemPost(fd))), y, y.seats[j], B.SemPost(c, i, to, after).workers[j])
  {
    var seat, w, w' := y.seats[j], c.workers[j], B.SemPost(c, i, to, after).workers[j];
    assert SemShown(k, c, y, to);
    assert WorkerShown(k, y, seat, w);
    PostSeat(k, y, fd, SemOf(y, to), seat, w);
    SeenPost(y, B.Get(c.sems, to));
    RunningEnabled(k, c, y, i);
    NumbersAlike(Step(k, Trap(SemPost(fd))), y, seat, w, w');
  }

  // ----- A worker's step -----

  ghost predicate Joined(x: System, y: Layout) {
    Shows(x.kernel, x.client, y) && BP.Inv(x.client)
  }

  lemma ActBlocks(c: B.State, i: nat)
    requires |c.buf.cells| > 0 && i < |c.workers| && B.Enabled(c.workers[i])
    ensures B.Blocks(c, i) <==>
              || (c.workers[i].pc == B.WaitSlot && B.Get(c.sems, B.SlotOf(c.workers[i].role)).count <= 0)
              || (c.workers[i].pc == B.WaitMutex && B.Get(c.sems, B.MutexOf(c.workers[i].role)).count <= 0)
  {
  }

  lemma WaitedWorking(c: B.State, i: nat, to: B.SemName, next: B.Pc, resumed: Option<nat>)
    requires i < |c.workers| && Working(c.workers[i])
    ensures |Waited(c, i, to, next, resumed).workers| == |c.workers|
    ensures forall j :: 0 <= j < |c.workers| && Working(Waited(c, i, to, next, resumed).workers[j]) ==>
              Working(c.workers[j])
  {
  }

  lemma WaitJoins(x: System, y: Layout, i: nat, fd: int, to: B.SemName, next: B.Pc)
    requires Shows(x.kernel, x.client, y) && Runs(x, y, i)
    requires Target(x.kernel, fd) == Some(SemOf(y, to)) && Step(x.kernel, Trap(SemWait(fd))).mode == Active
    ensures var k' := Step(x.kernel, Trap(SemWait(fd)));
            Shows(k', Waited(x.client, i, to, next, SeatOf(y.seats, k'.running)), y)
  {
    var k' := Step(x.kernel, Trap(SemWait(fd)));
    var resumed := SeatOf(y.seats, k'.running);
    var c' := Waited(x.client, i, to, next, resumed);
    StepKeeps(x.kernel, Trap(SemWait(fd)));
    WaitedWorking(x.client, i, to, next, resumed);
    forall name ensures SemShown(k', c', y, name) {
      WaitSems(x.kernel, x.client, y, i, fd, to, next, name);
    }
    forall j | 0 <= j < |y.seats| && Working(c'.workers[j]) ensures WorkerShown(k', y, y.seats[j], c'.workers[j]) {
      WaitWorker(x.kernel, x.client, y, i, fd, to, next, j);
    }
  }

  lemma PostJoins(x: System, y: Layout, i: nat, fd: int, to: B.SemName, after: B.Worker)
    requires Shows(x.kernel, x.client, y) && Runs(x, y, i)
    requires Target(x.kernel, fd) == Some(SemOf(y, to)) && Step(x.kernel, Trap(SemPost(fd))).mode == Active
    requires after.role == x.client.workers[i].role && after.locked == x.client.workers[i].locked
    requires after.ret == 0 && after.on == None
    ensures Shows(Step(x.kernel, Trap(SemPost(fd))), B.SemPost(x.client, i, to, after), y)
  {
    var k', c' := Step(x.kernel, Trap(SemPost(fd))), B.SemPost(x.client, i, to, after);
    StepKeeps(x.kernel, Trap(SemPost(fd)));
    forall name ensures SemShown(k', c', y, name) {
      PostSems(x.kernel, x.client, y, i, fd, to, after, name);
    }
    forall j | 0 <= j < |y.seats| && Working(c'.workers[j]) ensures WorkerShown(k', y, y.seats[j], c'.workers[j]) {
      PostWorker(x.kernel, x.client, y, i, fd, to, after, j);
    }
  }

  lemma LocalJoins(x: System, y: Layout, i: nat)
    requires Shows(x.kernel, x.client, y) && Runs(x, y, i) && |x.client.buf.cells| > 0
    requires NextCall(y.seats[i], x.client.workers[i].pc) == None
    ensures Shows(x.kernel, B.Act(x.client, i), y)
  {
    var c' := B.Act(x.client, i);
    forall name ensures SemShown(x.kernel, c', y, name) {
      assert SemShown(x.kernel, x.client, y, name);
    }
    forall j | 0 <= j < |y.seats| && Working(c'.workers[j])
      ensures WorkerShown(x.kernel, y, y.seats[j], c'.workers[j])
    {
      LocalWorker(x.kernel, x.client, y, i, j);
    }
  }

  lemma LocalWorker(k: State, c: B.State, y: Layout, i: nat, j: nat)
    requires WorkersShown(k, c, y) && |c.buf.cells| > 0 && i < |c.workers| && j < |c.workers|
    requires NextCall(y.seats[i], c.workers[i].pc) == None
    requires Working(B.Act(c, i).workers[j])
    ensures WorkerShown(k, y, y.seats[j], B.Act(c, i).workers[j])
  {
    assert WorkerShown(k, y, y.seats[j], c.workers[j]);
    NumbersAlike(k, y, y.seats[j], c.workers[j], B.Act(c, i).workers[j]);
  }

  /** A worker's call names the semaphore its code means. */
  lemma CallTarget(x: System, y: Layout, i: nat)
    requires Joined(x, y) && Runs(x, y, i)
    ensures var seat, w := y.seats[i], x.client.workers[i];
            && Target(x.kernel, seat.slot) == Some(SemOf(y, B.SlotOf(w.role)))
            && Target(x.kernel, seat.item) == Some(SemOf(y, B.ItemOf(w.role)))
            && (w.pc == B.WaitMutex || w.pc == B.PostMutex ==>
                Target(x.kernel, seat.mutex) == Some(SemOf(y, B.MutexOf(w.role))))
  {
    assert WorkerShown(x.kernel, y, y.seats[i], x.client.workers[i]);
    assert BP.WorkerOk(x.client.workers[i]);
  }

  lemma ExecOne(c: B.State, t: B.Turn)
    requires |c.buf.cells| > 0
    ensures |B.Step(c, t).buf.cells| > 0 && B.Exec(c, [t]) == B.Step(c, t)
  {
    BL.ExecCons(c, t, []);
    assert [t] + [] == [t];
  }

  lemma SeatIs(y: Layout, i: nat)
    requires LayoutOk(y) && i < |y.seats|
    ensures SeatOf(y.seats, y.seats[i].block) == Some(i)
    ensures forall a :: SeatOf(y.seats, a) == Some(i) <==> a == y.seats[i].block
  {
  }

  lemma TurnWaits(c: B.State, i: nat, to: B.SemName, next: B.Pc, resumed: Option<nat>)
    requires |c.buf.cells| > 0 && i < |c.workers| && B.Enabled(c.workers[i])
    requires var w := c.workers[i];
             || (w.pc == B.WaitSlot && to == B.SlotOf(w.role) && next == B.CheckSlot)
             || (w.pc == B.WaitMutex && to == B.MutexOf(w.role) && next == B.CheckMutex)
    ensures B.Step(c, B.Turn(i, resumed)) == Waited(c, i, to, next, resumed)
  {
    ActBlocks(c, i);
  }

  lemma TurnShown(x: System, y: Layout, i: nat, t: B.Turn)
    requires Joined(x, y) && Runs(x, y, i) && KernelAfter(x, y, Work).mode == Active
    requires t == B.Turn(i, SeatOf(y.seats, KernelAfter(x, y, Work).running))
    ensures Shows(KernelAfter(x, y, Work), B.Step(x.client, t), y)
  {
    var c, seat := x.client, y.seats[i];
    var w := c.workers[i];
    SeatIs(y, i);
    RunningEnabled(x.kernel, c, y, i);
    CallTarget(x, y, i);
    match w.pc {
      case WaitSlot =>
        TurnWaits(c, i, B.SlotOf(w.role), B.CheckSlot, t.next);
        WaitJoins(x, y, i, seat.slot, B.SlotOf(w.role), B.CheckSlot);
      case WaitMutex =>
        TurnWaits(c, i, B.MutexOf(w.role), B.CheckMutex, t.next);
        WaitJoins(x, y, i, seat.mutex, B.MutexOf(w.role), B.CheckMutex);
      case PostMutex =>
        ActBlocks(c, i);
        PostJoins(x, y, i, seat.mutex, B.MutexOf(w.role), w.(pc := B.PostItem, ret := 0));
      case PostItem =>
        ActBlocks(c, i);
        var left := if w.left > 0 then w.left - 1 else 0;
        PostJoins(x, y, i, seat.item, B.ItemOf(w.role), w.(left := left, pc := B.LoopTop(left), ret := 0));
      case _ =>
        ActBlocks(c, i);
        LocalJoins(x, y, i);
    }
  }

  /** A worker's step, as the kernel runs it, is a turn of its program, from which
      the worker that the kernel has switched to, if any, takes over. */
  lemma WorkIsTurn(x: System, y: Layout, i: nat)
    requires Joined(x, y) && Runs(x, y, i) && KernelAfter(x, y, Work).mode == Active
    ensures Joined(After(x, y, Work), y)
  {
    var t := B.Turn(i, SeatOf(y.seats, KernelAfter(x, y, Work).running));
    SeatIs(y, i);
    ExecOne(x.client, t);
    BP.StepKeepsInv(x.client, t);
    TurnShown(x, y, i, t);
  }

  // ----- Deadlock -----

  /** The kernel halts at a worker's call exactly if the call blocks and the
      ready queue is empty. */
  lemma HaltsExactly(x: System, y: Layout, i: nat)
    requires Joined(x, y) && Runs(x, y, i)
    ensures var k' := KernelAfter(x, y, Work);
            && (k'.mode == Deadlock <==> B.Blocks(x.client, i) && x.kernel.ready == [])
            && (k'.mode != Deadlock ==> k'.mode == Active)
  {
    var seat, w := y.seats[i], x.client.workers[i];
    SeatIs(y, i);
    RunningEnabled(x.kernel, x.client, y, i);
    ActBlocks(x.client, i);
    CallTarget(x, y, i);
    match w.pc {
      case WaitSlot => WaitHalts(x, y, seat.slot, B.SlotOf(w.role));
      case WaitMutex => WaitHalts(x, y, seat.mutex, B.MutexOf(w.role));
      case PostMutex => PostRuns(x.kernel, seat.mutex);
      case PostItem => PostRuns(x.kernel, seat.item);
      case _ =>
    }
  }

  lemma WaitHalts(x: System, y: Layout, fd: int, to: B.SemName)
    requires Shows(x.kernel, x.client, y) && Target(x.kernel, fd) == Some(SemOf(y, to))
    ensures var k' := Step(x.kernel, Trap(SemWait(fd)));
            && (k'.mode == Deadlock <==> B.Get(x.client.sems, to).count <= 0 && x.kernel.ready == [])
            && (k'.mode != Deadlock ==> k'.mode == Active)
  {
    assert SemShown(x.kernel, x.client, y, to);
    RecordSame(x.kernel, SemWait(fd));
  }

  lemma PostRuns(k: State, fd: int)
    requires k.mode == Active
    ensures Step(k, Trap(SemPost(fd))).mode == Active
  {
  }

  /** Then nobody is left who could post. */
  lemma NobodyReady(x: System, y: Layout, i: nat, j: nat)
    requires Joined(x, y) && Runs(x, y, i) && x.kernel.ready == []
    requires j < |x.client.workers| && j != i
    ensures !B.Enabled(x.client.workers[j])
  {
    if Working(x.client.workers[j]) {
      assert WorkerShown(x.kernel, y, y.seats[j], x.client.workers[j]);
    }
  }

  // ----- Runs -----

  function Moves(x: System, y: Layout, moves: seq<Move>): (r: System)
    requires |x.client.buf.cells| > 0
    ensures |r.client.buf.cells| > 0
    decreases |moves|
  {
    if moves == [] then x else Moves(After(x, y, moves[0]), y, moves[1..])
  }

  ghost predicate AllAllowed(x: System, y: Layout, moves: seq<Move>)
    requires |x.client.buf.cells| > 0
    decreases |moves|
  {
    moves == [] || (Allowed(x, y, moves[0]) && AllAllowed(After(x, y, moves[0]), y, moves[1..]))
  }

  /** The turns that the workers take in a move, and in a run. */
  function TurnsIn(x: System, y: Layout, m: Move): seq<B.Turn> {
    if x.kernel.mode != Active then [] else match TurnTaken(x, y, m) case None => [] case Some(t) => [t]
  }

  function TurnsOf(x: System, y: Layout, moves: seq<Move>): seq<B.Turn>
    requires |x.client.buf.cells| > 0
    decreases |moves|
  {
    if moves == [] then [] else TurnsIn(x, y, moves[0]) + TurnsOf(After(x, y, moves[0]), y, moves[1..])
  }

  lemma MoveJoins(x: System, y: Layout, m: Move)
    requires Joined(x, y) && Allowed(x, y, m) && After(x, y, m).kernel.mode == Active
    ensures Joined(After(x, y, m), y)
  {
    match m {
      case Event(l) => EventUnseen(x, y, l);
      case Work =>
        match SeatOf(y.seats, x.kernel.running) {
          case None =>
          case Some(i) => if Runs(x, y, i) { WorkIsTurn(x, y, i); }
        }
    }
  }

  lemma ClientAfter(x: System, y: Layout, m: Move)
    requires |x.client.buf.cells| > 0
    ensures After(x, y, m).client == x.client || exists t: B.Turn :: After(x, y, m).client == B.Step(x.client, t)
  {
    match TurnTaken(x, y, m) {
      case None =>
      case Some(t) => ExecOne(x.client, t);
    }
  }

  lemma {:induction false} HaltedMoves(x: System, y: Layout, moves: seq<Move>)
    requires |x.client.buf.cells| > 0 && x.kernel.mode != Active
    ensures Moves(x, y, moves) == x && TurnsOf(x, y, moves) == []
    decreases |moves|
  {
    if moves != [] {
      HaltedMoves(x, y, moves[1..]);
    }
  }

  /** Every run of the kernel with workers in it, whatever allowed events come in
      between, is for the workers the run of their programs in which they take
      their turns in the same order; and all along the kernel shows the state
      that the programs have reached, with all the buffer's invariants. */
  lemma {:induction false} KernelRuns(x: System, y: Layout, moves: seq<Move>)
    requires Joined(x, y) && AllAllowed(x, y, moves)
    ensures Moves(x, y, moves).client == B.Exec(x.client, TurnsOf(x, y, moves))
    ensures Moves(x, y, moves).kernel.mode == Active ==> Joined(Moves(x, y, moves), y)
    decreases |moves|
  {
    if moves != [] {
      var x', rest := After(x, y, moves[0]), moves[1..];
      AfterIsExec(x, y, moves[0]);
      if x'.kernel.mode == Active {
        MoveJoins(x, y, moves[0]);
        KernelRuns(x', y, rest);
      } else {
        HaltedMoves(x', y, rest);
      }
      BD.ExecAppend(x.client, TurnsIn(x, y, moves[0]), TurnsOf(x', y, rest));
    }
  }

  lemma AfterIsExec(x: System, y: Layout, m: Move)
    requires |x.client.buf.cells| > 0
    ensures After(x, y, m).client == B.Exec(x.client, TurnsIn(x, y, m))
  {
  }

  /** No worker is exposed and the counts fit, now and hence later. */
  ghost predicate Sound(c: B.State) {
    BP.Inv(c) && BD.Careful(c) && BL.Fits(c)
  }

  lemma SoundAfter(x: System, y: Layout, m: Move)
    requires Sound(x.client)
    ensures Sound(After(x, y, m).client)
  {
    ClientAfter(x, y, m);
    var c' := After(x, y, m).client;
    if c' != x.client {
      var t: B.Turn :| c' == B.Step(x.client, t);
      BP.StepKeepsInv(x.client, t);
      BD.StepKeepsCareful(x.client, t);
      BL.StepKeepsWork(x.client, t, B.Producer);
      BL.StepKeepsWork(x.client, t, B.Consumer);
    }
  }

  lemma MoveNoDeadlock(x: System, y: Layout, m: Move)
    requires Joined(x, y) && Sound(x.client) && Allowed(x, y, m)
    ensures After(x, y, m).kernel.mode != Deadlock
  {
    match m {
      case Event(l) => EventNoDeadlock(x.kernel, l);
      case Work =>
        match SeatOf(y.seats, x.kernel.running) {
          case None =>
          case Some(i) =>
            if Runs(x, y, i) {
              HaltsExactly(x, y, i);
              if KernelAfter(x, y, Work).mode == Deadlock {
                BD.NeverLastToBlock(x.client, i);
                var j: nat :| j < |x.client.workers| && j != i && B.Enabled(x.client.workers[j]);
                NobodyReady(x, y, i, j);
              }
            }
        }
    }
  }

  lemma EventNoDeadlock(k: State, l: Label)
    requires k.mode == Active && (l.Trap? ==> !l.call.SemWait?)
    ensures Step(k, l).mode != Deadlock
  {
    match l {
      case Tick => ScheduleMode(k.(time := k.time + 1));
      case Trap(call) => CallNoDeadlock(Record(k, call), call);
    }
  }

  lemma CallNoDeadlock(s: State, call: Call)
    requires s.mode == Active && !call.SemWait?
    ensures Dispatch(s, call).mode != Deadlock
  {
    match call {
      case Preempt => ScheduleMode(s);
      case Exit(value) => ExitNoDeadlock(s, value);
      case SemOpen(semnum, value) => OpenMode(s, semnum, value);
      case _ =>
    }
  }

  lemma ExitNoDeadlock(s: State, value: int)
    requires s.mode == Active
    ensures DoExit(s, value).mode != Deadlock
  {
  }

  lemma OpenMode(s: State, semnum: int, value: int)
    ensures DoSemOpen(s, semnum, value).mode == s.mode
  {
  }

  lemma ScheduleMode(k: State)
    ensures Schedule(k).mode == k.mode
  {
    WakeLoopMode(k, None);
  }

  lemma {:induction false} WakeLoopMode(k: State, prev: Option<Addr>)
    ensures WakeLoop(k, prev).mode == k.mode
    decreases |k.timers|
  {
    if k.timers != [] && k.timers[0].time <= k.time {
      WakeLoopMode(WakeFirst(k, prev), Some(k.timers[0].pcb));
    }
  }

  lemma {:induction false} SoundRuns(x: System, y: Layout, moves: seq<Move>)
    requires Joined(x, y) && Sound(x.client) && AllAllowed(x, y, moves)
    ensures Moves(x, y, moves).kernel.mode != Deadlock && Sound(Moves(x, y, moves).client)
    decreases |moves|
  {
    if moves != [] {
      var x' := After(x, y, moves[0]);
      MoveNoDeadlock(x, y, moves[0]);
      SoundAfter(x, y, moves[0]);
      if x'.kernel.mode == Active {
        MoveJoins(x, y, moves[0]);
        SoundRuns(x', y, moves[1..]);
      } else {
        HaltedMoves(x', y, moves[1..]);
      }
    }
  }

  /** From a prepared start, no run of the kernel reaches the branch of semWait
      that finds no process to run, and in none does a worker give up. */
  lemma PreparedKernelRuns(x: System, y: Layout, moves: seq<Move>)
    requires B.Initial(x.client, |x.client.buf.cells|) && BP.Guarded(x.client.workers) && BD.Prepared(x.client)
    requires Shows(x.kernel, x.client, y) && AllAllowed(x, y, moves)
    ensures Moves(x, y, moves).kernel.mode != Deadlock && BD.Loyal(Moves(x, y, moves).client)
  {
    BL.InitialInv(x.client, |x.client.buf.cells|);
    BD.PreparedRuns(x.client, |x.client.buf.cells|, []);
    SoundRuns(x, y, moves);
    BD.CarefulIsLoyal(Moves(x, y, moves).client);
  }
}
