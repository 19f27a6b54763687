/** What the kernel's semaphores promise their users: over every step and run each
    open one is a FIFO counting semaphore, a new one starts empty, and the queues
    are the deficits of the counters exactly as long as no value is negative. */
module SemaphoreTheorems {
  import opened Lists
  import opened KernelState
  import opened ProcessInvariants
  import opened KernelInvariants
  import opened ProcessProofs
  import opened SemaphoreProofs
  import opened KernelSteps
  import CS = CountingSemaphore

  // ----- Each semaphore is a counting semaphore -----

  function Owners(t: SemTable, ds: seq<Addr>): seq<Addr> {
    if ds == [] then [] else [DescAt(t, ds[0]).pcb] + Owners(t, ds[1..])
  }

  /** A semaphore as its users see it: its counter and the blocked processes. */
  function View(t: SemTable, m: Addr): CS.Sem<Addr> {
    CS.Sem(SemAt(t, m).count, Owners(t, SemAt(t, m).waiting))
  }

  /** The semaphore on which the running process's descriptor `fd` acts. */
  function Target(s: State, fd: int): Option<Addr> {
    match ByFd(s.table, Held(s, s.running), fd)
    case None => None
    case Some(d) => Some(DescAt(s.table, d).sem)
  }

  /** What a step does to semaphore `m`, if anything. */
  function OpOf(s: State, l: Label, m: Addr): Option<CS.Op<Addr>> {
    match l
    case Tick => None
    case Trap(call) =>
      match call
      case SemWait(fd) => if Target(s, fd) == Some(m) then Some(CS.DoWait(s.running)) else None
      case SemPost(fd) => if Target(s, fd) == Some(m) then Some(CS.DoPost) else None
      case _ => None
  }

  function Apply<P>(sem: CS.Sem<P>, op: Option<CS.Op<P>>): CS.Sem<P> {
    match op
    case None => sem
    case Some(DoWait(p)) => CS.Wait(sem, p)
    case Some(DoPost) => CS.Post(sem)
  }

  lemma {:induction false} OwnersFrame(t: SemTable, t': SemTable, ds: seq<Addr>)
    requires forall d :: d in ds ==> DescAt(t', d).pcb == DescAt(t, d).pcb
    ensures Owners(t', ds) == Owners(t, ds)
  {
    if ds != [] {
      assert ds[0] in ds;
      OwnersFrame(t, t', ds[1..]);
    }
  }

  lemma {:induction false} OwnersAppend(t: SemTable, ds: seq<Addr>, d: Addr)
    ensures Owners(t, ds + [d]) == Owners(t, ds) + [DescAt(t, d).pcb]
  {
    if ds != [] {
      assert (ds + [d])[1..] == ds[1..] + [d];
      OwnersAppend(t, ds[1..], d);
    }
  }

  lemma SameView(t: SemTable, t': SemTable, m: Addr)
    requires SemAt(t', m).count == SemAt(t, m).count && SemAt(t', m).waiting == SemAt(t, m).waiting
    requires forall d :: d in SemAt(t, m).waiting ==> DescAt(t', d).pcb == DescAt(t, d).pcb
    ensures View(t', m) == View(t, m)
  {
    OwnersFrame(t, t', SemAt(t, m).waiting);
  }

  lemma WaitView(s: State, fd: int, m: Addr)
    requires Inv(s) && m in s.table.list && DoSemWait(s, fd).mode == Active
    ensures View(DoSemWait(s, fd).table, m)
            == if Target(s, fd) == Some(m) then CS.Wait(View(s.table, m), s.running) else View(s.table, m)
  {
    var t' := DoSemWait(s, fd).table;
    if ByFd(s.table, Held(s, s.running), fd).Some? {
      var d := NamedDescriptor(s, fd);
      var sem := SemAt(s.table, DescAt(s.table, d).sem);
      if DescAt(s.table, d).sem != m {
        SameView(s.table, t', m);
      } else {
        OwnersFrame(s.table, t', SemAt(t', m).waiting);
        OwnersAppend(s.table, sem.waiting, d);
      }
    }
  }

  lemma PostView(s: State, fd: int, m: Addr)
    requires Inv(s) && m in s.table.list
    ensures View(DoSemPost(s, fd).table, m)
            == if Target(s, fd) == Some(m) then CS.Post(View(s.table, m)) else View(s.table, m)
  {
    var t' := DoSemPost(s, fd).table;
    if ByFd(s.table, Held(s, s.running), fd).Some? {
      var d := NamedDescriptor(s, fd);
      if DescAt(s.table, d).sem != m {
        SameView(s.table, t', m);
      } else {
        OwnersFrame(s.table, t', SemAt(t', m).waiting);
      }
    }
  }

  lemma CloseView(s: State, fd: int, m: Addr)
    requires m in s.table.list
    ensures View(DoSemClose(s, fd).table, m) == View(s.table, m)
  {
    SameView(s.table, DoSemClose(s, fd).table, m);
  }

  lemma OpenDescView(s: State, n: Addr, m: Addr)
    requires ListedOk(s.table) && m in s.table.list
    ensures View(OpenDesc(s, n).table, m) == View(s.table, m)
  {
    if s.table.freeDescs != [] {
      FreshDesc(s.table);
      assert forall d :: d in SemAt(s.table, m).waiting ==> d in SemAt(s.table, m).descriptors;
      SameView(s.table, OpenDesc(s, n).table, m);
    }
  }

  lemma OpenView(s: State, semnum: int, value: int, m: Addr)
    requires Inv(s) && m in s.table.list
    ensures View(DoSemOpen(s, semnum, value).table, m) == View(s.table, m)
  {
    if BySemnum(s.table, Held(s, s.running), semnum).None? {
      if ById(s.table, s.table.list, semnum).Some? {
        OpenDescView(s, ById(s.table, s.table.list, semnum).value, m);
      } else if s.table.freeSems != [] {
        var s1 := s.(table := AllocSem(s.table, semnum, value));
        AllocSemListed(s.table, semnum, value);
        AllocSemOthers(s.table, semnum, value, m);
        SameView(s.table, s1.table, m);
        OpenDescView(s1, s.table.freeSems[0], m);
      }
    }
  }

  lemma {:induction false} WakeLoopTable(s: State, prev: Option<Addr>)
    ensures WakeLoop(s, prev).table == s.table
    decreases |s.timers|
  {
    if s.timers != [] && s.timers[0].time <= s.time {
      WakeLoopTable(WakeFirst(s, prev), Some(s.timers[0].pcb));
    }
  }

  /** The calls that do not touch semaphores. */
  lemma OtherCallTable(s: State, call: Call)
    requires !call.SemOpen? && !call.SemClose? && !call.SemWait? && !call.SemPost?
    ensures Dispatch(s, call).table == s.table
  {
    WakeLoopTable(s, None);
  }

  /** Every step acts on every semaphore as a counting semaphore's wait, as its
      post, or not at all: the refinement. */
  lemma StepRefines(s: State, l: Label, m: Addr)
    requires Inv(s) && m in s.table.list && Step(s, l).mode == Active
    ensures View(Step(s, l).table, m) == Apply(View(s.table, m), OpOf(s, l, m))
  {
    match l {
      case Tick => WakeLoopTable(s.(time := s.time + 1), None);
      case Trap(call) =>
        RecordKeeps(s, call);
        RecordSame(s, call);
        CallRefines(s, Record(s, call), call, m);
    }
  }

  lemma RecordSame(s: State, call: Call)
    ensures Held(Record(s, call), s.running) == Held(s, s.running)
    ensures Record(s, call).table == s.table && Record(s, call).running == s.running
  {
  }

  lemma CallRefines(s0: State, s: State, call: Call, m: Addr)
    requires Inv(s) && m in s.table.list && Dispatch(s, call).mode == Active
    requires s.table == s0.table && s.running == s0.running && Held(s, s.running) == Held(s0, s.running)
    ensures View(Dispatch(s, call).table, m) == Apply(View(s.table, m), OpOf(s0, Trap(call), m))
  {
    match call {
      case SemOpen(semnum, value) => OpenView(s, semnum, value, m);
      case SemClose(fd) => CloseView(s, fd, m);
      case SemWait(fd) => WaitView(s, fd, m);
      case SemPost(fd) => PostView(s, fd, m);
      case _ => OtherCallTable(s, call);
    }
  }

  // ----- Over whole runs -----

  /** The semaphore stays open all along the run. */
  ghost predicate StaysOpen(s: State, labels: seq<Label>, m: Addr)
    decreases |labels|
  {
    m in s.table.list && (labels == [] || StaysOpen(Step(s, labels[0]), labels[1..], m))
  }

  /** The waits and posts that the run performs on `m`, in order. */
  function Ops(s: State, labels: seq<Label>, m: Addr): seq<CS.Op<Addr>>
    decreases |labels|
  {
    if labels == [] then []
    else (match OpOf(s, labels[0], m) case None => [] case Some(op) => [op]) + Ops(Step(s, labels[0]), labels[1..], m)
  }

  function ApplyAll<P>(sem: CS.Sem<P>, ops: seq<CS.Op<P>>): CS.Sem<P>
    decreases |ops|
  {
    if ops == [] then sem else ApplyAll(Apply(sem, Some(ops[0])), ops[1..])
  }

  lemma {:induction false} RunRefines(s: State, labels: seq<Label>, m: Addr)
    requires Inv(s) && StaysOpen(s, labels, m) && Run(s, labels).mode == Active
    ensures View(Run(s, labels).table, m) == ApplyAll(View(s.table, m), Ops(s, labels, m))
    decreases |labels|
  {
    if labels != [] {
      var s' := Step(s, labels[0]);
      if s'.mode != Active {
        HaltedRun(s', labels[1..]);
      }
      StepKeeps(s, labels[0]);
      StepRefines(s, labels[0], m);
      RunRefines(s', labels[1..], m);
      ApplyOne(View(s.table, m), OpOf(s, labels[0], m), Ops(s', labels[1..], m));
    }
  }

  lemma ApplyOne<P>(sem: CS.Sem<P>, op: Option<CS.Op<P>>, rest: seq<CS.Op<P>>)
    ensures ApplyAll(sem, (match op case None => [] case Some(o) => [o]) + rest) == ApplyAll(Apply(sem, op), rest)
  {
    match op {
      case None => assert [] + rest == rest;
      case Some(o) => assert ([o] + rest)[1..] == rest;
    }
  }

  lemma {:induction false} UseIsApply<P>(v: int, ops: seq<CS.Op<P>>)
    ensures CS.Use(v, ops).sem == ApplyAll(CS.Sem(v, []), ops)
  {
    if ops != [] {
      var front, last := ops[..|ops| - 1], ops[|ops| - 1];
      UseIsApply(v, front);
      assert ops == front + [last];
      ApplyLast(CS.Sem(v, []), front, last);
    }
  }

  lemma {:induction false} ApplyLast<P>(sem: CS.Sem<P>, ops: seq<CS.Op<P>>, op: CS.Op<P>)
    ensures ApplyAll(sem, ops + [op]) == Apply(ApplyAll(sem, ops), Some(op))
    decreases |ops|
  {
    if ops == [] {
      assert ([] + [op])[1..] == [];
    } else {
      assert (ops + [op])[1..] == ops[1..] + [op];
      ApplyLast(Apply(sem, Some(ops[0])), ops[1..], op);
    }
  }

  /** A semaphore created with a value v >= 0 behaves, over every run during
      which it stays open, as a FIFO counting semaphore: its counter is v plus
      the posts minus the waits, its queue is the deficit, the processes released
      and those still queued are those that blocked, in that order, and no more
      waits complete than there were tokens. */
  lemma FifoCountingSemaphore(s: State, labels: seq<Label>, m: Addr, v: nat)
    requires Inv(s) && StaysOpen(s, labels, m) && Run(s, labels).mode == Active
    requires View(s.table, m) == CS.Sem(v, [])
    ensures var h := CS.Use(v, Ops(s, labels, m));
            && View(Run(s, labels).table, m) == h.sem
            && h.sem.count == v + h.posts - h.waits && CS.Counted(h.sem)
            && h.released + h.sem.queue == h.blocked
            && CS.Completed(h) <= v + h.posts
  {
    var ops := Ops(s, labels, m);
    RunRefines(s, labels, m);
    UseIsApply<Addr>(v, ops);
    CS.Fifo<Addr>(v, ops);
    CS.Accounting<Addr>(v, ops);
  }

  // ----- Creation -----

  /** The call creates a semaphore: no descriptor of the caller and no semaphore
      in the system has this id, and a block is free. */
  predicate Creates(s: State, semnum: int) {
    && BySemnum(s.table, Held(s, s.running), semnum).None?
    && ById(s.table, s.table.list, semnum).None?
    && s.table.freeSems != []
  }

  lemma AllocatedEmpty(s: State, semnum: int, value: int)
    requires Inv(s) && Creates(s, semnum)
    ensures var m := s.table.freeSems[0];
            var t' := DoSemOpen(s, semnum, value).table;
            m in t'.list && View(t', m) == CS.Sem(value, []) && SemAt(t', m).id == semnum
  {
    var m := s.table.freeSems[0];
    FreshSem(s.table);
    var s1 := s.(table := AllocSem(s.table, semnum, value));
    AllocSemListed(s.table, semnum, value);
    OpenDescView(s1, m, m);
  }

  // ----- Counters and queues -----

  /** The queue of every semaphore stays the deficit of its counter over every
      step but one: creating a semaphore with a negative value. */
  lemma CountsExactly(s: State, l: Label)
    requires Inv(s) && CountsOk(s.table) && Step(s, l).mode == Active
    ensures CountsOk(Step(s, l).table) <==>
              !(l.Trap? && l.call.SemOpen? && l.call.value < 0 && Creates(s, l.call.semnum))
  {
    StepKeeps(s, l);
    forall m | m in s.table.list && m in Step(s, l).table.list
      ensures CountOk(Step(s, l).table, m)
    {
      StepRefines(s, l, m);
      OwnersLength(s.table, SemAt(s.table, m).waiting);
      OwnersLength(Step(s, l).table, SemAt(Step(s, l).table, m).waiting);
    }
    NewInList(s, l);
    CountsAre(Step(s, l).table);
    if l.Trap? && l.call.SemOpen? && Creates(s, l.call.semnum) {
      CreatedCount(s, l.call.semnum, l.call.value);
    }
  }

  predicate CountOk(t: SemTable, m: Addr) {
    |SemAt(t, m).waiting| == if SemAt(t, m).count < 0 then -SemAt(t, m).count else 0
  }

  lemma CountsAre(t: SemTable)
    ensures CountsOk(t) <==> forall m {:trigger m in t.list} :: m in t.list ==> CountOk(t, m)
  {
  }

  lemma {:induction false} OwnersLength(t: SemTable, ds: seq<Addr>)
    ensures |Owners(t, ds)| == |ds|
  {
    if ds != [] {
      OwnersLength(t, ds[1..]);
    }
  }

  /** The only semaphore a step can add is the one it creates. */
  lemma NewInList(s: State, l: Label)
    requires Inv(s)
    ensures forall m :: m in Step(s, l).table.list && m !in s.table.list ==>
              && l.Trap? && l.call.SemOpen? && Creates(s, l.call.semnum)
              && m == s.table.freeSems[0]
  {
    match l {
      case Tick => WakeLoopTable(s.(time := s.time + 1), None);
      case Trap(call) =>
        RecordSame(s, call);
        CallAdds(Record(s, call), call);
    }
  }

  lemma CallAdds(s: State, call: Call)
    ensures forall m :: m in Dispatch(s, call).table.list && m !in s.table.list ==>
              call.SemOpen? && Creates(s, call.semnum) && m == s.table.freeSems[0]
  {
    match call {
      case SemOpen(semnum, value) =>
      case SemClose(fd) => CloseShrinks(s, fd);
      case SemWait(fd) => WaitSameList(s, fd);
      case SemPost(fd) => PostSameList(s, fd);
      case _ => OtherCallTable(s, call);
    }
  }

  lemma WaitSameList(s: State, fd: int)
    ensures DoSemWait(s, fd).table.list == s.table.list
  {
  }

  lemma PostSameList(s: State, fd: int)
    ensures DoSemPost(s, fd).table.list == s.table.list
  {
  }

  lemma CloseShrinks(s: State, fd: int)
    ensures forall m :: m in DoSemClose(s, fd).table.list ==> m in s.table.list
  {
    forall m | m in DoSemClose(s, fd).table.list ensures m in s.table.list {
      if ByFd(s.table, Me(s).semDescs, fd).Some? {
        var n := DescAt(s.table, ByFd(s.table, Me(s).semDescs, fd).value).sem;
        DetachElements(s.table.list, n);
        OccIn(Detach(s.table.list, n), m);
        OccIn(s.table.list, m);
      }
    }
  }

  /** A semaphore just created has its initial value and nobody waiting, also in
      a recycled block, whose waiting list is not initialised. */
  lemma CreatedEmpty(s: State, semnum: int, value: int)
    requires Inv(s) && Creates(s, semnum)
    ensures var m, t' := s.table.freeSems[0], Step(s, Trap(SemOpen(semnum, value))).table;
            m in t'.list && View(t', m) == CS.Sem(value, []) && SemAt(t', m).id == semnum
  {
    var s1 := Record(s, SemOpen(semnum, value));
    RecordKeeps(s, SemOpen(semnum, value));
    RecordSame(s, SemOpen(semnum, value));
    AllocatedEmpty(s1, semnum, value);
  }

  lemma CreatedCount(s: State, semnum: int, value: int)
    requires Inv(s) && Creates(s, semnum)
    ensures var t' := Step(s, Trap(SemOpen(semnum, value))).table;
            var m := s.table.freeSems[0];
            m in t'.list && SemAt(t', m).count == value && SemAt(t', m).waiting == []
  {
    var t' := Step(s, Trap(SemOpen(semnum, value))).table;
    CreatedEmpty(s, semnum, value);
    OwnersLength(t', SemAt(t', s.table.freeSems[0]).waiting);
  }
}
