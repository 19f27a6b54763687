/** The kernel's global state and what each system call and timer interrupt does
    to it. A process is named by the block of the PCB pool it lives in; blocks
    are recycled, and a freed block keeps its contents until it is allocated
    again, as in the pool's memory. */
module KernelState {
  import opened Lists

  type Addr = nat

  datatype Status = Invalid | Created | Running | Ready | Waiting | Suspended | Zombie

  /** The last system call a process recorded, with its arguments. */
  datatype Call =
    | NoCall                         // a number with no handler
    | Preempt
    | Fork
    | Spawn
    | Wait(pid: int, result: int)     // result 0 is the null pointer
    | Exit(value: int)
    | Sleep(cycles: int)
    | SemOpen(semnum: int, value: int)
    | SemClose(fd: int)
    | SemWait(fd: int)
    | SemPost(fd: int)

  const ENOTIMPLEMENTED := -2
  const EWAIT := -5
  const ESLEEP := -7
  const ECREATEFD := -14
  const ENOTMYSEM := -15
  const ECREATESEM := -16
  const ECREATEPTR := -17

  datatype Pcb = Pcb(
    pid: int, returnValue: int, status: Status,
    parent: Option<Addr>, children: seq<Addr>,
    lastSemFd: nat, semDescs: seq<Addr>,
    call: Call, retvalue: int)

  const ZEROED := Pcb(0, 0, Created, None, [], 0, [], NoCall, 0)

  datatype Timer = Timer(time: int, pcb: Addr)

  /** A descriptor stands in a semaphore's lists for its `ptr` (in `descriptors`)
      and its `wait_ptr` (in `waiting`). */
  datatype Desc = Desc(pcb: Addr, sem: Addr, fd: int)

  datatype Semaphore = Semaphore(id: int, count: int, descriptors: seq<Addr>, waiting: seq<Addr>)

  /** Semaphores and descriptors with their pools; the free blocks of a pool are
      listed in the order it hands them out. */
  datatype SemTable = SemTable(
    list: seq<Addr>,
    sems: seq<Semaphore>, freeSems: seq<Addr>,
    descs: seq<Desc>, freeDescs: seq<Addr>,
    freePtrs: nat)

  datatype Mode =
    | Active
    | Deadlock   // semWait found no process to run
    | AllAsleep  // sleep found no process to run
    | Fault      // a null pointer is dereferenced

  /** `wait` of process `to` completed: child `pid`, its exit value if asked for. */
  datatype Delivery = Delivery(to: Addr, pid: int, value: Option<int>)

  /** `exits` and `delivered` are history: the exit value each process gave, and
      the completed waits in order. */
  datatype State = State(
    mode: Mode, time: int, lastPid: int,
    init: Addr, running: Addr,
    ready: seq<Addr>, waiting: seq<Addr>, zombies: seq<Addr>,
    timers: seq<Timer>, freeTimers: nat,
    pcbs: seq<Pcb>, freePcbs: seq<Addr>, freePcbPtrs: nat,
    table: SemTable,
    exits: map<int, int>, delivered: seq<Delivery>)

  datatype Label = Tick | Trap(call: Call)

  // ----- Memory -----

  function At(pcbs: seq<Pcb>, a: Addr): Pcb { if a < |pcbs| then pcbs[a] else ZEROED }

  function Put(pcbs: seq<Pcb>, a: Addr, p: Pcb): seq<Pcb> { if a < |pcbs| then pcbs[a := p] else pcbs }

  function SetStatus(pcbs: seq<Pcb>, a: Addr, st: Status): seq<Pcb> { Put(pcbs, a, At(pcbs, a).(status := st)) }

  function DescAt(t: SemTable, d: Addr): Desc { if d < |t.descs| then t.descs[d] else Desc(0, 0, 0) }

  function SemAt(t: SemTable, m: Addr): Semaphore { if m < |t.sems| then t.sems[m] else Semaphore(0, 0, [], []) }

  function PutSem(t: SemTable, m: Addr, v: Semaphore): SemTable {
    if m < |t.sems| then t.(sems := t.sems[m := v]) else t
  }

  function Me(s: State): Pcb { At(s.pcbs, s.running) }

  function Return(s: State, value: int): State {
    s.(pcbs := Put(s.pcbs, s.running, Me(s).(retvalue := value)))
  }

  function Halt(s: State, why: Mode): State { s.(mode := why) }

  // ----- Scheduling -----

  /** The running process joins the waiting list. */
  function Suspend(s: State): State {
    s.(pcbs := SetStatus(s.pcbs, s.running, Waiting), waiting := s.waiting + [s.running])
  }

  /** The first ready process takes over; its status is left as it is. */
  function RunFirst(s: State): State
    requires s.ready != []
  {
    s.(running := s.ready[0], ready := s.ready[1..])
  }

  function Wake(s: State, a: Addr): State {
    s.(waiting := Detach(s.waiting, a), pcbs := SetStatus(s.pcbs, a, Ready))
  }

  /** The head timer elapses: its process goes right after `prev` in the ready list. */
  function WakeFirst(s: State, prev: Option<Addr>): State
    requires s.timers != []
  {
    var a := s.timers[0].pcb;
    Wake(s, a).(ready := InsertAfter(s.ready, prev, a), timers := s.timers[1..], freeTimers := s.freeTimers + 1)
  }

  function WakeLoop(s: State, prev: Option<Addr>): State
    decreases |s.timers|
  {
    if s.timers != [] && s.timers[0].time <= s.time
    then WakeLoop(WakeFirst(s, prev), Some(s.timers[0].pcb))
    else s
  }

  /** Round robin: the running process goes last and the first ready one runs. */
  function Rotate(s: State): State {
    if s.ready == [] then s else
    var next := s.ready[0];
    s.(pcbs := SetStatus(SetStatus(s.pcbs, s.running, Ready), next, Running),
       ready := s.ready[1..] + [s.running],
       running := next)
  }

  function Schedule(s: State): State { Rotate(WakeLoop(s, None)) }

  function InsertTimer(ts: seq<Timer>, t: Timer): seq<Timer> {
    if ts == [] || t.time < ts[0].time then [t] + ts else [ts[0]] + InsertTimer(ts[1..], t)
  }

  function DoSleep(s: State, cycles: int): State {
    if s.freeTimers == 0 then Return(s, ESLEEP) else
    var s1 := Suspend(s.(timers := InsertTimer(s.timers, Timer(s.time + cycles, s.running)),
                         freeTimers := s.freeTimers - 1));
    if s.ready == [] then Halt(s1, AllAsleep) else RunFirst(s1)
  }

  // ----- Processes -----

  function DoSpawn(s: State): State {
    if s.freePcbs == [] || s.freePcbPtrs == 0 then Halt(s, Fault) else
    var a := s.freePcbs[0];
    var child := At(s.pcbs, a).(pid := s.lastPid, returnValue := 0, status := Ready,
                                parent := Some(s.running), children := [],
                                lastSemFd := 0, semDescs := []);
    var pcbs := Put(s.pcbs, a, child);
    var me := At(pcbs, s.running);
    s.(freePcbs := s.freePcbs[1..], freePcbPtrs := s.freePcbPtrs - 1, lastPid := s.lastPid + 1,
       pcbs := Put(pcbs, s.running, me.(children := me.children + [a], retvalue := s.lastPid)),
       ready := s.ready + [a])
  }

  /** PCBPtr_byPID. */
  function ByPid(pcbs: seq<Pcb>, kids: seq<Addr>, pid: int): Option<Addr> {
    if kids == [] then None
    else if At(pcbs, kids[0]).pid == pid then Some(kids[0])
    else ByPid(pcbs, kids[1..], pid)
  }

  /** The running process dies: its value is stored, its children go to init's
      list (their parent field is not changed) and it joins the zombies. */
  function Die(s: State, value: int): State {
    var me := Me(s);
    var pcbs := Put(s.pcbs, s.running, me.(returnValue := value, children := [], status := Zombie));
    var init := At(pcbs, s.init);
    s.(pcbs := Put(pcbs, s.init, init.(children := init.children + me.children)),
       zombies := s.zombies + [s.running],
       exits := s.exits[me.pid := value])
  }

  /** `parent` is blocked in a wait that the death of `pid` answers. */
  predicate Answers(parent: Pcb, pid: int) {
    parent.status == Waiting && parent.call.Wait? && (parent.call.pid == 0 || parent.call.pid == pid)
  }

  function Reported(result: int, value: int): Option<int> { if result == 0 then None else Some(value) }

  function DropTimers(ts: seq<Timer>, a: Addr): seq<Timer> {
    if ts == [] then []
    else if ts[0].pcb == a then DropTimers(ts[1..], a)
    else [ts[0]] + DropTimers(ts[1..], a)
  }

  /** The zombie that is still running reports straight to its waiting parent
      `p` and its block is freed. */
  function HandOver(s: State, p: Addr): State {
    var me := Me(s);
    var parent := At(s.pcbs, p);
    match ByPid(s.pcbs, parent.children, me.pid)
    case None => Halt(s.(waiting := Detach(s.waiting, p), pcbs := SetStatus(s.pcbs, p, Running)), Fault)
    case Some(self) =>
      var timers := DropTimers(s.timers, s.running);
      s.(waiting := Detach(s.waiting, p),
         pcbs := Put(s.pcbs, p,
                     parent.(status := Running, children := Detach(parent.children, self), retvalue := me.pid)),
         timers := timers, freeTimers := s.freeTimers + (if |timers| <= |s.timers| then |s.timers| - |timers| else 0),
         zombies := Detach(s.zombies, s.running),
         freePcbs := [s.running] + s.freePcbs,
         running := p,
         delivered := s.delivered
           + [Delivery(p, me.pid, Reported(if parent.call.Wait? then parent.call.result else 0, me.returnValue))])
  }

  function StartFirst(s: State): State {
    if s.ready == [] then Halt(s, Fault)
    else RunFirst(s.(pcbs := SetStatus(s.pcbs, s.ready[0], Running)))
  }

  function DoExit(s: State, value: int): State {
    if Me(s).parent.None? then Halt(s, Fault) else  // init itself exits
    var p := Me(s).parent.value;
    var dead := Die(s, value);
    if Answers(At(dead.pcbs, p), Me(s).pid) then HandOver(dead, p) else StartFirst(dead)
  }

  /** The child a wait settles on: the first zombie when any child will do, the
      first with the given pid otherwise, and failing that the last child. */
  function Awaited(pcbs: seq<Pcb>, kids: seq<Addr>, pid: int): Addr
    requires kids != []
  {
    var kid := At(pcbs, kids[0]);
    if (if pid == 0 then kid.status == Zombie else kid.pid == pid) || |kids| == 1 then kids[0]
    else Awaited(pcbs, kids[1..], pid)
  }

  function Reap(s: State, kid: Addr, result: int): State {
    var me := Me(s);
    var dead := At(s.pcbs, kid);
    s.(pcbs := Put(s.pcbs, s.running, me.(children := Detach(me.children, kid), retvalue := dead.pid)),
       freePcbPtrs := s.freePcbPtrs + 1,
       zombies := Detach(s.zombies, kid),
       freePcbs := [kid] + s.freePcbs,
       delivered := s.delivered + [Delivery(s.running, dead.pid, Reported(result, dead.returnValue))])
  }

  function DoWait(s: State, pid: int, result: int): State {
    var kids := Me(s).children;
    if kids == [] then Return(s, EWAIT) else
    var kid := Awaited(s.pcbs, kids, pid);
    if At(s.pcbs, kid).status == Zombie then Reap(s, kid, result)
    else if s.ready == [] then Halt(Suspend(s), Fault)
    else RunFirst(Suspend(s))
  }

  // ----- Semaphores -----

  /** SemDescriptorList_byFd. */
  function ByFd(t: SemTable, ds: seq<Addr>, fd: int): Option<Addr> {
    if ds == [] then None else if DescAt(t, ds[0]).fd == fd then Some(ds[0]) else ByFd(t, ds[1..], fd)
  }

  /** MySearch: the process's descriptor of the semaphore with this id. */
  function BySemnum(t: SemTable, ds: seq<Addr>, semnum: int): Option<Addr> {
    if ds == [] then None
    else if SemAt(t, DescAt(t, ds[0]).sem).id == semnum then Some(ds[0])
    else BySemnum(t, ds[1..], semnum)
  }

  /** SemaphoreList_byId. */
  function ById(t: SemTable, list: seq<Addr>, semnum: int): Option<Addr> {
    if list == [] then None else if SemAt(t, list[0]).id == semnum then Some(list[0]) else ById(t, list[1..], semnum)
  }

  /** Semaphore_alloc: the block's waiting list is left as it was found. */
  function AllocSem(t: SemTable, semnum: int, value: int): SemTable
    requires t.freeSems != []
  {
    var m := t.freeSems[0];
    PutSem(t, m, Semaphore(semnum, value, [], SemAt(t, m).waiting)).(freeSems := t.freeSems[1..], list := t.list + [m])
  }

  function AllocDesc(t: SemTable, d: Desc): SemTable
    requires t.freeDescs != []
  {
    var a := t.freeDescs[0];
    t.(descs := if a < |t.descs| then t.descs[a := d] else t.descs, freeDescs := t.freeDescs[1..])
  }

  /** The process gets a descriptor of semaphore `m`. The failing branches keep
      what they have already taken from the pools. */
  function OpenDesc(s: State, m: Addr): State {
    if s.table.freeDescs == [] then Return(s, ECREATEFD) else
    var d := s.table.freeDescs[0];
    var me := Me(s);
    var t := AllocDesc(s.table, Desc(s.running, m, me.lastSemFd));
    var me' := me.(lastSemFd := me.lastSemFd + 1);
    if t.freePtrs < 2 then
      s.(table := t.(freePtrs := 0), pcbs := Put(s.pcbs, s.running, me'.(retvalue := ECREATEPTR)))
    else
      var sem := SemAt(t, m);
      s.(table := PutSem(t, m, sem.(descriptors := sem.descriptors + [d])).(freePtrs := t.freePtrs - 2),
         pcbs := Put(s.pcbs, s.running, me'.(semDescs := me.semDescs + [d], retvalue := me.lastSemFd)))
  }

  function DoSemOpen(s: State, semnum: int, value: int): State {
    match BySemnum(s.table, Me(s).semDescs, semnum)
    case Some(d) => Return(s, DescAt(s.table, d).fd)
    case None =>
      match ById(s.table, s.table.list, semnum)
      case Some(m) => OpenDesc(s, m)
      case None =>
        if s.table.freeSems == [] then Return(s, ECREATESEM)
        else OpenDesc(s.(table := AllocSem(s.table, semnum, value)), s.table.freeSems[0])
  }

  /** Taking descriptor `d` off semaphore `m`, and the semaphore with its last one. */
  function CloseDesc(t: SemTable, d: Addr, m: Addr): SemTable {
    var sem := SemAt(t, m);
    var left := Detach(sem.descriptors, d);
    var t' := PutSem(t, m, sem.(descriptors := left)).(freeDescs := [d] + t.freeDescs, freePtrs := t.freePtrs + 2);
    if left == [] then t'.(list := Detach(t.list, m), freeSems := [m] + t.freeSems) else t'
  }

  function DoSemClose(s: State, fd: int): State {
    match ByFd(s.table, Me(s).semDescs, fd)
    case None => Return(s, ENOTMYSEM)
    case Some(d) =>
      s.(table := CloseDesc(s.table, d, DescAt(s.table, d).sem),
         pcbs := Put(s.pcbs, s.running, Me(s).(semDescs := Detach(Me(s).semDescs, d), retvalue := 0)))
  }

  /** A wait on semaphore `m` through descriptor `d`. The value returned goes to
      whoever is running when the call ends. */
  function WaitOn(s: State, d: Addr, m: Addr): State {
    var sem := SemAt(s.table, m);
    if sem.count > 0 then
      Return(s.(table := PutSem(s.table, m, sem.(count := sem.count - 1))), 0)
    else if s.ready == [] then
      Halt(Suspend(s.(table := PutSem(s.table, m, sem.(waiting := sem.waiting + [d])))), Deadlock)
    else
      var t := PutSem(s.table, m, sem.(count := sem.count - 1, waiting := sem.waiting + [d]));
      Return(RunFirst(Suspend(s.(table := t))), 0)
  }

  function DoSemWait(s: State, fd: int): State {
    match ByFd(s.table, Me(s).semDescs, fd)
    case None => Return(s, ENOTMYSEM)
    case Some(d) => WaitOn(s, d, DescAt(s.table, d).sem)
  }

  /** A post on semaphore `m`. */
  function PostOn(s: State, m: Addr): State {
    var sem := SemAt(s.table, m);
    if sem.count < 0 && sem.waiting != [] then
      var a := DescAt(s.table, sem.waiting[0]).pcb;
      var t := PutSem(s.table, m, sem.(count := sem.count + 1, waiting := sem.waiting[1..]));
      Return(Wake(s.(table := t), a).(ready := s.ready + [a]), 0)
    else
      Return(s.(table := PutSem(s.table, m, sem.(count := sem.count + 1))), 0)
  }

  function DoSemPost(s: State, fd: int): State {
    match ByFd(s.table, Me(s).semDescs, fd)
    case None => Return(s, ENOTMYSEM)
    case Some(d) => PostOn(s, DescAt(s.table, d).sem)
  }

  // ----- Steps and runs -----

  /** disastrOS_syscall: the call is recorded in the caller's PCB. */
  function Record(s: State, call: Call): State {
    s.(pcbs := Put(s.pcbs, s.running, Me(s).(call := call)))
  }

  function Dispatch(s: State, call: Call): State {
    match call
    case NoCall => Return(s, ENOTIMPLEMENTED)
    case Preempt => Schedule(s)
    case Fork => DoSpawn(s)
    case Spawn => DoSpawn(s)
    case Wait(pid, result) => DoWait(s, pid, result)
    case Exit(value) => DoExit(s, value)
    case Sleep(cycles) => DoSleep(s, cycles)
    case SemOpen(semnum, value) => DoSemOpen(s, semnum, value)
    case SemClose(fd) => DoSemClose(s, fd)
    case SemWait(fd) => DoSemWait(s, fd)
    case SemPost(fd) => DoSemPost(s, fd)
  }

  /** One atomic step: a timer interrupt, or the running process traps. */
  function Step(s: State, l: Label): State {
    if s.mode != Active then s else
    match l
    case Tick => Schedule(s.(time := s.time + 1))
    case Trap(call) => Dispatch(Record(s, call), call)
  }

  function Run(s: State, labels: seq<Label>): State
    decreases |labels|
  {
    if labels == [] then s else Run(Step(s, labels[0]), labels[1..])
  }

  /** disastrOS_start with pools of the given sizes: the first block becomes the
      init process, and every pool hands its blocks out in address order. */
  function Boot(procs: nat, sems: nat, descs: nat, ptrs: nat): State
    requires procs > 0
  {
    State(Active, 0, 1, 0, 0, [], [], [], [], procs,
          seq(procs, i => if i == 0 then ZEROED.(status := Running) else ZEROED),
          seq(procs - 1, i => i + 1), procs,
          SemTable([], seq(sems, i => Semaphore(0, 0, [], [])), seq(sems, i => i),
                   seq(descs, i => Desc(0, 0, 0)), seq(descs, i => i), ptrs),
          map[], [])
  }
}
