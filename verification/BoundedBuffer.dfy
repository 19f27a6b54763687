/** The producers and consumers of disastrOS_OurTest.c as concurrent step
    programs. A step is one semaphore call, one test of a call's result or one
    read or write of shared memory, and any worker that is not blocked may take
    the next step. */
module BoundedBuffer {
  import opened Lists
  import opened CountingSemaphore

  datatype Role = Producer | Consumer

  datatype SemName = Fill | Empty | Me1 | Me2

  datatype Sems = Sems(fill: Sem<nat>, empty: Sem<nat>, me1: Sem<nat>, me2: Sem<nat>)

  function Get(s: Sems, name: SemName): Sem<nat> {
    match name case Fill => s.fill case Empty => s.empty case Me1 => s.me1 case Me2 => s.me2
  }

  function Put(s: Sems, name: SemName, v: Sem<nat>): Sems {
    match name
    case Fill => s.(fill := v)
    case Empty => s.(empty := v)
    case Me1 => s.(me1 := v)
    case Me2 => s.(me2 := v)
  }

  /** What a worker does next. The mutex calls are those of ProdFunction and
      ConsFunction; the single-worker variants go straight past them. A worker
      that reads a result other than 0 from semWait exits where it stands: it
      has given up. */
  datatype Pc =
    | WaitSlot | CheckSlot | WaitMutex | CheckMutex
    | ReadIndex | TouchCell | StoreIndex | PostMutex | PostItem
    | Finished | GivenUp

  datatype Worker = Worker(
    role: Role, locked: bool, pid: int,
    quota: nat,            // iterations of the loop
    left: nat,             // iterations not yet completed
    pc: Pc,
    n: nat,                // local copy of the index
    ret: int,              // its return-value field, which its next test reads
    on: Option<SemName>)   // the semaphore it is blocked on

  datatype Buffer = Buffer(cells: seq<int>, indexProd: nat, indexCons: nat)

  /** `written` and `cleared` are history: the values written into the buffer
      so far, in order, and how many cells have been cleared. */
  datatype State = State(
    sems: Sems, buf: Buffer, workers: seq<Worker>,
    written: seq<int>, cleared: nat)

  function SlotOf(r: Role): SemName { if r == Producer then Empty else Fill }
  function ItemOf(r: Role): SemName { if r == Producer then Fill else Empty }
  function MutexOf(r: Role): SemName { if r == Producer then Me1 else Me2 }
  function AfterSlot(w: Worker): Pc { if w.locked then WaitMutex else ReadIndex }
  function Tested(w: Worker, next: Pc): Pc { if w.ret == 0 then next else GivenUp }
  function AfterStore(w: Worker): Pc { if w.locked then PostMutex else PostItem }
  function LoopTop(left: nat): Pc { if left == 0 then Finished else WaitSlot }
  function Index(b: Buffer, r: Role): nat { if r == Producer then b.indexProd else b.indexCons }

  predicate Enabled(w: Worker) { w.on.None? && w.pc != Finished && w.pc != GivenUp }

  /** The worker that a semWait leaves behind: a call that does not block writes
      its result, 0; one that blocks writes none. */
  function Waiter(s: State, i: nat, name: SemName, next: Pc): Worker
    requires i < |s.workers|
  {
    var w := s.workers[i].(pc := next);
    if Get(s.sems, name).count <= 0 then w.(on := Some(name)) else w.(ret := 0)
  }

  function SemWait(s: State, i: nat, name: SemName, next: Pc): State
    requires i < |s.workers|
  {
    s.(workers := s.workers[i := Waiter(s, i, name, next)],
       sems := Put(s.sems, name, Wait(Get(s.sems, name), i)))
  }

  function Unblock(ws: seq<Worker>, who: Option<nat>): seq<Worker> {
    if who.Some? && who.value < |ws| then ws[who.value := ws[who.value].(on := None)] else ws
  }

  function SemPost(s: State, i: nat, name: SemName, after: Worker): State
    requires i < |s.workers|
  {
    var sem := Get(s.sems, name);
    s.(workers := Unblock(s.workers[i := after], Released(sem)),
       sems := Put(s.sems, name, Post(sem)))
  }

  function Touch(s: State, i: nat): State
    requires i < |s.workers|
  {
    var w := s.workers[i];
    var value := if w.role == Producer then w.pid else 0;
    s.(workers := s.workers[i := w.(pc := StoreIndex)],
       buf := s.buf.(cells := if w.n < |s.buf.cells| then s.buf.cells[w.n := value] else s.buf.cells),
       written := if w.role == Producer then s.written + [w.pid] else s.written,
       cleared := if w.role == Producer then s.cleared else s.cleared + 1)
  }

  function StoreNext(s: State, i: nat): State
    requires i < |s.workers| && |s.buf.cells| > 0
  {
    var w := s.workers[i];
    var next := (w.n + 1) % |s.buf.cells|;
    s.(workers := s.workers[i := w.(pc := AfterStore(w))],
       buf := if w.role == Producer then s.buf.(indexProd := next) else s.buf.(indexCons := next))
  }

  /** What worker `i` does next; a blocked, finished or absent worker does
      nothing. A post returns 0 and nothing else can be written before its test
      reads it, so that test is left out. */
  function Act(s: State, i: nat): State
    requires |s.buf.cells| > 0
  {
    if i >= |s.workers| || !Enabled(s.workers[i]) then s else
    var w := s.workers[i];
    match w.pc
    case WaitSlot => SemWait(s, i, SlotOf(w.role), CheckSlot)
    case CheckSlot => s.(workers := s.workers[i := w.(pc := Tested(w, AfterSlot(w)))])
    case WaitMutex => SemWait(s, i, MutexOf(w.role), CheckMutex)
    case CheckMutex => s.(workers := s.workers[i := w.(pc := Tested(w, ReadIndex))])
    case ReadIndex => s.(workers := s.workers[i := w.(pc := TouchCell, n := Index(s.buf, w.role))])
    case TouchCell => Touch(s, i)
    case StoreIndex => StoreNext(s, i)
    case PostMutex => SemPost(s, i, MutexOf(w.role), w.(pc := PostItem, ret := 0))
    case PostItem =>
      var left := if w.left > 0 then w.left - 1 else 0;
      SemPost(s, i, ItemOf(w.role), w.(left := left, pc := LoopTop(left), ret := 0))
    case Finished => s
    case GivenUp => s
  }

  /** Worker `who` takes the next step and, should it block, the kernel switches
      to worker `next`, or to some process that is no worker. */
  datatype Turn = Turn(who: nat, next: Option<nat>)

  /** A semWait that blocks writes its result, 0, into the process that runs
      next. */
  function Resume(s: State, next: Option<nat>): State {
    if next.Some? && next.value < |s.workers| && Enabled(s.workers[next.value])
    then s.(workers := s.workers[next.value := s.workers[next.value].(ret := 0)])
    else s
  }

  predicate Blocks(s: State, i: nat)
    requires |s.buf.cells| > 0
  {
    i < |s.workers| && Enabled(s.workers[i]) && |Act(s, i).workers| == |s.workers| && Act(s, i).workers[i].on.Some?
  }

  function Step(s: State, t: Turn): State
    requires |s.buf.cells| > 0
  {
    if Blocks(s, t.who) then Resume(Act(s, t.who), t.next) else Act(s, t.who)
  }

  /** A run: the workers take steps in the order the schedule names them. */
  function Exec(s: State, schedule: seq<Turn>): (r: State)
    requires |s.buf.cells| > 0
    ensures |r.buf.cells| == |s.buf.cells| && |r.workers| == |s.workers|
    decreases |schedule|
  {
    if schedule == [] then s else Exec(Step(s, schedule[0]), schedule[1..])
  }

  /** Start-up as initFunction leaves it: an all-zero buffer of the given
      length, both indices 0, and the four semaphores at 0, length, 1 and 1. The
      workers enter their loops with any return values: in the source, the
      number their last semOpen returned. */
  predicate Initial(s: State, length: nat) {
    && s.sems == Sems(Sem(0, []), Sem(length, []), Sem(1, []), Sem(1, []))
    && |s.buf.cells| == length > 0
    && (forall c :: 0 <= c < length ==> s.buf.cells[c] == 0)
    && s.buf.indexProd == 0 && s.buf.indexCons == 0
    && s.written == [] && s.cleared == 0
    && forall i :: 0 <= i < |s.workers| ==>
         var w := s.workers[i];
         w.pid > 0 && w.left == w.quota && w.pc == LoopTop(w.left) && w.on == None
  }

  // ----- Counting over the workers -----

  datatype Measure =
    | InFlight            // holds a token taken from its slot semaphore
    | Busy(r: Role)       // between its mutex wait and its mutex post
    | Of(r: Role)
    | Unlocked(r: Role)
    | Written             // has written a cell it has not yet announced
    | Holding             // has claimed a full cell it has not yet cleared
    | Claimed             // holds a place not (or no longer) counted as full
    | Storing(r: Role)    // has updated a cell and not yet the index
    | Posts(r: Role)      // items announced so far
    | Waits(r: Role)      // slots asked for so far
    | Quota(r: Role)
    | StepsLeft
    | Stay(r: Role)       // work of those that have not given up
    | Gone(r: Role)       // have given up
    | Lured(r: Role)      // misled and still blocked
    | Freed(r: Role)      // misled and released
    | Fair(r: Role)       // slots asked for by workers that are not misled
    | Wrote(pid: int)     // cells written by producers with this pid
    | RoundsOf(pid: int)  // rounds of producers with this pid

  function One(b: bool): nat { if b then 1 else 0 }

  predicate Flying(w: Worker) {
    w.pc != WaitSlot && w.pc != Finished && w.on != Some(SlotOf(w.role))
  }

  predicate InSection(w: Worker) {
    (w.pc == CheckMutex && w.on == None) || w.pc == ReadIndex || w.pc == TouchCell || w.pc == StoreIndex
      || w.pc == PostMutex
  }

  /** Steps of `rounds` iterations of the worker's loop. */
  function Rounds(w: Worker, rounds: int): int {
    if w.locked then 9 * rounds else 6 * rounds
  }

  /** Steps of the loop not yet taken, those that a worker that gave up will
      never take among them. */
  function StepsOf(w: Worker): int {
    match w.pc
    case WaitSlot => Rounds(w, w.left)
    case CheckSlot => Rounds(w, w.left - 1) + 5 + 3 * One(w.locked)
    case GivenUp => Rounds(w, w.left - 1) + 4 + 3 * One(w.locked)
    case WaitMutex => Rounds(w, w.left - 1) + 7
    case CheckMutex => Rounds(w, w.left - 1) + 6
    case ReadIndex => Rounds(w, w.left - 1) + 4 + One(w.locked)
    case TouchCell => Rounds(w, w.left - 1) + 3 + One(w.locked)
    case StoreIndex => Rounds(w, w.left - 1) + 2 + One(w.locked)
    case PostMutex => Rounds(w, w.left - 1) + 2
    case PostItem => Rounds(w, w.left - 1) + 1
    case Finished => 0
  }

  predicate Unannounced(w: Worker) {
    w.role == Producer && (w.pc == StoreIndex || w.pc == PostMutex || w.pc == PostItem)
  }

  predicate Uncleared(w: Worker) {
    && w.role == Consumer && Flying(w)
    && (w.pc == CheckSlot || w.pc == WaitMutex || w.pc == CheckMutex || w.pc == ReadIndex || w.pc == TouchCell
        || w.pc == GivenUp)
  }

  /** The worker has blocked and will read a value other than 0, or has read it. */
  predicate Misled(w: Worker) { w.ret != 0 && (w.pc == CheckSlot || w.pc == GivenUp) }

  function WaitsOf(w: Worker, r: Role): int {
    if w.role == r then w.quota - w.left + One(w.pc != WaitSlot && w.pc != Finished) else 0
  }

  function Weight(m: Measure, w: Worker): int {
    match m
    case InFlight => One(Flying(w))
    case Busy(r) => One(w.role == r && InSection(w))
    case Of(r) => One(w.role == r)
    case Unlocked(r) => One(w.role == r && !w.locked)
    case Written => One(Unannounced(w))
    case Holding => One(Uncleared(w))
    case Claimed => One(Flying(w)) - One(Unannounced(w)) - One(Uncleared(w))
    case Storing(r) => One(w.role == r && w.pc == StoreIndex)
    case Posts(r) => if w.role == r then w.quota - w.left else 0
    case Waits(r) => WaitsOf(w, r)
    case Quota(r) => if w.role == r then w.quota else 0
    case StepsLeft => StepsOf(w)
    case Stay(r) => if w.role == r && w.pc != GivenUp then w.quota else 0
    case Gone(r) => One(w.role == r && w.pc == GivenUp)
    case Lured(r) => One(w.role == r && Misled(w) && w.on.Some?)
    case Freed(r) => One(w.role == r && Misled(w) && w.on.None?)
    case Fair(r) => if Misled(w) then 0 else WaitsOf(w, r)
    case Wrote(pid) =>
      if w.role == Producer && w.pid == pid then w.quota - w.left + One(Unannounced(w)) else 0
    case RoundsOf(pid) => if w.role == Producer && w.pid == pid then w.quota else 0
  }

  function Total(m: Measure, ws: seq<Worker>): int {
    if ws == [] then 0 else Weight(m, ws[0]) + Total(m, ws[1..])
  }

  lemma {:induction false} TotalUpdate(m: Measure, ws: seq<Worker>, i: nat, w: Worker)
    requires i < |ws|
    ensures Total(m, ws[i := w]) == Total(m, ws) - Weight(m, ws[i]) + Weight(m, w)
  {
    if i == 0 {
      assert ws[i := w][1..] == ws[1..];
    } else {
      assert ws[i := w][1..] == ws[1..][i - 1 := w];
      TotalUpdate(m, ws[1..], i - 1, w);
    }
  }
}
