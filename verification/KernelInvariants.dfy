/** What holds in every reachable state of the kernel that has not halted. */
module KernelInvariants {
  import opened Lists
  import opened KernelState
  import opened ProcessInvariants

  /** Neither a zombie nor a free block. */
  predicate IsLive(s: State, a: Addr) { a == s.running || a in s.ready || a in s.waiting }

  /** Holds a process: not a free block. */
  predicate Occupied(s: State, a: Addr) { a < |s.pcbs| && a !in s.freePcbs }

  function Kids(s: State, h: Addr): seq<Addr> { At(s.pcbs, h).children }
  function ParentOf(s: State, c: Addr): Option<Addr> { At(s.pcbs, c).parent }
  function Pid(s: State, a: Addr): int { At(s.pcbs, a).pid }
  function CallOf(s: State, a: Addr): Call { At(s.pcbs, a).call }
  function Held(s: State, a: Addr): seq<Addr> { At(s.pcbs, a).semDescs }

  // ----- Timers -----

  function TimerPcbs(ts: seq<Timer>): seq<Addr> {
    if ts == [] then [] else [ts[0].pcb] + TimerPcbs(ts[1..])
  }

  ghost predicate Sorted(ts: seq<Timer>) {
    forall i, j :: 0 <= i < j < |ts| ==> ts[i].time <= ts[j].time
  }

  predicate Asleep(s: State, a: Addr) { a in s.waiting && CallOf(s, a).Sleep? }

  /** A sleeping process has exactly one timer, and nobody else has any. */
  ghost predicate TimersOk(s: State) {
    && Sorted(s.timers)
    && forall a: Addr :: Occ(TimerPcbs(s.timers), a) == One(Asleep(s, a))
  }

  // ----- Semaphore queues -----

  /** The process owning descriptor `d` is blocked in semWait on it. */
  predicate Queued(s: State, d: Addr) {
    var a := DescAt(s.table, d).pcb;
    a in s.waiting && d in Held(s, a) && CallOf(s, a) == SemWait(DescAt(s.table, d).fd)
  }

  predicate InSemWait(s: State, a: Addr) { a in s.waiting && CallOf(s, a).SemWait? }

  /** Whatever is queued on a semaphore is a descriptor of it whose owner is blocked on it. */
  ghost predicate QueueSound(s: State) {
    forall m, d {:trigger d in SemAt(s.table, m).waiting} :: m in s.table.list && d in SemAt(s.table, m).waiting ==>
      DescAt(s.table, d).sem == m && Queued(s, d)
  }

  /** Whoever is blocked on a descriptor is queued with it ... */
  ghost predicate QueueComplete(s: State) {
    forall a, d {:trigger d in Held(s, a)} ::
      a in s.waiting && d in Held(s, a) && CallOf(s, a) == SemWait(DescAt(s.table, d).fd) ==>
        d in SemAt(s.table, DescAt(s.table, d).sem).waiting
  }

  /** ... and whoever is blocked in semWait is blocked on some descriptor. */
  ghost predicate QueueFound(s: State) {
    forall a {:trigger InSemWait(s, a)} :: InSemWait(s, a) ==> ByFd(s.table, Held(s, a), CallOf(s, a).fd).Some?
  }

  ghost predicate QueueOnce(t: SemTable) {
    forall m, d: Addr :: m in t.list ==> Occ(SemAt(t, m).waiting, d) <= 1
  }

  /** The waiting lists of the semaphores hold exactly, and once each, the
      descriptors on which some process is blocked. */
  ghost predicate QueuesOk(s: State) {
    QueueSound(s) && QueueComplete(s) && QueueFound(s) && QueueOnce(s.table)
  }

  /** A process waits only inside a call that blocks. */
  ghost predicate ReasonOk(s: State) {
    forall a {:trigger a in s.waiting} :: a in s.waiting ==>
      CallOf(s, a).Sleep? || CallOf(s, a).SemWait? || CallOf(s, a).Wait?
  }

  // ----- Semaphores and descriptors -----

  predicate OwnedOk(s: State, a: Addr, d: Addr) {
    var e := DescAt(s.table, d);
    && d < |s.table.descs| && d !in s.table.freeDescs
    && e.pcb == a && 0 <= e.fd < At(s.pcbs, a).lastSemFd
    && e.sem in s.table.list && d in SemAt(s.table, e.sem).descriptors
  }

  /** What a live process lists as its descriptors are its descriptors, each
      with its own number and its own semaphore. */
  ghost predicate HeldOk(s: State) {
    && (forall a, d {:trigger d in Held(s, a)} :: IsLive(s, a) && d in Held(s, a) ==>
          OwnedOk(s, a, d) && Occ(Held(s, a), d) == 1)
    && (forall a, d, e {:trigger d in Held(s, a), e in Held(s, a)} ::
          IsLive(s, a) && d in Held(s, a) && e in Held(s, a) && d != e ==>
            DescAt(s.table, d).fd != DescAt(s.table, e).fd && DescAt(s.table, d).sem != DescAt(s.table, e).sem)
  }

  /** Every semaphore block is either listed or free, ids are not shared, and a
      free block has nobody waiting. */
  ghost predicate BlocksOk(t: SemTable) {
    && (forall m: Addr :: Occ(t.list, m) + Occ(t.freeSems, m) == One(m < |t.sems|))
    && (forall m, n {:trigger m in t.list, n in t.list} :: m in t.list && n in t.list && m != n ==>
        SemAt(t, m).id != SemAt(t, n).id)
    && (forall m {:trigger m in t.freeSems} :: m in t.freeSems ==> SemAt(t, m).waiting == [])
  }

  /** Semaphores list descriptors of their own, once each, and only those wait. */
  ghost predicate ListedOk(t: SemTable) {
    && (forall d: Addr :: Occ(t.freeDescs, d) <= One(d < |t.descs|))
    && (forall m, d {:trigger d in SemAt(t, m).descriptors} :: m in t.list && d in SemAt(t, m).descriptors ==>
          d < |t.descs| && d !in t.freeDescs && DescAt(t, d).sem == m && Occ(SemAt(t, m).descriptors, d) == 1)
    && (forall m, d {:trigger d in SemAt(t, m).waiting} :: m in t.list && d in SemAt(t, m).waiting ==>
        d in SemAt(t, m).descriptors)
  }

  ghost predicate TableOk(t: SemTable) {
    BlocksOk(t) && ListedOk(t)
  }

  /** Every descriptor a semaphore lists belongs to a live process that lists it. */
  ghost predicate Agreement(s: State) {
    forall m, d {:trigger d in SemAt(s.table, m).descriptors} ::
      m in s.table.list && d in SemAt(s.table, m).descriptors ==>
        IsLive(s, DescAt(s.table, d).pcb) && d in Held(s, DescAt(s.table, d).pcb)
  }

  /** The queue of every semaphore makes up the deficit of its counter. */
  ghost predicate CountsOk(t: SemTable) {
    forall m {:trigger m in t.list} :: m in t.list ==>
      |SemAt(t, m).waiting| == if SemAt(t, m).count < 0 then -SemAt(t, m).count else 0
  }

  // ----- Parents, children, exit values -----

  ghost predicate InitOk(s: State) {
    s.init < |s.pcbs| && s.init !in s.zombies && s.init !in s.freePcbs && ParentOf(s, s.init) == None
  }

  /** Who is in whose list of children: once, and in its parent's or init's. */
  ghost predicate KidsOk(s: State) {
    forall h, c {:trigger c in Kids(s, h)} :: c in Kids(s, h) ==>
      Occupied(s, c) && c != s.init && Occ(Kids(s, h), c) == 1 && (h == s.init || ParentOf(s, c) == Some(h))
  }

  /** Only live processes have children. */
  ghost predicate HoldersOk(s: State) {
    forall h {:trigger Kids(s, h)} :: Kids(s, h) != [] ==> Occupied(s, h) && h !in s.zombies
  }

  /** Every process but init is some list's child ... */
  ghost predicate SomeHolder(s: State) {
    forall c {:trigger Occupied(s, c)} :: Occupied(s, c) && c != s.init ==>
      ParentOf(s, c).Some? && (c in Kids(s, s.init) || c in Kids(s, ParentOf(s, c).value))
  }

  /** ... and not both its parent's and init's. */
  ghost predicate OneHolder(s: State) {
    forall c {:trigger c in Kids(s, s.init)} ::
      c in Kids(s, s.init) && ParentOf(s, c).Some? && c in Kids(s, ParentOf(s, c).value) ==>
        ParentOf(s, c) == Some(s.init)
  }

  /** Every process but init is in exactly one children list: its parent's, or
      init's once that parent is gone. */
  ghost predicate FamilyOk(s: State) {
    InitOk(s) && KidsOk(s) && HoldersOk(s) && SomeHolder(s) && OneHolder(s)
  }

  /** Process ids are never reused, a zombie still holds the value it exited
      with, and a delivered exit value is that of a process now gone. */
  ghost predicate PidsOk(s: State) {
    && Pid(s, s.init) == 0
    && (forall a {:trigger Occupied(s, a)} :: Occupied(s, a) ==> 0 <= Pid(s, a) < s.lastPid)
    && (forall a, b {:trigger Occupied(s, a), Occupied(s, b)} :: Occupied(s, a) && Occupied(s, b) && a != b ==>
        Pid(s, a) != Pid(s, b))
    && (forall a {:trigger a in s.zombies} :: a in s.zombies ==>
        Pid(s, a) in s.exits && s.exits[Pid(s, a)] == At(s.pcbs, a).returnValue)
    && (forall a {:trigger Occupied(s, a)} :: Occupied(s, a) && a !in s.zombies ==> Pid(s, a) !in s.exits)
    && (forall p :: p in s.exits ==> p < s.lastPid)
  }

  ghost predicate DeliveriesOk(s: State) {
    && (forall k :: 0 <= k < |s.delivered| ==>
          var d := s.delivered[k];
          d.pid in s.exits && (d.value.Some? ==> d.value.value == s.exits[d.pid]))
    && (forall k, a {:trigger s.delivered[k], Occupied(s, a)} :: 0 <= k < |s.delivered| && Occupied(s, a) ==>
        s.delivered[k].pid != Pid(s, a))
    && (forall j, k :: 0 <= j < k < |s.delivered| ==> s.delivered[j].pid != s.delivered[k].pid)
  }

  /** The wait that process `h` is blocked in would take child `c`. */
  predicate WaitsFor(s: State, h: Addr, c: Addr) {
    CallOf(s, h).Wait? && (CallOf(s, h).pid == 0 || CallOf(s, h).pid == Pid(s, c))
  }

  /** No wake-up is lost: nobody is blocked in a wait that one of the zombies
      among its own children answers. */
  ghost predicate NoLostWakeup(s: State) {
    forall h, c {:trigger h in s.waiting, c in Kids(s, h)} ::
      h in s.waiting && c in Kids(s, h) && ParentOf(s, c) == Some(h) && c in s.zombies ==> !WaitsFor(s, h, c)
  }

  // ----- Everything -----

  ghost predicate ProcessesOk(s: State) {
    Partition(s) && StatusOk(s) && ReasonOk(s) && TimersOk(s)
  }

  ghost predicate SemaphoresOk(s: State) {
    TableOk(s.table) && HeldOk(s) && QueuesOk(s)
  }

  ghost predicate GenealogyOk(s: State) {
    FamilyOk(s) && PidsOk(s) && DeliveriesOk(s) && NoLostWakeup(s)
  }

  ghost predicate Inv(s: State) {
    s.mode == Active && ProcessesOk(s) && SemaphoresOk(s) && GenealogyOk(s)
  }
}
