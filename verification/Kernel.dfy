/** The kernel itself: its global variables, updated in place by the interrupt
    handler and the system-call handlers. Every handler is proved to do to the
    kernel's variables exactly what the state machine of KernelState says, on
    every state the system can reach; in particular every block it touches
    exists and every node it detaches is on the list it is detached from. */
module Kernel {
  import opened Lists
  import opened KernelState
  import opened ProcessInvariants
  import opened KernelInvariants
  import opened ProcessProofs
  import opened FamilyProofs
  import opened SemaphoreProofs
  import opened KernelSteps
  import opened ParentField

  class Kernel {
    var mode: Mode
    var time: int
    var lastPid: int
    var init: Addr
    var running: Addr
    var ready: seq<Addr>
    var waiting: seq<Addr>
    var zombies: seq<Addr>
    var timers: seq<Timer>
    var freeTimers: nat
    const pcbs: array<Pcb>
    var freePcbs: seq<Addr>
    var freePcbPtrs: nat
    var semaphores: seq<Addr>
    const sems: array<Semaphore>
    var freeSems: seq<Addr>
    const descs: array<Desc>
    var freeDescs: seq<Addr>
    var freePtrs: nat
    ghost var exits: map<int, int>
    ghost var delivered: seq<Delivery>

    ghost function Table(): SemTable
      reads this, sems, descs
    {
      SemTable(semaphores, sems[..], freeSems, descs[..], freeDescs, freePtrs)
    }

    ghost function Abs(): State
      reads this, pcbs, sems, descs
    {
      State(mode, time, lastPid, init, running, ready, waiting, zombies, timers, freeTimers,
            pcbs[..], freePcbs, freePcbPtrs, Table(), exits, delivered)
    }

    /** disastrOS_start with pools of the given sizes. */
    constructor (procs: nat, numSems: nat, numDescs: nat, ptrs: nat)
      requires procs > 0
      ensures Abs() == Boot(procs, numSems, numDescs, ptrs) && ParentsInPool(Abs())
    {
      mode, time, lastPid, init, running := Active, 0, 1, 0, 0;
      ready, waiting, zombies, timers, freeTimers := [], [], [], [], procs;
      pcbs := new Pcb[procs](i => if i == 0 then ZEROED.(status := Running) else ZEROED);
      freePcbs, freePcbPtrs := seq(procs - 1, i => i + 1), procs;
      semaphores, freeSems := [], seq(numSems, i => i);
      sems := new Semaphore[numSems](i => Semaphore(0, 0, [], []));
      descs := new Desc[numDescs](i => Desc(0, 0, 0));
      freeDescs, freePtrs := seq(numDescs, i => i), ptrs;
      exits, delivered := map[], [];
      new;
      assert pcbs[..] == Boot(procs, numSems, numDescs, ptrs).pcbs;
      assert sems[..] == Boot(procs, numSems, numDescs, ptrs).table.sems;
      assert descs[..] == Boot(procs, numSems, numDescs, ptrs).table.descs;
    }

    // ----- Blocks updated in place -----

    method Store(a: Addr, p: Pcb)
      requires a < pcbs.Length
      modifies pcbs
      ensures Abs() == old(Abs()).(pcbs := Put(old(Abs()).pcbs, a, p))
    {
      pcbs[a] := p;
    }

    method Return(value: int)
      requires running < pcbs.Length
      modifies pcbs
      ensures Abs() == KernelState.Return(old(Abs()), value)
    {
      Store(running, pcbs[running].(retvalue := value));
    }

    // ----- Scheduling -----

    /** The wake-up loop of internal_schedule; each round takes one timer. */
    method WakeTimers()
      requires Inv(Abs())
      modifies this, pcbs
      ensures Abs() == WakeLoop(old(Abs()), None) && Inv(Abs())
    {
      var previous: Option<Addr> := None;
      while timers != [] && time >= timers[0].time
        invariant Inv(Abs())
        invariant WakeLoop(Abs(), previous) == WakeLoop(old(Abs()), None)
        decreases |timers|
      {
        var awake := timers[0].pcb;
        WakeFirstKeeps(Abs(), previous);
        TimerInWaiting(Abs());
        WakeOne(previous);
        previous := Some(awake);
      }
    }

    /** The process leaves the waiting list, on which it is, and is ready. */
    method Wake(a: Addr)
      requires a in waiting && a < pcbs.Length
      modifies `waiting, pcbs
      ensures Abs() == KernelState.Wake(old(Abs()), a)
    {
      waiting := Detach(waiting, a);
      pcbs[a] := pcbs[a].(status := Ready);
    }

    method WakeOne(previous: Option<Addr>)
      requires timers != [] && timers[0].pcb in waiting && timers[0].pcb < pcbs.Length
      modifies this, pcbs
      ensures Abs() == WakeFirst(old(Abs()), previous)
    {
      var awake := timers[0].pcb;
      Wake(awake);
      ready := InsertAfter(ready, previous, awake);
      timers, freeTimers := timers[1..], freeTimers + 1;
    }

    /** The running process goes last and the first ready one runs. */
    method RotateReady()
      requires running < pcbs.Length && (forall a :: a in ready ==> a < pcbs.Length)
      modifies this, pcbs
      ensures Abs() == Rotate(old(Abs()))
    {
      if ready != [] {
        assert ready[0] in ready;
        var next := ready[0];
        ready := ready[1..];
        pcbs[running] := pcbs[running].(status := Ready);
        ready := ready + [running];
        pcbs[next] := pcbs[next].(status := Running);
        running := next;
      }
    }

    method Schedule()
      requires Inv(Abs())
      modifies this, pcbs
      ensures Abs() == KernelState.Schedule(old(Abs())) && Inv(Abs())
    {
      WakeTimers();
      RotateKeeps(Abs());
      Exclusives(Abs());
      RotateReady();
    }

    method Suspend()
      requires running < pcbs.Length
      modifies `waiting, pcbs
      ensures Abs() == KernelState.Suspend(old(Abs()))
    {
      pcbs[running] := pcbs[running].(status := Waiting);
      waiting := waiting + [running];
    }

    method RunFirst()
      requires ready != []
      modifies `running, `ready
      ensures Abs() == KernelState.RunFirst(old(Abs()))
    {
      running, ready := ready[0], ready[1..];
    }

    // ----- Sleep -----

    /** The scan of TimerList_add: it stops at the first later timer. */
    method ScanTimers(timer: Timer) returns (k: nat)
      ensures k <= |timers| && InsertTimer(timers, timer) == timers[..k] + [timer] + timers[k..]
    {
      var list := timers;
      k := 0;
      while k < |list| && timer.time >= list[k].time
        invariant k <= |list|
        invariant InsertTimer(list, timer) == list[..k] + InsertTimer(list[k..], timer)
      {
        InsertTimerPast(list, k, timer);
        k := k + 1;
      }
      InsertTimerHere(list, k, timer);
    }

    /** TimerList_add. */
    method AddTimer(wake: int, a: Addr) returns (ok: bool)
      modifies `timers, `freeTimers
      ensures ok == (old(freeTimers) > 0)
      ensures Abs() == if ok
              then old(Abs()).(timers := InsertTimer(old(timers), Timer(wake, a)), freeTimers := old(freeTimers) - 1)
                       else old(Abs())
    {
      var timer := Timer(wake, a);
      var k := ScanTimers(timer);
      if freeTimers == 0 {
        return false;
      }
      timers, freeTimers := timers[..k] + [timer] + timers[k..], freeTimers - 1;
      return true;
    }

    method Sleep(cycles: int)
      requires running < pcbs.Length
      modifies this, pcbs
      ensures Abs() == DoSleep(old(Abs()), cycles)
    {
      var ok := AddTimer(time + cycles, running);
      if !ok {
        Return(ESLEEP);
        return;
      }
      Suspend();
      if ready != [] {
        RunFirst();
      } else {
        mode := AllAsleep;
      }
    }

    // ----- Spawn -----

    /** PCB_alloc: the block's recorded call is left as it was found. */
    method AllocPcb() returns (a: Addr)
      requires freePcbs != [] && freePcbs[0] < pcbs.Length
      modifies `freePcbs, `lastPid, pcbs
      ensures a == old(freePcbs[0])
      ensures Abs() == old(Abs()).(freePcbs := old(freePcbs[1..]), lastPid := old(lastPid) + 1,
                         pcbs := Put(old(Abs()).pcbs, a, At(old(Abs()).pcbs, a).(pid := old(lastPid), returnValue := 0,
                           status := Invalid, parent := None, children := [], lastSemFd := 0, semDescs := [])))
    {
      a, freePcbs := freePcbs[0], freePcbs[1..];
      pcbs[a] := pcbs[a].(pid := lastPid, returnValue := 0, status := Invalid, parent := None,
                          children := [], lastSemFd := 0, semDescs := []);
      lastPid := lastPid + 1;
    }

    method Spawn()
      requires running < pcbs.Length && (freePcbs != [] ==> freePcbs[0] < pcbs.Length && freePcbs[0] != running)
      modifies this, pcbs
      ensures Abs() == DoSpawn(old(Abs()))
    {
      if freePcbs == [] || freePcbPtrs == 0 {
        mode := Fault;
        return;
      }
      var a := AllocPcb();
      EnterChild(a);
    }

    /** The new process joins the caller's children and the ready queue. */
    method EnterChild(a: Addr)
      requires running < pcbs.Length && a < pcbs.Length && a != running && freePcbPtrs > 0
      modifies `freePcbPtrs, `ready, pcbs
      ensures Abs() == old(Abs()).(freePcbPtrs := old(freePcbPtrs) - 1, ready := old(ready) + [a],
                pcbs := Put(Put(old(Abs()).pcbs, a, old(pcbs[a]).(status := Ready, parent := Some(running))),
                            running, old(pcbs[running]).(children := old(pcbs[running].children) + [a],
                                                         retvalue := old(pcbs[a].pid))))
    {
      pcbs[a] := pcbs[a].(status := Ready, parent := Some(running));
      freePcbPtrs := freePcbPtrs - 1;
      pcbs[running] := pcbs[running].(children := pcbs[running].children + [a]);
      ready := ready + [a];
      pcbs[running] := pcbs[running].(retvalue := pcbs[a].pid);
    }

    // ----- Wait -----

    /** The scan of internal_wait over the caller's children. */
    method ScanChildren(kids: seq<Addr>, pid: int) returns (kid: Addr)
      requires kids != [] && (forall k :: k in kids ==> k < pcbs.Length)
      ensures kid == Awaited(pcbs[..], kids, pid)
    {
      var i := 0;
      kid := kids[0];
      while i < |kids|
        invariant i <= |kids|
        invariant i < |kids| ==> Awaited(pcbs[..], kids, pid) == Awaited(pcbs[..], kids[i..], pid)
        invariant i == |kids| ==> kid == Awaited(pcbs[..], kids, pid)
      {
        kid := kids[i];
        assert kid in kids && kids[i..][0] == kid && kids[i..][1..] == kids[i + 1..];
        if pid == 0 && pcbs[kid].status == Zombie {
          break;
        }
        if pid != 0 && pcbs[kid].pid == pid {
          break;
        }
        i := i + 1;
      }
    }

    /** The zombie `kid` leaves the caller's children, the zombie list and its block. */
    method Reap(kid: Addr, result: int)
      requires running < pcbs.Length && kid < pcbs.Length && kid != running
      requires kid in pcbs[running].children && kid in zombies
      modifies this, pcbs
      ensures Abs() == KernelState.Reap(old(Abs()), kid, result)
    {
      pcbs[running] := pcbs[running].(children := Detach(pcbs[running].children, kid));
      freePcbPtrs := freePcbPtrs + 1;
      zombies := Detach(zombies, kid);
      pcbs[running] := pcbs[running].(retvalue := pcbs[kid].pid);
      delivered := delivered + [Delivery(running, pcbs[kid].pid, Reported(result, pcbs[kid].returnValue))];
      freePcbs := [kid] + freePcbs;
    }

    method Wait(pid: int, result: int)
      requires Inv(Abs())
      modifies this, pcbs
      ensures Abs() == DoWait(old(Abs()), pid, result)
    {
      ghost var s := Abs();
      ChildrenInPool(s);
      assert Kids(s, s.running) == pcbs[running].children;
      if pcbs[running].children == [] {
        Return(EWAIT);
        return;
      }
      var kid := ScanChildren(pcbs[running].children, pid);
      AwaitedChild(s.pcbs, Kids(s, s.running), pid);
      if pcbs[kid].status == Zombie {
        ZombieChild(s, kid);
        Reap(kid, result);
        return;
      }
      Suspend();
      if ready == [] {
        mode := Fault;
        return;
      }
      RunFirst();
    }

    // ----- Exit -----

    /** The re-parenting loop of internal_exit. */
    method AdoptChildren()
      requires running < pcbs.Length && init < pcbs.Length && running != init
      modifies pcbs
      ensures var kids := old(pcbs[init].children + pcbs[running].children);
              pcbs[..] == old(pcbs[..])[running := old(pcbs[running]).(children := [])]
                                       [init := old(pcbs[init]).(children := kids)]
    {
      while pcbs[running].children != []
        invariant pcbs[running] == old(pcbs[running]).(children := pcbs[running].children)
        invariant pcbs[init] == old(pcbs[init]).(children := pcbs[init].children)
        invariant pcbs[init].children + pcbs[running].children == old(pcbs[init].children + pcbs[running].children)
        invariant forall i :: 0 <= i < pcbs.Length && i != running && i != init ==> pcbs[i] == old(pcbs[i])
        decreases |pcbs[running].children|
      {
        var child := pcbs[running].children[0];
        assert [child] + pcbs[running].children[1..] == pcbs[running].children;
        pcbs[running] := pcbs[running].(children := pcbs[running].children[1..]);
        pcbs[init] := pcbs[init].(children := pcbs[init].children + [child]);
      }
      assert pcbs[init].children == pcbs[init].children + [];
      assert pcbs[..] == old(pcbs[..])[running := pcbs[running]][init := pcbs[init]];
    }

    method Die(value: int)
      requires running < pcbs.Length && init < pcbs.Length && running != init
      modifies this, pcbs
      ensures Abs() == KernelState.Die(old(Abs()), value)
    {
      pcbs[running] := pcbs[running].(returnValue := value);
      AdoptChildren();
      pcbs[running] := pcbs[running].(status := Zombie);
      zombies := zombies + [running];
      exits := exits[pcbs[running].pid := value];
      assert pcbs[..] == KernelState.Die(old(Abs()), value).pcbs;
    }

    /** PCBPtr_byPID. */
    method ByPid(kids: seq<Addr>, pid: int) returns (found: Option<Addr>)
      requires forall k :: k in kids ==> k < pcbs.Length
      ensures found == KernelState.ByPid(pcbs[..], kids, pid)
      ensures found.Some? ==> found.value in kids
    {
      var i := 0;
      while i < |kids|
        invariant i <= |kids|
        invariant KernelState.ByPid(pcbs[..], kids, pid) == KernelState.ByPid(pcbs[..], kids[i..], pid)
      {
        assert kids[i] in kids && kids[i..][0] == kids[i] && kids[i..][1..] == kids[i + 1..];
        if pcbs[kids[i]].pid == pid {
          return Some(kids[i]);
        }
        i := i + 1;
      }
      return None;
    }

    /** The loop of internal_exit that takes out all timers of a process. */
    method ReleaseTimers(a: Addr)
      modifies `timers, `freeTimers
      ensures timers == DropTimers(old(timers), a)
      ensures |timers| <= old(|timers|) && freeTimers == old(freeTimers) + old(|timers|) - |timers|
    {
      var k := 0;
      while k < |timers|
        invariant k <= |timers| <= old(|timers|)
        invariant freeTimers == old(freeTimers) + old(|timers|) - |timers|
        invariant DropTimers(old(timers), a) == timers[..k] + DropTimers(timers[k..], a)
        decreases |timers| - k
      {
        var rest := timers[k + 1..];
        assert timers[k..][0] == timers[k] && timers[k..][1..] == rest;
        if timers[k].pcb == a {
          assert (timers[..k] + rest)[..k] == timers[..k] && (timers[..k] + rest)[k..] == rest;
          timers, freeTimers := timers[..k] + rest, freeTimers + 1;
        } else {
          assert timers[..k] + [timers[k]] == timers[..k + 1];
          k := k + 1;
        }
      }
    }

    /** The branch of internal_exit for a parent that waits. */
    method HandOver(p: Addr)
      requires running < pcbs.Length && p < pcbs.Length && p != running && p in waiting && running in zombies
      requires forall k :: k in pcbs[p].children ==> k < pcbs.Length
      modifies this, pcbs
      ensures Abs() == KernelState.HandOver(old(Abs()), p)
    {
      var pid := pcbs[running].pid;
      waiting := Detach(waiting, p);
      pcbs[p] := pcbs[p].(status := Running);
      var self := ByPid(pcbs[p].children, pid);
      assert self == KernelState.ByPid(old(pcbs[..]), old(pcbs[p].children), pid) by {
        SamePids(old(pcbs[..]), pcbs[..], pcbs[p].children, pid);
      }
      if self.None? {
        mode := Fault;
        return;
      }
      Report(p, self.value);
      Bury(p);
    }

    /** The parent gets the child's pid and value and loses the child. */
    method Report(p: Addr, self: Addr)
      requires running < pcbs.Length && p < pcbs.Length && p != running && self in pcbs[p].children
      modifies `delivered, pcbs
      ensures Abs() == ReportedTo(old(Abs()), p, self)
    {
      pcbs[p] := pcbs[p].(children := Detach(pcbs[p].children, self));
      pcbs[p] := pcbs[p].(retvalue := pcbs[running].pid);
      delivered := delivered + [Delivery(p, pcbs[running].pid,
                     Reported(if pcbs[p].call.Wait? then pcbs[p].call.result else 0, pcbs[running].returnValue))];
    }

    /** The zombie that is running finally dies and its parent runs. */
    method Bury(p: Addr)
      requires running in zombies
      modifies `timers, `freeTimers, `zombies, `freePcbs, `running
      ensures Abs() == Buried(old(Abs()), p)
    {
      ReleaseTimers(running);
      zombies := Detach(zombies, running);
      freePcbs := [running] + freePcbs;
      running := p;
    }

    method Exit(value: int)
      requires Inv(Abs()) && ParentsInPool(Abs())
      modifies this, pcbs
      ensures Abs() == DoExit(old(Abs()), value)
    {
      ghost var s := Abs();
      Exclusive(s, running);
      if pcbs[running].parent.None? {
        mode := Fault;
        return;
      }
      var p := pcbs[running].parent.value;
      RunningCanDie(s);
      assert ParentOf(s, running) == Some(p);
      Die(value);
      ghost var dead := Abs();
      if pcbs[p].status == Waiting && pcbs[p].call.Wait?
         && (pcbs[p].call.pid == 0 || pcbs[p].call.pid == pcbs[running].pid) {
        ParentCanTakeOver(s, value, p);
        assert Kids(dead, p) == pcbs[p].children;
        HandOver(p);
      } else if ready == [] {
        mode := Fault;
      } else {
        FirstReadyInPool(s);
        pcbs[ready[0]] := pcbs[ready[0]].(status := Running);
        RunFirst();
      }
    }

    // ----- Semaphores -----

    /** SemDescriptorList_byFd on the caller's descriptors. */
    method DescByFd(fd: int) returns (found: Option<Addr>)
      requires running < pcbs.Length && (forall d :: d in pcbs[running].semDescs ==> d < descs.Length)
      ensures found == ByFd(Table(), pcbs[running].semDescs, fd)
    {
      var ds, i := pcbs[running].semDescs, 0;
      while i < |ds|
        invariant i <= |ds|
        invariant ByFd(Table(), ds, fd) == ByFd(Table(), ds[i..], fd)
      {
        assert ds[i] in ds && ds[i..][0] == ds[i] && ds[i..][1..] == ds[i + 1..];
        if descs[ds[i]].fd == fd {
          return Some(ds[i]);
        }
        i := i + 1;
      }
      return None;
    }

    /** MySearch on the caller's descriptors. */
    method MySearch(key: int) returns (found: Option<Addr>)
      requires running < pcbs.Length
      requires forall d :: d in pcbs[running].semDescs ==> d < descs.Length && descs[d].sem < sems.Length
      ensures found == BySemnum(Table(), pcbs[running].semDescs, key)
    {
      var ds, i := pcbs[running].semDescs, 0;
      while i < |ds|
        invariant i <= |ds|
        invariant BySemnum(Table(), ds, key) == BySemnum(Table(), ds[i..], key)
      {
        assert ds[i] in ds && ds[i..][0] == ds[i] && ds[i..][1..] == ds[i + 1..];
        if key == sems[descs[ds[i]].sem].id {
          return Some(ds[i]);
        }
        i := i + 1;
      }
      return None;
    }

    /** SemaphoreList_byId on the system's semaphores. */
    method SemaphoreById(id: int) returns (found: Option<Addr>)
      requires forall m :: m in semaphores ==> m < sems.Length
      ensures found == ById(Table(), semaphores, id)
    {
      var i := 0;
      while i < |semaphores|
        invariant i <= |semaphores|
        invariant ById(Table(), semaphores, id) == ById(Table(), semaphores[i..], id)
      {
        assert semaphores[i] in semaphores;
        assert semaphores[i..][0] == semaphores[i] && semaphores[i..][1..] == semaphores[i + 1..];
        if sems[semaphores[i]].id == id {
          return Some(semaphores[i]);
        }
        i := i + 1;
      }
      return None;
    }

    /** Semaphore_alloc and the entry in the system's list. */
    method AllocSemaphore(id: int, count: int) returns (m: Addr)
      requires freeSems != [] && freeSems[0] < sems.Length
      modifies `freeSems, `semaphores, sems
      ensures m == old(freeSems[0]) && Abs() == old(Abs()).(table := AllocSem(old(Table()), id, count))
    {
      m, freeSems := freeSems[0], freeSems[1..];
      sems[m] := sems[m].(id := id, count := count, descriptors := []);
      semaphores := semaphores + [m];
    }

    /** The second half of internal_semOpen: a descriptor of `m` for the caller. */
    method OpenDescriptor(m: Addr)
      requires running < pcbs.Length && m < sems.Length && (freeDescs != [] ==> freeDescs[0] < descs.Length)
      modifies this, pcbs, sems, descs
      ensures Abs() == OpenDesc(old(Abs()), m)
    {
      if freeDescs == [] {
        Return(ECREATEFD);
        return;
      }
      var d := freeDescs[0];
      var fd := pcbs[running].lastSemFd;
      TakeDescriptor(m);
      if freePtrs < 2 {
        freePtrs := 0;
        Return(ECREATEPTR);
        return;
      }
      freePtrs := freePtrs - 2;
      EnterDescriptor(d, m, fd);
    }

    /** SemDescriptor_alloc, and the number it is given is used up. */
    method TakeDescriptor(m: Addr)
      requires running < pcbs.Length && freeDescs != [] && freeDescs[0] < descs.Length
      modifies `freeDescs, pcbs, descs
      ensures Abs() == old(Abs()).(
                table := AllocDesc(old(Table()), Desc(running, m, old(pcbs[running].lastSemFd))),
                pcbs := Put(old(Abs()).pcbs, running,
                            old(pcbs[running]).(lastSemFd := old(pcbs[running].lastSemFd) + 1)))
    {
      var d := freeDescs[0];
      freeDescs := freeDescs[1..];
      descs[d] := Desc(running, m, pcbs[running].lastSemFd);
      pcbs[running] := pcbs[running].(lastSemFd := pcbs[running].lastSemFd + 1);
    }

    /** The descriptor is entered in the caller's list and in the semaphore's. */
    method EnterDescriptor(d: Addr, m: Addr, fd: int)
      requires running < pcbs.Length && m < sems.Length
      modifies pcbs, sems
      ensures Abs() == old(Abs()).(
                table := PutSem(old(Table()), m, old(sems[m]).(descriptors := old(sems[m].descriptors) + [d])),
                pcbs := Put(old(Abs()).pcbs, running,
                            old(pcbs[running]).(semDescs := old(pcbs[running].semDescs) + [d], retvalue := fd)))
    {
      pcbs[running] := pcbs[running].(semDescs := pcbs[running].semDescs + [d]);
      sems[m] := sems[m].(descriptors := sems[m].descriptors + [d]);
      pcbs[running] := pcbs[running].(retvalue := fd);
    }

    method SemOpen(semnum: int, value: int)
      requires Inv(Abs())
      modifies this, pcbs, sems, descs
      ensures Abs() == DoSemOpen(old(Abs()), semnum, value)
    {
      ghost var s := Abs();
      TableInPool(s);
      assert Held(s, running) == pcbs[running].semDescs;
      var mine := MySearch(semnum);
      if mine.Some? {
        BySemnumFinds(s.table, Held(s, running), semnum);
        Return(descs[mine.value].fd);
        return;
      }
      var found := SemaphoreById(semnum);
      if found.Some? {
        ByIdFinds(s.table, semaphores, semnum);
        OpenDescriptor(found.value);
      } else if freeSems == [] {
        Return(ECREATESEM);
      } else {
        var m := AllocSemaphore(semnum, value);
        OpenDescriptor(m);
      }
    }

    /** The caller's descriptor `d` is taken off its lists and freed with its
        two pointers; so is the semaphore if that was its last one. */
    method CloseDescriptor(d: Addr)
      requires d < descs.Length && descs[d].sem < sems.Length && descs[d].sem in semaphores
      requires d in sems[descs[d].sem].descriptors
      modifies this, sems
      ensures Abs() == old(Abs()).(table := CloseDesc(old(Table()), d, descs[d].sem))
    {
      var m := descs[d].sem;
      ghost var left := Detach(sems[m].descriptors, d);
      freeDescs := [d] + freeDescs;
      sems[m] := sems[m].(descriptors := Detach(sems[m].descriptors, d));
      freePtrs := freePtrs + 2;
      assert Table() == PutSem(old(Table()), m, old(sems[m]).(descriptors := left))
                        .(freeDescs := freeDescs, freePtrs := freePtrs);
      if sems[m].descriptors == [] {
        FreeSemaphore(m);
      }
    }

    method FreeSemaphore(m: Addr)
      requires m in semaphores
      modifies `semaphores, `freeSems
      ensures Table() == old(Table()).(list := Detach(old(semaphores), m), freeSems := [m] + old(freeSems))
    {
      semaphores := Detach(semaphores, m);
      freeSems := [m] + freeSems;
    }

    method SemClose(fd: int)
      requires Inv(Abs())
      modifies this, pcbs, sems
      ensures Abs() == DoSemClose(old(Abs()), fd)
    {
      ghost var s := Abs();
      TableInPool(s);
      assert Held(s, running) == pcbs[running].semDescs;
      var found := DescByFd(fd);
      if found.None? {
        Return(ENOTMYSEM);
        return;
      }
      var d := found.value;
      ghost var named := NamedDescriptor(s, fd);
      pcbs[running] := pcbs[running].(semDescs := Detach(pcbs[running].semDescs, d));
      CloseDescriptor(d);
      Return(0);
    }

    method SemWait(fd: int)
      requires Inv(Abs())
      modifies this, pcbs, sems
      ensures Abs() == DoSemWait(old(Abs()), fd)
    {
      ghost var s := Abs();
      TableInPool(s);
      assert Held(s, running) == pcbs[running].semDescs;
      var found := DescByFd(fd);
      if found.None? {
        Return(ENOTMYSEM);
        return;
      }
      ghost var named := NamedDescriptor(s, fd);
      ReadyInPool(s);
      TakeToken(found.value, descs[found.value].sem);
    }

    /** internal_semWait past the lookup. */
    method TakeToken(d: Addr, m: Addr)
      requires running < pcbs.Length && m < sems.Length && (ready != [] ==> ready[0] < pcbs.Length)
      modifies this, pcbs, sems
      ensures Abs() == WaitOn(old(Abs()), d, m)
    {
      if sems[m].count <= 0 {
        sems[m] := sems[m].(waiting := sems[m].waiting + [d]);
        Suspend();
        if ready != [] {
          RunFirst();
        } else {
          mode := Deadlock;
          return;
        }
      }
      sems[m] := sems[m].(count := sems[m].count - 1);
      Return(0);
    }

    method SemPost(fd: int)
      requires Inv(Abs())
      modifies this, pcbs, sems
      ensures Abs() == DoSemPost(old(Abs()), fd)
    {
      ghost var s := Abs();
      TableInPool(s);
      assert Held(s, running) == pcbs[running].semDescs;
      var found := DescByFd(fd);
      if found.None? {
        Return(ENOTMYSEM);
        return;
      }
      ghost var named := NamedDescriptor(s, fd);
      if sems[descs[found.value].sem].waiting != [] {
        HeadInPool(s, descs[found.value].sem);
      }
      GiveToken(descs[found.value].sem);
    }

    /** internal_semPost past the lookup. */
    method GiveToken(m: Addr)
      requires running < pcbs.Length && m < sems.Length
      requires sems[m].waiting != [] ==>
                 sems[m].waiting[0] < descs.Length && descs[sems[m].waiting[0]].pcb in waiting
                   && descs[sems[m].waiting[0]].pcb < pcbs.Length
      modifies this, pcbs, sems
      ensures Abs() == PostOn(old(Abs()), m)
    {
      if sems[m].count < 0 && sems[m].waiting != [] {
        var head := sems[m].waiting[0];
        sems[m] := sems[m].(waiting := sems[m].waiting[1..]);
        Wake(descs[head].pcb);
        ready := ready + [descs[head].pcb];
      }
      sems[m] := sems[m].(count := sems[m].count + 1);
      Return(0);
    }

    // ----- Interrupts and traps -----

    /** timerInterrupt. */
    method Tick()
      requires Inv(Abs())
      modifies this, pcbs
      ensures Abs() == Step(old(Abs()), Label.Tick) && Inv(Abs())
      ensures old(ParentsInPool(Abs())) ==> ParentsInPool(Abs())
    {
      TickParents(Abs());
      TimeAside(Abs());
      time := time + 1;
      Schedule();
    }

    /** disastrOS_syscall records the call, disastrOS_trap dispatches it. */
    method Trap(call: Call)
      requires Inv(Abs()) && ParentsInPool(Abs())
      modifies this, pcbs, sems, descs
      ensures Abs() == Step(old(Abs()), Label.Trap(call)) && ParentsInPool(Abs())
      ensures mode == Active ==> Inv(Abs())
    {
      ghost var s := Abs();
      StepParents(s, Label.Trap(call));
      StepKeeps(s, Label.Trap(call));
      RecordKeeps(s, call);
      RecordParents(s, call);
      Exclusive(s, running);
      pcbs[running] := pcbs[running].(call := call);
      assert Abs() == Record(s, call);
      Serve(call);
    }

    method Serve(call: Call)
      requires Inv(Abs()) && ParentsInPool(Abs())
      modifies this, pcbs, sems, descs
      ensures Abs() == Dispatch(old(Abs()), call)
    {
      ChildrenInPool(Abs());
      FreePcbInPool(Abs());
      match call {
        case NoCall => Return(ENOTIMPLEMENTED);
        case Preempt => Schedule();
        case Fork => Spawn();
        case Spawn => Spawn();
        case Wait(pid, result) => Wait(pid, result);
        case Exit(value) => Exit(value);
        case Sleep(cycles) => Sleep(cycles);
        case SemOpen(semnum, value) => SemOpen(semnum, value);
        case SemClose(fd) => SemClose(fd);
        case SemWait(fd) => SemWait(fd);
        case SemPost(fd) => SemPost(fd);
      }
    }
  }

  // ----- What the invariants give the handlers -----

  /** Everything the handlers of the semaphore calls look at is in its pool. */
  lemma TableInPool(s: State)
    requires Inv(s)
    ensures s.running < |s.pcbs|
    ensures forall d :: d in Held(s, s.running) ==> d < |s.table.descs| && DescAt(s.table, d).sem < |s.table.sems|
    ensures forall m :: m in s.table.list ==> m < |s.table.sems|
    ensures s.table.freeSems != [] ==> s.table.freeSems[0] < |s.table.sems|
    ensures s.table.freeDescs != [] ==> s.table.freeDescs[0] < |s.table.descs|
  {
    Exclusive(s, s.running);
    forall m | m in s.table.list ensures m < |s.table.sems| {
      Listed(s.table, m);
    }
    forall d | d in Held(s, s.running) ensures d < |s.table.descs| && DescAt(s.table, d).sem < |s.table.sems| {
      assert IsLive(s, s.running) && OwnedOk(s, s.running, d);
    }
    if s.table.freeSems != [] {
      FreshSem(s.table);
    }
    if s.table.freeDescs != [] {
      FreshDesc(s.table);
    }
  }

  lemma ReadyInPool(s: State)
    requires Inv(s)
    ensures s.ready != [] ==> s.ready[0] < |s.pcbs|
  {
    if s.ready != [] {
      FirstReadyInPool(s);
    }
  }

  /** The process a post releases is on the waiting list. */
  lemma HeadInPool(s: State, m: Addr)
    requires Inv(s) && m in s.table.list && SemAt(s.table, m).waiting != []
    ensures var h := SemAt(s.table, m).waiting[0];
            h < |s.table.descs| && DescAt(s.table, h).pcb in s.waiting && DescAt(s.table, h).pcb < |s.pcbs|
  {
    var h := SemAt(s.table, m).waiting[0];
    HeadWaits(s, m);
    assert h in SemAt(s.table, m).waiting;
    assert h in SemAt(s.table, m).descriptors;
    Exclusive(s, DescAt(s.table, h).pcb);
  }

  lemma TickParents(s: State)
    requires Inv(s)
    ensures ParentsInPool(s) ==> ParentsInPool(Step(s, Label.Tick))
  {
    if ParentsInPool(s) {
      StepParents(s, Label.Tick);
    }
  }

  lemma FreePcbInPool(s: State)
    requires Inv(s)
    ensures s.freePcbs != [] ==> s.freePcbs[0] < |s.pcbs| && s.freePcbs[0] != s.running
  {
    if s.freePcbs != [] {
      Exclusive(s, s.freePcbs[0]);
    }
  }

  lemma RecordParents(s: State, call: Call)
    requires Inv(s) && ParentsInPool(s)
    ensures ParentsInPool(Record(s, call))
  {
    QuietParents(s, Record(s, call));
  }

  /** The scan may go past a timer that is not later, ... */
  lemma InsertTimerPast(ts: seq<Timer>, k: nat, t: Timer)
    requires k < |ts| && t.time >= ts[k].time
    ensures ts[..k] + InsertTimer(ts[k..], t) == ts[..k + 1] + InsertTimer(ts[k + 1..], t)
  {
    assert ts[k..][1..] == ts[k + 1..];
    assert ts[..k] + [ts[k]] == ts[..k + 1];
  }

  /** ... and stops at one that is. */
  lemma InsertTimerHere(ts: seq<Timer>, k: nat, t: Timer)
    requires k <= |ts| && (k < |ts| ==> t.time < ts[k].time)
    ensures ts[..k] + InsertTimer(ts[k..], t) == ts[..k] + [t] + ts[k..]
  {
    assert ts[..k] + ([t] + ts[k..]) == ts[..k] + [t] + ts[k..];
  }

  function ReportedTo(s: State, p: Addr, self: Addr): State {
    var parent := At(s.pcbs, p);
    s.(pcbs := Put(s.pcbs, p, parent.(children := Detach(parent.children, self), retvalue := Me(s).pid)),
       delivered := s.delivered + [Delivery(p, Me(s).pid,
                      Reported(if parent.call.Wait? then parent.call.result else 0, Me(s).returnValue))])
  }

  function Buried(s: State, p: Addr): State {
    var timers := DropTimers(s.timers, s.running);
    s.(timers := timers, freeTimers := s.freeTimers + (if |timers| <= |s.timers| then |s.timers| - |timers| else 0),
       zombies := Detach(s.zombies, s.running), freePcbs := [s.running] + s.freePcbs, running := p)
  }

  lemma {:induction false} SamePids(pcbs: seq<Pcb>, pcbs': seq<Pcb>, kids: seq<Addr>, pid: int)
    requires forall k :: k in kids ==> At(pcbs', k).pid == At(pcbs, k).pid
    ensures ByPid(pcbs', kids, pid) == ByPid(pcbs, kids, pid)
  {
    if kids != [] {
      assert kids[0] in kids;
      SamePids(pcbs, pcbs', kids[1..], pid);
    }
  }

  /** A parent that waits for the dying process is on the waiting list. */
  lemma ParentCanTakeOver(s: State, value: int, p: Addr)
    requires Inv(s) && CanDie(s) && Answers(At(Die(s, value).pcbs, p), Pid(Die(s, value), s.running))
    ensures var dead := Die(s, value);
            p in dead.waiting && s.running in dead.zombies && p != s.running && p < |s.pcbs|
            && forall k :: k in Kids(dead, p) ==> k < |s.pcbs|
  {
    DieRelations(s, value, s.running);
    AnsweredParent(s, value, p);
    DieKids(s, value);
  }

  lemma FirstReadyInPool(s: State)
    requires Inv(s) && s.ready != []
    ensures s.ready[0] < |s.pcbs|
  {
    Exclusive(s, s.ready[0]);
  }

  lemma ChildrenInPool(s: State)
    requires Inv(s)
    ensures s.running < |s.pcbs| && forall k :: k in Kids(s, s.running) ==> k < |s.pcbs|
  {
    Exclusive(s, s.running);
  }

  lemma ZombieChild(s: State, kid: Addr)
    requires Inv(s) && kid in Kids(s, s.running) && At(s.pcbs, kid).status == Zombie
    ensures kid in s.zombies && kid != s.running && kid < |s.pcbs|
  {
    assert Occupied(s, kid);
    WaitingIffListed(s, kid);
    Exclusive(s, kid);
  }

  lemma TimerInWaiting(s: State)
    requires Partition(s) && TimersOk(s) && s.timers != []
    ensures s.timers[0].pcb in s.waiting && s.timers[0].pcb < |s.pcbs|
  {
    FirstTimerAsleep(s);
    Exclusive(s, s.timers[0].pcb);
  }
}
