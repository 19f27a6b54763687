/** What each call about processes and time does, all of it: what its caller
    gets, who runs then and what becomes of every list, pool and process. All
    statements are about the step that traps with the call. */
module SystemCalls {
  import opened Lists
  import opened KernelState
  import opened ProcessInvariants
  import opened KernelInvariants
  import opened ProcessProofs
  import opened FamilyProofs
  import opened KernelSteps
  import opened ProcessTheorems
  import opened DescriptorTheorems
  import opened NoStarvation

  // ----- What calls have in common -----

  /** No process but those in `who` has changed. */
  ghost predicate OnlyChanges(s: State, s': State, who: set<Addr>) {
    |s'.pcbs| == |s.pcbs| && forall a: Addr :: a !in who ==> At(s'.pcbs, a) == At(s.pcbs, a)
  }

  /** The caller runs on with this result and nothing else has changed. */
  ghost predicate Answered(s: State, call: Call, s': State, value: int) {
    && s' == s.(pcbs := s'.pcbs)
    && Me(s') == Me(s).(call := call, retvalue := value) && OnlyChanges(s, s', {s.running})
  }

  /** The caller joins the waiting list and the first ready process runs. */
  ghost predicate GivesWay(s: State, s': State) {
    && s.ready != [] && s'.running == s.ready[0] && s'.ready == s.ready[1..]
    && s'.waiting == s.waiting + [s.running]
  }

  /** A call whose number has no handler. */
  lemma UnknownCall(s: State)
    requires Inv(s)
    ensures Answered(s, NoCall, Step(s, Trap(NoCall)), ENOTIMPLEMENTED)
  {
    Exclusive(s, s.running);
  }

  // ----- Fork and spawn -----

  /** Fork and spawn fail exactly when a pool is used up; the null pointer is
      dereferenced. Otherwise there is one process more, last in the ready queue
      and last among the caller's children, without children or descriptors, and
      the caller runs on with its pid, which is the next never used. */
  lemma ForkOrSpawn(s: State, call: Call)
    requires Inv(s) && (call == Fork || call == Spawn)
    ensures Step(s, Trap(call)).mode ==
              if s.freePcbs == [] || s.freePcbPtrs == 0 then Fault else Active
    ensures Step(s, Trap(call)).mode == Active ==> exists c :: HasBorne(s, call, Step(s, Trap(call)), c)
  {
    Exclusive(s, s.running);
    if s.freePcbs != [] {
      Exclusive(s, s.freePcbs[0]);
      assert s.freePcbs[0] in s.freePcbs;
      assert s.freePcbs == [s.freePcbs[0]] + s.freePcbs[1..];
      OccIn(s.freePcbs[1..], s.freePcbs[0]);
      if s.freePcbPtrs > 0 {
        assert HasBorne(s, call, Step(s, Trap(call)), s.freePcbs[0]);
      }
    }
  }

  /** The block is occupied after the step and was not before. */
  predicate IsNew(s: State, s': State, a: Addr) { Occupied(s', a) && !Occupied(s, a) }

  /** `c` is the one new process. */
  ghost predicate HasBorne(s: State, call: Call, s': State, c: Addr) {
    && IsNew(s, s', c) && (forall a :: IsNew(s, s', a) ==> a == c)
    && s' == s.(pcbs := s'.pcbs, freePcbs := s'.freePcbs, freePcbPtrs := s'.freePcbPtrs,
                lastPid := s.lastPid + 1, ready := s.ready + [c])
    && s.freePcbs == [c] + s'.freePcbs && s.freePcbPtrs == s'.freePcbPtrs + 1
    && Me(s') == Me(s).(call := call, children := Kids(s, s.running) + [c], retvalue := Pid(s', c))
    && At(s'.pcbs, c) == At(s.pcbs, c).(pid := s.lastPid, returnValue := 0, status := Ready,
                                        parent := Some(s.running), children := [], lastSemFd := 0, semDescs := [])
    && OnlyChanges(s, s', {s.running, c})
  }

  /** So the result of fork and of spawn is the pid of the one new process, a pid
      no process has had. */
  lemma SpawnReports(s: State, l: Label)
    requires Inv(s) && (l == Trap(Fork) || l == Trap(Spawn)) && Step(s, l).mode == Active
    ensures var s' := Step(s, l);
            exists c :: IsNew(s, s', c) && (forall a :: IsNew(s, s', a) ==> a == c)
              && s'.running == s.running && Me(s').retvalue == Pid(s', c)
              && s'.ready == s.ready + [c] && Kids(s', s.running) == Kids(s, s.running) + [c]
              && (forall a :: Occupied(s, a) ==> Pid(s, a) != Pid(s', c))
              && (forall k :: 0 <= k < |s.delivered| ==> s.delivered[k].pid != Pid(s', c))
  {
    ForkOrSpawn(s, l.call);
    var c :| HasBorne(s, l.call, Step(s, l), c);
    assert IsNew(s, Step(s, l), c);
    forall k | 0 <= k < |s.delivered| ensures s.delivered[k].pid != s.lastPid {
      assert s.delivered[k].pid in s.exits;
    }
  }

  // ----- Wait -----

  /** A child that a wait for `pid` is after. */
  predicate AskedFor(s: State, pid: int, c: Addr) { if pid == 0 then c in s.zombies else Pid(s, c) == pid }

  /** The child a wait settles on: the first one it is after, and the last of all
      if it is after none. */
  predicate SettlesOn(s: State, pid: int, i: nat) {
    var kids := Kids(s, s.running);
    && i < |kids| && (AskedFor(s, pid, kids[i]) || i == |kids| - 1)
    && forall j :: 0 <= j < i ==> !AskedFor(s, pid, kids[j])
  }

  lemma {:induction false} AwaitedAt(s: State, pid: int, kids: seq<Addr>) returns (i: nat)
    requires kids != [] && forall c :: c in kids ==> (At(s.pcbs, c).status == Zombie <==> c in s.zombies)
    ensures i < |kids| && Awaited(s.pcbs, kids, pid) == kids[i]
    ensures AskedFor(s, pid, kids[i]) || i == |kids| - 1
    ensures forall j :: 0 <= j < i ==> !AskedFor(s, pid, kids[j])
  {
    assert kids[0] in kids;
    if AskedFor(s, pid, kids[0]) || |kids| == 1 {
      i := 0;
    } else {
      var rest := AwaitedAt(s, pid, kids[1..]);
      i := rest + 1;
      assert forall j :: 0 < j < i ==> kids[j] == kids[1..][j - 1];
    }
  }

  /** Wait without children is an error. With children it settles on one: if that
      is a zombie the caller runs on with its pid, has its exit value if it asked
      for it, and the block is free; otherwise the caller blocks, or, with no
      process ready, a null pointer is taken for a process. */
  lemma WaitReports(s: State, pid: int, result: int)
    requires Inv(s)
    ensures var s' := Step(s, Trap(Wait(pid, result)));
            if Kids(s, s.running) == [] then Answered(s, Wait(pid, result), s', EWAIT)
            else
              && (exists i: nat :: SettlesOn(s, pid, i) && HasWaited(s, pid, result, s', Kids(s, s.running)[i]))
              && (s'.mode == Active && s'.running == s.running ==> Me(s').retvalue != EWAIT)
  {
    Exclusive(s, s.running);
    if Kids(s, s.running) != [] {
      var i := SettlesAt(s, pid, result);
      HasWaitedFor(s, pid, result, Kids(s, s.running)[i]);
    }
  }

  lemma SettlesAt(s: State, pid: int, result: int) returns (i: nat)
    requires Inv(s) && Kids(s, s.running) != []
    ensures SettlesOn(s, pid, i)
    ensures Kids(s, s.running)[i] == Awaited(Record(s, Wait(pid, result)).pcbs, Kids(s, s.running), pid)
  {
    var s1 := Record(s, Wait(pid, result));
    forall c | c in Kids(s, s.running) ensures At(s1.pcbs, c).status == Zombie <==> c in s1.zombies {
      ChildZombie(s, c);
    }
    i := AwaitedAt(s1, pid, Kids(s, s.running));
    SettlesRecorded(s, Wait(pid, result), pid, i);
  }

  lemma HasWaitedFor(s: State, pid: int, result: int, kid: Addr)
    requires Inv(s) && kid in Kids(s, s.running)
    requires kid == Awaited(Record(s, Wait(pid, result)).pcbs, Kids(s, s.running), pid)
    ensures HasWaited(s, pid, result, Step(s, Trap(Wait(pid, result))), kid)
  {
    Exclusive(s, s.running);
    ChildZombie(s, kid);
    if kid in s.zombies {
      ReapsChild(s, pid, result, kid);
    }
  }

  lemma ChildZombie(s: State, c: Addr)
    requires Inv(s) && c in Kids(s, s.running)
    ensures At(s.pcbs, c).status == Zombie <==> c in s.zombies
  {
    assert Occupied(s, c);
    WaitingIffListed(s, c);
  }

  lemma SettlesRecorded(s: State, call: Call, pid: int, i: nat)
    requires SettlesOn(Record(s, call), pid, i) && Kids(Record(s, call), s.running) == Kids(s, s.running)
    ensures SettlesOn(s, pid, i)
  {
  }

  lemma ReapsChild(s: State, pid: int, result: int, kid: Addr)
    requires Inv(s) && kid in Kids(s, s.running) && kid in s.zombies
    ensures kid != s.running && HasReaped(s, Wait(pid, result), Reap(Record(s, Wait(pid, result)), kid, result), kid)
  {
    Exclusive(s, s.running);
    Exclusive(s, kid);
  }

  /** The two outcomes of a wait that settles on `kid`. */
  ghost predicate HasWaited(s: State, pid: int, result: int, s': State, kid: Addr) {
    var call := Wait(pid, result);
    if kid in s.zombies then HasReaped(s, call, s', kid)
    else
      && s' == s.(mode := s'.mode, pcbs := s'.pcbs, running := s'.running, ready := s'.ready, waiting := s'.waiting)
      && At(s'.pcbs, s.running) == Me(s).(call := call, status := Waiting) && OnlyChanges(s, s', {s.running})
      && s'.mode == (if s.ready == [] then Fault else Active)
      && (s'.mode == Active ==> GivesWay(s, s'))
  }

  /** The zombie is gone and the caller has its pid and, if asked for, its value. */
  ghost predicate HasReaped(s: State, call: Call, s': State, kid: Addr)
    requires call.Wait?
  {
    && s' == s.(pcbs := s'.pcbs, zombies := Detach(s.zombies, kid), freePcbs := [kid] + s.freePcbs,
                freePcbPtrs := s.freePcbPtrs + 1, delivered := s'.delivered)
    && Pid(s, kid) in s.exits
    && s'.delivered == s.delivered
         + [Delivery(s.running, Pid(s, kid), if call.result != 0 then Some(s.exits[Pid(s, kid)]) else None)]
    && Me(s') == Me(s).(call := call, children := Detach(Kids(s, s.running), kid), retvalue := Pid(s, kid))
    && OnlyChanges(s, s', {s.running})
  }

  /** Asking for a process that is no child is not an error: the wait settles on
      the last child, whichever that is. */
  lemma NoSuchChild(s: State, pid: int, result: int)
    requires Inv(s) && pid != 0 && Kids(s, s.running) != []
    requires forall k :: k in Kids(s, s.running) ==> Pid(s, k) != pid
    ensures var kids := Kids(s, s.running);
            HasWaited(s, pid, result, Step(s, Trap(Wait(pid, result))), kids[|kids| - 1])
  {
    WaitReports(s, pid, result);
    var i: nat :| SettlesOn(s, pid, i)
      && HasWaited(s, pid, result, Step(s, Trap(Wait(pid, result))), Kids(s, s.running)[i]);
    SettlesOnLast(s, pid, i);
  }

  lemma SettlesOnLast(s: State, pid: int, i: nat)
    requires SettlesOn(s, pid, i) && pid != 0 && forall k :: k in Kids(s, s.running) ==> Pid(s, k) != pid
    ensures i == |Kids(s, s.running)| - 1
  {
    assert Kids(s, s.running)[i] in Kids(s, s.running);
  }

  /** With children but no zombie among them, a wait for any child blocks. */
  lemma WaitBlocks(s: State, result: int)
    requires Inv(s) && Kids(s, s.running) != [] && (forall c :: c in Kids(s, s.running) ==> c !in s.zombies)
    ensures var s' := Step(s, Trap(Wait(0, result)));
            if s.ready == [] then s'.mode == Fault
            else GivesWay(s, s') && s'.delivered == s.delivered && At(s'.pcbs, s.running).status == Waiting
  {
    WaitReports(s, 0, result);
  }

  // ----- Exit -----

  /** Block `p` is the parent by name and waits for this process or for any. */
  predicate AwaitedBy(s: State, p: Addr) {
    && ParentOf(s, s.running) == Some(p) && p in s.waiting && CallOf(s, p).Wait?
    && (CallOf(s, p).pid == 0 || CallOf(s, p).pid == Pid(s, s.running))
  }

  /** The children of `a` once the running process is dead: init adopts them. */
  function KidsAfter(s: State, a: Addr): seq<Addr> {
    if a == s.running then []
    else if a == s.init then Kids(s, a) + Kids(s, s.running)
    else Kids(s, a)
  }

  /** The dead process's block. */
  predicate Deceased(s: State, value: int, s': State) {
    At(s'.pcbs, s.running) == Me(s).(call := Exit(value), returnValue := value, children := [], status := Zombie)
  }

  /** The process is a zombie and the first ready process runs. */
  ghost predicate HasDied(s: State, value: int, s': State) {
    && s.ready != []
    && s' == s.(pcbs := s'.pcbs, running := s.ready[0], ready := s.ready[1..], zombies := s.zombies + [s.running],
                exits := s.exits[Pid(s, s.running) := value])
    && |s'.pcbs| == |s.pcbs| && Deceased(s, value, s')
    && forall a: Addr :: a != s.running ==>
         At(s'.pcbs, a) == At(s.pcbs, a).(children := KidsAfter(s, a),
                                          status := if a == s.ready[0] then Running else At(s.pcbs, a).status)
  }

  /** The parent `p` runs, with the child's pid and, if it asked for it, its exit
      value; the child's block is free. */
  ghost predicate HasReported(s: State, value: int, s': State, p: Addr)
    requires CallOf(s, p).Wait?
  {
    && s' == s.(pcbs := s'.pcbs, running := p, waiting := Detach(s.waiting, p), freePcbs := [s.running] + s.freePcbs,
                exits := s.exits[Pid(s, s.running) := value], delivered := s'.delivered)
    && s'.delivered == s.delivered
         + [Delivery(p, Pid(s, s.running), if CallOf(s, p).result != 0 then Some(value) else None)]
    && |s'.pcbs| == |s.pcbs| && Deceased(s, value, s')
    && At(s'.pcbs, p) == At(s.pcbs, p).(children := Detach(KidsAfter(s, p), s.running), status := Running,
                                        retvalue := Pid(s, s.running))
    && forall a: Addr :: a != s.running && a != p ==> At(s'.pcbs, a) == At(s.pcbs, a).(children := KidsAfter(s, a))
  }

  /** Exit dereferences a null pointer exactly when init exits, when the parent
      by name waits for the process but does not hold it, or when nobody waits
      for it and no process is ready. Otherwise the value is on record; it is
      handed to the waiting parent, or kept by the zombie. */
  lemma ExitReports(s: State, value: int)
    requires Inv(s)
    ensures var s' := Step(s, Trap(Exit(value)));
            && (s'.mode == Active || s'.mode == Fault)
            && (s'.mode == Fault <==>
                  || s.running == s.init
                  || (exists p :: AwaitedBy(s, p) && s.running !in Kids(s, p))
                  || (s.ready == [] && forall p :: !AwaitedBy(s, p)))
            && (s'.mode == Active ==>
                  Pid(s, s.running) in s'.exits && s'.exits[Pid(s, s.running)] == value
                  && if exists p :: AwaitedBy(s, p) then exists p :: AwaitedBy(s, p) && HasReported(s, value, s', p)
                     else HasDied(s, value, s'))
  {
    var s1 := Record(s, Exit(value));
    RecordKeeps(s, Exit(value));
    Exclusive(s, s.running);
    assert Occupied(s, s.running);
    if s.running != s.init {
      var p := Me(s).parent.value;
      AnswersParent(s, value, p);
      ExitBranches(s, value, p);
    }
  }

  /** The test that exit makes of the parent block. */
  lemma AnswersParent(s: State, value: int, p: Addr)
    requires Inv(s) && s.running != s.init && Me(s).parent == Some(p)
    ensures Answers(At(Die(Record(s, Exit(value)), value).pcbs, p), Pid(s, s.running)) <==> AwaitedBy(s, p)
  {
    var s1 := Record(s, Exit(value));
    RecordKeeps(s, Exit(value));
    RunningCanDie(s1);
    DieStatus(s1, value, p);
    DieRelations(s1, value, p);
    WaitingIffListed(s, p);
    Exclusive(s, s.running);
  }

  lemma ExitBranches(s: State, value: int, p: Addr)
    requires Inv(s) && s.running != s.init && Me(s).parent == Some(p)
    ensures var s' := Step(s, Trap(Exit(value)));
            if AwaitedBy(s, p) then
              if s.running in Kids(s, p) then HasReported(s, value, s', p) else s'.mode == Fault
            else if s.ready == [] then s'.mode == Fault
            else HasDied(s, value, s')
  {
    AnswersParent(s, value, p);
    Exclusive(s, s.running);
    ExitIs(s, value, p);
    if AwaitedBy(s, p) {
      ExitReported(s, value, p);
    } else if s.ready != [] {
      ExitDied(s, value);
    }
  }

  lemma ExitIs(s: State, value: int, p: Addr)
    requires s.mode == Active && s.running < |s.pcbs| && Me(s).parent == Some(p)
    ensures var dead := Die(Record(s, Exit(value)), value);
            Step(s, Trap(Exit(value))) == if Answers(At(dead.pcbs, p), Pid(s, s.running)) then HandOver(dead, p)
                                          else StartFirst(dead)
  {
  }

  lemma ExitDied(s: State, value: int)
    requires Inv(s) && s.running != s.init && s.ready != []
    ensures HasDied(s, value, StartFirst(Die(Record(s, Exit(value)), value)))
  {
    Exclusive(s, s.running);
    Exclusive(s, s.ready[0]);
  }

  lemma ExitReported(s: State, value: int, p: Addr)
    requires Inv(s) && s.running != s.init && AwaitedBy(s, p)
    ensures var s' := HandOver(Die(Record(s, Exit(value)), value), p);
            if s.running in Kids(s, p) then HasReported(s, value, s', p) else s'.mode == Fault
  {
    ExitFinds(s, value, p);
    Exclusive(s, s.running);
    Exclusive(s, p);
    if s.running in Kids(s, p) {
      DetachLast(s.zombies, s.running);
      NoTimers(s);
      ReportsTo(s, value, p);
    }
  }

  /** The parent finds the dying process among its children if it is there. */
  lemma ExitFinds(s: State, value: int, p: Addr)
    requires Inv(s) && s.running != s.init && ParentOf(s, s.running) == Some(p) && p in s.waiting
    ensures var dead := Die(Record(s, Exit(value)), value);
            && Me(dead).pid == Pid(s, s.running)
            && ByPid(dead.pcbs, Kids(dead, p), Pid(s, s.running))
               == if s.running in Kids(s, p) then Some(s.running) else None
  {
    var s1 := Record(s, Exit(value));
    RecordKeeps(s, Exit(value));
    RunningCanDie(s1);
    Exclusive(s, s.running);
    HandOverFinds(s1, value, p);
    DieRelations(s1, value, s.running);
    DieList(s1, value, p, s.running);
    assert s.running in Kids(s, s.running) ==> ParentOf(s, s.running) == Some(s.running);
  }

  lemma ReportsTo(s: State, value: int, p: Addr)
    requires s.running < |s.pcbs| && s.init < |s.pcbs| && s.init != s.running && p < |s.pcbs| && p != s.running
    requires CallOf(s, p).Wait? && DropTimers(s.timers, s.running) == s.timers
    requires Detach(s.zombies + [s.running], s.running) == s.zombies
    requires var dead := Die(Record(s, Exit(value)), value);
             ByPid(dead.pcbs, Kids(dead, p), Me(dead).pid) == Some(s.running)
    ensures HasReported(s, value, HandOver(Die(Record(s, Exit(value)), value), p), p)
  {
  }

  lemma NoTimers(s: State)
    requires Inv(s)
    ensures DropTimers(s.timers, s.running) == s.timers
  {
    Exclusive(s, s.running);
    assert Occ(TimerPcbs(s.timers), s.running) == One(Asleep(s, s.running));
    OccIn(TimerPcbs(s.timers), s.running);
    NothingDropped(s.timers, s.running);
  }

  /** The same in the terms of the family: exit does not come back exactly if init
      exits, if the process is misdirected, or if nobody waits for it and no
      process is ready. The source loops for ever first if init has children. */
  lemma ExitFaultsExactly(s: State, value: int)
    requires Inv(s)
    ensures Step(s, Trap(Exit(value))).mode == Fault <==>
              || s.running == s.init
              || Misdirected(s)
              || (!AwaitedByParent(s) && s.ready == [])
  {
    RecordKeeps(s, Exit(value));
    Exclusive(s, s.running);
    ExitFaults(Record(s, Exit(value)), value);
    SameExit(s, Exit(value));
  }

  /** Recording the call does not change what exit will find. */
  lemma SameExit(s: State, call: Call)
    requires Inv(s)
    ensures Misdirected(Record(s, call)) <==> Misdirected(s)
    ensures AwaitedByParent(Record(s, call)) <==> AwaitedByParent(s)
  {
    Exclusive(s, s.running);
  }

  /** An adopted process is not announced: if init is waiting for it and no other
      process is taken for its waiting parent, init stays blocked although it now
      has a zombie child to reap. */
  lemma OrphanUnannounced(s: State, value: int)
    requires Inv(s) && s.init in s.waiting && WaitsFor(s, s.init, s.running)
    requires s.running in Kids(s, s.init) && ParentOf(s, s.running) != Some(s.init)
    requires s.ready != [] && forall p :: !AwaitedBy(s, p)
    ensures var s' := Step(s, Trap(Exit(value)));
            && s'.mode == Active && s.init in s'.waiting && s.running in s'.zombies
            && s.running in Kids(s', s.init) && WaitsFor(s', s.init, s.running)
  {
    ExitReports(s, value);
    Exclusive(s, s.init);
  }

  /** A death wakes the process that waits for it exactly if that is the one the
      dead process's parent field names. It is for every child but those that
      init adopted. */
  lemma DeathWakesExactly(s: State, value: int, h: Addr)
    requires Inv(s) && Step(s, Trap(Exit(value))).mode == Active
    requires h in s.waiting && s.running in Kids(s, h) && WaitsFor(s, h, s.running)
    ensures h !in Step(s, Trap(Exit(value))).waiting <==> ParentOf(s, s.running) == Some(h)
    ensures h in Step(s, Trap(Exit(value))).waiting ==> h == s.init
  {
    ExitReports(s, value);
    if p :| AwaitedBy(s, p) {
      OnlyHolder(s, h, p, s.running);
      Exclusive(s, p);
      OccDetach(s.waiting, p, p);
      OccIn(Detach(s.waiting, p), p);
    }
  }

  // ----- Sleep -----

  /** The timer stands behind all that are not later and before all that are. */
  ghost predicate TimerAdded(ts: seq<Timer>, ts': seq<Timer>, t: Timer) {
    exists k :: 0 <= k <= |ts| && ts' == ts[..k] + [t] + ts[k..]
      && (forall i :: 0 <= i < k ==> ts[i].time <= t.time) && (forall i :: k <= i < |ts| ==> t.time < ts[i].time)
  }

  /** Sleep is refused only for want of a timer block. Otherwise the caller has a
      timer for so many ticks from now and gives way; if nobody is ready, all are
      asleep. */
  lemma SleepReports(s: State, cycles: int)
    requires Inv(s)
    ensures var s' := Step(s, Trap(Sleep(cycles)));
            if s.freeTimers == 0 then Answered(s, Sleep(cycles), s', ESLEEP)
            else
              && s' == s.(mode := s'.mode, pcbs := s'.pcbs, running := s'.running, ready := s'.ready,
                          waiting := s'.waiting, timers := s'.timers, freeTimers := s.freeTimers - 1)
              && TimerAdded(s.timers, s'.timers, Timer(s.time + cycles, s.running))
              && At(s'.pcbs, s.running) == Me(s).(call := Sleep(cycles), status := Waiting)
              && OnlyChanges(s, s', {s.running})
              && s'.mode == (if s.ready == [] then AllAsleep else Active)
              && (s'.mode == Active ==> GivesWay(s, s'))
  {
    Exclusive(s, s.running);
    var k := InsertTimerSplits(s.timers, Timer(s.time + cycles, s.running));
  }

  // ----- Scheduling -----

  /** What a scheduling leaves of the process in block `a`. */
  function StatusAfter(s: State, s': State, woken: seq<Addr>, a: Addr): Status {
    if woken + s.ready != [] && a == s'.running then Running
    else if a in woken || (woken + s.ready != [] && a == s.running) then Ready
    else At(s.pcbs, a).status
  }

  /** The first `k` timers have elapsed: their processes, in that order, go in
      front of the ready ones; the first of all these runs and the process that
      was running goes last. */
  ghost predicate Scheduled(s: State, s': State, k: nat)
    requires k <= |s.timers|
  {
    var woken := TimerPcbs(s.timers[..k]);
    && (forall i :: 0 <= i < |s.timers| ==> (s.timers[i].time <= s.time <==> i < k))
    && s' == s.(pcbs := s'.pcbs, running := s'.running, ready := s'.ready, waiting := s'.waiting,
                timers := s.timers[k..], freeTimers := s.freeTimers + k)
    && [s'.running] + s'.ready == (if woken + s.ready == [] then [s.running] else woken + s.ready + [s.running])
    && multiset(s'.waiting) == multiset(s.waiting) - multiset(woken)
    && |s'.pcbs| == |s.pcbs|
    && forall a: Addr :: At(s'.pcbs, a) == At(s.pcbs, a).(status := StatusAfter(s, s', woken, a))
  }

  lemma {:induction false} LoopChanges(s: State, prev: Option<Addr>)
    ensures var s' := WakeLoop(s, prev);
            && s' == s.(pcbs := s'.pcbs, ready := s'.ready, waiting := s'.waiting, timers := s'.timers,
                        freeTimers := s.freeTimers + Elapsed(s.timers, s.time))
            && |s'.pcbs| == |s.pcbs|
    decreases |s.timers|
  {
    if s.timers != [] && s.timers[0].time <= s.time {
      LoopChanges(WakeFirst(s, prev), Some(s.timers[0].pcb));
    }
  }

  lemma {:induction false} LoopWaiting(s: State, prev: Option<Addr>)
    ensures multiset(WakeLoop(s, prev).waiting) == multiset(s.waiting) - multiset(Woken(s.timers, s.time))
    decreases |s.timers|
  {
    if s.timers != [] && s.timers[0].time <= s.time {
      var x := s.timers[0].pcb;
      LoopWaiting(WakeFirst(s, prev), Some(x));
      DetachElements(s.waiting, x);
      assert multiset([x] + Woken(s.timers[1..], s.time)) == multiset{x} + multiset(Woken(s.timers[1..], s.time));
    }
  }

  lemma {:induction false} LoopPcb(s: State, prev: Option<Addr>, a: Addr)
    requires a < |s.pcbs|
    ensures |WakeLoop(s, prev).pcbs| == |s.pcbs|
    ensures At(WakeLoop(s, prev).pcbs, a)
            == At(s.pcbs, a).(status := if a in Woken(s.timers, s.time) then Ready else At(s.pcbs, a).status)
    decreases |s.timers|
  {
    if s.timers != [] && s.timers[0].time <= s.time {
      LoopPcb(WakeFirst(s, prev), Some(s.timers[0].pcb), a);
    }
  }

  lemma ReadyAfterLoop(s: State)
    requires Inv(s)
    ensures WakeLoop(s, None).ready == Woken(s.timers, s.time) + s.ready
  {
    assert s.ready == [] + s.ready;
    WakeLoopFrom(s, [], s.ready);
    assert [] + Woken(s.timers, s.time) == Woken(s.timers, s.time);
  }

  lemma RotatePcb(s: State, a: Addr)
    requires a < |s.pcbs|
    ensures var s' := Rotate(s);
            At(s'.pcbs, a) == At(s.pcbs, a).(status := if s.ready != [] && a == s'.running then Running
                                                       else if s.ready != [] && a == s.running then Ready
                                                       else At(s.pcbs, a).status)
  {
  }

  lemma SchedulePcb(s: State, a: Addr)
    requires Inv(s)
    ensures var s' := Schedule(s);
            At(s'.pcbs, a) == At(s.pcbs, a).(status := StatusAfter(s, s', Woken(s.timers, s.time), a))
  {
    ReadyAfterLoop(s);
    LoopChanges(s, None);
    if a < |s.pcbs| {
      LoopPcb(s, None, a);
      RotatePcb(WakeLoop(s, None), a);
    } else {
      NotWoken(s, a);
      RunsInPool(s);
    }
  }

  lemma RunsInPool(s: State)
    requires Inv(s)
    ensures s.running < |s.pcbs| && Schedule(s).running < |s.pcbs| && |Schedule(s).pcbs| == |s.pcbs|
  {
    Exclusive(s, s.running);
    ScheduleKeeps(s);
    LoopChanges(s, None);
    Exclusive(Schedule(s), Schedule(s).running);
  }

  lemma NotWoken(s: State, a: Addr)
    requires Inv(s) && a >= |s.pcbs|
    ensures a !in Woken(s.timers, s.time)
  {
    WokenHaveTimers(s.timers, s.time, a);
    OccIn(TimerPcbs(s.timers), a);
    assert Occ(TimerPcbs(s.timers), a) == One(Asleep(s, a));
    Exclusive(s, a);
  }

  lemma ScheduleChanges(s: State)
    ensures var s' := Schedule(s);
            && s' == s.(pcbs := s'.pcbs, running := s'.running, ready := s'.ready, waiting := s'.waiting,
                        timers := s'.timers, freeTimers := s.freeTimers + Elapsed(s.timers, s.time))
            && |s'.pcbs| == |s.pcbs|
            && multiset(s'.waiting) == multiset(s.waiting) - multiset(Woken(s.timers, s.time))
  {
    LoopChanges(s, None);
    LoopWaiting(s, None);
  }

  /** Where the scheduling of a tick, or of a preempt, begins. */
  function Begun(s: State, l: Label): State {
    if l == Tick then s.(time := s.time + 1)
    else s.(pcbs := Put(s.pcbs, s.running, Me(s).(call := Preempt)))
  }

  /** A tick and a preempt. */
  lemma Reschedule(s: State, l: Label)
    requires Inv(s) && (l == Tick || l == Trap(Preempt))
    ensures exists k: nat :: k <= |s.timers| && Scheduled(Begun(s, l), Step(s, l), k)
  {
    if l == Tick {
      TimeAside(s);
    } else {
      RecordKeeps(s, Preempt);
    }
    var k := SchedulingIs(Begun(s, l));
    assert Step(s, l) == Schedule(Begun(s, l));
    assert k <= |s.timers| && Scheduled(Begun(s, l), Step(s, l), k);
  }

  lemma SchedulingIs(s: State) returns (k: nat)
    requires Inv(s)
    ensures k <= |s.timers| && Scheduled(s, Schedule(s), k)
  {
    k := Elapsed(s.timers, s.time);
    ScheduleExact(s);
    ScheduleChanges(s);
    WokenAre(s.timers, s.time);
    forall a: Addr
      ensures At(Schedule(s).pcbs, a)
              == At(s.pcbs, a).(status := StatusAfter(s, Schedule(s), Woken(s.timers, s.time), a))
    {
      SchedulePcb(s, a);
    }
  }
}
